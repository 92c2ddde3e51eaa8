/** Calls between user applications, and the sessions that they open, forward, use and close. */
module Sessions {
  import opened Common
  import Ledger

  type AppId = nat

  datatype SessionId = SessionId(application: AppId, index: nat)

  datatype Session = Session(owner: AppId, data: nat)

  /** A frame of the stack of applications. */
  datatype Status = Status(id: AppId, signer: Option<Owner>)

  datatype ExecutionError =
    | UnknownApplication
    | InvalidSession
    | SessionIsInUse
    | InvalidSessionOwner
    | UserError
    | PriceOverflow
    | BalanceUnderflow
    | SessionWasNotClosed

  /** One execution of user code: the calls it makes, in order, and how it ends. */
  datatype Code = Code(calls: Calls, end: End)
  datatype Calls = Done | Then(first: Call, rest: Calls)
  datatype End = Fails | Returns(creates: seq<nat>)
  datatype Call =
    | CallApplication(authenticated: bool, callee: AppId, forwarded: seq<SessionId>, code: Code)
    | CallSession(authenticated: bool, session: SessionId, forwarded: seq<SessionId>, code: Code, closes: bool,
                  data: nat)

  /** The runtime of a transaction: the frames, and the sessions with the locks on them. */
  datatype Machine = Machine(
    stack: seq<Status>,
    counters: map<AppId, nat>,
    states: map<SessionId, Session>,
    active: set<SessionId>,
    results: seq<Status>)

  /** What is left after an execution, which may have failed at any depth, and its outcome. */
  type Ran<+T> = (Machine, Result<T, ExecutionError>)

  function Callee(call: Call): AppId {
    if call.CallApplication? then call.callee else call.session.application
  }

  function Counter(counters: map<AppId, nat>, app: AppId): nat {
    if app in counters then counters[app] else 0
  }

  function Top(m: Machine): Status
    requires m.stack != []
  {
    m.stack[|m.stack| - 1]
  }

  // ----- Operations on sessions -----

  /** Gives sessions away one by one; stops at the first that cannot be given away. */
  function Forward(m: Machine, ids: seq<SessionId>, from: AppId, to: AppId): Ran<()>
    decreases |ids|
  {
    if ids == [] then (m, Ok(()))
    else if ids[0] !in m.states then (m, Err(InvalidSession))
    else if ids[0] in m.active then (m, Err(SessionIsInUse))
    else if m.states[ids[0]].owner != from then (m, Err(InvalidSessionOwner))
    else Forward(m.(states := m.states[ids[0] := m.states[ids[0]].(owner := to)]), ids[1..], from, to)
  }

  /** Opens a session under the next identifier of its creator. */
  function Open(m: Machine, data: nat, creator: AppId, receiver: AppId): Machine {
    var index := Counter(m.counters, creator);
    m.(counters := m.counters[creator := index + 1],
       states := m.states[SessionId(creator, index) := Session(receiver, data)])
  }

  function OpenAll(m: Machine, data: seq<nat>, creator: AppId, receiver: AppId): Machine {
    if data == [] then m
    else Open(OpenAll(m, data[..|data| - 1], creator, receiver), data[|data| - 1], creator, receiver)
  }

  /** The next identifiers of a creator. */
  function NextIds(m: Machine, count: nat, creator: AppId): seq<SessionId> {
    seq(count, i requires 0 <= i => SessionId(creator, Counter(m.counters, creator) + i))
  }

  function Load(m: Machine, id: SessionId, app: AppId): Ran<nat> {
    if id !in m.states then (m, Err(InvalidSession))
    else if id in m.active then (m, Err(SessionIsInUse))
    else if m.states[id].owner != app then (m, Err(InvalidSessionOwner))
    else (m.(active := m.active + {id}), Ok(m.states[id].data))
  }

  function Save(m: Machine, id: SessionId, app: AppId, data: nat): Ran<()> {
    if id !in m.active then (m, Ok(()))
    else if id !in m.states then (m.(active := m.active - {id}), Ok(()))
    else if m.states[id].owner != app then (m, Err(InvalidSessionOwner))
    else (m.(active := m.active - {id}, states := m.states[id := m.states[id].(data := data)]), Ok(()))
  }

  function Close(m: Machine, id: SessionId, app: AppId): Ran<()> {
    if id !in m.active then (m, Ok(()))
    else if id !in m.states then (m.(active := m.active - {id}), Err(InvalidSession))
    else if m.states[id].owner != app then (m, Err(InvalidSessionOwner))
    else (m.(active := m.active - {id}, states := m.states - {id}), Ok(()))
  }

  // ----- Executing user code -----

  /** What happens before the code of a callee runs: sessions are forwarded, and the called session is locked. */
  function Prepare(m: Machine, call: Call): Ran<()>
    requires m.stack != []
  {
    var (m1, given) := Forward(m, call.forwarded, Top(m).id, Callee(call));
    if given.Err? || call.CallApplication? then (m1, given)
    else match Load(m1, call.session, Top(m).id)
      case (m2, Ok(_)) => (m2, Ok(()))
      case (m2, Err(error)) => (m2, Err(error))
  }

  /** The frame of a callee keeps the signer only if the call is authenticated. */
  function Frame(m: Machine, call: Call): Status
    requires m.stack != []
  {
    Status(Callee(call), if call.authenticated then Top(m).signer else None)
  }

  function Push(m: Machine, frame: Status): Machine {
    m.(stack := m.stack + [frame])
  }

  function Pop(m: Machine): Machine
    requires m.stack != []
  {
    m.(stack := m.stack[..|m.stack| - 1])
  }

  /** Unlocks the session of a call, for the application on top of the stack. */
  function Settle(m: Machine, call: Call): Ran<()>
    requires m.stack != []
  {
    if call.CallApplication? then (m, Ok(()))
    else if call.closes then Close(m, call.session, Top(m).id)
    else Save(m, call.session, Top(m).id, call.data)
  }

  /** What happens after the code of a callee returned, back in the frame of the caller. */
  function Finish(m: Machine, call: Call, frame: Status, creates: seq<nat>): Ran<seq<SessionId>>
    requires m.stack != []
  {
    var (m1, settled) := Settle(m, call);
    if settled.Err? then (m1, Err(settled.error))
    else
      var m2 := m1.(results := m1.results + [frame]);
      (OpenAll(m2, creates, Callee(call), Top(m).id), Ok(NextIds(m2, |creates|, Callee(call))))
  }

  /** Executes user code on top of the stack, up to the first error. */
  function EvalCode(apps: set<AppId>, m: Machine, code: Code): (r: Ran<seq<nat>>)
    requires m.stack != []
    ensures m.stack <= r.0.stack && (r.1.Ok? ==> r.0.stack == m.stack)
    decreases code, 0
  {
    var (m', called) := EvalCalls(apps, m, code.calls);
    match called
    case Err(error) => (m', Err(error))
    case Ok(_) => match code.end
      case Fails => (m', Err(UserError))
      case Returns(creates) => (m', Ok(creates))
  }

  function EvalCalls(apps: set<AppId>, m: Machine, calls: Calls): (r: Ran<()>)
    requires m.stack != []
    ensures m.stack <= r.0.stack && (r.1.Ok? ==> r.0.stack == m.stack)
    decreases calls, 0
  {
    match calls
    case Done => (m, Ok(()))
    case Then(first, rest) =>
      var (m', called) := EvalCall(apps, m, first);
      if called.Err? then (m', Err(called.error)) else EvalCalls(apps, m', rest)
  }

  /** Calls an application or a session. Only a success takes the callee off the stack again. */
  function EvalCall(apps: set<AppId>, m: Machine, call: Call): (r: Ran<seq<SessionId>>)
    requires m.stack != []
    ensures m.stack <= r.0.stack && (r.1.Ok? ==> r.0.stack == m.stack)
    decreases call, 0
  {
    if Callee(call) !in apps then (m, Err(UnknownApplication))
    else
      StacksKept(m, call);
      var (m1, prepared) := Prepare(m, call);
      if prepared.Err? then (m1, Err(prepared.error))
      else
        var (m2, returned) := EvalCode(apps, Push(m1, Frame(m, call)), call.code);
        if returned.Err? then (m2, Err(returned.error))
        else
          FinishKeepsStack(Pop(m2), call, Frame(m, call), returned.value);
          Finish(Pop(m2), call, Frame(m, call), returned.value)
  }

  lemma {:induction false} ForwardKeepsStack(m: Machine, ids: seq<SessionId>, from: AppId, to: AppId)
    ensures var m' := Forward(m, ids, from, to).0; m' == m.(states := m'.states)
    decreases |ids|
  {
    if ids != [] && ids[0] in m.states {
      ForwardKeepsStack(m.(states := m.states[ids[0] := m.states[ids[0]].(owner := to)]), ids[1..], from, to);
    }
  }

  lemma StacksKept(m: Machine, call: Call)
    requires m.stack != []
    ensures var m' := Prepare(m, call).0; m' == m.(states := m'.states, active := m'.active)
  {
    ForwardKeepsStack(m, call.forwarded, Top(m).id, Callee(call));
  }

  lemma {:induction false} OpenAllKeepsStack(m: Machine, data: seq<nat>, creator: AppId, receiver: AppId)
    ensures var m' := OpenAll(m, data, creator, receiver); m' == m.(counters := m'.counters, states := m'.states)
  {
    if data != [] {
      OpenAllKeepsStack(m, data[..|data| - 1], creator, receiver);
    }
  }

  lemma FinishKeepsStack(m: Machine, call: Call, frame: Status, creates: seq<nat>)
    requires m.stack != []
    ensures Finish(m, call, frame, creates).0.stack == m.stack
  {
    var m1 := Settle(m, call).0;
    OpenAllKeepsStack(m1.(results := m1.results + [frame]), creates, Callee(call), Top(m).id);
  }

  // ----- The runtime, updated in place -----

  class Runtime {
    /** The applications that can be loaded. */
    const applications: set<AppId>
    var stack: seq<Status>
    var counters: map<AppId, nat>
    var states: map<SessionId, Session>
    var active: set<SessionId>
    var results: seq<Status>

    function State(): Machine
      reads this
    {
      Machine(stack, counters, states, active, results)
    }

    constructor (applications: set<AppId>, id: AppId, signer: Option<Owner>)
      ensures this.applications == applications && State() == Start(id, signer)
    {
      this.applications := applications;
      stack, counters, states, active, results := [Status(id, signer)], map[], map[], {}, [];
    }

    method ForwardSessions(ids: seq<SessionId>, from: AppId, to: AppId) returns (result: Result<(), ExecutionError>)
      modifies this`states
      ensures (State(), result) == Forward(old(State()), ids, from, to)
    {
      assert ids[0..] == ids;
      for i := 0 to |ids|
        invariant Forward(old(State()), ids, from, to) == Forward(State(), ids[i..], from, to)
      {
        assert ids[i..][0] == ids[i] && ids[i..][1..] == ids[i + 1..];
        if ids[i] !in states {
          return Err(InvalidSession);
        }
        if ids[i] in active {
          return Err(SessionIsInUse);
        }
        if states[ids[i]].owner != from {
          return Err(InvalidSessionOwner);
        }
        states := states[ids[i] := states[ids[i]].(owner := to)];
      }
      return Ok(());
    }

    method MakeSessions(data: seq<nat>, creator: AppId, receiver: AppId) returns (ids: seq<SessionId>)
      modifies this`counters, this`states
      ensures State() == OpenAll(old(State()), data, creator, receiver)
      ensures ids == NextIds(old(State()), |data|, creator)
    {
      ids := [];
      for i := 0 to |data|
        invariant State() == OpenAll(old(State()), data[..i], creator, receiver)
        invariant ids == NextIds(old(State()), i, creator)
        invariant Counter(counters, creator) == Counter(old(counters), creator) + i
      {
        assert data[..i + 1][..i] == data[..i];
        var index := Counter(counters, creator);
        var id := SessionId(creator, index);
        counters := counters[creator := index + 1];
        ids := ids + [id];
        states := states[id := Session(receiver, data[i])];
      }
      assert data[..|data|] == data;
    }

    method TryLoadSession(id: SessionId, app: AppId) returns (result: Result<nat, ExecutionError>)
      modifies this`active
      ensures (State(), result) == Load(old(State()), id, app)
    {
      if id !in states {
        return Err(InvalidSession);
      }
      if id in active {
        return Err(SessionIsInUse);
      }
      if states[id].owner != app {
        return Err(InvalidSessionOwner);
      }
      active := active + {id};
      return Ok(states[id].data);
    }

    method TrySaveSession(id: SessionId, app: AppId, data: nat) returns (result: Result<(), ExecutionError>)
      modifies this`active, this`states
      ensures (State(), result) == Save(old(State()), id, app, data)
    {
      if id in active {
        if id in states {
          if states[id].owner != app {
            return Err(InvalidSessionOwner);
          }
          states := states[id := states[id].(data := data)];
        }
        active := active - {id};
      }
      return Ok(());
    }

    method TryCloseSession(id: SessionId, app: AppId) returns (result: Result<(), ExecutionError>)
      modifies this`active, this`states
      ensures (State(), result) == Close(old(State()), id, app)
    {
      if id in active {
        if id in states && states[id].owner != app {
          return Err(InvalidSessionOwner);
        }
        active := active - {id};
        if id !in states {
          return Err(InvalidSession);
        }
        states := states - {id};
      }
      return Ok(());
    }

    /** Runs the code of the application on top of the stack, up to the first error. */
    method RunCode(code: Code) returns (result: Result<seq<nat>, ExecutionError>)
      requires stack != []
      modifies this
      ensures (State(), result) == EvalCode(applications, old(State()), code)
      decreases code, 0
    {
      var called := RunCalls(code.calls);
      if called.Err? {
        return Err(called.error);
      }
      match code.end {
        case Fails => return Err(UserError);
        case Returns(creates) => return Ok(creates);
      }
    }

    method RunCalls(calls: Calls) returns (result: Result<(), ExecutionError>)
      requires stack != []
      modifies this
      ensures (State(), result) == EvalCalls(applications, old(State()), calls)
      decreases calls, 0
    {
      match calls {
        case Done => return Ok(());
        case Then(first, rest) =>
          var called := RunCall(first);
          if called.Err? {
            return Err(called.error);
          }
          result := RunCalls(rest);
      }
    }

    method RunCall(call: Call) returns (result: Result<seq<SessionId>, ExecutionError>)
      requires stack != []
      modifies this
      ensures (State(), result) == EvalCall(applications, old(State()), call)
      decreases call, 0
    {
      match call {
        case CallApplication(authenticated, callee, forwarded, code) =>
          result := TryCallApplication(authenticated, callee, forwarded, code);
        case CallSession(authenticated, session, forwarded, code, closes, data) =>
          result := TryCallSession(authenticated, session, forwarded, code, closes, data);
      }
    }

    method TryCallApplication(authenticated: bool, callee: AppId, forwarded: seq<SessionId>, code: Code)
      returns (result: Result<seq<SessionId>, ExecutionError>)
      requires stack != []
      modifies this
      ensures (State(), result)
        == EvalCall(applications, old(State()), CallApplication(authenticated, callee, forwarded, code))
      decreases code, 1
    {
      var call := CallApplication(authenticated, callee, forwarded, code);
      ghost var m := State();
      var caller := stack[|stack| - 1];
      if callee !in applications {
        return Err(UnknownApplication);
      }
      StacksKept(m, call);
      var given := ForwardSessions(forwarded, caller.id, callee);
      if given.Err? {
        return Err(given.error);
      }
      var signer := if authenticated then caller.signer else None;
      stack := stack + [Status(callee, signer)];
      assert State() == Push(Prepare(m, call).0, Frame(m, call));
      var returned := RunCode(code);
      if returned.Err? {
        return Err(returned.error);
      }
      stack := stack[..|stack| - 1];
      result := Return(call, Status(callee, signer), returned.value);
    }

    method TryCallSession(authenticated: bool, session: SessionId, forwarded: seq<SessionId>, code: Code, closes: bool,
                          data: nat)
      returns (result: Result<seq<SessionId>, ExecutionError>)
      requires stack != []
      modifies this
      ensures (State(), result)
        == EvalCall(applications, old(State()), CallSession(authenticated, session, forwarded, code, closes, data))
      decreases code, 1
    {
      var call := CallSession(authenticated, session, forwarded, code, closes, data);
      ghost var m := State();
      var callee := session.application;
      var caller := stack[|stack| - 1];
      if callee !in applications {
        return Err(UnknownApplication);
      }
      StacksKept(m, call);
      var locked := ForwardAndLoad(call);
      if locked.Err? {
        return Err(locked.error);
      }
      var signer := if authenticated then caller.signer else None;
      stack := stack + [Status(callee, signer)];
      assert State() == Push(Prepare(m, call).0, Frame(m, call));
      var returned := RunCode(code);
      if returned.Err? {
        return Err(returned.error);
      }
      stack := stack[..|stack| - 1];
      result := Return(call, Status(callee, signer), returned.value);
    }

    /** Changes the owners of forwarded sessions, then locks the called session. */
    method ForwardAndLoad(call: Call) returns (result: Result<(), ExecutionError>)
      requires stack != [] && call.CallSession?
      modifies this`states, this`active
      ensures (State(), result) == Prepare(old(State()), call)
    {
      var given := ForwardSessions(call.forwarded, stack[|stack| - 1].id, call.session.application);
      if given.Err? {
        return given;
      }
      var loaded := TryLoadSession(call.session, stack[|stack| - 1].id);
      if loaded.Err? {
        return Err(loaded.error);
      }
      return Ok(());
    }

    /** Closes or saves the called session, if any, records the result and opens the created sessions. */
    method Return(call: Call, frame: Status, creates: seq<nat>) returns (result: Result<seq<SessionId>, ExecutionError>)
      requires stack != []
      modifies this`states, this`active, this`results, this`counters
      ensures (State(), result) == Finish(old(State()), call, frame, creates)
    {
      if call.CallSession? {
        var settled;
        if call.closes {
          settled := TryCloseSession(call.session, stack[|stack| - 1].id);
        } else {
          settled := TrySaveSession(call.session, stack[|stack| - 1].id, call.data);
        }
        if settled.Err? {
          return Err(settled.error);
        }
      }
      results := results + [frame];
      var ids := MakeSessions(creates, Callee(call), stack[|stack| - 1].id);
      return Ok(ids);
    }
  }

  // ----- A transaction -----

  function Start(id: AppId, signer: Option<Owner>): Machine {
    Machine([Status(id, signer)], map[], map[], {}, [])
  }

  /** The price of what a transaction used of one resource, unless it overflows. */
  type Price = Option<Ledger.Amount>

  /** Takes prices off a balance one after the other. */
  function Pay(balance: Ledger.Amount, prices: seq<Price>): Result<Ledger.Amount, ExecutionError>
    decreases |prices|
  {
    if prices == [] then Ok(balance)
    else match prices[0]
      case None => Err(PriceOverflow)
      case Some(price) => if balance < price then Err(BalanceUnderflow) else Pay(balance - price, prices[1..])
  }

  method UpdateLimits(balance: Ledger.Amount, prices: seq<Price>)
    returns (result: Result<Ledger.Amount, ExecutionError>)
    ensures result == Pay(balance, prices)
  {
    var left := balance;
    for i := 0 to |prices|
      invariant Pay(left, prices[i..]) == Pay(balance, prices)
    {
      assert prices[i..][1..] == prices[i + 1..];
      if prices[i].None? {
        return Err(PriceOverflow);
      }
      if left < prices[i].value {
        return Err(BalanceUnderflow);
      }
      left := left - prices[i].value;
    }
    return Ok(left);
  }

  /** What becomes of a transaction of a user application: its results and the balance left, an error, or a panic. */
  datatype Outcome =
    | Finished(results: seq<Status>, balance: Ledger.Amount)
    | Failed(error: ExecutionError)
    | Panicked

  /** A transaction: the application, the signer, the code, and what its execution costs. */
  datatype Transaction = Transaction(
    id: AppId,
    signer: Option<Owner>,
    code: Code,
    balance: Ledger.Amount,
    prices: seq<Price>)

  /**
    A transaction of an application: an error reported by user code is ignored; then the resources are
    paid for, the stack is checked by an assertion, and all sessions must be closed.
   */
  function UserAction(applications: set<AppId>, t: Transaction): Outcome {
    if t.id !in applications then Failed(UnknownApplication)
    else
      var (m, result) := EvalCode(applications, Start(t.id, t.signer), t.code);
      var paid := Pay(t.balance, t.prices);
      if result.Err? && result.error != UserError then Failed(result.error)
      else if paid.Err? then Failed(paid.error)
      else if |m.stack| != 1 then Panicked
      else if m.states != map[] then Failed(SessionWasNotClosed)
      else Finished(m.results + [Status(t.id, t.signer)], paid.value)
  }

  method RunUserAction(applications: set<AppId>, t: Transaction) returns (outcome: Outcome)
    ensures outcome == UserAction(applications, t)
  {
    if t.id !in applications {
      return Failed(UnknownApplication);
    }
    var runtime := new Runtime(applications, t.id, t.signer);
    var result := runtime.RunCode(t.code);
    if result.Err? && result.error != UserError {
      return Failed(result.error);
    }
    var paid := UpdateLimits(t.balance, t.prices);
    if paid.Err? {
      return Failed(paid.error);
    }
    if |runtime.stack| != 1 {
      return Panicked;
    }
    if runtime.states != map[] {
      return Failed(SessionWasNotClosed);
    }
    return Finished(runtime.results + [Status(t.id, t.signer)], paid.value);
  }
}
