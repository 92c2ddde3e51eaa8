/** What every tree of nested calls keeps, when a call succeeds, and when a transaction fails its own assertion. */
module SessionSafety {
  import opened Common
  import opened Sessions
  import Ledger

  /** The applications that take part in a call, besides the caller. */
  function Participants(call: Call): set<AppId> {
    {Callee(call)} + ParticipantsIn(call.code.calls)
  }

  function ParticipantsIn(calls: Calls): set<AppId> {
    match calls
    case Done => {}
    case Then(first, rest) => Participants(first) + ParticipantsIn(rest)
  }

  /** Identifiers are given out in order, so those below the counter of their application were used. */
  predicate WasCreated(m: Machine, id: SessionId) {
    id.index < Counter(m.counters, id.application)
  }

  /** A signer of a frame is the signer of every frame below: once dropped, it does not come back. */
  ghost predicate Nested(stack: seq<Status>) {
    forall i, j :: 0 <= i < j < |stack| && stack[j].signer.Some? ==> stack[i].signer == stack[j].signer
  }

  ghost predicate SignedBy(results: seq<Status>, signer: Option<Owner>) {
    forall i :: 0 <= i < |results| && results[i].signer.Some? ==> results[i].signer == signer
  }

  ghost predicate AllCreated(m: Machine) {
    m.active <= m.states.Keys && forall id :: id in m.states ==> WasCreated(m, id)
  }

  ghost predicate Sound(m: Machine) {
    m.stack != [] && Nested(m.stack) && AllCreated(m) && SignedBy(m.results, m.stack[0].signer)
  }

  /** A session is the same in two states. */
  ghost predicate Same(s: Machine, t: Machine, id: SessionId) {
    id in s.states && id in t.states && t.states[id] == s.states[id]
  }

  /**
    What the calls of some applications keep: locked sessions stay locked and unchanged, so do the
    sessions of other applications, and sessions that were closed do not come back.
   */
  ghost predicate Keeps(s: Machine, t: Machine, apps: set<AppId>) {
    && s.active <= t.active && (forall id :: WasCreated(s, id) ==> WasCreated(t, id))
    && (forall id :: id in s.active ==> Same(s, t, id))
    && (forall id :: id in s.states && s.states[id].owner !in apps ==> Same(s, t, id))
    && (forall id :: WasCreated(s, id) && id in t.states ==> id in s.states)
  }

  lemma KeepsTransitive(s: Machine, t: Machine, u: Machine, a: set<AppId>, b: set<AppId>, c: set<AppId>)
    requires Keeps(s, t, a) && Keeps(t, u, b) && a <= c && b <= c
    ensures Keeps(s, u, c)
  {
    forall id | id in s.active ensures Same(s, u, id) {
      assert Same(s, t, id) && Same(t, u, id);
    }
    forall id | id in s.states && s.states[id].owner !in c ensures Same(s, u, id) {
      assert Same(s, t, id) && Same(t, u, id);
    }
  }

  lemma KeepsMore(s: Machine, t: Machine, a: set<AppId>, b: set<AppId>)
    requires Keeps(s, t, a) && a <= b
    ensures Keeps(s, t, b)
  {
  }

  // ----- Forwarding and opening sessions -----

  /** Sessions that can be forwarded: each is there, free, and owned; none is given away twice. */
  ghost predicate Forwardable(m: Machine, ids: seq<SessionId>, from: AppId, to: AppId) {
    && (forall i :: 0 <= i < |ids| ==> ids[i] in m.states && ids[i] !in m.active && m.states[ids[i]].owner == from)
    && (from != to ==> Distinct(ids))
  }

  function Forwarded(states: map<SessionId, Session>, ids: seq<SessionId>, to: AppId): map<SessionId, Session> {
    map id | id in states :: if id in ids then states[id].(owner := to) else states[id]
  }

  /** Forwarding succeeds exactly if the sessions can be forwarded, and then changes their owners alone. */
  lemma {:induction false} ForwardIs(m: Machine, ids: seq<SessionId>, from: AppId, to: AppId)
    ensures Forward(m, ids, from, to).1.Ok? <==> Forwardable(m, ids, from, to)
    ensures Forward(m, ids, from, to).1.Ok? ==> Forward(m, ids, from, to).0.states == Forwarded(m.states, ids, to)
    ensures Forward(m, ids, from, to).1 != Err(UserError)
    decreases |ids|
  {
    if ids == [] {
      assert Forwarded(m.states, ids, to) == m.states;
    } else if ids[0] in m.states && ids[0] !in m.active && m.states[ids[0]].owner == from {
      var m' := m.(states := m.states[ids[0] := m.states[ids[0]].(owner := to)]);
      ForwardIs(m', ids[1..], from, to);
      ForwardableStep(m, m', ids, from, to);
      assert Forwarded(m'.states, ids[1..], to) == Forwarded(m.states, ids, to) by {
        assert forall id :: id in ids <==> id == ids[0] || id in ids[1..];
      }
    }
  }

  lemma ForwardableStep(m: Machine, m': Machine, ids: seq<SessionId>, from: AppId, to: AppId)
    requires ids != [] && ids[0] in m.states && ids[0] !in m.active && m.states[ids[0]].owner == from
    requires m' == m.(states := m.states[ids[0] := m.states[ids[0]].(owner := to)])
    ensures Forwardable(m, ids, from, to) <==> Forwardable(m', ids[1..], from, to)
  {
    var rest := ids[1..];
    assert forall i :: 0 <= i < |rest| ==> rest[i] == ids[i + 1];
    if Forwardable(m', rest, from, to) {
      forall i | 0 <= i < |ids| ensures ids[i] in m.states && ids[i] !in m.active && m.states[ids[i]].owner == from {
        if i > 0 {
          assert rest[i - 1] == ids[i];
        }
      }
      if from != to {
        forall i, j | 0 <= i < j < |ids| ensures ids[i] != ids[j] {
          assert rest[j - 1] == ids[j];
          if i > 0 {
            assert rest[i - 1] == ids[i];
          }
        }
      }
    }
  }

  lemma {:induction false} ForwardKeeps(m: Machine, ids: seq<SessionId>, from: AppId, to: AppId)
    requires AllCreated(m)
    ensures var m' := Forward(m, ids, from, to).0; m'.states.Keys == m.states.Keys && Keeps(m, m', {from})
    decreases |ids|
  {
    if ids != [] && ids[0] in m.states && ids[0] !in m.active && m.states[ids[0]].owner == from {
      var m' := m.(states := m.states[ids[0] := m.states[ids[0]].(owner := to)]);
      assert Keeps(m, m', {from}) by {
        forall id | id in m.states && id != ids[0] ensures Same(m, m', id) {
        }
      }
      ForwardKeeps(m', ids[1..], from, to);
      KeepsTransitive(m, m', Forward(m', ids[1..], from, to).0, {from}, {from}, {from});
    } else {
      assert Keeps(m, m, {from});
    }
  }

  /** The `i`th session opened from some state on, in a later state. */
  ghost predicate OpenedAt(m: Machine, m': Machine, creator: AppId, i: nat, session: Session) {
    var id := SessionId(creator, Counter(m.counters, creator) + i);
    id in m'.states && m'.states[id] == session
  }

  /** New sessions touch no other session. */
  lemma {:induction false} OpenAllKeeps(m: Machine, data: seq<nat>, creator: AppId, receiver: AppId)
    requires AllCreated(m)
    ensures var m' := OpenAll(m, data, creator, receiver);
      && AllCreated(m') && m'.active == m.active
      && Counter(m'.counters, creator) == Counter(m.counters, creator) + |data|
      && Keeps(m, m', {}) && (forall id :: id in m.states ==> Same(m, m', id))
  {
    if data != [] {
      var n := |data| - 1;
      OpenAllKeeps(m, data[..n], creator, receiver);
      var before := OpenAll(m, data[..n], creator, receiver);
      OpenIs(before, data[n], creator, receiver);
      var m' := Open(before, data[n], creator, receiver);
      KeepsTransitive(m, before, m', {}, {}, {});
      forall id | id in m.states ensures Same(m, m', id) {
        assert Same(m, before, id) && Same(before, m', id);
      }
    }
  }

  /** New sessions belong to the receiver. */
  lemma {:induction false} OpenAllIs(m: Machine, data: seq<nat>, creator: AppId, receiver: AppId, i: nat)
    requires AllCreated(m) && i < |data|
    ensures OpenedAt(m, OpenAll(m, data, creator, receiver), creator, i, Session(receiver, data[i]))
  {
    var n := |data| - 1;
    var before := OpenAll(m, data[..n], creator, receiver);
    OpenAllKeeps(m, data[..n], creator, receiver);
    OpenIs(before, data[n], creator, receiver);
    if i < n {
      OpenAllIs(m, data[..n], creator, receiver, i);
      assert Same(before, OpenAll(m, data, creator, receiver), SessionId(creator, Counter(m.counters, creator) + i));
    }
  }

  /** New sessions get identifiers that were never used before. */
  lemma OpenAllCreates(m: Machine, data: seq<nat>, creator: AppId, receiver: AppId)
    requires AllCreated(m)
    ensures Created(m, OpenAll(m, data, creator, receiver), NextIds(m, |data|, creator), data, receiver)
  {
    var m', ids := OpenAll(m, data, creator, receiver), NextIds(m, |data|, creator);
    forall i | 0 <= i < |ids|
      ensures !WasCreated(m, ids[i]) && ids[i] in m'.states && m'.states[ids[i]] == Session(receiver, data[i])
    {
      OpenAllIs(m, data, creator, receiver, i);
    }
  }

  lemma OpenIs(m: Machine, data: nat, creator: AppId, receiver: AppId)
    requires AllCreated(m)
    ensures var m', id := Open(m, data, creator, receiver), SessionId(creator, Counter(m.counters, creator));
      && AllCreated(m') && Counter(m'.counters, creator) == id.index + 1 && !WasCreated(m, id)
      && Keeps(m, m', {}) && (forall x :: x in m.states ==> Same(m, m', x))
      && id in m'.states && m'.states[id] == Session(receiver, data)
  {
    var m', id := Open(m, data, creator, receiver), SessionId(creator, Counter(m.counters, creator));
    assert id !in m.states by { assert !WasCreated(m, id); }
    forall x | x in m.states ensures Same(m, m', x) {
    }
  }

  // ----- Before and after the code of a callee -----

  function Unlocked(m: Machine, call: Call): Machine {
    if call.CallSession? then m.(active := m.active - {call.session}) else m
  }

  /** What holds while the code of a callee runs: its session is locked, and owned by the caller. */
  ghost predicate Held(m: Machine, call: Call, caller: AppId) {
    call.CallSession? ==> call.session in m.active && call.session in m.states && m.states[call.session].owner == caller
  }

  lemma PrepareKeeps(m: Machine, call: Call)
    requires Sound(m)
    ensures var (m', prepared) := Prepare(m, call);
      && Sound(m') && prepared != Err(UserError)
      && (prepared.Err? ==> m'.active == m.active && Keeps(m, m', {Top(m).id}))
      && (prepared.Ok? ==> Held(m', call, Top(m).id) && Unlocked(m', call).active == m.active)
      && (prepared.Ok? ==> Keeps(m, Unlocked(m', call), {Top(m).id}))
      && (prepared.Ok? ==> Forwardable(m, call.forwarded, Top(m).id, Callee(call)))
  {
    var m1 := Forward(m, call.forwarded, Top(m).id, Callee(call)).0;
    ForwardIs(m, call.forwarded, Top(m).id, Callee(call));
    ForwardKeeps(m, call.forwarded, Top(m).id, Callee(call));
    ForwardKeepsStack(m, call.forwarded, Top(m).id, Callee(call));
    assert AllCreated(m1);
    if Prepare(m, call).1.Ok? {
      assert Unlocked(Prepare(m, call).0, call) == m1;
    }
  }

  lemma PushSound(m: Machine, m': Machine, call: Call)
    requires Sound(m) && Sound(m') && m'.stack == m.stack
    ensures Sound(Push(m', Frame(m, call)))
  {
    var stack := m'.stack + [Frame(m, call)];
    assert stack[0] == m'.stack[0];
  }

  /** Until the end of a call its session stays locked and unchanged. */
  lemma HeldKept(s: Machine, t: Machine, call: Call, caller: AppId, apps: set<AppId>)
    requires Keeps(s, t, apps) && Held(s, call, caller)
    ensures Keeps(Unlocked(s, call), t, apps) && Held(t, call, caller)
  {
    if call.CallSession? {
      var u := Unlocked(s, call);
      assert Same(s, t, call.session);
      forall id | id in s.states && Same(s, t, id) ensures Same(u, t, id) {
      }
      forall id ensures WasCreated(u, id) <==> WasCreated(s, id) {
      }
    }
  }

  /** Saving or closing a session that is held passes the check of its owner and changes that session alone. */
  lemma SettleKeeps(m: Machine, call: Call)
    requires m.stack != [] && AllCreated(m) && Held(m, call, Top(m).id)
    ensures var (m', settled) := Settle(m, call);
      && settled.Ok? && m' == m.(states := m'.states, active := m'.active) && AllCreated(m')
      && m'.active == Unlocked(m, call).active && m'.states.Keys <= m.states.Keys
      && (forall id :: id in m.states && !(call.CallSession? && id == call.session) ==> Same(m, m', id))
      && (call.CallSession? ==> (call.session in m'.states <==> !call.closes))
      && (call.CallSession? && !call.closes ==> m'.states[call.session] == Session(Top(m).id, call.data))
  {
    var m' := Settle(m, call).0;
    forall id | id in m'.states ensures WasCreated(m', id) {
      assert WasCreated(m, id);
    }
  }

  lemma SettledKeeps(s: Machine, t: Machine, u: Machine, call: Call, caller: AppId, apps: set<AppId>)
    requires Keeps(s, t, apps) && Held(s, call, caller) && caller in apps
    requires u.active == Unlocked(t, call).active && u.counters == t.counters && u.states.Keys <= t.states.Keys
    requires forall id :: id in t.states && !(call.CallSession? && id == call.session) ==> Same(t, u, id)
    ensures Keeps(Unlocked(s, call), u, apps)
  {
    var v := Unlocked(s, call);
    forall id | id in s.states && !(call.CallSession? && id == call.session) && Same(s, t, id) ensures Same(v, u, id) {
      assert Same(t, u, id);
    }
    forall id ensures (WasCreated(v, id) <==> WasCreated(s, id)) && (WasCreated(u, id) <==> WasCreated(t, id)) {
    }
  }

  lemma FinishKeeps(m: Machine, call: Call, frame: Status, creates: seq<nat>)
    requires Sound(m) && Held(m, call, Top(m).id) && (frame.signer.Some? ==> frame.signer == m.stack[0].signer)
    ensures var (m', ids) := Finish(m, call, frame, creates);
      && Sound(m') && ids == Ok(NextIds(m, |creates|, Callee(call))) && m'.active == Unlocked(m, call).active
      && m'.results == m.results + [frame]
      && Created(m, m', ids.value, creates, Top(m).id)
      && (call.CallSession? ==> (call.session in m'.states <==> !call.closes))
      && (call.CallSession? && !call.closes ==> m'.states[call.session] == Session(Top(m).id, call.data))
  {
    var m1 := Settle(m, call).0;
    SettleKeeps(m, call);
    var m2 := m1.(results := m1.results + [frame]);
    OpenAllKeeps(m2, creates, Callee(call), Top(m).id);
    OpenAllKeepsStack(m2, creates, Callee(call), Top(m).id);
    var m' := OpenAll(m2, creates, Callee(call), Top(m).id);
    if call.CallSession? {
      assert WasCreated(m2, call.session);
      assert call.session in m2.states ==> Same(m2, m', call.session);
    }
    OpenAllCreates(m2, creates, Callee(call), Top(m).id);
    assert NextIds(m, |creates|, Callee(call)) == NextIds(m2, |creates|, Callee(call));
    assert forall id :: WasCreated(m, id) <==> WasCreated(m2, id);
  }

  /** Sessions created for an owner, under identifiers that were never used before. */
  ghost predicate Created(s: Machine, t: Machine, ids: seq<SessionId>, creates: seq<nat>, owner: AppId) {
    && |ids| == |creates|
    && (forall i :: 0 <= i < |ids| ==> !WasCreated(s, ids[i]))
    && (forall i :: 0 <= i < |ids| ==> ids[i] in t.states && t.states[ids[i]] == Session(owner, creates[i]))
  }

  lemma FinishKeepsOthers(s: Machine, m: Machine, call: Call, frame: Status, creates: seq<nat>, apps: set<AppId>)
    requires Sound(m) && Held(m, call, Top(m).id) && Held(s, call, Top(m).id) && Top(m).id in apps && Keeps(s, m, apps)
    ensures Keeps(Unlocked(s, call), Finish(m, call, frame, creates).0, apps)
  {
    var m1 := Settle(m, call).0;
    SettleKeeps(m, call);
    SettledKeeps(s, m, m1, call, Top(m).id, apps);
    var m2 := m1.(results := m1.results + [frame]);
    assert Keeps(Unlocked(s, call), m2, apps);
    OpenAllKeeps(m2, creates, Callee(call), Top(m).id);
    KeepsTransitive(Unlocked(s, call), m2, OpenAll(m2, creates, Callee(call), Top(m).id), apps, {}, apps);
  }

  // ----- Every tree of calls -----

  /** Sound states stay sound; the stack, the locks and everything that is not owned by a participant is kept. */
  ghost predicate Kept(m: Machine, m': Machine, ok: bool, apps: set<AppId>) {
    Sound(m') && Keeps(m, m', apps) && (ok ==> m'.active == m.active && m'.stack == m.stack)
  }

  lemma {:induction false} EvalCodeKeeps(apps: set<AppId>, m: Machine, code: Code, caller: AppId)
    requires Sound(m) && Top(m).id == caller
    ensures var (m', r) := EvalCode(apps, m, code); Kept(m, m', r.Ok?, {caller} + ParticipantsIn(code.calls))
    decreases code, 0
  {
    EvalCallsKeeps(apps, m, code.calls, caller);
  }

  lemma {:induction false} EvalCallsKeeps(apps: set<AppId>, m: Machine, calls: Calls, caller: AppId)
    requires Sound(m) && Top(m).id == caller
    ensures var (m', r) := EvalCalls(apps, m, calls); Kept(m, m', r.Ok?, {caller} + ParticipantsIn(calls))
    decreases calls, 0
  {
    if calls.Done? {
      KeptSelf(m, {caller} + ParticipantsIn(calls));
    } else {
      EvalCallKeeps(apps, m, calls.first, caller);
      var (m', called) := EvalCall(apps, m, calls.first);
      if called.Ok? {
        EvalCallsKeeps(apps, m', calls.rest, caller);
        var (m'', r) := EvalCalls(apps, m', calls.rest);
        KeptByBoth(m, m', m'', r.Ok?, caller, calls);
      } else {
        KeptByFirst(m, m', caller, calls);
      }
    }
  }

  lemma KeptByFirst(m: Machine, m': Machine, caller: AppId, calls: Calls)
    requires calls.Then? && Kept(m, m', false, {caller} + Participants(calls.first))
    ensures Kept(m, m', false, {caller} + ParticipantsIn(calls))
  {
    KeepsMore(m, m', {caller} + Participants(calls.first), {caller} + ParticipantsIn(calls));
  }

  /** What the first call and the other calls keep, all of them keep. */
  lemma KeptByBoth(m: Machine, m': Machine, m'': Machine, ok: bool, caller: AppId, calls: Calls)
    requires calls.Then?
    requires Kept(m, m', true, {caller} + Participants(calls.first))
    requires Kept(m', m'', ok, {caller} + ParticipantsIn(calls.rest))
    ensures Kept(m, m'', ok, {caller} + ParticipantsIn(calls))
  {
    KeptTransitive(m, m', m'', ok, {caller} + Participants(calls.first), {caller} + ParticipantsIn(calls.rest),
                   {caller} + ParticipantsIn(calls));
  }

  lemma KeptSelf(m: Machine, apps: set<AppId>)
    requires Sound(m)
    ensures Kept(m, m, true, apps)
  {
    assert forall id :: id in m.active ==> Same(m, m, id);
  }

  lemma KeptTransitive(m: Machine, m': Machine, m'': Machine, ok: bool, a: set<AppId>, b: set<AppId>, c: set<AppId>)
    requires Kept(m, m', true, a) && Kept(m', m'', ok, b) && a <= c && b <= c
    ensures Kept(m, m'', ok, c)
  {
    KeepsTransitive(m, m', m'', a, b, c);
  }

  lemma {:induction false} EvalCallKeeps(apps: set<AppId>, m: Machine, call: Call, caller: AppId)
    requires Sound(m) && Top(m).id == caller
    ensures var (m', r) := EvalCall(apps, m, call); Kept(m, m', r.Ok?, {caller} + Participants(call))
    decreases call, 0
  {
    if Callee(call) !in apps {
      KeptSelf(m, {caller} + Participants(call));
    } else {
      StacksKept(m, call);
      PrepareKeeps(m, call);
      var (m1, prepared) := Prepare(m, call);
      if prepared.Err? {
        KeepsMore(m, m1, {caller}, {caller} + Participants(call));
      } else {
        BodyKeeps(apps, m, call, caller);
        EnterKeeps(apps, m, call, caller);
      }
    }
  }

  /** The code of a callee keeps what its frame has to keep. */
  lemma {:induction false} BodyKeeps(apps: set<AppId>, m: Machine, call: Call, caller: AppId)
    requires Sound(m) && Top(m).id == caller && Prepare(m, call).1.Ok?
    ensures Entered(apps, m, call, caller)
    decreases call.code, 1
  {
    StacksKept(m, call);
    PrepareKeeps(m, call);
    var m1 := Prepare(m, call).0;
    PushSound(m, m1, call);
    EvalCodeKeeps(apps, Push(m1, Frame(m, call)), call.code, Callee(call));
    var (m2, r) := EvalCode(apps, Push(m1, Frame(m, call)), call.code);
    KeepsMore(Push(m1, Frame(m, call)), m2, {Callee(call)} + ParticipantsIn(call.code.calls),
              {caller} + Participants(call));
  }

  ghost predicate Entered(apps: set<AppId>, m: Machine, call: Call, caller: AppId)
    requires m.stack != []
  {
    var m1 := Push(Prepare(m, call).0, Frame(m, call));
    var (m2, r) := EvalCode(apps, m1, call.code);
    Kept(m1, m2, r.Ok?, {caller} + Participants(call))
  }

  /** Back in the frame of the caller, the called session is still held: the check of its owner passes. */
  lemma OwnerCheckPasses(apps: set<AppId>, m: Machine, call: Call, caller: AppId)
    requires Sound(m) && Top(m).id == caller && Prepare(m, call).1.Ok? && Entered(apps, m, call, caller)
    requires EvalCode(apps, Push(Prepare(m, call).0, Frame(m, call)), call.code).1.Ok?
    ensures var m2 := EvalCode(apps, Push(Prepare(m, call).0, Frame(m, call)), call.code).0;
      && m2.stack != [] && Pop(m2).stack == m.stack && Sound(Pop(m2)) && Held(Pop(m2), call, caller)
      && Settle(Pop(m2), call).1.Ok?
  {
    StacksKept(m, call);
    PrepareKeeps(m, call);
    var m1 := Push(Prepare(m, call).0, Frame(m, call));
    var m2 := EvalCode(apps, m1, call.code).0;
    HeldKept(m1, m2, call, caller, {caller} + Participants(call));
    PopSound(m2, m.stack, Frame(m, call));
    SettleKeeps(Pop(m2), call);
  }

  lemma PopSound(m: Machine, stack: seq<Status>, frame: Status)
    requires Sound(m) && m.stack == stack + [frame] && stack != []
    ensures Pop(m).stack == stack && Sound(Pop(m))
  {
    assert stack[0] == m.stack[0];
    assert forall i :: 0 <= i < |stack| ==> stack[i] == m.stack[i];
    assert forall id :: WasCreated(Pop(m), id) <==> WasCreated(m, id);
  }

  lemma EnterKeeps(apps: set<AppId>, m: Machine, call: Call, caller: AppId)
    requires Sound(m) && Top(m).id == caller && Callee(call) in apps && Prepare(m, call).1.Ok?
    requires Entered(apps, m, call, caller)
    ensures var (m', r) := EvalCall(apps, m, call); Kept(m, m', r.Ok?, {caller} + Participants(call))
  {
    var m1 := Push(Prepare(m, call).0, Frame(m, call));
    StacksKept(m, call);
    PreparedKeeps(m, call, caller, {caller} + Participants(call));
    if EvalCode(apps, m1, call.code).1.Err? {
      HeldKept(m1, EvalCode(apps, m1, call.code).0, call, caller, {caller} + Participants(call));
      KeepsTransitive(m, Unlocked(m1, call), EvalCode(apps, m1, call.code).0, {caller} + Participants(call),
                      {caller} + Participants(call), {caller} + Participants(call));
    } else {
      OwnerCheckPasses(apps, m, call, caller);
      var (m2, r) := EvalCode(apps, m1, call.code);
      PoppedKeeps(m1, m2, {caller} + Participants(call));
      ReturnKeeps(m, m1, Pop(m2), call, r.value, caller, {caller} + Participants(call));
    }
  }

  /** Up to the code of a callee nothing changes but the sessions of the caller and the lock of the call. */
  lemma PreparedKeeps(m: Machine, call: Call, caller: AppId, apps: set<AppId>)
    requires Sound(m) && Top(m).id == caller && Prepare(m, call).1.Ok? && caller in apps
    ensures var m1 := Push(Prepare(m, call).0, Frame(m, call));
      && Keeps(m, Unlocked(m1, call), apps) && Held(m1, call, caller) && Unlocked(m1, call).active == m.active
  {
    PrepareKeeps(m, call);
    StacksKept(m, call);
    var m0 := Prepare(m, call).0;
    KeepsMore(m, Unlocked(m0, call), {caller}, apps);
    SameSessions(Unlocked(m0, call), Unlocked(Push(m0, Frame(m, call)), call), m, apps);
  }

  /** The way back to the caller keeps what the call has to keep. */
  lemma ReturnKeeps(m: Machine, m1: Machine, m3: Machine, call: Call, creates: seq<nat>, caller: AppId,
                    apps: set<AppId>)
    requires Sound(m) && Sound(m3) && m3.stack == m.stack && Top(m).id == caller && caller in apps
    requires Keeps(m, Unlocked(m1, call), apps) && Held(m1, call, caller) && Unlocked(m1, call).active == m.active
    requires Keeps(m1, m3, apps) && Held(m3, call, caller) && m3.active == m1.active
    ensures var (m', r) := Finish(m3, call, Frame(m, call), creates); r.Ok? && Kept(m, m', true, apps)
  {
    FinishKeeps(m3, call, Frame(m, call), creates);
    FinishKeepsStack(m3, call, Frame(m, call), creates);
    FinishKeepsOthers(m1, m3, call, Frame(m, call), creates, apps);
    KeepsTransitive(m, Unlocked(m1, call), Finish(m3, call, Frame(m, call), creates).0, apps, apps, apps);
  }

  /** The stack does not matter for the sessions. */
  lemma SameSessions(t: Machine, u: Machine, s: Machine, apps: set<AppId>)
    requires Keeps(s, t, apps) && u == t.(stack := u.stack)
    ensures Keeps(s, u, apps)
  {
    forall id | Same(s, t, id) ensures Same(s, u, id) {
    }
    assert forall id :: WasCreated(u, id) <==> WasCreated(t, id);
  }

  lemma PoppedKeeps(s: Machine, t: Machine, apps: set<AppId>)
    requires t.stack != [] && Keeps(s, t, apps)
    ensures Keeps(s, Pop(t), apps)
  {
    SameSessions(t, Pop(t), s, apps);
  }

  // ----- When a call succeeds, and what it does for its caller -----

  /** A call succeeds exactly if the callee is known, the sessions are available, and its code succeeds. */
  lemma CallSucceedsIff(apps: set<AppId>, m: Machine, call: Call)
    requires Sound(m)
    ensures EvalCall(apps, m, call).1.Ok? <==>
      && Callee(call) in apps && Prepare(m, call).1.Ok?
      && EvalCode(apps, Push(Prepare(m, call).0, Frame(m, call)), call.code).1.Ok?
  {
    if Callee(call) in apps && Prepare(m, call).1.Ok? {
      BodyKeeps(apps, m, call, Top(m).id);
      if EvalCode(apps, Push(Prepare(m, call).0, Frame(m, call)), call.code).1.Ok? {
        OwnerCheckPasses(apps, m, call, Top(m).id);
      }
    }
  }

  /** The sessions can be forwarded, and the called session exists, is free and belongs to the caller after that. */
  lemma PrepareSucceedsIff(m: Machine, call: Call)
    requires m.stack != []
    ensures Prepare(m, call).1.Ok? <==>
      var caller, states := Top(m).id, Forwarded(m.states, call.forwarded, Callee(call));
      && Forwardable(m, call.forwarded, caller, Callee(call))
      && (call.CallSession? ==> call.session in states && call.session !in m.active)
      && (call.CallSession? ==> states[call.session].owner == caller)
  {
    ForwardIs(m, call.forwarded, Top(m).id, Callee(call));
    ForwardKeepsStack(m, call.forwarded, Top(m).id, Callee(call));
  }

  /**
    A call that succeeds records a result that is signed only if the call is authenticated, closes or
    saves the called session, and gives the caller sessions that were never used before.
   */
  lemma CallServes(apps: set<AppId>, m: Machine, call: Call)
    requires Sound(m) && EvalCall(apps, m, call).1.Ok?
    ensures var (m', ids) := EvalCall(apps, m, call);
      && m'.results != [] && m'.results[|m'.results| - 1] == Frame(m, call)
      && call.code.end.Returns? && Created(m, m', ids.value, call.code.end.creates, Top(m).id)
      && (call.CallSession? ==> (call.session in m'.states <==> !call.closes))
      && (call.CallSession? && !call.closes ==> m'.states[call.session] == Session(Top(m).id, call.data))
  {
    CallSucceedsIff(apps, m, call);
    BodyKeeps(apps, m, call, Top(m).id);
    OwnerCheckPasses(apps, m, call, Top(m).id);
    StacksKept(m, call);
    var m1 := Push(Prepare(m, call).0, Frame(m, call));
    var (m2, r) := EvalCode(apps, m1, call.code);
    CreatedBefore(m, m1, m2, {Top(m).id} + Participants(call));
    ReturnServes(m, Pop(m2), call, r.value);
  }

  lemma CreatedBefore(m: Machine, m1: Machine, m2: Machine, apps: set<AppId>)
    requires m1.counters == m.counters && Keeps(m1, m2, apps) && m2.stack != []
    ensures forall id :: WasCreated(m, id) ==> WasCreated(Pop(m2), id)
  {
    assert forall id :: WasCreated(m, id) <==> WasCreated(m1, id);
    assert forall id :: WasCreated(Pop(m2), id) <==> WasCreated(m2, id);
  }

  lemma ReturnServes(m: Machine, m3: Machine, call: Call, creates: seq<nat>)
    requires Sound(m) && Sound(m3) && m3.stack == m.stack && Held(m3, call, Top(m).id)
    requires forall id :: WasCreated(m, id) ==> WasCreated(m3, id)
    ensures var (m', ids) := Finish(m3, call, Frame(m, call), creates);
      && ids.Ok? && m'.results != [] && m'.results[|m'.results| - 1] == Frame(m, call)
      && Created(m, m', ids.value, creates, Top(m).id)
      && (call.CallSession? ==> (call.session in m'.states <==> !call.closes))
      && (call.CallSession? && !call.closes ==> m'.states[call.session] == Session(Top(m).id, call.data))
  {
    FinishKeeps(m3, call, Frame(m, call), creates);
  }

  // ----- When the assertion on the stack fails -----

  /** Leads to a frame of a tree of calls: past a call that succeeds, or into the code of a call, or here. */
  datatype Path = Past(rest: Path) | Into(inner: Path) | Here

  /** How many frames a path enters. */
  function Depth(path: Path): nat {
    match path
    case Past(rest) => Depth(rest)
    case Into(inner) => 1 + Depth(inner)
    case Here => 0
  }

  /** A path leads to code that reports an error, and everything before that succeeds. */
  ghost predicate FailsAt(apps: set<AppId>, m: Machine, calls: Calls, path: Path)
    requires m.stack != []
    decreases calls, 0
  {
    && calls.Then?
    && match path
       case Past(rest) =>
         EvalCall(apps, m, calls.first).1.Ok? && FailsAt(apps, EvalCall(apps, m, calls.first).0, calls.rest, rest)
       case Into(inner) => FailsIn(apps, m, calls.first, inner)
       case Here => false
  }

  ghost predicate FailsIn(apps: set<AppId>, m: Machine, call: Call, path: Path)
    requires m.stack != []
    decreases call, 0
  {
    && Callee(call) in apps && Prepare(m, call).1.Ok?
    && var m' := Push(Prepare(m, call).0, Frame(m, call));
    if path.Here? then EvalCalls(apps, m', call.code.calls).1.Ok? && call.code.end.Fails?
    else FailsAt(apps, m', call.code.calls, path)
  }

  /** Such an error is the error of the whole, and leaves all the frames on its path on the stack. */
  lemma {:induction false} FailsAtIs(apps: set<AppId>, m: Machine, calls: Calls, path: Path)
    requires m.stack != [] && FailsAt(apps, m, calls, path)
    ensures EvalCalls(apps, m, calls).1 == Err(UserError) && Depth(path) > 0
    ensures |EvalCalls(apps, m, calls).0.stack| == |m.stack| + Depth(path)
    decreases calls, 0
  {
    if path.Into? {
      FailsInIs(apps, m, calls.first, path.inner);
    } else {
      FailsAtIs(apps, EvalCall(apps, m, calls.first).0, calls.rest, path.rest);
    }
  }

  lemma {:induction false} FailsInIs(apps: set<AppId>, m: Machine, call: Call, path: Path)
    requires m.stack != [] && FailsIn(apps, m, call, path)
    ensures EvalCall(apps, m, call).1 == Err(UserError)
    ensures |EvalCall(apps, m, call).0.stack| == |m.stack| + 1 + Depth(path)
    decreases call, 0
  {
    StacksKept(m, call);
    if !path.Here? {
      FailsAtIs(apps, Push(Prepare(m, call).0, Frame(m, call)), call.code.calls, path);
    }
  }

  /** Every error of user code that comes out of calls was reported by the code of some frame. */
  lemma {:induction false} FailurePath(apps: set<AppId>, m: Machine, calls: Calls) returns (path: Path)
    requires m.stack != [] && EvalCalls(apps, m, calls).1 == Err(UserError)
    ensures FailsAt(apps, m, calls, path)
    decreases calls, 0
  {
    if EvalCall(apps, m, calls.first).1.Err? {
      var inner := FailurePathIn(apps, m, calls.first);
      path := Into(inner);
    } else {
      var rest := FailurePath(apps, EvalCall(apps, m, calls.first).0, calls.rest);
      path := Past(rest);
    }
  }

  lemma {:induction false} FailurePathIn(apps: set<AppId>, m: Machine, call: Call) returns (path: Path)
    requires m.stack != [] && EvalCall(apps, m, call).1 == Err(UserError)
    ensures FailsIn(apps, m, call, path)
    decreases call, 0
  {
    NotAUserError(apps, m, call);
    var m' := Push(Prepare(m, call).0, Frame(m, call));
    if EvalCalls(apps, m', call.code.calls).1.Err? {
      path := FailurePath(apps, m', call.code.calls);
    } else {
      path := Here;
    }
  }

  /** An error of user code comes from the code of the callee, and from no other part of a call. */
  lemma NotAUserError(apps: set<AppId>, m: Machine, call: Call)
    requires m.stack != [] && EvalCall(apps, m, call).1 == Err(UserError)
    ensures Callee(call) in apps && Prepare(m, call).1.Ok?
    ensures EvalCode(apps, Push(Prepare(m, call).0, Frame(m, call)), call.code).1 == Err(UserError)
  {
    ForwardIs(m, call.forwarded, Top(m).id, Callee(call));
    StacksKept(m, call);
  }

  // ----- What a transaction pays -----

  function Bill(prices: seq<Price>): nat
    decreases |prices|
  {
    if prices == [] then 0 else (if prices[0].Some? then prices[0].value else 0) + Bill(prices[1..])
  }

  /** No price overflows, and the balance covers all of them. */
  predicate Payable(balance: Ledger.Amount, prices: seq<Price>) {
    (forall i :: 0 <= i < |prices| ==> prices[i].Some?) && Bill(prices) <= balance
  }

  lemma {:induction false} PayIff(balance: Ledger.Amount, prices: seq<Price>)
    ensures Pay(balance, prices).Ok? <==> Payable(balance, prices)
    ensures Pay(balance, prices).Ok? ==> Pay(balance, prices).value == balance - Bill(prices)
    decreases |prices|
  {
    if prices != [] && prices[0].Some? && prices[0].value <= balance {
      PayIff(balance - prices[0].value, prices[1..]);
      assert forall i :: 0 < i < |prices| ==> prices[i] == prices[1..][i - 1];
    }
  }

  /** The stack is unbalanced after the code of an application exactly if a nested frame reports the first error. */
  lemma StackIsLeftIff(apps: set<AppId>, m: Machine, code: Code)
    requires m.stack != []
    ensures var (m', result) := EvalCode(apps, m, code);
      (result.Ok? || result.error == UserError) && |m'.stack| != |m.stack| <==>
        exists path :: FailsAt(apps, m, code.calls, path)
  {
    var called := EvalCalls(apps, m, code.calls);
    if called.1 == Err(UserError) {
      var path := FailurePath(apps, m, code.calls);
      FailsAtIs(apps, m, code.calls, path);
      assert EvalCode(apps, m, code) == (called.0, Err(UserError));
      assert exists p :: FailsAt(apps, m, code.calls, p);
    } else {
      forall path ensures !FailsAt(apps, m, code.calls, path) {
        if FailsAt(apps, m, code.calls, path) {
          FailsAtIs(apps, m, code.calls, path);
          assert false;
        }
      }
    }
  }

  /**
    The assertion on the stack fails exactly if the resources can be paid for and the first error is
    reported by a nested frame.
   */
  lemma PanicsIff(applications: set<AppId>, t: Transaction)
    ensures UserAction(applications, t).Panicked? <==>
      && t.id in applications && Payable(t.balance, t.prices)
      && exists path :: FailsAt(applications, Start(t.id, t.signer), t.code.calls, path)
  {
    StackIsLeftIff(applications, Start(t.id, t.signer), t.code);
    PayIff(t.balance, t.prices);
  }

  /** No code that is called reports an error. */
  predicate Quiet(calls: Calls) {
    match calls
    case Done => true
    case Then(first, rest) => first.code.end.Returns? && Quiet(first.code.calls) && Quiet(rest)
  }

  lemma {:induction false} QuietNeverFails(apps: set<AppId>, m: Machine, calls: Calls, path: Path)
    requires m.stack != [] && Quiet(calls)
    ensures !FailsAt(apps, m, calls, path)
    decreases calls, 0
  {
    if calls.Then? {
      if path.Past? {
        QuietNeverFails(apps, EvalCall(apps, m, calls.first).0, calls.rest, path.rest);
      } else if path.Into? {
        StacksKept(m, calls.first);
        var m' := Push(Prepare(m, calls.first).0, Frame(m, calls.first));
        QuietNeverFails(apps, m', calls.first.code.calls, path.inner);
      }
    }
  }

  /** A transaction whose nested code reports no error never fails the assertion, whatever its own code does. */
  lemma QuietNeverPanics(applications: set<AppId>, t: Transaction)
    requires Quiet(t.code.calls)
    ensures !UserAction(applications, t).Panicked?
  {
    PanicsIff(applications, t);
    forall path ensures !FailsAt(applications, Start(t.id, t.signer), t.code.calls, path) {
      QuietNeverFails(applications, Start(t.id, t.signer), t.code.calls, path);
    }
  }

  /** All the calls are calls of known applications, and no session is passed on. */
  predicate Plain(apps: set<AppId>, calls: Calls) {
    match calls
    case Done => true
    case Then(first, rest) =>
      && first.CallApplication? && first.callee in apps && first.forwarded == []
      && Plain(apps, first.code.calls) && Plain(apps, rest)
  }

  /** Without sessions, only the code of an application can report an error. */
  lemma {:induction false} PlainFailsIff(apps: set<AppId>, m: Machine, calls: Calls)
    requires m.stack != [] && Plain(apps, calls)
    ensures EvalCalls(apps, m, calls).1 == if Quiet(calls) then Ok(()) else Err(UserError)
    decreases calls, 0
  {
    if calls.Then? {
      PlainCallFailsIff(apps, m, calls.first);
      var called := EvalCall(apps, m, calls.first);
      if called.1.Ok? {
        PlainFailsIff(apps, called.0, calls.rest);
      }
    }
  }

  lemma {:induction false} PlainCallFailsIff(apps: set<AppId>, m: Machine, call: Call)
    requires m.stack != [] && Plain(apps, Then(call, Done))
    ensures EvalCall(apps, m, call).1.Ok? <==> call.code.end.Returns? && Quiet(call.code.calls)
    ensures EvalCall(apps, m, call).1.Err? ==> EvalCall(apps, m, call).1.error == UserError
    decreases call, 0
  {
    StacksKept(m, call);
    var m' := Push(Prepare(m, call).0, Frame(m, call));
    assert Prepare(m, call).1.Ok?;
    PlainFailsIff(apps, m', call.code.calls);
  }

  /** Without sessions, the assertion fails exactly if called code reports an error and the resources can be paid. */
  lemma PlainPanicsIff(applications: set<AppId>, t: Transaction)
    requires t.id in applications && Plain(applications, t.code.calls)
    ensures UserAction(applications, t).Panicked? <==> Payable(t.balance, t.prices) && !Quiet(t.code.calls)
  {
    var m := Start(t.id, t.signer);
    PanicsIff(applications, t);
    PlainFailsIff(applications, m, t.code.calls);
    if Quiet(t.code.calls) {
      QuietNeverPanics(applications, t);
    } else {
      var path := FailurePath(applications, m, t.code.calls);
      assert FailsAt(applications, Start(t.id, t.signer), t.code.calls, path);
      assert exists p :: FailsAt(applications, Start(t.id, t.signer), t.code.calls, p);
    }
  }

  /** An application that calls one that reports an error fails the assertion, if its resources can be paid for. */
  lemma NestedErrorPanics(signer: Option<Owner>, balance: Ledger.Amount, prices: seq<Price>)
    ensures var code := Code(Then(CallApplication(false, 1, [], Code(Done, Fails)), Done), Returns([]));
      UserAction({0, 1}, Transaction(0, signer, code, balance, prices)).Panicked? <==> Payable(balance, prices)
  {
    var call := CallApplication(false, 1, [], Code(Done, Fails));
    var code := Code(Then(call, Done), Returns([]));
    assert Plain({0, 1}, Done) && Plain({0, 1}, code.calls);
    assert call.code.end == Fails && !Quiet(code.calls);
    PlainPanicsIff({0, 1}, Transaction(0, signer, code, balance, prices));
  }

  /**
    A transaction that finishes has the result of its application last, and no signer but its own; it paid
    exactly for its resources.
   */
  lemma FinishedIsSigned(applications: set<AppId>, t: Transaction)
    requires UserAction(applications, t).Finished?
    ensures var outcome := UserAction(applications, t);
      && outcome.results != [] && outcome.results[|outcome.results| - 1] == Status(t.id, t.signer)
      && SignedBy(outcome.results, t.signer) && outcome.balance + Bill(t.prices) == t.balance
  {
    PayIff(t.balance, t.prices);
    EvalCodeKeeps(applications, Start(t.id, t.signer), t.code, t.id);
    var m := EvalCode(applications, Start(t.id, t.signer), t.code).0;
    assert m.stack[0] == Start(t.id, t.signer).stack[0];
  }
}
