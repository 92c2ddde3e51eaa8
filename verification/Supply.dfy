/** The supply of tokens over every run of a system of chains that exchange messages. */
module Supply {
  import opened Common
  import opened Sums
  import opened Ledger

  /** All the chains, the messages sent and not consumed yet, and the tokens that left circulation. */
  datatype World = World(ledgers: map<ChainId, Balances>, pending: multiset<Outgoing>, fees: nat, burned: nat)

  /** Opening a chain, dropping a message, or executing a block that consumes pending messages. */
  datatype Event =
    | Open(chain: ChainId)
    | Skip(dropped: Outgoing)
    | Execute(chain: ChainId, block: Block, consumed: seq<Outgoing>, others: seq<Outgoing>)

  /** The incoming messages of a block are messages sent to its chain. */
  predicate Delivers(chain: ChainId, consumed: seq<Outgoing>, incoming: seq<Incoming>) {
    && |consumed| == |incoming|
    && (forall i :: 0 <= i < |consumed| ==> consumed[i].target == chain && consumed[i].message == incoming[i].message)
  }

  predicate Enabled(w: World, event: Event) {
    match event
    case Open(chain) => chain !in w.ledgers
    case Skip(dropped) => dropped in w.pending && dropped.isSkippable
    case Execute(chain, block, consumed, others) =>
      && chain in w.ledgers && multiset(consumed) <= w.pending && Delivers(chain, consumed, block.incoming)
      && ExecuteBlock(w.ledgers[chain], chain, block).Ok?
      && (forall i :: 0 <= i < |others| ==> others[i].message.OtherMessage?)
  }

  function Apply(w: World, event: Event): World
    requires Enabled(w, event)
  {
    match event
    case Open(chain) => w.(ledgers := w.ledgers[chain := Balances(0, map[])])
    case Skip(dropped) => w.(pending := w.pending - multiset{dropped})
    case Execute(chain, block, consumed, others) =>
      var e := ExecuteBlock(w.ledgers[chain], chain, block).value;
      World(w.ledgers[chain := e.balances],
            w.pending - multiset(consumed) + multiset(e.sent) + multiset(others),
            w.fees + BlockFees(block),
            w.burned + e.burned)
  }

  function Loss(w: World, event: Event): nat {
    if event.Execute? && event.chain in w.ledgers
    then BlockLoss(w.ledgers[event.chain], event.chain, event.block) else 0
  }

  // ----- Where the tokens are -----

  ghost function Worths(ledgers: map<ChainId, Balances>): map<ChainId, nat> {
    map c | c in ledgers :: Worth(ledgers[c])
  }

  function Carried(o: Outgoing): nat {
    CreditTo(o.target, o.message)
  }

  /** The tokens on their way between chains. */
  ghost function InFlight(pending: multiset<Outgoing>): nat {
    if pending == multiset{} then 0
    else var o :| o in pending; Carried(o) + InFlight(pending - multiset{o})
  }

  ghost function Supply(w: World): nat {
    Total(Worths(w.ledgers), w.ledgers.Keys) + InFlight(w.pending) + w.fees + w.burned
  }

  /** Credits are sent to the chain of their account and cannot be skipped. */
  predicate Firm(o: Outgoing) {
    o.message.Credit? ==> o.target == o.message.account.chain && !o.isSkippable
  }

  ghost predicate Sound(w: World) {
    forall o :: o in w.pending ==> Firm(o)
  }

  lemma {:induction false} InFlightPick(pending: multiset<Outgoing>, o: Outgoing)
    requires o in pending
    ensures InFlight(pending) == Carried(o) + InFlight(pending - multiset{o})
    decreases |pending|
  {
    var p :| p in pending && InFlight(pending) == Carried(p) + InFlight(pending - multiset{p});
    if p != o {
      InFlightPick(pending - multiset{p}, o);
      InFlightPick(pending - multiset{o}, p);
      EitherFirst(pending, p, o);
    }
  }

  lemma EitherFirst(pending: multiset<Outgoing>, p: Outgoing, o: Outgoing)
    ensures pending - multiset{p} - multiset{o} == pending - multiset{o} - multiset{p}
  {
  }

  lemma {:induction false} InFlightAdd(pending: multiset<Outgoing>, sent: seq<Outgoing>)
    ensures InFlight(pending + multiset(sent)) == InFlight(pending) + CreditsSent(sent)
  {
    if sent == [] {
      assert pending + multiset(sent) == pending;
    } else {
      InFlightAdd(pending, sent[..|sent| - 1]);
      InFlightSend(pending, sent);
    }
  }

  lemma InFlightSend(pending: multiset<Outgoing>, sent: seq<Outgoing>)
    requires sent != []
    ensures InFlight(pending + multiset(sent))
      == InFlight(pending + multiset(sent[..|sent| - 1])) + Carried(sent[|sent| - 1])
  {
    var front, last := sent[..|sent| - 1], sent[|sent| - 1];
    SendOne(pending, sent, front, last);
    InFlightOneMore(pending + multiset(front), last);
  }

  lemma SendOne(pending: multiset<Outgoing>, sent: seq<Outgoing>, front: seq<Outgoing>, last: Outgoing)
    requires sent != [] && front == sent[..|sent| - 1] && last == sent[|sent| - 1]
    ensures pending + multiset(sent) == pending + multiset(front) + multiset{last}
  {
    assert sent == front + [last];
    assert multiset(front + [last]) == multiset(front) + multiset{last};
  }

  lemma InFlightOneMore(pending: multiset<Outgoing>, o: Outgoing)
    ensures InFlight(pending + multiset{o}) == InFlight(pending) + Carried(o)
  {
    InFlightPick(pending + multiset{o}, o);
    assert pending + multiset{o} - multiset{o} == pending;
  }

  lemma InFlightRemove(pending: multiset<Outgoing>, consumed: seq<Outgoing>)
    requires multiset(consumed) <= pending
    ensures InFlight(pending - multiset(consumed)) + CreditsSent(consumed) == InFlight(pending)
  {
    InFlightAdd(pending - multiset(consumed), consumed);
    assert pending - multiset(consumed) + multiset(consumed) == pending;
  }

  // ----- What one block does -----

  /** What a block receives is what the consumed messages carried. */
  lemma {:induction false} ConsumedCredits(chain: ChainId, consumed: seq<Outgoing>, incoming: seq<Incoming>)
    requires Delivers(chain, consumed, incoming)
    ensures CreditsTo(chain, incoming) == CreditsSent(consumed)
  {
    if consumed != [] {
      ConsumedCredits(chain, consumed[..|consumed| - 1], incoming[..|incoming| - 1]);
    }
  }

  lemma {:induction false} OthersCarryNothing(others: seq<Outgoing>)
    requires forall i :: 0 <= i < |others| ==> others[i].message.OtherMessage?
    ensures CreditsSent(others) == 0
  {
    if others != [] {
      OthersCarryNothing(others[..|others| - 1]);
    }
  }

  ghost predicate AllFirm(sent: seq<Outgoing>) {
    forall i :: 0 <= i < |sent| ==> Firm(sent[i])
  }

  lemma {:induction false} MessagesSendFirm(b: Balances, chain: ChainId, ms: seq<Incoming>)
    requires ExecuteMessages(b, chain, ms).Ok?
    ensures AllFirm(ExecuteMessages(b, chain, ms).value.sent)
  {
    if ms != [] {
      MessagesSendFirm(b, chain, ms[..|ms| - 1]);
    }
  }

  lemma {:induction false} OperationsSendFirm(b: Balances, signer: Option<Owner>, ops: seq<Operation>)
    requires ExecuteOperations(b, signer, ops).Ok?
    ensures AllFirm(ExecuteOperations(b, signer, ops).value.sent)
  {
    if ops != [] {
      OperationsSendFirm(b, signer, ops[..|ops| - 1]);
    }
  }

  lemma BlockSendsFirm(b: Balances, chain: ChainId, block: Block)
    requires ExecuteBlock(b, chain, block).Ok?
    ensures AllFirm(ExecuteBlock(b, chain, block).value.sent)
  {
    var b0 := Advance(b, chain, block).value;
    MessagesSendFirm(b0, chain, block.incoming);
    var e1 := ExecuteMessages(b0, chain, block.incoming).value;
    OperationsSendFirm(e1.balances, block.signer, block.operations);
  }

  lemma WorthsUpdate(ledgers: map<ChainId, Balances>, chain: ChainId, b: Balances)
    ensures Total(Worths(ledgers[chain := b]), ledgers[chain := b].Keys) + At(Worths(ledgers), chain)
      == Total(Worths(ledgers), ledgers.Keys) + Worth(b)
  {
    TotalUpdate(Worths(ledgers), chain, Worth(b));
    assert Worths(ledgers[chain := b]) == Worths(ledgers)[chain := Worth(b)];
    assert Worths(ledgers).Keys == ledgers.Keys;
    assert Worths(ledgers[chain := b]).Keys == ledgers[chain := b].Keys;
  }

  // ----- What every event and every run keeps -----

  lemma EventKeepsSound(w: World, event: Event)
    requires Sound(w) && Enabled(w, event)
    ensures Sound(Apply(w, event))
  {
    if event.Execute? {
      BlockSendsFirm(w.ledgers[event.chain], event.chain, event.block);
      var sent := ExecuteBlock(w.ledgers[event.chain], event.chain, event.block).value.sent;
      forall o | o in Apply(w, event).pending ensures Firm(o) {
        assert o in w.pending || o in multiset(sent) || o in multiset(event.others);
        assert o in multiset(sent) ==> o in sent;
        assert o in multiset(event.others) ==> o in event.others;
      }
    }
  }

  lemma ExecuteKeepsInFlight(pending: multiset<Outgoing>, chain: ChainId, block: Block, consumed: seq<Outgoing>,
                             sent: seq<Outgoing>, others: seq<Outgoing>)
    requires multiset(consumed) <= pending && Delivers(chain, consumed, block.incoming)
    requires forall i :: 0 <= i < |others| ==> others[i].message.OtherMessage?
    ensures InFlight(pending - multiset(consumed) + multiset(sent) + multiset(others))
      + CreditsTo(chain, block.incoming)
      == InFlight(pending) + CreditsSent(sent)
  {
    InFlightRemove(pending, consumed);
    InFlightAdd(pending - multiset(consumed), sent);
    InFlightAdd(pending - multiset(consumed) + multiset(sent), others);
    ConsumedCredits(chain, consumed, block.incoming);
    OthersCarryNothing(others);
  }

  /** An event changes the supply by nothing but what saturating additions lose. */
  lemma EventKeepsSupply(w: World, event: Event)
    requires Sound(w) && Enabled(w, event)
    ensures Supply(Apply(w, event)) + Loss(w, event) == Supply(w)
  {
    match event {
      case Open(chain) => WorthsUpdate(w.ledgers, chain, Balances(0, map[]));
      case Skip(dropped) => InFlightPick(w.pending, dropped);
      case Execute(chain, block, consumed, others) =>
        var e := ExecuteBlock(w.ledgers[chain], chain, block).value;
        BlockConserves(w.ledgers[chain], chain, block);
        WorthsUpdate(w.ledgers, chain, e.balances);
        ExecuteKeepsInFlight(w.pending, chain, block, consumed, e.sent, others);
    }
  }

  /** An event happens in a world and leads to another one. */
  ghost predicate Step(w: World, event: Event, w': World) {
    Enabled(w, event) && w' == Apply(w, event)
  }

  ghost predicate IsRun(run: seq<World>, events: seq<Event>) {
    && |run| == |events| + 1
    && (forall i {:trigger events[i]} :: 0 <= i < |events| ==> Step(run[i], events[i], run[i + 1]))
  }

  /** What an event of a run loses. */
  function LossAt(run: seq<World>, events: seq<Event>): nat -> nat {
    (i: nat) => if i < |events| && i < |run| then Loss(run[i], events[i]) else 0
  }

  /** What the first events of a run lose. */
  function Losses(run: seq<World>, events: seq<Event>, n: nat): nat {
    SumTo(LossAt(run, events), n)
  }

  ghost function SupplyAt(run: seq<World>): nat -> nat {
    (i: nat) => if i < |run| then Supply(run[i]) else 0
  }

  lemma {:induction false} RunKeepsSound(run: seq<World>, events: seq<Event>, n: nat)
    requires IsRun(run, events) && Sound(run[0]) && n <= |events|
    ensures Sound(run[n])
  {
    if n > 0 {
      RunKeepsSound(run, events, n - 1);
      StepKeepsSoundAt(run, events, n - 1);
    }
  }

  lemma StepKeepsSoundAt(run: seq<World>, events: seq<Event>, i: nat)
    requires IsRun(run, events) && i < |events| && Sound(run[i])
    ensures Sound(run[i + 1])
  {
    StepKeepsSound(run[i], events[i], run[i + 1]);
  }

  lemma StepKeepsSound(w: World, event: Event, w': World)
    requires Sound(w) && Step(w, event, w')
    ensures Sound(w')
  {
    EventKeepsSound(w, event);
  }

  /** Up to every state of every run, the supply of tokens changes by exactly what saturating additions lost. */
  lemma RunKeepsSupply(run: seq<World>, events: seq<Event>, n: nat)
    requires IsRun(run, events) && Sound(run[0]) && n <= |events|
    ensures Supply(run[n]) + Losses(run, events, n) == Supply(run[0])
  {
    forall i | 0 <= i < n ensures SupplyAt(run)(i + 1) + LossAt(run, events)(i) == SupplyAt(run)(i) {
      StepKeepsSupply(run, events, i);
    }
    SumOfLosses(SupplyAt(run), LossAt(run, events), n);
  }

  lemma StepKeepsSupply(run: seq<World>, events: seq<Event>, i: nat)
    requires IsRun(run, events) && Sound(run[0]) && i < |events|
    ensures SupplyAt(run)(i + 1) + LossAt(run, events)(i) == SupplyAt(run)(i)
  {
    RunKeepsSound(run, events, i);
    EventKeepsSupply(run[i], events[i]);
  }

  /** Every credit of the block that an event executes stays below the bound of its account. */
  ghost predicate StaysBelowBound(w: World, event: Event) {
    event.Execute? && event.chain in w.ledgers ==>
      CreditsStayBelow(w.ledgers[event.chain], event.chain, event.block)
  }

  lemma EventLosesNothingIff(w: World, event: Event, w': World)
    requires Step(w, event, w')
    ensures Loss(w, event) == 0 <==> StaysBelowBound(w, event)
  {
    if event.Execute? {
      BlockLosesNothingIff(w.ledgers[event.chain], event.chain, event.block);
    }
  }

  lemma LosesNothingIff(run: seq<World>, events: seq<Event>, n: nat)
    requires IsRun(run, events) && n <= |events|
    ensures Losses(run, events, n) == 0 <==> forall i :: 0 <= i < n ==> StaysBelowBound(run[i], events[i])
  {
    SumIsZeroIff(LossAt(run, events), n);
    forall i | 0 <= i < n ensures LossAt(run, events)(i) == 0 <==> StaysBelowBound(run[i], events[i]) {
      EventLosesNothingIff(run[i], events[i], run[i + 1]);
    }
  }

  /** The supply of a run stays the same if and only if every credit stays below the bound of its account. */
  lemma RunConservesIff(run: seq<World>, events: seq<Event>, n: nat)
    requires IsRun(run, events) && Sound(run[0]) && n <= |events|
    ensures Supply(run[n]) == Supply(run[0]) <==> forall i :: 0 <= i < n ==> StaysBelowBound(run[i], events[i])
  {
    RunKeepsSupply(run, events, n);
    LosesNothingIff(run, events, n);
  }

  /** The block that an event executes has room for what it brings. */
  ghost predicate Roomy(w: World, event: Event) {
    event.Execute? && event.chain in w.ledgers ==>
      Room(w.ledgers[event.chain], event.chain, event.block.incoming)
  }

  /** Tokens are neither created nor lost by a run whose blocks have room for what they bring. */
  lemma RoomyRunConserves(run: seq<World>, events: seq<Event>, n: nat)
    requires IsRun(run, events) && Sound(run[0]) && n <= |events|
    requires forall i :: 0 <= i < n ==> Roomy(run[i], events[i])
    ensures Supply(run[n]) == Supply(run[0])
  {
    RunKeepsSupply(run, events, n);
    RoomyLosesNothing(run, events, n);
  }

  lemma RoomyLosesNothing(run: seq<World>, events: seq<Event>, n: nat)
    requires n <= |events| < |run| && forall i :: 0 <= i < n ==> Roomy(run[i], events[i])
    ensures Losses(run, events, n) == 0
  {
    SumIsZeroIff(LossAt(run, events), n);
    forall i | 0 <= i < n ensures LossAt(run, events)(i) == 0 {
      RoomyEventLosesNothing(run[i], events[i]);
    }
  }

  lemma RoomyEventLosesNothing(w: World, event: Event)
    requires Roomy(w, event)
    ensures Loss(w, event) == 0
  {
    if event.Execute? && event.chain in w.ledgers {
      RoomLosesNothing(w.ledgers[event.chain], event.chain, event.block);
    }
  }
}
