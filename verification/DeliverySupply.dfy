/** The supply of tokens over every run of the delivery protocol, where tokens travel as messages. */
module DeliverySupply {
  import opened Common
  import opened Sums
  import opened Inbox
  import opened Receiving
  import opened Delivery
  import opened DeliverySafety
  import opened DeliveryTheorems
  import opened Bookkeeping
  import Ledger

  /** The tokens that an event carries. */
  type Carrier = Event -> nat

  function Tokens(carried: Carrier, events: seq<Event>): nat {
    if events == [] then 0 else Tokens(carried, events[..|events| - 1]) + carried(events[|events| - 1])
  }

  /** The tokens that events bring to a chain. */
  function CarriedTo(decode: Decoding, chain: ChainId): Carrier {
    (e: Event) => Brings(decode, chain, e.message)
  }

  /** The tokens sent to a chain in the first blocks of a log. */
  function Sent(carried: Carrier, log: seq<Block>, b: ChainId, n: nat): nat
    requires n <= |log|
  {
    if n == 0 then 0
    else Sent(carried, log, b, n - 1) + Tokens(carried, EventsFor(log[n - 1], n - 1, b, Direct))
  }

  /** The tokens in those of the first blocks of a log that were not received. */
  function Unreceived(carried: Carrier, log: seq<Block>, received: seq<Height>, b: ChainId, n: nat): nat
    requires n <= |log|
  {
    if n == 0 then 0
    else Unreceived(carried, log, received, b, n - 1)
         + if n - 1 in received then 0 else Tokens(carried, EventsFor(log[n - 1], n - 1, b, Direct))
  }

  // ----- Sums over events -----

  ghost function EventTokens(carried: Carrier, events: set<Event>): map<Event, nat> {
    map e | e in events :: carried(e)
  }

  ghost function Elements(events: seq<Event>): set<Event> {
    set e | e in events
  }

  lemma {:induction false} TokensAdd(carried: Carrier, a: seq<Event>, b: seq<Event>)
    ensures Tokens(carried, a + b) == Tokens(carried, a) + Tokens(carried, b)
  {
    if b == [] {
      assert a + b == a;
    } else {
      TokensAdd(carried, a, b[..|b| - 1]);
      assert (a + b)[..|a + b| - 1] == a + b[..|b| - 1];
    }
  }

  /** The tokens of events in order are the sum over the set of these events, in any map of their tokens. */
  lemma {:induction false} TokensAreTotal(carried: Carrier, events: seq<Event>, m: map<Event, nat>)
    requires InOrder(events) && forall e :: e in events ==> At(m, e) == carried(e)
    ensures Tokens(carried, events) == Total(m, Elements(events))
  {
    if events != [] {
      var n := |events| - 1;
      var front, last := events[..n], events[n];
      LastApart(events);
      TokensAreTotal(carried, front, m);
      TotalPick(m, Elements(events), last);
    }
  }

  lemma LastApart(events: seq<Event>)
    requires InOrder(events) && events != []
    ensures var front, last := events[..|events| - 1], events[|events| - 1];
      && InOrder(front) && last in Elements(events) && Elements(events) - {last} == Elements(front)
      && (forall e :: e in front ==> e in events)
  {
    var n := |events| - 1;
    var front, last := events[..n], events[n];
    assert events == front + [last];
    forall e | e in front ensures e != last {
      var i :| 0 <= i < n && front[i] == e;
      assert events[i].At().Lt(events[n].At());
    }
  }

  // ----- One link -----

  /**
    The events that were added, or are expected because they were executed ahead, are those that were executed,
    or wait; others carry no tokens.
   */
  ghost predicate Split(carried: Carrier, e: Event, added: seq<Event>, ahead: seq<Event>, executed: seq<Event>,
                        waiting: seq<Event>) {
    && !(e in added && e in ahead) && !(e in executed && e in waiting)
    && (e in executed || e in waiting ==> e in added || e in ahead)
    && (e in added || e in ahead ==> e in executed || e in waiting || carried(e) == 0)
  }

  lemma SplitTokens(carried: Carrier, added: seq<Event>, ahead: seq<Event>, executed: seq<Event>, waiting: seq<Event>)
    requires InOrder(added) && InOrder(ahead) && InOrder(executed) && InOrder(waiting)
    requires forall e :: Split(carried, e, added, ahead, executed, waiting)
    ensures Tokens(carried, added) + Tokens(carried, ahead) == Tokens(carried, executed) + Tokens(carried, waiting)
  {
    var a, b, c, d := Elements(added), Elements(ahead), Elements(executed), Elements(waiting);
    SplitSets(carried, added, ahead, executed, waiting);
    var m := EventTokens(carried, a + b);
    TokensAreTotal(carried, added, m);
    TokensAreTotal(carried, ahead, m);
    TokensAreTotal(carried, executed, m);
    TokensAreTotal(carried, waiting, m);
    SetsBalance(m, a, b, c, d);
  }

  lemma SplitSets(carried: Carrier, added: seq<Event>, ahead: seq<Event>, executed: seq<Event>, waiting: seq<Event>)
    requires forall e :: Split(carried, e, added, ahead, executed, waiting)
    ensures var a, b, c, d := Elements(added), Elements(ahead), Elements(executed), Elements(waiting);
      && a !! b && c !! d && c + d <= a + b
      && (forall e :: e in a + b && e !in c + d ==> carried(e) == 0)
  {
    forall e
      ensures !(e in added && e in ahead) && !(e in executed && e in waiting)
      ensures e in executed || e in waiting ==> e in added || e in ahead
      ensures e in added || e in ahead ==> e in executed || e in waiting || carried(e) == 0
    {
      assert Split(carried, e, added, ahead, executed, waiting);
    }
  }

  lemma SetsBalance(m: map<Event, nat>, a: set<Event>, b: set<Event>, c: set<Event>, d: set<Event>)
    requires a !! b && c !! d && c + d <= a + b
    requires forall e :: e in a + b && e !in c + d ==> At(m, e) == 0
    ensures Total(m, a) + Total(m, b) == Total(m, c) + Total(m, d)
  {
    TotalDisjoint(m, a, b);
    TotalDisjoint(m, c, d);
    TotalPart(m, a + b, c + d);
  }

  /** Events that can be skipped carry no tokens. */
  ghost predicate Unskippable(carried: Carrier, events: seq<Event>) {
    forall e :: e in events && carried(e) > 0 ==> !e.isSkippable
  }

  /** What was received, or executed ahead of it, was executed, or waits. */
  lemma InboxTokens(actions: seq<Action>, carried: Carrier)
    requires Run(actions).Ok? && Unskippable(carried, Adds(actions))
    ensures var inbox := Run(actions).value;
      Tokens(carried, Adds(actions)) + Tokens(carried, inbox.removed)
      == Tokens(carried, Removes(actions)) + Tokens(carried, inbox.added)
  {
    var inbox := Run(actions).value;
    HistoriesInOrder(actions);
    forall e ensures Split(carried, e, Adds(actions), inbox.removed, Removes(actions), inbox.added) {
      HistoriesSplit(actions, carried, e);
    }
    SplitTokens(carried, Adds(actions), inbox.removed, Removes(actions), inbox.added);
  }

  lemma HistoriesInOrder(actions: seq<Action>)
    requires Run(actions).Ok?
    ensures InOrder(Adds(actions)) && InOrder(Removes(actions))
    ensures InOrder(Run(actions).value.added) && InOrder(Run(actions).value.removed)
  {
    RunIsReconciliation(actions);
    AtOrAboveTwice(Adds(actions), Next(Removes(actions)), Next(Removes(actions)));
    AtOrAboveTwice(Removes(actions), Next(Adds(actions)), Next(Adds(actions)));
  }

  lemma HistoriesSplit(actions: seq<Action>, carried: Carrier, e: Event)
    requires Run(actions).Ok? && Unskippable(carried, Adds(actions))
    ensures Split(carried, e, Adds(actions), Run(actions).value.removed, Removes(actions), Run(actions).value.added)
  {
    RunIsReconciliation(actions);
    var a, r := Adds(actions), Removes(actions);
    QueuesAreApart(a, r, e);
  }

  /** Where an event can be, in two histories that agree. */
  lemma QueuesAreApart(a: seq<Event>, r: seq<Event>, e: Event)
    requires Reconcilable(a, r)
    ensures e in AtOrAbove(a, Next(r)) ==> e in a && e !in r
    ensures e in AtOrAbove(r, Next(a)) ==> e in r && e !in a
    ensures e in a ==> e in r || e in AtOrAbove(a, Next(r)) || e.isSkippable
    ensures e in r ==> e in a || e in AtOrAbove(r, Next(a))
  {
    Accounted(a, r, e);
    AtOrAboveContains(a, Next(r), e);
    AtOrAboveContains(r, Next(a), e);
    NextCovers(a, e.At());
    NextCovers(r, e.At());
  }

  /** The tokens in those of the first blocks of a log that were received. */
  function ReceivedOf(carried: Carrier, log: seq<Block>, received: seq<Height>, b: ChainId, n: nat): nat
    requires n <= |log|
  {
    if n == 0 then 0
    else ReceivedOf(carried, log, received, b, n - 1)
         + if n - 1 in received then Tokens(carried, EventsFor(log[n - 1], n - 1, b, Direct)) else 0
  }

  lemma {:induction false} SentIsReceivedOrNot(carried: Carrier, log: seq<Block>, received: seq<Height>, b: ChainId,
                                               n: nat)
    requires n <= |log|
    ensures Sent(carried, log, b, n)
      == ReceivedOf(carried, log, received, b, n) + Unreceived(carried, log, received, b, n)
  {
    if n > 0 {
      SentIsReceivedOrNot(carried, log, received, b, n - 1);
    }
  }

  /** What was received is what the events of the received blocks carry. */
  lemma {:induction false} ReceivedIs(carried: Carrier, log: seq<Block>, received: seq<Height>, b: ChainId, n: nat)
    requires n <= |log| && Increasing(received) && forall h :: h in received ==> h < n
    ensures ReceivedOf(carried, log, received, b, n) == Tokens(carried, EventsOfBlocks(log, received, b, Direct))
    decreases |received|
  {
    if received == [] {
      NothingReceived(carried, log, received, b, 0, n);
    } else {
      var front, last := received[..|received| - 1], received[|received| - 1];
      WithoutLast(received);
      ReceivedIs(carried, log, front, b, last);
      LastReceived(carried, log, received, front, b, last);
      NothingReceived(carried, log, received, b, last + 1, n);
    }
  }

  lemma {:induction false} NothingReceived(carried: Carrier, log: seq<Block>, received: seq<Height>, b: ChainId,
                                           low: nat, n: nat)
    requires low <= n <= |log| && forall h :: h in received ==> h < low
    ensures ReceivedOf(carried, log, received, b, n) == ReceivedOf(carried, log, received, b, low)
  {
    if low < n {
      NothingReceived(carried, log, received, b, low, n - 1);
    }
  }

  lemma LastReceived(carried: Carrier, log: seq<Block>, received: seq<Height>, front: seq<Height>, b: ChainId, h: nat)
    requires h < |log| && received != [] && received[|received| - 1] == h && front == received[..|received| - 1]
    requires ReceivedOf(carried, log, front, b, h) == Tokens(carried, EventsOfBlocks(log, front, b, Direct))
    ensures ReceivedOf(carried, log, received, b, h + 1) == Tokens(carried, EventsOfBlocks(log, received, b, Direct))
  {
    assert received == front + [h];
    ReceivedSame(carried, log, received, front, b, h);
    TokensAdd(carried, EventsOfBlocks(log, front, b, Direct), EventsFor(log[h], h, b, Direct));
  }

  lemma {:induction false} ReceivedSame(carried: Carrier, log: seq<Block>, one: seq<Height>, two: seq<Height>,
                                        b: ChainId, n: nat)
    requires n <= |log| && forall h :: 0 <= h < n ==> (h in one <==> h in two)
    ensures ReceivedOf(carried, log, one, b, n) == ReceivedOf(carried, log, two, b, n)
  {
    if n > 0 {
      ReceivedSame(carried, log, one, two, b, n - 1);
    }
  }

  /** The tokens on their way from one chain to another: in blocks not received, or waiting in the inbox. */
  ghost function OnTheWay(s: State, carried: Carrier, a: ChainId, b: ChainId): nat {
    var log, to := s.nodes(a).log, s.nodes(b);
    Unreceived(carried, log, to.received(Origin(a, Direct)), b, |log|)
    + Tokens(carried, to.inbox(Origin(a, Direct)).added)
  }

  ghost function SentTo(s: State, carried: Carrier, a: ChainId, b: ChainId): nat {
    Sent(carried, s.nodes(a).log, b, |s.nodes(a).log|)
  }

  ghost function ConsumedFrom(s: State, carried: Carrier, a: ChainId, b: ChainId): nat {
    Tokens(carried, s.nodes(b).consumed(Origin(a, Direct)))
  }

  /** The tokens of messages that a chain executed ahead of receiving them. */
  ghost function AheadOf(s: State, carried: Carrier, a: ChainId, b: ChainId): nat {
    Tokens(carried, s.nodes(b).inbox(Origin(a, Direct)).removed)
  }

  /** No message in a log that carries tokens to a chain can be skipped. */
  ghost predicate LogUnskippable(carried: Carrier, log: seq<Block>, b: ChainId) {
    forall h :: 0 <= h < |log| ==> Unskippable(carried, EventsFor(log[h], h, b, Direct))
  }

  /**
    In every state of every run, what a chain sent to another was executed there or is on its way; what was
    executed ahead of being received counts on both sides.
   */
  lemma LinkConserves(states: seq<State>, steps: seq<Step>, i: nat, carried: Carrier, a: ChainId, b: ChainId)
    requires IsRun(states, steps) && i < |states| && LogUnskippable(carried, states[i].nodes(a).log, b)
    ensures SentTo(states[i], carried, a, b) + AheadOf(states[i], carried, a, b)
      == ConsumedFrom(states[i], carried, a, b) + OnTheWay(states[i], carried, a, b)
  {
    RunKeeps(states, steps, i);
    RunInterleaves(states, steps, i, a, b, Direct);
    var l := LinkOf(states[i], a, b, Direct);
    assert Good(l, b, Direct);
    var actions :| Run(actions) == Ok(l.inbox) && Adds(actions) == l.added && Removes(actions) == l.consumed;
    ReceivedUnskippable(carried, l.log, l.received, b);
    InboxTokens(actions, carried);
    SentIsReceivedOrNot(carried, l.log, l.received, b, |l.log|);
    ReceivedIs(carried, l.log, l.received, b, |l.log|);
  }

  lemma {:induction false} ReceivedUnskippable(carried: Carrier, log: seq<Block>, heights: seq<Height>, b: ChainId)
    requires LogUnskippable(carried, log, b)
    ensures Unskippable(carried, EventsOfBlocks(log, heights, b, Direct))
  {
    if heights != [] {
      ReceivedUnskippable(carried, log, heights[..|heights| - 1], b);
    }
  }

  // ----- The books agree with the protocol -----

  lemma TokensPush(carried: Carrier, events: seq<Event>, e: Event)
    ensures Tokens(carried, events + [e]) == Tokens(carried, events) + carried(e)
  {
    assert (events + [e])[..|events|] == events;
  }

  /** What a block sends to a chain is what its ledger accounts for. */
  lemma {:induction false} BlockSends(decode: Decoding, block: Block, h: Height, b: ChainId, n: nat)
    requires n <= |block.messages|
    ensures Tokens(CarriedTo(decode, b), EventsUpTo(block, h, b, Direct, n))
      == WeightAt(AllSends(decode, block.messages[..n]), b)
  {
    if n > 0 {
      BlockSends(decode, block, h, b, n - 1);
      OneMoreEvent(decode, block, h, b, n - 1);
      OneMoreMessage(decode, block.messages, b, n - 1);
    }
  }

  lemma OneMoreMessage(decode: Decoding, messages: seq<OutgoingMessage>, b: ChainId, i: nat)
    requires i < |messages|
    ensures var sends := Sends(decode, messages[i]);
      WeightAt(AllSends(decode, messages[..i + 1]), b)
      == WeightAt(AllSends(decode, messages[..i]), b) + if sends.key == Some(b) then sends.weight else 0
  {
    assert messages[..i + 1][..i] == messages[..i];
    WeightPush(AllSends(decode, messages[..i]), Sends(decode, messages[i]), b);
  }

  lemma OneMoreEvent(decode: Decoding, block: Block, h: Height, b: ChainId, i: nat)
    requires i < |block.messages|
    ensures var sends := Sends(decode, block.messages[i]);
      Tokens(CarriedTo(decode, b), EventsUpTo(block, h, b, Direct, i + 1))
      == Tokens(CarriedTo(decode, b), EventsUpTo(block, h, b, Direct, i))
         + if sends.key == Some(b) then sends.weight else 0
  {
    var before := EventsUpTo(block, h, b, Direct, i);
    if Concerns(block.messages[i], b, Direct) {
      TokensPush(CarriedTo(decode, b), before, EventAt(block, h, i));
    } else {
      assert before + [] == before;
    }
  }

  lemma {:induction false} LogSendsTo(decode: Decoding, log: seq<Block>, b: ChainId, n: nat)
    requires n <= |log|
    ensures Sent(CarriedTo(decode, b), log, b, n) == WeightAt(LogSends(decode, log, n), b)
  {
    if n > 0 {
      LogSendsTo(decode, log, b, n - 1);
      LogSendsMore(decode, log, b, n - 1);
    }
  }

  lemma LogSendsMore(decode: Decoding, log: seq<Block>, b: ChainId, h: nat)
    requires h < |log|
    ensures WeightAt(LogSends(decode, log, h + 1), b)
      == WeightAt(LogSends(decode, log, h), b) + Tokens(CarriedTo(decode, b), EventsFor(log[h], h, b, Direct))
  {
    WholeBlockSends(decode, log[h], h, b);
    WeightAtAdd(LogSends(decode, log, h), AllSends(decode, log[h].messages), b);
  }

  lemma WholeBlockSends(decode: Decoding, block: Block, h: Height, b: ChainId)
    ensures Tokens(CarriedTo(decode, b), EventsFor(block, h, b, Direct))
      == WeightAt(AllSends(decode, block.messages), b)
  {
    BlockSends(decode, block, h, b, |block.messages|);
    assert block.messages[..|block.messages|] == block.messages;
  }

  lemma {:induction false} TakenFrom(decode: Decoding, c: ChainId, deliveries: seq<Consumption>, a: ChainId)
    ensures WeightAt(AllTaken(decode, c, deliveries), a)
      == Tokens(CarriedTo(decode, c), From(deliveries, Origin(a, Direct)))
  {
    if deliveries != [] {
      var front, last := deliveries[..|deliveries| - 1], deliveries[|deliveries| - 1];
      TakenFrom(decode, c, front, a);
      WeightPush(AllTaken(decode, c, front), Taken(decode, c, last), a);
      if last.origin == Origin(a, Direct) {
        TokensPush(CarriedTo(decode, c), From(front, last.origin), last.event);
      } else {
        assert From(front, Origin(a, Direct)) + [] == From(front, Origin(a, Direct));
      }
    }
  }

  /** The log of a chain that keeps books has no credit that can be skipped. */
  lemma BookedUnskippable(decode: Decoding, a: ChainId, books: Books, taken: seq<seq<Consumption>>, log: seq<Block>,
                          b: ChainId)
    requires Booked(decode, a, books, taken, log) && |taken| == |log|
    ensures LogUnskippable(CarriedTo(decode, b), log, b)
  {
    forall h, e | 0 <= h < |log| && e in EventsFor(log[h], h, b, Direct) && CarriedTo(decode, b)(e) > 0
      ensures !e.isSkippable
    {
      assert EntryAt(decode, a, books, taken, log, h);
      EventsUpToMeaning(log[h], h, b, Direct, |log[h].messages|);
      var before := Ledger.ExecuteBlocks(books.start, a, books.blocks[..h]);
      EntryIsFirm(decode, a, before, books.blocks[h], taken[h], log[h], e.index);
    }
  }

  // ----- All the chains -----

  /** The tokens sent, executed, on their way and executed ahead, by sender and recipient. */
  ghost function SentTable(s: State, decode: Decoding): (ChainId, ChainId) -> nat {
    (a, b) => SentTo(s, CarriedTo(decode, b), a, b)
  }

  ghost function ConsumedTable(s: State, decode: Decoding): (ChainId, ChainId) -> nat {
    (a, b) => ConsumedFrom(s, CarriedTo(decode, b), a, b)
  }

  ghost function WayTable(s: State, decode: Decoding): (ChainId, ChainId) -> nat {
    (a, b) => OnTheWay(s, CarriedTo(decode, b), a, b)
  }

  ghost function AheadTable(s: State, decode: Decoding): (ChainId, ChainId) -> nat {
    (a, b) => AheadOf(s, CarriedTo(decode, b), a, b)
  }

  /** Sent or executed ahead, and so executed or on its way. */
  ghost function BothTable(s: State, decode: Decoding): (ChainId, ChainId) -> nat {
    (a, b) => SentTo(s, CarriedTo(decode, b), a, b) + AheadOf(s, CarriedTo(decode, b), a, b)
  }

  type Library = map<ChainId, Books>

  /** What a chain holds, with what was consumed for the block that it is building. */
  ghost function Kept(decode: Decoding, books: Books, c: ChainId, j: Journal): nat {
    var executed := Ledger.ExecuteBlocks(books.start, c, books.blocks);
    Weight(AllTaken(decode, c, j.open)) + if executed.Ok? then Ledger.Worth(executed.value.balances) else 0
  }

  /** What left these chains: fees, burned tokens, what saturation lost, and what was sent to others. */
  ghost function Gone(decode: Decoding, books: Books, c: ChainId, log: seq<Block>, chains: set<ChainId>): nat {
    var executed := Ledger.ExecuteBlocks(books.start, c, books.blocks);
    Ledger.BlocksFees(books.blocks) + Ledger.BlocksLoss(books.start, c, books.blocks)
    + WeightOutside(LogSends(decode, log, |log|), chains)
    + if executed.Ok? then executed.value.burned else 0
  }

  /** What a chain started with, and what it took from others. */
  ghost function Entered(decode: Decoding, books: Books, c: ChainId, j: Journal, chains: set<ChainId>): nat {
    Ledger.Worth(books.start) + WeightOutside(AllTaken(decode, c, j.All()), chains)
  }

  /** What one chain keeps, lost and sent to the others is what entered it and what it executed from the others. */
  lemma ChainConserves(s: State, decode: Decoding, books: Books, c: ChainId, j: Journal, chains: set<ChainId>)
    requires Records(s.nodes(c), j) && Booked(decode, c, books, j.blocks, s.nodes(c).log)
    ensures Kept(decode, books, c, j) + Gone(decode, books, c, s.nodes(c).log, chains)
      + Total(Row(SentTable(s, decode), c, chains), chains)
      == Entered(decode, books, c, j, chains) + Total(Column(ConsumedTable(s, decode), chains, c), chains)
  {
    var log := s.nodes(c).log;
    BooksAreBalanced(decode, c, books, j.blocks, log, |log|);
    assert books.blocks[..|log|] == books.blocks && j.blocks[..|log|] == j.blocks;
    Ledger.BlocksConserve(books.start, c, books.blocks);
    SentIsPosted(s, decode, c, chains);
    TakenIsPosted(s, decode, c, j, chains);
  }

  lemma SentIsPosted(s: State, decode: Decoding, c: ChainId, chains: set<ChainId>)
    ensures var sends := LogSends(decode, s.nodes(c).log, |s.nodes(c).log|);
      Weight(sends) == Total(Row(SentTable(s, decode), c, chains), chains) + WeightOutside(sends, chains)
  {
    var log := s.nodes(c).log;
    var sends := LogSends(decode, log, |log|);
    WeightSplits(sends, chains);
    forall b | b in chains ensures At(Row(SentTable(s, decode), c, chains), b) == At(Weights(sends, chains), b) {
      LogSendsTo(decode, log, b, |log|);
    }
    TotalSame(Row(SentTable(s, decode), c, chains), Weights(sends, chains), chains);
  }

  lemma TakenIsPosted(s: State, decode: Decoding, c: ChainId, j: Journal, chains: set<ChainId>)
    requires Records(s.nodes(c), j)
    ensures Weight(AllTaken(decode, c, Flatten(j.blocks))) + Weight(AllTaken(decode, c, j.open))
      == Total(Column(ConsumedTable(s, decode), chains, c), chains)
         + WeightOutside(AllTaken(decode, c, j.All()), chains)
  {
    var taken := AllTaken(decode, c, j.All());
    WeightOfParts(decode, c, Flatten(j.blocks), j.open);
    WeightSplits(taken, chains);
    forall a | a in chains ensures At(Column(ConsumedTable(s, decode), chains, c), a) == At(Weights(taken, chains), a) {
      TakenFrom(decode, c, j.All(), a);
    }
    TotalSame(Column(ConsumedTable(s, decode), chains, c), Weights(taken, chains), chains);
  }

  ghost function KeptBy(decode: Decoding, library: Library, steps: seq<Step>, i: nat): map<ChainId, nat>
    requires i <= |steps|
  {
    map c | c in library :: Kept(decode, library[c], c, JournalOf(steps, i, c))
  }

  ghost function GoneFrom(decode: Decoding, library: Library, s: State): map<ChainId, nat> {
    map c | c in library :: Gone(decode, library[c], c, s.nodes(c).log, library.Keys)
  }

  ghost function EnteredInto(decode: Decoding, library: Library, steps: seq<Step>, i: nat): map<ChainId, nat>
    requires i <= |steps|
  {
    map c | c in library :: Entered(decode, library[c], c, JournalOf(steps, i, c), library.Keys)
  }

  ghost function OnTheWayFrom(decode: Decoding, s: State, chains: set<ChainId>): map<ChainId, nat> {
    RowTotals(WayTable(s, decode), chains, chains)
  }

  ghost function AheadFrom(decode: Decoding, s: State, chains: set<ChainId>): map<ChainId, nat> {
    RowTotals(AheadTable(s, decode), chains, chains)
  }

  /** Every chain of a library keeps books, at some point of a run. */
  ghost predicate AllBooked(decode: Decoding, library: Library, s: State, steps: seq<Step>, i: nat)
    requires i <= |steps|
  {
    forall c :: c in library ==> Booked(decode, c, library[c], JournalOf(steps, i, c).blocks, s.nodes(c).log)
  }

  /**
    In every state of every run of the protocol, what all the chains keep, what is on its way between them, and
    what left them add up to what entered them, and what was executed ahead of being received.
   */
  lemma SupplyIsConserved(states: seq<State>, steps: seq<Step>, i: nat, decode: Decoding, library: Library)
    requires IsRun(states, steps) && i < |states| && AllBooked(decode, library, states[i], steps, i)
    ensures Total(KeptBy(decode, library, steps, i), library.Keys)
      + Total(GoneFrom(decode, library, states[i]), library.Keys)
      + Total(OnTheWayFrom(decode, states[i], library.Keys), library.Keys)
      == Total(EnteredInto(decode, library, steps, i), library.Keys)
      + Total(AheadFrom(decode, states[i], library.Keys), library.Keys)
  {
    WaysConserve(states, steps, i, decode, library);
    BooksConserve(states, steps, i, decode, library);
  }

  lemma BookedLinkConserves(states: seq<State>, steps: seq<Step>, i: nat, decode: Decoding, library: Library,
                            a: ChainId, b: ChainId)
    requires IsRun(states, steps) && i < |states| && AllBooked(decode, library, states[i], steps, i)
    requires a in library
    ensures BothTable(states[i], decode)(a, b)
      == ConsumedTable(states[i], decode)(a, b) + WayTable(states[i], decode)(a, b)
  {
    JournalIsHistory(states, steps, i, a);
    BookedUnskippable(decode, a, library[a], JournalOf(steps, i, a).blocks, states[i].nodes(a).log, b);
    LinkConserves(states, steps, i, CarriedTo(decode, b), a, b);
  }

  /** What all the chains sent and executed ahead is what they executed and what is on its way. */
  lemma WaysConserve(states: seq<State>, steps: seq<Step>, i: nat, decode: Decoding, library: Library)
    requires IsRun(states, steps) && i < |states| && AllBooked(decode, library, states[i], steps, i)
    ensures var s, chains := states[i], library.Keys;
      Total(RowTotals(SentTable(s, decode), chains, chains), chains) + Total(AheadFrom(decode, s, chains), chains)
      == Total(ColumnTotals(ConsumedTable(s, decode), chains, chains), chains)
         + Total(OnTheWayFrom(decode, s, chains), chains)
  {
    var s, chains := states[i], library.Keys;
    forall a, b | a in chains && b in chains
      ensures BothTable(s, decode)(a, b) == ConsumedTable(s, decode)(a, b) + WayTable(s, decode)(a, b)
    {
      BookedLinkConserves(states, steps, i, decode, library, a, b);
    }
    TablesConserve(SentTable(s, decode), AheadTable(s, decode), ConsumedTable(s, decode), WayTable(s, decode),
                   BothTable(s, decode), chains);
  }

  lemma TablesConserve(sent: (ChainId, ChainId) -> nat, ahead: (ChainId, ChainId) -> nat,
                       consumed: (ChainId, ChainId) -> nat, way: (ChainId, ChainId) -> nat,
                       both: (ChainId, ChainId) -> nat, chains: set<ChainId>)
    requires forall a, b :: a in chains && b in chains ==> both(a, b) == sent(a, b) + ahead(a, b)
    requires forall a, b :: a in chains && b in chains ==> both(a, b) == consumed(a, b) + way(a, b)
    ensures Total(RowTotals(sent, chains, chains), chains) + Total(RowTotals(ahead, chains, chains), chains)
      == Total(ColumnTotals(consumed, chains, chains), chains) + Total(RowTotals(way, chains, chains), chains)
  {
    TotalTables(sent, ahead, both, chains, chains);
    TotalTables(consumed, way, both, chains, chains);
    TotalSwap(consumed, chains, chains);
  }

  lemma BooksConserve(states: seq<State>, steps: seq<Step>, i: nat, decode: Decoding, library: Library)
    requires IsRun(states, steps) && i < |states| && AllBooked(decode, library, states[i], steps, i)
    ensures var s, chains := states[i], library.Keys;
      Total(KeptBy(decode, library, steps, i), chains) + Total(GoneFrom(decode, library, s), chains)
      + Total(RowTotals(SentTable(s, decode), chains, chains), chains)
      == Total(EnteredInto(decode, library, steps, i), chains)
         + Total(ColumnTotals(ConsumedTable(s, decode), chains, chains), chains)
  {
    var s, chains := states[i], library.Keys;
    var kept, gone, entered := KeptBy(decode, library, steps, i), GoneFrom(decode, library, s),
      EnteredInto(decode, library, steps, i);
    var sent := RowTotals(SentTable(s, decode), chains, chains);
    var consumed := ColumnTotals(ConsumedTable(s, decode), chains, chains);
    forall c | c in chains ensures At(kept, c) + At(gone, c) + At(sent, c) == At(entered, c) + At(consumed, c) {
      JournalIsHistory(states, steps, i, c);
      ChainConserves(s, decode, library[c], c, JournalOf(steps, i, c), chains);
    }
    TotalBalance(kept, gone, sent, entered, consumed, chains);
  }
}
