/**
  The ledger of a chain next to the delivery protocol: its blocks execute the messages that the chain
  consumed, and send the messages of its log.
 */
module Bookkeeping {
  import opened Common
  import opened Sums
  import opened Inbox
  import opened Receiving
  import opened Delivery
  import opened DeliverySafety
  import Ledger
  import Supply

  /** The credit or the withdrawal that a message stands for, if any. */
  type Decoding = Message -> Option<Ledger.SystemMessage>

  /** The tokens that a message brings to a chain. */
  function Brings(decode: Decoding, chain: ChainId, message: Message): nat {
    match decode(message)
    case Some(m) => Ledger.CreditTo(chain, m)
    case None => 0
  }

  // ----- What a chain consumes, block by block -----

  /** A message consumed from an inbox. */
  datatype Consumption = Consumption(origin: Origin, event: Event)

  /** The messages consumed by each block of a chain, and those consumed for the next one. */
  datatype Journal = Journal(blocks: seq<seq<Consumption>>, open: seq<Consumption>) {
    function All(): seq<Consumption> {
      Flatten(blocks) + open
    }
  }

  function Flatten(blocks: seq<seq<Consumption>>): seq<Consumption> {
    if blocks == [] then [] else Flatten(blocks[..|blocks| - 1]) + blocks[|blocks| - 1]
  }

  /** The journal of a chain after one more step. */
  function Record(j: Journal, step: Step, c: ChainId): Journal {
    match step
    case ConsumeMessage(chain, origin, event) =>
      if chain == c then j.(open := j.open + [Consumption(origin, event)]) else j
    case ExecuteBlock(chain, _, _) => if chain == c then Journal(j.blocks + [j.open], []) else j
    case _ => j
  }

  /** The journal of a chain after the first steps of a run. */
  function JournalOf(steps: seq<Step>, n: nat, c: ChainId): Journal
    requires n <= |steps|
  {
    if n == 0 then Journal([], []) else Record(JournalOf(steps, n - 1, c), steps[n - 1], c)
  }

  /** The events that were consumed from one inbox. */
  function From(deliveries: seq<Consumption>, o: Origin): seq<Event> {
    if deliveries == [] then []
    else var last := deliveries[|deliveries| - 1];
      From(deliveries[..|deliveries| - 1], o) + if last.origin == o then [last.event] else []
  }

  /** A journal has one entry for each block, and what was consumed from every inbox. */
  ghost predicate Records(n: Node, j: Journal) {
    |j.blocks| == |n.log| && forall o :: From(j.All(), o) == n.consumed(o)
  }

  lemma {:induction false} FromAdd(a: seq<Consumption>, b: seq<Consumption>, o: Origin)
    ensures From(a + b, o) == From(a, o) + From(b, o)
  {
    if b == [] {
      assert a + b == a;
    } else {
      FromAdd(a, b[..|b| - 1], o);
      assert (a + b)[..|a + b| - 1] == a + b[..|b| - 1];
    }
  }

  /** Closing a block of the journal changes nothing in what was consumed. */
  lemma CloseKeepsAll(j: Journal)
    ensures Journal(j.blocks + [j.open], []).All() == j.All()
  {
    assert (j.blocks + [j.open])[..|j.blocks|] == j.blocks;
  }

  lemma ConsumeRecords(n: Node, n': Node, j: Journal, d: Consumption)
    requires Records(n, j) && n'.log == n.log
    requires forall o :: n'.consumed(o) == n.consumed(o) + if o == d.origin then [d.event] else []
    ensures Records(n', j.(open := j.open + [d]))
  {
    var j' := j.(open := j.open + [d]);
    assert j'.All() == j.All() + [d];
    assert [d][..0] == [];
    forall o ensures From(j'.All(), o) == n'.consumed(o) {
      FromAdd(j.All(), [d], o);
    }
  }

  lemma StepRecords(s: State, step: Step, s': State, j: Journal, c: ChainId)
    requires Transition(s, step, s') && Records(s.nodes(c), j)
    ensures Records(s'.nodes(c), Record(j, step, c))
  {
    match step {
      case ConsumeMessage(chain, origin, event) =>
        if chain == c {
          ConsumeRecords(s.nodes(c), s'.nodes(c), j, Consumption(origin, event));
        }
      case ExecuteBlock(chain, results, block) =>
        RouteAllFrame(s.nodes(chain), |s.nodes(chain).log|, results);
        CloseKeepsAll(j);
      case _ =>
    }
  }

  /** On every run, what a chain consumed is what its blocks and the next one took. */
  lemma {:induction false} JournalIsHistory(states: seq<State>, steps: seq<Step>, i: nat, c: ChainId)
    requires IsRun(states, steps) && i < |states|
    ensures Records(states[i].nodes(c), JournalOf(steps, i, c))
  {
    if i > 0 {
      JournalIsHistory(states, steps, i - 1, c);
      StepRecords(states[i - 1], steps[i - 1], states[i], JournalOf(steps, i - 1, c), c);
    }
  }

  // ----- The books of a chain -----

  /** The ledger of a chain: how it started, and its blocks. */
  datatype Books = Books(start: Ledger.Balances, blocks: seq<Ledger.Block>)

  /** A ledger executes a message as what it stands for. */
  predicate ExecutedAs(decode: Decoding, d: Consumption, m: Ledger.Incoming) {
    && m.signer == d.event.signer
    && match decode(d.event.message)
       case Some(message) => m.message == message
       case None => m.message.OtherMessage?
  }

  predicate AllExecutedAs(decode: Decoding, taken: seq<Consumption>, incoming: seq<Ledger.Incoming>) {
    |taken| == |incoming| && forall k :: 0 <= k < |taken| ==> ExecutedAs(decode, taken[k], incoming[k])
  }

  /** A block lists messages that were consumed, in an order of its own, but that of the inbox for each origin. */
  ghost predicate Reorders(listed: seq<Consumption>, taken: seq<Consumption>) {
    forall o :: From(listed, o) == From(taken, o)
  }

  ghost predicate Executes(decode: Decoding, taken: seq<Consumption>, incoming: seq<Ledger.Incoming>) {
    exists listed :: Reorders(listed, taken) && AllExecutedAs(decode, listed, incoming)
  }

  /** A message of a block that stands for a credit or a withdrawal. */
  predicate IsTransfer(decode: Decoding, m: OutgoingMessage) {
    m.destination.Recipient? && decode(m.message).Some?
  }

  function Transfers(decode: Decoding, messages: seq<OutgoingMessage>): seq<OutgoingMessage> {
    if messages == [] then []
    else var last := messages[|messages| - 1];
      Transfers(decode, messages[..|messages| - 1]) + if IsTransfer(decode, last) then [last] else []
  }

  /** A message in a block is one that its ledger sent. */
  predicate SentAs(decode: Decoding, m: OutgoingMessage, o: Ledger.Outgoing, signer: Option<Owner>) {
    && m.destination == Recipient(o.target) && decode(m.message) == Some(o.message)
    && m.isSkippable == o.isSkippable && m.signer == if o.authenticated then signer else None
  }

  predicate AllSentAs(decode: Decoding, transfers: seq<OutgoingMessage>, sent: seq<Ledger.Outgoing>,
                      signer: Option<Owner>) {
    |transfers| == |sent| && forall k :: 0 <= k < |sent| ==> SentAs(decode, transfers[k], sent[k], signer)
  }

  /** A block executes on the balances before it, takes what was consumed for it, and sends what is in the log. */
  ghost predicate Entry(decode: Decoding, c: ChainId, before: Ledger.Execution, ledger: Ledger.Block,
                        taken: seq<Consumption>, block: Block) {
    && before.Ok?
    && var executed := Ledger.ExecuteBlock(before.value.balances, c, ledger);
    && executed.Ok? && Executes(decode, taken, ledger.incoming)
    && AllSentAs(decode, Transfers(decode, block.messages), executed.value.sent, ledger.signer)
  }

  ghost predicate EntryAt(decode: Decoding, c: ChainId, books: Books, taken: seq<seq<Consumption>>, log: seq<Block>,
                          h: nat)
    requires h < |books.blocks| && h < |taken| && h < |log|
  {
    Entry(decode, c, Ledger.ExecuteBlocks(books.start, c, books.blocks[..h]), books.blocks[h], taken[h], log[h])
  }

  /** The books of a chain have an entry for each block of its log. */
  ghost predicate Booked(decode: Decoding, c: ChainId, books: Books, taken: seq<seq<Consumption>>, log: seq<Block>) {
    && |books.blocks| == |log|
    && (forall h :: 0 <= h < |log| && h < |taken| ==> EntryAt(decode, c, books, taken, log, h))
  }

  // ----- What the blocks of a chain take -----

  /** The tokens of a consumed message, for the chain that sent it directly. */
  function Taken(decode: Decoding, c: ChainId, d: Consumption): Post<ChainId> {
    Post(if d.origin.medium == Direct then Some(d.origin.sender) else None, Brings(decode, c, d.event.message))
  }

  function AllTaken(decode: Decoding, c: ChainId, deliveries: seq<Consumption>): seq<Post<ChainId>> {
    if deliveries == [] then []
    else AllTaken(decode, c, deliveries[..|deliveries| - 1]) + [Taken(decode, c, deliveries[|deliveries| - 1])]
  }

  lemma {:induction false} AllTakenAdd(decode: Decoding, c: ChainId, a: seq<Consumption>, b: seq<Consumption>)
    ensures AllTaken(decode, c, a + b) == AllTaken(decode, c, a) + AllTaken(decode, c, b)
  {
    if b == [] {
      assert a + b == a;
    } else {
      AllTakenAdd(decode, c, a, b[..|b| - 1]);
      assert (a + b)[..|a + b| - 1] == a + b[..|b| - 1];
    }
  }

  // ----- The order does not matter -----

  lemma {:induction false} CountFrom(deliveries: seq<Consumption>, d: Consumption)
    ensures multiset(deliveries)[d] == multiset(From(deliveries, d.origin))[d.event]
  {
    if deliveries != [] {
      var front, last := deliveries[..|deliveries| - 1], deliveries[|deliveries| - 1];
      CountFrom(front, d);
      assert deliveries == front + [last];
    }
  }

  lemma SameConsumed(a: seq<Consumption>, b: seq<Consumption>)
    requires Reorders(a, b)
    ensures multiset(a) == multiset(b)
  {
    forall d ensures multiset(a)[d] == multiset(b)[d] {
      CountFrom(a, d);
      CountFrom(b, d);
    }
  }

  lemma {:induction false} SameWeight(decode: Decoding, c: ChainId, a: seq<Consumption>, b: seq<Consumption>)
    requires multiset(a) == multiset(b)
    ensures Weight(AllTaken(decode, c, a)) == Weight(AllTaken(decode, c, b))
    decreases |a|
  {
    if a == [] {
      assert |multiset(b)| == 0;
    } else {
      var front, last := a[..|a| - 1], a[|a| - 1];
      assert a == front + [last];
      assert last in multiset(b);
      var j :| 0 <= j < |b| && b[j] == last;
      WithoutOne(front, last, b, j);
      SameWeight(decode, c, front, b[..j] + b[j + 1..]);
      WeightWithout(decode, c, a, |a| - 1);
      assert a[..|a| - 1] + a[|a|..] == front;
      WeightWithout(decode, c, b, j);
    }
  }

  lemma WithoutOne(front: seq<Consumption>, last: Consumption, b: seq<Consumption>, j: nat)
    requires multiset(front + [last]) == multiset(b) && j < |b| && b[j] == last
    ensures multiset(front) == multiset(b[..j] + b[j + 1..])
  {
    Without(b, j);
    assert multiset(front + [last]) - multiset{last} == multiset(front);
  }

  lemma Without(b: seq<Consumption>, j: nat)
    requires j < |b|
    ensures multiset(b) - multiset{b[j]} == multiset(b[..j] + b[j + 1..])
  {
    var left, right := b[..j], b[j + 1..];
    assert b == left + [b[j]] + right;
    assert multiset(left + [b[j]] + right) == multiset(left) + multiset{b[j]} + multiset(right);
    assert multiset(left + right) == multiset(left) + multiset(right);
  }

  lemma WeightWithout(decode: Decoding, c: ChainId, s: seq<Consumption>, j: nat)
    requires j < |s|
    ensures Weight(AllTaken(decode, c, s))
      == Weight(AllTaken(decode, c, s[..j] + s[j + 1..])) + Taken(decode, c, s[j]).weight
  {
    var left, right := s[..j], s[j + 1..];
    assert s == s[..j + 1] + right;
    WeightOfParts(decode, c, s[..j + 1], right);
    WeightOfParts(decode, c, left, right);
    assert s[..j + 1][..j] == left;
    WeightPush(AllTaken(decode, c, left), Taken(decode, c, s[j]), 0);
  }

  lemma WeightOfParts(decode: Decoding, c: ChainId, a: seq<Consumption>, b: seq<Consumption>)
    ensures Weight(AllTaken(decode, c, a + b)) == Weight(AllTaken(decode, c, a)) + Weight(AllTaken(decode, c, b))
  {
    AllTakenAdd(decode, c, a, b);
    WeightAdd(AllTaken(decode, c, a), AllTaken(decode, c, b));
  }

  /** The credits that a ledger block receives are those of the messages that were consumed for it. */
  lemma TakenCredits(decode: Decoding, c: ChainId, taken: seq<Consumption>, incoming: seq<Ledger.Incoming>)
    requires Executes(decode, taken, incoming)
    ensures Weight(AllTaken(decode, c, taken)) == Ledger.CreditsTo(c, incoming)
  {
    var listed :| Reorders(listed, taken) && AllExecutedAs(decode, listed, incoming);
    SameConsumed(listed, taken);
    SameWeight(decode, c, listed, taken);
    ListedCredits(decode, c, listed, incoming);
  }

  lemma {:induction false} ListedCredits(decode: Decoding, c: ChainId, taken: seq<Consumption>,
                                         incoming: seq<Ledger.Incoming>)
    requires AllExecutedAs(decode, taken, incoming)
    ensures Weight(AllTaken(decode, c, taken)) == Ledger.CreditsTo(c, incoming)
  {
    if taken != [] {
      var n := |taken| - 1;
      ListedCredits(decode, c, taken[..n], incoming[..n]);
      assert ExecutedAs(decode, taken[n], incoming[n]);
      WeightPush(AllTaken(decode, c, taken[..n]), Taken(decode, c, taken[n]), 0);
    }
  }

  // ----- What the blocks of a chain send -----

  /** The tokens of a message in a block, for the chain that it is sent to directly. */
  function Sends(decode: Decoding, m: OutgoingMessage): Post<ChainId> {
    match m.destination
    case Recipient(id) => Post(Some(id), Brings(decode, id, m.message))
    case Subscribers(_) => Post(None, 0)
  }

  function AllSends(decode: Decoding, messages: seq<OutgoingMessage>): seq<Post<ChainId>> {
    if messages == [] then []
    else AllSends(decode, messages[..|messages| - 1]) + [Sends(decode, messages[|messages| - 1])]
  }

  /** What the first blocks of a log send. */
  function LogSends(decode: Decoding, log: seq<Block>, n: nat): seq<Post<ChainId>>
    requires n <= |log|
  {
    if n == 0 then [] else LogSends(decode, log, n - 1) + AllSends(decode, log[n - 1].messages)
  }

  lemma OneMoreSends(decode: Decoding, messages: seq<OutgoingMessage>, m: OutgoingMessage)
    ensures Weight(AllSends(decode, messages + [m])) == Weight(AllSends(decode, messages)) + Sends(decode, m).weight
  {
    assert (messages + [m])[..|messages|] == messages;
    WeightPush(AllSends(decode, messages), Sends(decode, m), 0);
  }

  lemma OneMoreTransfer(decode: Decoding, front: seq<OutgoingMessage>, last: OutgoingMessage)
    ensures Transfers(decode, front + [last])
      == Transfers(decode, front) + if IsTransfer(decode, last) then [last] else []
    ensures !IsTransfer(decode, last) ==> Sends(decode, last).weight == 0
  {
    assert (front + [last])[..|front|] == front;
  }

  /** Only transfers carry tokens. */
  lemma {:induction false} TransfersWeigh(decode: Decoding, messages: seq<OutgoingMessage>)
    ensures Weight(AllSends(decode, messages)) == Weight(AllSends(decode, Transfers(decode, messages)))
  {
    if messages != [] {
      var front, last := messages[..|messages| - 1], messages[|messages| - 1];
      assert messages == front + [last];
      TransfersWeigh(decode, front);
      TransfersWeighMore(decode, messages, front, last, Transfers(decode, front), Transfers(decode, messages));
    }
  }

  lemma TransfersWeighMore(decode: Decoding, messages: seq<OutgoingMessage>, front: seq<OutgoingMessage>,
                           last: OutgoingMessage, before: seq<OutgoingMessage>, transfers: seq<OutgoingMessage>)
    requires messages == front + [last]
    requires before == Transfers(decode, front) && transfers == Transfers(decode, messages)
    requires Weight(AllSends(decode, front)) == Weight(AllSends(decode, before))
    ensures Weight(AllSends(decode, messages)) == Weight(AllSends(decode, transfers))
  {
    OneMoreSends(decode, front, last);
    OneMoreTransfer(decode, front, last);
    if IsTransfer(decode, last) {
      OneMoreSends(decode, before, last);
    } else {
      assert transfers == before;
    }
  }

  lemma {:induction false} SentCredits(decode: Decoding, transfers: seq<OutgoingMessage>, sent: seq<Ledger.Outgoing>,
                                       signer: Option<Owner>)
    requires AllSentAs(decode, transfers, sent, signer)
    ensures Weight(AllSends(decode, transfers)) == Ledger.CreditsSent(sent)
  {
    if sent != [] {
      var n := |sent| - 1;
      SentCredits(decode, transfers[..n], sent[..n], signer);
      assert SentAs(decode, transfers[n], sent[n], signer);
      assert transfers == transfers[..n] + [transfers[n]];
      OneMoreSends(decode, transfers[..n], transfers[n]);
    }
  }

  // ----- All the blocks of a chain -----

  /** The first blocks of the books execute, receive what was consumed for them, and send what is in the log. */
  ghost predicate BooksBalance(decode: Decoding, c: ChainId, books: Books, taken: seq<seq<Consumption>>,
                               log: seq<Block>, n: nat)
    requires n <= |books.blocks| && n <= |taken| && n <= |log|
  {
    var executed := Ledger.ExecuteBlocks(books.start, c, books.blocks[..n]);
    && executed.Ok?
    && Ledger.CreditsSent(executed.value.sent) == Weight(LogSends(decode, log, n))
    && Ledger.BlocksCredits(c, books.blocks[..n]) == Weight(AllTaken(decode, c, Flatten(taken[..n])))
  }

  lemma {:induction false} BooksAreBalanced(decode: Decoding, c: ChainId, books: Books, taken: seq<seq<Consumption>>,
                                            log: seq<Block>, n: nat)
    requires Booked(decode, c, books, taken, log) && |taken| == |log| && n <= |log|
    ensures BooksBalance(decode, c, books, taken, log, n)
  {
    if n == 0 {
      assert books.blocks[..0] == [] && taken[..0] == [];
    } else {
      BooksAreBalanced(decode, c, books, taken, log, n - 1);
      EntryBalances(decode, c, books, taken, log, n - 1);
    }
  }

  lemma EntryBalances(decode: Decoding, c: ChainId, books: Books, taken: seq<seq<Consumption>>, log: seq<Block>, h: nat)
    requires h < |books.blocks| && h < |taken| && h < |log| && EntryAt(decode, c, books, taken, log, h)
    requires BooksBalance(decode, c, books, taken, log, h)
    ensures BooksBalance(decode, c, books, taken, log, h + 1)
  {
    EntrySent(decode, c, books, taken, log, h);
    EntryTaken(decode, c, books, taken, log, h);
  }

  lemma EntrySent(decode: Decoding, c: ChainId, books: Books, taken: seq<seq<Consumption>>, log: seq<Block>, h: nat)
    requires h < |books.blocks| && h < |taken| && h < |log| && EntryAt(decode, c, books, taken, log, h)
    requires BooksBalance(decode, c, books, taken, log, h)
    ensures var executed := Ledger.ExecuteBlocks(books.start, c, books.blocks[..h + 1]);
      executed.Ok? && Ledger.CreditsSent(executed.value.sent) == Weight(LogSends(decode, log, h + 1))
  {
    var before := Ledger.ExecuteBlocks(books.start, c, books.blocks[..h]).value;
    var executed := Ledger.ExecuteBlock(before.balances, c, books.blocks[h]).value;
    MoreSent(books.start, c, books.blocks, h);
    TransfersWeigh(decode, log[h].messages);
    SentCredits(decode, Transfers(decode, log[h].messages), executed.sent, books.blocks[h].signer);
    WeightAdd(LogSends(decode, log, h), AllSends(decode, log[h].messages));
  }

  lemma MoreSent(start: Ledger.Balances, c: ChainId, blocks: seq<Ledger.Block>, h: nat)
    requires h < |blocks|
    requires var before := Ledger.ExecuteBlocks(start, c, blocks[..h]);
      before.Ok? && Ledger.ExecuteBlock(before.value.balances, c, blocks[h]).Ok?
    ensures var before, executed := Ledger.ExecuteBlocks(start, c, blocks[..h]).value,
      Ledger.ExecuteBlocks(start, c, blocks[..h + 1]);
      && executed.Ok?
      && Ledger.CreditsSent(executed.value.sent) == Ledger.CreditsSent(before.sent)
         + Ledger.CreditsSent(Ledger.ExecuteBlock(before.balances, c, blocks[h]).value.sent)
  {
    var before := Ledger.ExecuteBlocks(start, c, blocks[..h]).value;
    assert blocks[..h + 1][..h] == blocks[..h];
    Ledger.CreditsSentAdd(before.sent, Ledger.ExecuteBlock(before.balances, c, blocks[h]).value.sent);
  }

  lemma EntryTaken(decode: Decoding, c: ChainId, books: Books, taken: seq<seq<Consumption>>, log: seq<Block>, h: nat)
    requires h < |books.blocks| && h < |taken| && h < |log| && EntryAt(decode, c, books, taken, log, h)
    requires BooksBalance(decode, c, books, taken, log, h)
    ensures Ledger.BlocksCredits(c, books.blocks[..h + 1]) == Weight(AllTaken(decode, c, Flatten(taken[..h + 1])))
  {
    TakenCredits(decode, c, taken[h], books.blocks[h].incoming);
    MoreCredits(c, books.blocks, h);
    MoreTaken(decode, c, taken, h);
  }

  lemma MoreCredits(c: ChainId, blocks: seq<Ledger.Block>, h: nat)
    requires h < |blocks|
    ensures Ledger.BlocksCredits(c, blocks[..h + 1])
      == Ledger.BlocksCredits(c, blocks[..h]) + Ledger.CreditsTo(c, blocks[h].incoming)
  {
    assert blocks[..h + 1][..h] == blocks[..h];
  }

  lemma MoreTaken(decode: Decoding, c: ChainId, taken: seq<seq<Consumption>>, h: nat)
    requires h < |taken|
    ensures Weight(AllTaken(decode, c, Flatten(taken[..h + 1])))
      == Weight(AllTaken(decode, c, Flatten(taken[..h]))) + Weight(AllTaken(decode, c, taken[h]))
  {
    assert taken[..h + 1][..h] == taken[..h];
    WeightOfParts(decode, c, Flatten(taken[..h]), taken[h]);
  }

  // ----- Credits cannot be skipped -----

  lemma {:induction false} TransferIsIn(decode: Decoding, messages: seq<OutgoingMessage>, i: nat)
    requires i < |messages| && IsTransfer(decode, messages[i])
    ensures messages[i] in Transfers(decode, messages)
  {
    if i < |messages| - 1 {
      TransferIsIn(decode, messages[..|messages| - 1], i);
    }
  }

  /** A message in a block of the log that carries tokens cannot be skipped. */
  lemma EntryIsFirm(decode: Decoding, c: ChainId, before: Ledger.Execution, ledger: Ledger.Block,
                    taken: seq<Consumption>, block: Block, i: nat)
    requires Entry(decode, c, before, ledger, taken, block)
    requires i < |block.messages| && Sends(decode, block.messages[i]).weight > 0
    ensures !block.messages[i].isSkippable
  {
    var sent := Ledger.ExecuteBlock(before.value.balances, c, ledger).value.sent;
    var transfers := Transfers(decode, block.messages);
    Supply.BlockSendsFirm(before.value.balances, c, ledger);
    TransferIsIn(decode, block.messages, i);
    var k :| 0 <= k < |transfers| && transfers[k] == block.messages[i];
    assert SentAs(decode, transfers[k], sent[k], ledger.signer) && Supply.Firm(sent[k]);
  }
}
