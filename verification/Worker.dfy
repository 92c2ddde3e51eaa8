/**
  The worker of a sending chain: it lists the queued heights by recipient, handles
  acknowledgements, and notifies callers once their messages are delivered.
 */
module Worker {
  import opened Common
  import opened Outboxes
  import opened Chain

  /** No outbox holds a height up to `height`. */
  ghost predicate DeliveredUpTo(outboxes: map<Target, Outbox>, height: Height) {
    forall t, h :: t in outboxes && h in outboxes[t].queue ==> h > height
  }

  /** The queued heights of a chain, by recipient and medium. */
  type Pending = map<ChainId, map<Medium, seq<Height>>>

  ghost predicate Lists(pending: Pending, outboxes: map<Target, Outbox>, done: set<Target>) {
    && (forall t :: t in done && t in outboxes ==>
          t.recipient in pending && t.medium in pending[t.recipient]
          && pending[t.recipient][t.medium] == outboxes[t].queue)
    && (forall r, m :: r in pending && m in pending[r] ==> Target(r, m) in done)
  }

  /** Groups the outboxes by recipient. */
  method CreateNetworkActions(outboxes: map<Target, Outbox>) returns (pending: Pending)
    ensures Lists(pending, outboxes, outboxes.Keys)
  {
    pending := map[];
    var todo := outboxes.Keys;
    while todo != {}
      invariant todo <= outboxes.Keys
      invariant Lists(pending, outboxes, outboxes.Keys - todo)
      decreases |todo|
    {
      var t :| t in todo;
      todo := todo - {t};
      var entry := if t.recipient in pending then pending[t.recipient] else map[];
      pending := pending[t.recipient := entry[t.medium := outboxes[t].queue]];
    }
  }

  /** Whether a request has messages up to `height`; only the first height of each queue is read. */
  predicate HasMessagesUpTo(heightMap: map<Medium, seq<Height>>, height: Height) {
    exists m :: m in heightMap && heightMap[m] != [] && heightMap[m][0] <= height
  }

  /** The first heights decide, because the queues are in order. */
  lemma FirstHeightsDecide(pending: Pending, outboxes: map<Target, Outbox>, height: Height)
    requires Lists(pending, outboxes, outboxes.Keys) && ValidOutboxes(outboxes)
    ensures (forall r :: r in pending ==> !HasMessagesUpTo(pending[r], height)) <==> DeliveredUpTo(outboxes, height)
  {
    if forall r :: r in pending ==> !HasMessagesUpTo(pending[r], height) {
      forall t, h | t in outboxes && h in outboxes[t].queue ensures h > height {
        assert pending[t.recipient][t.medium] == outboxes[t].queue;
        assert !HasMessagesUpTo(pending[t.recipient], height);
        assert outboxes[t].queue[0] <= h;
      }
    } else {
      var r :| r in pending && HasMessagesUpTo(pending[r], height);
      var m :| m in pending[r] && pending[r][m] != [] && pending[r][m][0] <= height;
      assert Target(r, m) in outboxes && pending[r][m] == outboxes[Target(r, m)].queue;
      assert outboxes[Target(r, m)].queue[0] in outboxes[Target(r, m)].queue;
    }
  }

  type Notifier = nat

  class ChainWorker {
    const chain: ChainView
    var notifiers: map<Height, seq<Notifier>>

    constructor (chain: ChainView)
      ensures this.chain == chain && notifiers == map[]
    {
      this.chain, notifiers := chain, map[];
    }

    /** Notifies at once exactly if nothing up to `height` is queued; otherwise remembers the notifier. */
    method RegisterDeliveryNotifier(height: Height, notifier: Notifier) returns (fired: bool)
      requires chain.Valid()
      modifies this
      ensures fired <==> DeliveredUpTo(chain.outboxes, height)
      ensures fired ==> notifiers == old(notifiers)
      ensures !fired ==> notifiers == old(notifiers)[height :=
        (if height in old(notifiers) then old(notifiers)[height] else []) + [notifier]]
    {
      var pending := CreateNetworkActions(chain.outboxes);
      FirstHeightsDecide(pending, chain.outboxes, height);
      if exists r :: r in pending && HasMessagesUpTo(pending[r], height) {
        var waiting := if height in notifiers then notifiers[height] else [];
        notifiers := notifiers[height := waiting + [notifier]];
        fired := false;
      } else {
        fired := true;
      }
    }

    /** Fires the notifiers of every height up to `height`, lowest first. */
    method Notify(height: Height) returns (fired: seq<(Height, Notifier)>)
      modifies this
      ensures Accounted(old(notifiers), fired, notifiers)
      ensures forall k :: k in notifiers ==> k > height
      ensures forall p :: p in fired ==> p.0 <= height
    {
      fired := [];
      while notifiers.Keys != {}
        invariant Accounted(old(notifiers), fired, notifiers)
        invariant forall p :: p in fired ==> p.0 <= height
        decreases |notifiers|
      {
        var first := FirstKey(notifiers.Keys);
        if first > height {
          break;
        }
        ghost var earlier, was := fired, notifiers;
        fired := fired + Tagged(first, notifiers[first]);
        notifiers := notifiers - {first};
        assert was.Keys == notifiers.Keys + {first};
        TaggedAccounted(was, first);
        AccountedTwice(old(notifiers), earlier, was, Tagged(first, was[first]), notifiers);
      }
    }

    /** Handles an acknowledgement: a notifier fires only when nothing up to its height is queued. */
    method HandleConfirmation(recipient: ChainId, latest: seq<(Medium, Height)>)
      returns (fired: seq<(Height, Notifier)>)
      requires chain.Valid()
      modifies this, chain`outboxes, chain`outboxCounters
      ensures chain.Valid()
      ensures forall t ::
        OutboxOf(chain.outboxes, t) == AcknowledgeEach(OutboxOf(old(chain.outboxes), t), t, recipient, latest)
      ensures forall p :: p in fired ==> DeliveredUpTo(chain.outboxes, p.0)
      ensures Accounted(old(notifiers), fired, notifiers)
    {
      fired := [];
      for i := 0 to |latest|
        invariant chain.Valid()
        invariant forall t :: OutboxOf(chain.outboxes, t)
                           == AcknowledgeEach(OutboxOf(old(chain.outboxes), t), t, recipient, latest[..i])
        invariant forall p :: p in fired ==> DeliveredUpTo(chain.outboxes, p.0)
        invariant Accounted(old(notifiers), fired, notifiers)
      {
        var (medium, height) := latest[i];
        assert latest[..i + 1][..i] == latest[..i];
        ghost var before := chain.outboxes;
        var changed := chain.MarkMessagesAsReceived(Target(recipient, medium), height);
        StillDelivered(before, chain.outboxes, Target(recipient, medium), height);
        if changed {
          var delivered := chain.AllMessagesDeliveredUpTo(height);
          if delivered {
            ghost var earlier, was := fired, notifiers;
            var more := Notify(height);
            fired := fired + more;
            AccountedTwice(old(notifiers), earlier, was, more, notifiers);
          }
        }
      }
      assert latest[..|latest|] == latest;
    }
  }

  /** The notifiers of one entry, with their height. */
  function Tagged(height: Height, entry: seq<Notifier>): (pairs: seq<(Height, Notifier)>)
    ensures forall p :: p in pairs ==> p.0 == height
  {
    if entry == [] then [] else Tagged(height, entry[..|entry| - 1]) + [(height, entry[|entry| - 1])]
  }

  /** The notifiers of one height among those that fired, in order. */
  function FiredAt(fired: seq<(Height, Notifier)>, height: Height): seq<Notifier> {
    if fired == [] then []
    else FiredAt(fired[..|fired| - 1], height) + if fired[|fired| - 1].0 == height then [fired[|fired| - 1].1] else []
  }

  function EntryAt(notifiers: map<Height, seq<Notifier>>, height: Height): seq<Notifier> {
    if height in notifiers then notifiers[height] else []
  }

  /** At each height either nothing fired and the entry is still there, or the whole entry fired, each notifier once. */
  ghost predicate Accounted(before: map<Height, seq<Notifier>>, fired: seq<(Height, Notifier)>,
                            after: map<Height, seq<Notifier>>) {
    && (forall k :: k in after ==> k in before && after[k] == before[k])
    && (forall k :: FiredAt(fired, k) == if k in after then [] else EntryAt(before, k))
  }

  lemma {:induction false} FiredAtAdd(fired: seq<(Height, Notifier)>, more: seq<(Height, Notifier)>, k: Height)
    ensures FiredAt(fired + more, k) == FiredAt(fired, k) + FiredAt(more, k)
  {
    if more == [] {
      assert fired + more == fired;
    } else {
      FiredAtAdd(fired, more[..|more| - 1], k);
      assert (fired + more)[..|fired + more| - 1] == fired + more[..|more| - 1];
    }
  }

  lemma {:induction false} FiredAtTagged(height: Height, entry: seq<Notifier>, k: Height)
    ensures FiredAt(Tagged(height, entry), k) == if k == height then entry else []
  {
    if entry != [] {
      var front, pairs := entry[..|entry| - 1], Tagged(height, entry);
      FiredAtTagged(height, front, k);
      assert entry == front + [entry[|entry| - 1]];
      assert pairs[..|pairs| - 1] == Tagged(height, front) && pairs[|pairs| - 1] == (height, entry[|entry| - 1]);
    }
  }

  lemma TaggedAccounted(before: map<Height, seq<Notifier>>, first: Height)
    requires first in before
    ensures Accounted(before, Tagged(first, before[first]), before - {first})
  {
    forall k
      ensures FiredAt(Tagged(first, before[first]), k) == if k in before - {first} then [] else EntryAt(before, k)
    {
      FiredAtTagged(first, before[first], k);
    }
  }

  lemma AccountedTwice(before: map<Height, seq<Notifier>>, fired: seq<(Height, Notifier)>,
                       middle: map<Height, seq<Notifier>>, more: seq<(Height, Notifier)>,
                       after: map<Height, seq<Notifier>>)
    requires Accounted(before, fired, middle) && Accounted(middle, more, after)
    ensures Accounted(before, fired + more, after)
  {
    forall k ensures FiredAt(fired + more, k) == if k in after then [] else EntryAt(before, k) {
      FiredAtAdd(fired, more, k);
    }
  }

  /** Acknowledgements never make a delivered height undelivered. */
  lemma StillDelivered(before: map<Target, Outbox>, after: map<Target, Outbox>, t: Target, height: Height)
    requires ValidOutbox(OutboxOf(before, t)) && OutboxOf(after, t) == Acknowledge(OutboxOf(before, t), height)
    requires forall x :: x != t ==> OutboxOf(after, x) == OutboxOf(before, x)
    ensures forall h: Height :: DeliveredUpTo(before, h) ==> DeliveredUpTo(after, h)
  {
    AcknowledgeValid(OutboxOf(before, t), height);
    forall h: Height | DeliveredUpTo(before, h) ensures DeliveredUpTo(after, h) {
      forall x, g | x in after && g in after[x].queue ensures g > h {
        assert g in OutboxOf(before, x).queue;
      }
    }
  }
}
