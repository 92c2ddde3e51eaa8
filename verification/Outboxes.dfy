/**
  The sending side of a chain: one outbox of block heights per target, a counter of
  outboxes per height, and the channels that multicast to subscribers.
 */
module Outboxes {
  import opened Common

  // ----- One outbox -----

  datatype Outbox = Outbox(nextHeight: Height, queue: seq<Height>)

  const EMPTY_OUTBOX := Outbox(0, [])

  ghost predicate ValidOutbox(o: Outbox) {
    Increasing(o.queue) && forall h :: h in o.queue ==> h < o.nextHeight
  }

  /** Schedules a height unless it is below the heights already scheduled. */
  function Schedule(o: Outbox, h: Height): Outbox {
    if h < o.nextHeight then o else Outbox(h + 1, o.queue + [h])
  }

  function DropUpTo(queue: seq<Height>, h: Height): seq<Height> {
    if queue == [] || queue[0] > h then queue else DropUpTo(queue[1..], h)
  }

  /** An outbox after an acknowledgement. A queue that becomes empty is deleted with its entry. */
  function Acknowledge(o: Outbox, h: Height): Outbox {
    var rest := DropUpTo(o.queue, h);
    if rest == o.queue then o else if rest == [] then EMPTY_OUTBOX else o.(queue := rest)
  }

  lemma ScheduleValid(o: Outbox, h: Height)
    requires ValidOutbox(o)
    ensures ValidOutbox(Schedule(o, h))
    ensures forall x :: x in Schedule(o, h).queue <==> x in o.queue || (x == h && o.nextHeight <= h)
  {
    assert forall i :: 0 <= i < |o.queue| ==> o.queue[i] in o.queue;
  }

  /** An acknowledged height takes with it exactly the heights that are not above it. */
  lemma {:induction false} DropUpToKeepsLater(queue: seq<Height>, h: Height)
    requires Increasing(queue)
    ensures Increasing(DropUpTo(queue, h))
    ensures forall x :: x in DropUpTo(queue, h) <==> x in queue && x > h
  {
    if queue != [] {
      FrontOfQueue(queue);
      if queue[0] <= h {
        DropUpToKeepsLater(queue[1..], h);
      }
    }
  }

  lemma FrontOfQueue(queue: seq<Height>)
    requires Increasing(queue) && queue != []
    ensures Increasing(queue[1..])
    ensures forall x :: x in queue <==> x == queue[0] || x in queue[1..]
    ensures forall x :: x in queue ==> x >= queue[0]
  {
    assert queue == [queue[0]] + queue[1..];
  }

  lemma AcknowledgeValid(o: Outbox, h: Height)
    requires ValidOutbox(o)
    ensures ValidOutbox(Acknowledge(o, h))
    ensures forall x :: x in Acknowledge(o, h).queue <==> x in o.queue && x > h
  {
    DropUpToKeepsLater(o.queue, h);
  }

  /** A loaded outbox entry. */
  class OutboxView {
    var nextHeightToSchedule: Height
    var queue: seq<Height>

    function State(): Outbox
      reads this
    {
      Outbox(nextHeightToSchedule, queue)
    }

    constructor (o: Outbox)
      ensures State() == o
    {
      nextHeightToSchedule, queue := o.nextHeight, o.queue;
    }

    /** Returns true if a change was made. */
    method ScheduleMessage(height: Height) returns (result: Result<bool, ()>)
      modifies this
      ensures result.Err? <==> old(nextHeightToSchedule) <= height && U64_MAX <= height
      ensures result.Ok? ==> State() == Schedule(old(State()), height)
      ensures result.Ok? ==> (result.value <==> old(nextHeightToSchedule) <= height)
    {
      if height < nextHeightToSchedule {
        return Ok(false);
      }
      if height >= U64_MAX {
        return Err(());
      }
      nextHeightToSchedule := height + 1;
      queue := queue + [height];
      return Ok(true);
    }

    /** Returns the heights that leave the queue. */
    method MarkMessagesAsReceived(height: Height) returns (updates: seq<Height>)
      modifies this
      ensures nextHeightToSchedule == old(nextHeightToSchedule)
      ensures queue == DropUpTo(old(queue), height)
      ensures updates + queue == old(queue)
      ensures forall h :: h in updates ==> h <= height
    {
      updates := [];
      while queue != [] && queue[0] <= height
        invariant nextHeightToSchedule == old(nextHeightToSchedule)
        invariant DropUpTo(queue, height) == DropUpTo(old(queue), height)
        invariant updates + queue == old(queue)
        invariant forall h :: h in updates ==> h <= height
        decreases |queue|
      {
        updates := updates + [queue[0]];
        queue := queue[1..];
      }
    }
  }

  // ----- All the outboxes of a chain and their counters -----

  function OutboxOf(outboxes: map<Target, Outbox>, t: Target): Outbox {
    if t in outboxes then outboxes[t] else EMPTY_OUTBOX
  }

  function CountOf(counters: map<Height, nat>, h: Height): nat {
    if h in counters then counters[h] else 0
  }

  /** The targets whose outbox queues height `h`. */
  ghost function Queuing(outboxes: map<Target, Outbox>, h: Height): set<Target> {
    set t | t in outboxes && h in outboxes[t].queue
  }

  /** Every height is counted once per outbox that queues it, and has no entry if there is none. */
  ghost predicate Counted(outboxes: map<Target, Outbox>, counters: map<Height, nat>) {
    forall h ::
      && CountOf(counters, h) == |Queuing(outboxes, h)|
      && (h in counters ==> counters[h] > 0)
  }

  ghost predicate ValidOutboxes(outboxes: map<Target, Outbox>) {
    forall t :: t in outboxes ==> ValidOutbox(outboxes[t])
  }

  /** Replacing one outbox changes the count of exactly the heights that enter or leave it. */
  lemma QueuingUpdate(outboxes: map<Target, Outbox>, t: Target, o: Outbox, h: Height)
    ensures var before := h in OutboxOf(outboxes, t).queue; var after := h in o.queue;
      |Queuing(outboxes[t := o], h)| == |Queuing(outboxes, h)| + (if after then 1 else 0) - (if before then 1 else 0)
  {
    var without := Queuing(outboxes, h) - {t};
    QueuingWithout(outboxes, t, o, h, without);
    QueuingWithout(outboxes, t, OutboxOf(outboxes, t), h, without);
    assert Queuing(outboxes[t := OutboxOf(outboxes, t)], h) == Queuing(outboxes, h);
  }

  lemma QueuingWithout(outboxes: map<Target, Outbox>, t: Target, o: Outbox, h: Height, without: set<Target>)
    requires without == Queuing(outboxes, h) - {t}
    ensures |Queuing(outboxes[t := o], h)| == |without| + (if h in o.queue then 1 else 0)
  {
    var with := Queuing(outboxes[t := o], h);
    if h in o.queue {
      assert with == without + {t};
    } else {
      assert with == without;
    }
  }

  lemma CountedSame(outboxes: map<Target, Outbox>, counters: map<Height, nat>, t: Target, o: Outbox)
    requires Counted(outboxes, counters)
    requires forall h :: h in o.queue <==> h in OutboxOf(outboxes, t).queue
    ensures Counted(outboxes[t := o], counters)
  {
    forall h ensures |Queuing(outboxes[t := o], h)| == |Queuing(outboxes, h)| {
      QueuingUpdate(outboxes, t, o, h);
    }
  }

  lemma CountedMore(outboxes: map<Target, Outbox>, counters: map<Height, nat>, t: Target, o: Outbox, h: Height)
    requires Counted(outboxes, counters)
    requires h !in OutboxOf(outboxes, t).queue
    requires forall x :: x in o.queue <==> x == h || x in OutboxOf(outboxes, t).queue
    ensures Counted(outboxes[t := o], counters[h := CountOf(counters, h) + 1])
  {
    forall x ensures |Queuing(outboxes[t := o], x)| == |Queuing(outboxes, x)| + (if x == h then 1 else 0) {
      QueuingUpdate(outboxes, t, o, x);
    }
  }

  lemma CountedLess(outboxes: map<Target, Outbox>, counters: map<Height, nat>, t: Target, o: Outbox, h: Height)
    requires Counted(outboxes, counters)
    requires h in OutboxOf(outboxes, t).queue
    requires forall x :: x in o.queue <==> x != h && x in OutboxOf(outboxes, t).queue
    ensures h in counters && counters[h] > 0
    ensures Counted(outboxes[t := o], if counters[h] == 1 then counters - {h} else counters[h := counters[h] - 1])
  {
    QueuingUpdate(outboxes, t, o, h);
    forall x ensures |Queuing(outboxes[t := o], x)| == |Queuing(outboxes, x)| - (if x == h then 1 else 0) {
      QueuingUpdate(outboxes, t, o, x);
    }
  }

  lemma CountedDelete(outboxes: map<Target, Outbox>, counters: map<Height, nat>, t: Target)
    requires Counted(outboxes, counters)
    requires OutboxOf(outboxes, t).queue == []
    ensures Counted(outboxes - {t}, counters)
  {
    forall h ensures Queuing(outboxes - {t}, h) == Queuing(outboxes, h) {
    }
  }

  /** A counter never exceeds the number of outboxes, so it fits in 32 bits whenever that does. */
  lemma CounterFits(outboxes: map<Target, Outbox>, counters: map<Height, nat>, h: Height)
    requires Counted(outboxes, counters)
    ensures CountOf(counters, h) <= |outboxes|
  {
    assert Queuing(outboxes, h) <= outboxes.Keys;
    SubsetSize(Queuing(outboxes, h), outboxes.Keys);
  }

  lemma SubsetSize<T>(a: set<T>, b: set<T>)
    requires a <= b
    ensures |a| <= |b|
  {
    assert b == a + (b - a);
  }
}
