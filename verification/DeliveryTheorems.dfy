/** What the delivery protocol guarantees on every run. */
module DeliveryTheorems {
  import opened Common
  import opened Inbox
  import opened Outboxes
  import opened Chain
  import opened Receiving
  import opened Delivery
  import opened DeliverySafety

  // ----- The inbox of a run is the reconciliation of what was added and consumed -----

  /** Adding a list of events extends the history of the inbox by exactly these events. */
  lemma {:induction false} AddAllRun(actions: seq<Action>, events: seq<Event>) returns (longer: seq<Action>)
    requires Run(actions).Ok? && AddAll(Run(actions).value, events).Ok?
    ensures Run(longer) == AddAll(Run(actions).value, events)
    ensures Adds(longer) == Adds(actions) + events && Removes(longer) == Removes(actions)
    decreases |events|
  {
    if events == [] {
      longer := actions;
    } else {
      ExtendRun(actions, Received(events[0]));
      assert Run(actions + [Received(events[0])]) == Add(Run(actions).value, events[0]);
      longer := AddAllRun(actions + [Received(events[0])], events[1..]);
      assert Adds(actions) + [events[0]] + events[1..] == Adds(actions) + events;
    }
  }

  lemma ExtendRun(actions: seq<Action>, action: Action)
    ensures Run(actions).Ok? ==> Run(actions + [action]) == Apply(Run(actions).value, action)
    ensures Adds(actions + [action]) == Adds(actions) + if action.Received? then [action.event] else []
    ensures Removes(actions + [action]) == Removes(actions) + if action.Executed? then [action.event] else []
  {
    assert (actions + [action])[..|actions|] == actions;
  }

  lemma {:induction false} AddAllConcat(s: InboxState, a: seq<Event>, b: seq<Event>)
    requires AddAll(s, a).Ok?
    ensures AddAll(s, a + b) == AddAll(AddAll(s, a).value, b)
    decreases |a|
  {
    if a == [] {
      assert a + b == b;
    } else {
      AddAllConcat(Add(s, a[0]).value, a[1..], b);
      assert (a + b)[1..] == a[1..] + b;
    }
  }

  /** Receiving blocks adds the events of all of them. */
  lemma {:induction false} ReceiveAllAdds(s: InboxState, certificates: seq<Certificate>, b: ChainId, m: Medium)
    requires ReceiveAll(s, b, m, certificates).Ok?
    ensures AddAll(s, EventsOfCertificates(certificates, b, m)) == Ok(ReceiveAll(s, b, m, certificates).value)
    decreases |certificates|
  {
    if certificates != [] {
      var k := |certificates| - 1;
      ReceiveAllAdds(s, certificates[..k], b, m);
      AddAllConcat(s, EventsOfCertificates(certificates[..k], b, m),
                   EventsFor(certificates[k].block, certificates[k].height, b, m));
    }
  }

  /** The inbox results from some interleaving of what was added and what was consumed. */
  ghost predicate Interleaved(l: Link) {
    exists actions :: Run(actions) == Ok(l.inbox) && Adds(actions) == l.added && Removes(actions) == l.consumed
  }

  lemma StepInterleaves(s: State, step: Step, s': State, a: ChainId, b: ChainId, m: Medium)
    requires Transition(s, step, s') && Interleaved(LinkOf(s, a, b, m))
    ensures Interleaved(LinkOf(s', a, b, m))
  {
    match step {
      case ConsumeMessage(_, _, _) => ConsumeInterleaves(s, step, s', a, b, m);
      case HandleUpdate(_, _, _, _, _) => UpdateInterleaves(s, step, s', a, b, m);
      case _ => OtherInterleaves(s, step, s', a, b, m);
    }
  }

  lemma ConsumeInterleaves(s: State, step: Step, s': State, a: ChainId, b: ChainId, m: Medium)
    requires step.ConsumeMessage? && Transition(s, step, s') && Interleaved(LinkOf(s, a, b, m))
    ensures Interleaved(LinkOf(s', a, b, m))
  {
    var l, l' := LinkOf(s, a, b, m), LinkOf(s', a, b, m);
    if b == step.chain && step.origin == Origin(a, m) {
      var actions :| Run(actions) == Ok(l.inbox) && Adds(actions) == l.added && Removes(actions) == l.consumed;
      ExtendRun(actions, Executed(step.event));
      assert Run(actions + [Executed(step.event)]) == Ok(l'.inbox);
    } else {
      assert l' == l;
    }
  }

  lemma UpdateInterleaves(s: State, step: Step, s': State, a: ChainId, b: ChainId, m: Medium)
    requires step.HandleUpdate? && Transition(s, step, s') && Interleaved(LinkOf(s, a, b, m))
    ensures Interleaved(LinkOf(s', a, b, m))
  {
    var q, selected := step.request, step.selected;
    var l, l' := LinkOf(s, a, b, m), LinkOf(s', a, b, m);
    if a == q.sender && b == q.recipient && m == q.heightMap[step.index].0 && step.saved && selected != []
       && ReceiveAll(l.inbox, b, m, selected).Ok? {
      var actions :| Run(actions) == Ok(l.inbox) && Adds(actions) == l.added && Removes(actions) == l.consumed;
      ReceiveAllAdds(l.inbox, selected, b, m);
      var longer := AddAllRun(actions, EventsOfCertificates(selected, b, m));
      AfterUpdateLink(s, q, step.index, selected, s');
      assert Run(longer) == Ok(l'.inbox);
    } else {
      assert l' == l;
    }
  }

  lemma OtherInterleaves(s: State, step: Step, s': State, a: ChainId, b: ChainId, m: Medium)
    requires !step.ConsumeMessage? && !step.HandleUpdate? && Transition(s, step, s') && Interleaved(LinkOf(s, a, b, m))
    ensures Interleaved(LinkOf(s', a, b, m))
  {
    if step.ExecuteBlock? {
      RouteAllFrame(s.nodes(step.chain), |s.nodes(step.chain).log|, step.results);
    }
    var l, l' := LinkOf(s, a, b, m), LinkOf(s', a, b, m);
    assert l'.inbox == l.inbox && l'.added == l.added && l'.consumed == l.consumed;
  }

  lemma {:induction false} RunInterleaves(states: seq<State>, steps: seq<Step>, i: nat, a: ChainId, b: ChainId,
                                          m: Medium)
    requires IsRun(states, steps) && i < |states|
    ensures Interleaved(LinkOf(states[i], a, b, m))
  {
    if i == 0 {
      assert Run([]) == Ok(EMPTY_INBOX) && Adds([]) == [] && Removes([]) == [];
    } else {
      RunInterleaves(states, steps, i - 1, a, b, m);
      StepInterleaves(states[i - 1], steps[i - 1], states[i], a, b, m);
    }
  }

  // ----- Delivery -----

  /**
    A height leaves an outbox only after the recipient has received the block. At any time,
    the events added to the inbox are those of the received blocks, block after block in the
    order of the sender's log, and each event of a received block was added exactly once.
   */
  lemma DequeuedIsDelivered(states: seq<State>, steps: seq<Step>, i: nat, a: ChainId, b: ChainId, m: Medium, h: Height)
    requires IsRun(states, steps) && i < |states|
    requires var from := states[i].nodes(a);
      h in from.requested(Target(b, m)) && h !in from.outbox(Target(b, m)).queue
    ensures var log := states[i].nodes(a).log; var to := states[i].nodes(b); var origin := Origin(a, m);
      && h in to.received(origin) && Increasing(to.received(origin))
      && to.added(origin) == EventsOfBlocks(log, to.received(origin), b, m)
      && InOrder(to.added(origin))
      && h < |log| && EventsFor(log[h], h, b, m) != []
      && (forall e :: e in EventsFor(log[h], h, b, m) ==> multiset(to.added(origin))[e] == 1)
  {
    RunKeeps(states, steps, i);
    RunInterleaves(states, steps, i, a, b, m);
    var l := LinkOf(states[i], a, b, m);
    assert Good(l, b, m);
    var actions :| Run(actions) == Ok(l.inbox) && Adds(actions) == l.added && Removes(actions) == l.consumed;
    RunIsReconciliation(actions);
    EventsForReaches(l.log[h], h, b, m);
    forall e | e in EventsFor(l.log[h], h, b, m) ensures multiset(l.added)[e] == 1 {
      EventsOfBlocksContains(l.log, l.received, b, m, h, e);
      OrderedOnce(l.added, e);
    }
  }

  lemma {:induction false} EventsOfBlocksContains(log: seq<Block>, heights: seq<Height>, b: ChainId, m: Medium,
                                                  h: Height, e: Event)
    requires h in heights && h < |log| && e in EventsFor(log[h], h, b, m)
    ensures e in EventsOfBlocks(log, heights, b, m)
    decreases |heights|
  {
    var k := |heights| - 1;
    if heights[k] != h {
      EventsOfBlocksContains(log, heights[..k], b, m, h, e);
    }
  }

  lemma {:induction false} RequestedStays(states: seq<State>, steps: seq<Step>, j: nat, i: nat, a: ChainId, b: ChainId,
                                          m: Medium, h: Height)
    requires IsRun(states, steps) && j <= i < |states| && h in states[j].nodes(a).requested(Target(b, m))
    ensures h in states[i].nodes(a).requested(Target(b, m))
  {
    if j < i {
      RequestedStays(states, steps, j, i - 1, a, b, m, h);
      RequestedStaysAt(states, steps, i - 1, a, b, m, h);
    }
  }

  lemma RequestedStaysAt(states: seq<State>, steps: seq<Step>, i: nat, a: ChainId, b: ChainId, m: Medium, h: Height)
    requires IsRun(states, steps) && i < |steps| && h in states[i].nodes(a).requested(Target(b, m))
    ensures h in states[i + 1].nodes(a).requested(Target(b, m))
  {
    RunKeeps(states, steps, i);
    RequestedStaysOne(states[i], steps[i], states[i + 1], a, b, m, h);
  }

  lemma RequestedStaysOne(s: State, step: Step, s': State, a: ChainId, b: ChainId, m: Medium, h: Height)
    requires Invariant(s) && Transition(s, step, s') && h in s.nodes(a).requested(Target(b, m))
    ensures h in s'.nodes(a).requested(Target(b, m))
  {
    StepKeepsLink(s, step, s', a, b, m);
    EvolvedRequests(LinkOf(s, a, b, m), LinkOf(s', a, b, m), h);
  }

  lemma EvolvedRequests(l: Link, l': Link, h: Height)
    requires Evolves(l, l') && h in l.requested
    ensures h in l'.requested
  {
  }

  /** A height that was queued and is not any more has been delivered: its events were added, each exactly once. */
  lemma LeftIsDelivered(states: seq<State>, steps: seq<Step>, j: nat, i: nat, a: ChainId, b: ChainId, m: Medium,
                        h: Height)
    requires IsRun(states, steps) && j < i < |states|
    requires h in states[j].nodes(a).outbox(Target(b, m)).queue && h !in states[i].nodes(a).outbox(Target(b, m)).queue
    ensures var log := states[i].nodes(a).log; var to := states[i].nodes(b); var origin := Origin(a, m);
      && h in to.received(origin) && h < |log| && EventsFor(log[h], h, b, m) != []
      && (forall e :: e in EventsFor(log[h], h, b, m) ==> multiset(to.added(origin))[e] == 1)
  {
    RunKeeps(states, steps, j);
    assert Good(LinkOf(states[j], a, b, m), b, m);
    RequestedStays(states, steps, j, i, a, b, m, h);
    DequeuedIsDelivered(states, steps, i, a, b, m, h);
  }

  /** Every block with a direct message for a chain is queued for it or was received by it. */
  lemma DirectMessagesAreTracked(states: seq<State>, steps: seq<Step>, i: nat, a: ChainId, b: ChainId, h: Height)
    requires IsRun(states, steps) && i < |states|
    requires h < |states[i].nodes(a).log| && Reaches(states[i].nodes(a).log[h], b, Direct)
    ensures || h in states[i].nodes(a).outbox(Target(b, Direct)).queue
            || h in states[i].nodes(b).received(Origin(a, Direct))
  {
    RunKeeps(states, steps, i);
    assert Good(LinkOf(states[i], a, b, Direct), b, Direct);
  }

  /**
    Once its block is received, a message is executed exactly once, or waits in the inbox, or
    was skipped and is skippable; and an executed message that the sender has passed is a
    message of one of its blocks.
   */
  lemma MessagesAreAccounted(states: seq<State>, steps: seq<Step>, i: nat, a: ChainId, b: ChainId, m: Medium, h: Height,
                             e: Event)
    requires IsRun(states, steps) && i < |states|
    ensures var log := states[i].nodes(a).log; var to := states[i].nodes(b); var o := Origin(a, m);
      && multiset(to.consumed(o))[e] <= 1
      && (h in to.received(o) && h < |log| && e in EventsFor(log[h], h, b, m) ==>
            e in to.consumed(o) || e in to.inbox(o).added || e.isSkippable)
      && (e in to.consumed(o) && Covered(e.At(), to.added(o)) ==> e in EventsOfBlocks(log, to.received(o), b, m))
  {
    RunKeeps(states, steps, i);
    RunInterleaves(states, steps, i, a, b, m);
    var l := LinkOf(states[i], a, b, m);
    assert Good(l, b, m);
    var actions :| Run(actions) == Ok(l.inbox) && Adds(actions) == l.added && Removes(actions) == l.consumed;
    NothingIsLost(actions, e);
    RunIsReconciliation(actions);
    if h in l.received && h < |l.log| && e in EventsFor(l.log[h], h, b, m) {
      EventsOfBlocksContains(l.log, l.received, b, m, h, e);
    }
  }

  /**
    An update that is handled is well formed, and its blocks are never refused because of their
    order or because they have no message for the recipient: the only possible failure is
    that they contradict messages executed ahead of time.
   */
  lemma NoRoutingErrors(states: seq<State>, steps: seq<Step>, i: nat, q: CrossChainRequest, k: nat, trust: Trust,
                        selected: seq<Certificate>)
    requires IsRun(states, steps) && i < |states|
    requires q in states[i].network && q.UpdateRecipient? && k < |q.heightMap|
    requires var inbox := states[i].nodes(q.recipient).inbox(Origin(q.sender, q.heightMap[k].0));
      NextHeightToReceive(inbox).Ok? ==>
        Selection(Filter(q.certificates, q.heightMap[k].1), NextHeightToReceive(inbox).value, trust, selected)
    ensures var m := q.heightMap[k].0; var inbox := states[i].nodes(q.recipient).inbox(Origin(q.sender, m));
      && NextHeightToReceive(inbox).Ok?
      && WellFormed(q.sender, Filter(q.certificates, q.heightMap[k].1))
      && HeightsOf(Filter(q.certificates, q.heightMap[k].1)) == q.heightMap[k].1
      && var outcome := ReceiveAll(inbox, q.recipient, m, selected);
      && (outcome.Err? ==> outcome.error.InboxFailure? && outcome.error.error.UnexpectedEvent?)
  {
    RunKeeps(states, steps, i);
    var (m, heights) := q.heightMap[k];
    var l := LinkOf(states[i], q.sender, q.recipient, m);
    assert Good(l, q.recipient, m) && LogGood(l.log) && RequestSafe(states[i], q);
    NextHeightIs(l, q.recipient, m);
    FilteredIsWellFormed(q.certificates, heights, q.sender, l.log);
    SafeOutcome(l, q.certificates, heights, trust, selected, q.sender, q.recipient, m);
  }

  lemma FilteredIsWellFormed(carried: seq<Certificate>, heights: seq<Height>, a: ChainId, log: seq<Block>)
    requires Authentic(carried, a, log) && Increasing(heights) && forall h :: h in heights ==> Carried(carried, h)
    ensures WellFormed(a, Filter(carried, heights)) && HeightsOf(Filter(carried, heights)) == heights
  {
    FilterHeights(carried, heights, a, log);
  }

  lemma SafeOutcome(l: Link, carried: seq<Certificate>, heights: seq<Height>, trust: Trust, selected: seq<Certificate>,
                    a: ChainId, b: ChainId, m: Medium)
    requires Good(l, b, m) && LogGood(l.log)
    requires Authentic(carried, a, l.log) && UpdateSafe(l, heights) && forall h :: h in heights ==> Carried(carried, h)
    requires NextHeightToReceive(l.inbox).Ok?
    requires Selection(Filter(carried, heights), NextHeightToReceive(l.inbox).value, trust, selected)
    ensures var outcome := ReceiveAll(l.inbox, b, m, selected);
      outcome.Err? ==> outcome.error.InboxFailure? && outcome.error.error.UnexpectedEvent?
  {
    if selected != [] {
      SelectionKeeps(l, carried, heights, trust, selected, a, b, m);
    }
  }

  /**
    No height above the latest one of a channel was ever requested for a subscriber, the queue
    of a subscriber is in order, and every current subscriber has had the latest height
    requested, across unsubscriptions, new subscriptions and deleted outboxes.
   */
  lemma ChannelDelivery(states: seq<State>, steps: seq<Step>, i: nat, a: ChainId, b: ChainId, c: ChannelName)
    requires IsRun(states, steps) && i < |states|
    ensures var from := states[i].nodes(a); var t := Target(b, Channel(c)); var channel := from.channel(c);
      && Increasing(from.outbox(t).queue)
      && (forall h :: h in from.requested(t) ==>
            && channel.blockHeight.Some? && h <= channel.blockHeight.value < |from.log|
            && (h in from.outbox(t).queue || h in states[i].nodes(b).received(Origin(a, Channel(c)))))
      && (b in channel.subscribers && channel.blockHeight.Some? ==> channel.blockHeight.value in from.requested(t))
  {
    RunKeeps(states, steps, i);
    assert Good(LinkOf(states[i], a, b, Channel(c)), b, Channel(c));
  }
}
