/**
  Safety of delivery over every run: what a link from one chain to another keeps, and what
  follows for the outboxes, the inboxes and the errors of the receiving side.
 */
module DeliverySafety {
  import opened Common
  import opened Inbox
  import opened Outboxes
  import opened Chain
  import opened Receiving
  import opened Delivery

  // ----- A link: what one sender, one recipient and one medium share -----

  datatype Link = Link(
    log: seq<Block>,
    outbox: Outbox,
    channel: ChannelState,
    requested: set<Height>,
    inbox: InboxState,
    received: seq<Height>,
    added: seq<Event>,
    consumed: seq<Event>)

  ghost function LinkOf(s: State, a: ChainId, b: ChainId, m: Medium): Link {
    var from, to := s.nodes(a), s.nodes(b);
    Link(from.log, from.outbox(Target(b, m)), ChannelOn(from, m), from.requested(Target(b, m)),
         to.inbox(Origin(a, m)), to.received(Origin(a, m)), to.added(Origin(a, m)), to.consumed(Origin(a, m)))
  }

  /** Queued heights are in order and were requested; every requested height is queued or received. */
  ghost predicate OutboxGood(l: Link) {
    && ValidOutbox(l.outbox)
    && (forall h :: h in l.outbox.queue ==> h in l.requested)
    && (l.outbox.nextHeight > 0 ==> l.outbox.nextHeight - 1 in l.requested)
    && (forall h :: h in l.requested ==> h in l.outbox.queue || h in l.received)
  }

  /** Every requested height is a block with a message for the recipient; direct messages are all requested. */
  ghost predicate RoutingGood(l: Link, b: ChainId, m: Medium) {
    && (forall h :: h in l.requested ==> h < |l.log| && Reaches(l.log[h], b, m))
    && (m.Direct? ==> forall h :: 0 <= h < |l.log| && Reaches(l.log[h], b, m) ==> h in l.requested)
  }

  /** The latest height of a channel is the highest one requested, and every subscriber got it. */
  ghost predicate ChannelGood(l: Link, b: ChainId, m: Medium) {
    m.Channel? ==>
      match l.channel.blockHeight
      case None => l.requested == {}
      case Some(latest) =>
        && latest < |l.log| && Reaches(l.log[latest], b, m)
        && (forall h :: h in l.requested ==> h <= latest)
        && (b in l.channel.subscribers ==> latest in l.requested)
  }

  /** Received heights are in order and leave no requested height behind; their events were all added. */
  ghost predicate InboxGood(l: Link, b: ChainId, m: Medium) {
    && Increasing(l.received)
    && (forall h :: h in l.received ==> h in l.requested)
    && (forall h, g :: h in l.requested && g in l.received && h <= g ==> h in l.received)
    && l.added == EventsOfBlocks(l.log, l.received, b, m)
    && l.inbox.nextAdd == Inbox.Next(l.added)
  }

  ghost predicate LogGood(log: seq<Block>) {
    |log| <= U64_MAX && forall h :: 0 <= h < |log| ==> |log[h].messages| <= U32_MAX
  }

  ghost predicate Good(l: Link, b: ChainId, m: Medium) {
    OutboxGood(l) && RoutingGood(l, b, m) && ChannelGood(l, b, m) && InboxGood(l, b, m)
  }

  // ----- What requests in the network promise, and why they keep their promise -----

  /** Below the last of the given heights, whatever was requested is in the list or received. */
  ghost predicate UpdateSafe(l: Link, heights: seq<Height>) {
    && Increasing(heights)
    && (forall h :: h in heights ==> h in l.requested)
    && (forall h, g :: h in l.requested && g in heights && h <= g ==> h in heights || h in l.received)
  }

  /** Whatever was requested up to the given height is received. */
  ghost predicate AckSafe(l: Link, height: Height) {
    height in l.received && forall h :: h in l.requested && h <= height ==> h in l.received
  }

  /** New requests are never below old ones, and nothing is unreceived. */
  ghost predicate Evolves(l: Link, l': Link) {
    && (forall h :: h in l.requested ==> h in l'.requested)
    && (forall h, g :: h in l'.requested && h !in l.requested && g in l.requested ==> g <= h)
    && (forall h :: h in l.received ==> h in l'.received)
  }

  lemma UpdateStaysSafe(l: Link, l': Link, heights: seq<Height>)
    requires Evolves(l, l') && UpdateSafe(l, heights)
    ensures UpdateSafe(l', heights)
  {
  }

  lemma AckStaysSafe(l: Link, l': Link, height: Height)
    requires Evolves(l, l') && AckSafe(l, height) && height in l.requested
    ensures AckSafe(l', height)
  {
  }

  // ----- Requesting a height -----

  /** The block under execution is the last of the log; `r` adds its messages to it. */
  ghost function ExtendLast(log: seq<Block>, messages: seq<OutgoingMessage>): seq<Block>
    requires log != []
  {
    var n := |log| - 1;
    log[..n] + [log[n].(messages := log[n].messages + messages)]
  }

  lemma ReachesMore(block: Block, messages: seq<OutgoingMessage>, b: ChainId, m: Medium)
    requires Reaches(block, b, m)
    ensures Reaches(block.(messages := block.messages + messages), b, m)
  {
    var i :| 0 <= i < |block.messages| && Concerns(block.messages[i], b, m);
    assert (block.messages + messages)[i] == block.messages[i];
  }

  /** A result that sends to the recipient puts a message for it in the block. */
  lemma ReachesNew(block: Block, application: ApplicationId, r: RawResult, b: ChainId, m: Medium)
    requires match m case Direct => SendsTo(r, b) case Channel(c) => BroadcastsOn(application, r, c)
    ensures Reaches(block.(messages := block.messages + LiftAll(application, r)), b, m)
  {
    var raw :| raw in r.messages && raw.destination ==
      match m case Direct => Recipient(b) case Channel(c) => Subscribers(c.name);
    var i :| 0 <= i < |r.messages| && r.messages[i] == raw;
    var all := block.messages + LiftAll(application, r);
    assert all[|block.messages| + i] == Lift(application, r.signer, raw);
    assert Concerns(all[|block.messages| + i], b, m);
  }

  /** The link after routing one result of the block under execution. */
  ghost function RouteLink(l: Link, application: ApplicationId, r: RawResult, b: ChainId, m: Medium): Link
    requires l.log != []
  {
    var height := |l.log| - 1;
    var t := Target(b, m);
    l.(log := ExtendLast(l.log, LiftAll(application, r)),
       outbox := OutboxAfter(application, r, height, t, l.channel, l.outbox),
       channel := match m
         case Direct => l.channel
         case Channel(c) => ChannelAfter(application, r, height, c, l.channel),
       requested := l.requested + RequestedBy(application, r, height, t, l.channel))
  }

  /** A requested height is the highest so far, and its block reaches the recipient. */
  lemma RequestIsLatest(l: Link, application: ApplicationId, r: RawResult, b: ChainId, m: Medium, h: Height)
    requires l.log != [] && RoutingGood(l, b, m) && ChannelGood(l, b, m)
    requires Request(application, r, |l.log| - 1, Target(b, m), l.channel) == Some(h)
    ensures forall g :: g in l.requested ==> g <= h
    ensures var log' := ExtendLast(l.log, LiftAll(application, r)); h < |log'| && Reaches(log'[h], b, m)
  {
    var n := |l.log| - 1;
    if m.Direct? || BroadcastsOn(application, r, m.name) {
      ReachesNew(l.log[n], application, r, b, m);
    } else if h == n {
      ReachesMore(l.log[n], LiftAll(application, r), b, m);
    }
  }

  lemma RouteKeepsOutbox(l: Link, application: ApplicationId, r: RawResult, b: ChainId, m: Medium)
    requires l.log != [] && OutboxGood(l) && RoutingGood(l, b, m) && ChannelGood(l, b, m)
    ensures OutboxGood(RouteLink(l, application, r, b, m))
    ensures Evolves(l, RouteLink(l, application, r, b, m))
  {
    var request := Request(application, r, |l.log| - 1, Target(b, m), l.channel);
    if request.Some? {
      RequestIsLatest(l, application, r, b, m, request.value);
      ScheduleKeeps(l, RouteLink(l, application, r, b, m), request.value);
    } else {
      SameOutbox(l, RouteLink(l, application, r, b, m));
    }
  }

  lemma SameOutbox(l: Link, l': Link)
    requires OutboxGood(l) && l'.outbox == l.outbox && l'.requested == l.requested && l'.received == l.received
    ensures OutboxGood(l') && Evolves(l, l')
  {
  }

  /** Scheduling the highest requested height keeps the outbox good. */
  lemma ScheduleKeeps(l: Link, l': Link, h: Height)
    requires OutboxGood(l) && forall g :: g in l.requested ==> g <= h
    requires l'.outbox == Schedule(l.outbox, h) && l'.requested == l.requested + {h} && l'.received == l.received
    ensures OutboxGood(l') && Evolves(l, l')
  {
    ScheduleValid(l.outbox, h);
  }

  lemma RouteKeepsRouting(l: Link, application: ApplicationId, r: RawResult, b: ChainId, m: Medium)
    requires l.log != [] && RoutingGood(l, b, m) && ChannelGood(l, b, m)
    ensures RoutingGood(RouteLink(l, application, r, b, m), b, m)
  {
    var l' := RouteLink(l, application, r, b, m);
    var n := |l.log| - 1;
    forall h | h in l'.requested ensures h < |l'.log| && Reaches(l'.log[h], b, m) {
      if h in l.requested {
        if h == n {
          ReachesMore(l.log[n], LiftAll(application, r), b, m);
        }
      } else {
        RequestIsLatest(l, application, r, b, m, h);
      }
    }
    if m.Direct? && Reaches(l'.log[n], b, m) {
      ReachesBack(l.log[n], application, r, b);
    }
  }

  /** A direct message of the longer block was there before or comes from the result. */
  lemma ReachesBack(block: Block, application: ApplicationId, r: RawResult, b: ChainId)
    requires Reaches(block.(messages := block.messages + LiftAll(application, r)), b, Direct)
    ensures Reaches(block, b, Direct) || SendsTo(r, b)
  {
    var all := block.messages + LiftAll(application, r);
    var i :| 0 <= i < |all| && Concerns(all[i], b, Direct);
    if i < |block.messages| {
      assert Concerns(block.messages[i], b, Direct);
    } else {
      assert all[i] == Lift(application, r.signer, r.messages[i - |block.messages|]);
      assert r.messages[i - |block.messages|] in r.messages;
    }
  }

  lemma RouteKeepsChannel(l: Link, application: ApplicationId, r: RawResult, b: ChainId, m: Medium)
    requires l.log != [] && RoutingGood(l, b, m) && ChannelGood(l, b, m)
    ensures ChannelGood(RouteLink(l, application, r, b, m), b, m)
  {
    if m.Channel? {
      var l' := RouteLink(l, application, r, b, m);
      var n := |l.log| - 1;
      if BroadcastsOn(application, r, m.name) {
        ReachesNew(l.log[n], application, r, b, m);
      } else if l.channel.blockHeight == Some(n) {
        ReachesMore(l.log[n], LiftAll(application, r), b, m);
      }
    }
  }

  /** The events of received blocks do not depend on the rest of the log. */
  lemma {:induction false} EventsOfBlocksSame(log: seq<Block>, log': seq<Block>, heights: seq<Height>, b: ChainId,
                                              m: Medium)
    requires forall h :: h in heights ==> h < |log| && h < |log'| && log[h] == log'[h]
    ensures EventsOfBlocks(log, heights, b, m) == EventsOfBlocks(log', heights, b, m)
  {
    if heights != [] {
      var front := heights[..|heights| - 1];
      forall h | h in front ensures h in heights {
        var i :| 0 <= i < |front| && front[i] == h;
        assert heights[i] == h;
      }
      assert heights[|heights| - 1] in heights;
      EventsOfBlocksSame(log, log', front, b, m);
    }
  }

  // ----- Executing a block keeps every link of its chain -----

  lemma RouteKeeps(l: Link, application: ApplicationId, r: RawResult, b: ChainId, m: Medium)
    requires l.log != [] && Good(l, b, m)
    requires forall h :: h in l.received ==> h < |l.log| - 1
    ensures Good(RouteLink(l, application, r, b, m), b, m)
    ensures Evolves(l, RouteLink(l, application, r, b, m))
  {
    RouteKeepsOutbox(l, application, r, b, m);
    RouteKeepsRouting(l, application, r, b, m);
    RouteKeepsChannel(l, application, r, b, m);
    EventsOfBlocksSame(l.log, ExtendLast(l.log, LiftAll(application, r)), l.received, b, m);
    assert Evolves(l, RouteLink(l, application, r, b, m));
    AckedKept(l, RouteLink(l, application, r, b, m));
  }

  /** New requests leave nothing behind what was received. */
  lemma AckedKept(l: Link, l': Link)
    requires Evolves(l, l') && l'.received == l.received
    requires forall h :: h in l.received ==> h in l.requested
    requires forall h, g :: h in l.requested && g in l.received && h <= g ==> h in l.received
    ensures forall h, g :: h in l'.requested && g in l'.received && h <= g ==> h in l'.received
  {
  }

  lemma EvolvesTrans(l: Link, l': Link, l'': Link)
    requires Evolves(l, l') && Evolves(l', l'')
    ensures Evolves(l, l'')
  {
  }

  /** The sending side of a link, taken from a node whose block under execution is `block`. */
  ghost function Executing(l: Link, n: Node, block: Block, b: ChainId, m: Medium): Link {
    l.(log := l.log + [block], outbox := n.outbox(Target(b, m)), channel := ChannelOn(n, m),
       requested := n.requested(Target(b, m)))
  }

  /** Starting a block. */
  lemma StartBlock(l: Link, block: Block, b: ChainId, m: Medium)
    requires Good(l, b, m) && block.messages == []
    ensures Good(l.(log := l.log + [block]), b, m)
    ensures Evolves(l, l.(log := l.log + [block]))
    ensures forall h :: h in l.received ==> h < |l.log|
  {
    StartRouting(l, block, b, m);
    StartInbox(l, block, b, m);
  }

  lemma StartRouting(l: Link, block: Block, b: ChainId, m: Medium)
    requires RoutingGood(l, b, m) && ChannelGood(l, b, m) && block.messages == []
    ensures RoutingGood(l.(log := l.log + [block]), b, m) && ChannelGood(l.(log := l.log + [block]), b, m)
  {
    var log := l.log + [block];
    assert log[|l.log|] == block && !Reaches(block, b, m);
    assert forall h :: 0 <= h < |l.log| ==> log[h] == l.log[h];
  }

  lemma StartInbox(l: Link, block: Block, b: ChainId, m: Medium)
    requires RoutingGood(l, b, m) && InboxGood(l, b, m)
    ensures InboxGood(l.(log := l.log + [block]), b, m)
    ensures forall h :: h in l.received ==> h < |l.log|
  {
    EventsOfBlocksSame(l.log, l.log + [block], l.received, b, m);
  }

  lemma {:induction false} RouteAllKeeps(l: Link, n: Node, results: seq<(ApplicationId, RawResult)>, block: Block,
                                         b: ChainId, m: Medium)
    requires Good(l, b, m)
    requires l.outbox == n.outbox(Target(b, m)) && l.channel == ChannelOn(n, m)
    requires l.requested == n.requested(Target(b, m))
    requires block.messages == MessagesOf(results)
    ensures var l' := Executing(l, RouteAll(n, |l.log|, results), block, b, m); Good(l', b, m) && Evolves(l, l')
    decreases |results|
  {
    if results == [] {
      StartBlock(l, block, b, m);
      assert Executing(l, n, block, b, m) == l.(log := l.log + [block]);
    } else {
      var k := |results| - 1;
      var (application, r) := results[k];
      var before := block.(messages := MessagesOf(results[..k]));
      RouteAllKeeps(l, n, results[..k], before, b, m);
      var mid := Executing(l, RouteAll(n, |l.log|, results[..k]), before, b, m);
      StartBlock(l, block.(messages := []), b, m);
      RouteKeeps(mid, application, r, b, m);
      assert ExtendLast(mid.log, LiftAll(application, r)) == l.log + [block];
      assert RouteLink(mid, application, r, b, m) == Executing(l, RouteAll(n, |l.log|, results), block, b, m);
      EvolvesTrans(l, mid, RouteLink(mid, application, r, b, m));
    }
  }

  // ----- Receiving blocks -----

  /** After adding a list of events, the cursor is just after the last one. */
  lemma {:induction false} AddAllNext(s: InboxState, events: seq<Event>)
    requires AddAll(s, events).Ok? && events != []
    ensures AddAll(s, events).value.nextAdd == Inbox.Next(events)
    decreases |events|
  {
    if |events| > 1 {
      AddAllNext(Add(s, events[0]).value, events[1..]);
    }
  }

  /** Ordered events past the cursor can only be refused because they contradict executed events. */
  lemma {:induction false} AddAllErrors(s: InboxState, events: seq<Event>)
    requires InOrder(events) && (events != [] ==> !events[0].At().Lt(s.nextAdd))
    ensures AddAll(s, events).Err? ==> AddAll(s, events).error.UnexpectedEvent?
    decreases |events|
  {
    if events != [] && Add(s, events[0]).Ok? {
      assert |events| > 1 ==> events[0].At().Lt(events[1].At());
      AddAllErrors(Add(s, events[0]).value, events[1..]);
    }
  }

  /** The last event added belongs to the last block received. */
  lemma LastAdded(l: Link, b: ChainId, m: Medium)
    requires RoutingGood(l, b, m) && InboxGood(l, b, m)
    ensures l.received == [] ==> l.added == []
    ensures l.received != [] ==> l.added != [] && l.added[|l.added| - 1].height == l.received[|l.received| - 1]
  {
    if l.received != [] {
      var h := l.received[|l.received| - 1];
      assert h in l.received;
      var events := EventsFor(l.log[h], h, b, m);
      EventsForReaches(l.log[h], h, b, m);
      EventsUpToMeaning(l.log[h], h, b, m, |l.log[h].messages|);
      assert l.added[|l.added| - 1] == events[|events| - 1];
    }
  }

  /** The next height to receive is the one after the last block received. */
  lemma NextHeightIs(l: Link, b: ChainId, m: Medium)
    requires RoutingGood(l, b, m) && InboxGood(l, b, m) && LogGood(l.log)
    ensures NextHeightToReceive(l.inbox)
      == Ok(if l.received == [] then 0 else l.received[|l.received| - 1] + 1)
  {
    LastAdded(l, b, m);
    if l.received == [] {
      assert l.inbox.nextAdd == Cursor(0, 0);
    } else {
      var last := l.added[|l.added| - 1];
      assert last.height in l.received;
      assert l.inbox.nextAdd == Cursor(last.height, last.index + 1) && last.height < |l.log| <= U64_MAX;
    }
  }

  /** The link after receiving the block at height `h`. */
  ghost function ReceiveLink(l: Link, h: Height, inbox: InboxState, b: ChainId, m: Medium): Link
    requires h < |l.log|
  {
    l.(inbox := inbox, received := l.received + [h], added := l.added + EventsFor(l.log[h], h, b, m))
  }

  /** The block at `h` is the next one to receive: nothing requested below it is missing. */
  ghost predicate IsNext(l: Link, h: Height) {
    && h in l.requested
    && (forall g :: g in l.received ==> g < h)
    && (forall g :: g in l.requested && g < h ==> g in l.received)
  }

  /** Receiving the next block never fails for a reason of routing or order. */
  lemma ReceiveOne(l: Link, h: Height, b: ChainId, m: Medium)
    requires Good(l, b, m) && LogGood(l.log) && IsNext(l, h)
    ensures var outcome := Receive(l.inbox, b, m, h, l.log[h]);
      && (outcome.Err? ==> outcome.error.InboxFailure? && outcome.error.error.UnexpectedEvent?)
      && (outcome.Ok? ==> Good(ReceiveLink(l, h, outcome.value, b, m), b, m)
                          && Evolves(l, ReceiveLink(l, h, outcome.value, b, m)))
  {
    var events := EventsFor(l.log[h], h, b, m);
    var outcome := Receive(l.inbox, b, m, h, l.log[h]);
    NextHeightIs(l, b, m);
    EventsForReaches(l.log[h], h, b, m);
    EventsUpToMeaning(l.log[h], h, b, m, |l.log[h].messages|);
    EventsFollow(l, h, b, m);
    AddAllErrors(l.inbox, events);
    if outcome.Ok? {
      AddAllNext(l.inbox, events);
      ReceivedKeeps(l, h, outcome.value, b, m);
    }
  }

  /** The events of the next block are past all the events added before. */
  lemma EventsFollow(l: Link, h: Height, b: ChainId, m: Medium)
    requires RoutingGood(l, b, m) && InboxGood(l, b, m) && LogGood(l.log) && IsNext(l, h)
    ensures h < |l.log|
    ensures var events := EventsFor(l.log[h], h, b, m);
      InOrder(events) && (events != [] ==> !events[0].At().Lt(l.inbox.nextAdd))
  {
    EventsInOrder(l.log[h], h, b, m);
    LastAdded(l, b, m);
    if l.received == [] {
      assert l.inbox.nextAdd == Cursor(0, 0);
    } else {
      var last := l.added[|l.added| - 1];
      assert last.height in l.received;
      assert l.inbox.nextAdd == Cursor(last.height, last.index + 1) && last.height < h;
    }
  }

  /** The events of a block are in order, at its height. */
  lemma EventsInOrder(block: Block, h: Height, b: ChainId, m: Medium)
    requires |block.messages| <= U32_MAX
    ensures InOrder(EventsFor(block, h, b, m))
    ensures forall e :: e in EventsFor(block, h, b, m) ==> e.height == h
  {
    EventsUpToMeaning(block, h, b, m, |block.messages|);
    var events := EventsFor(block, h, b, m);
    assert forall k :: 0 <= k < |events| ==> events[k] == EventAt(block, h, events[k].index);
  }

  lemma ReceivedKeeps(l: Link, h: Height, inbox: InboxState, b: ChainId, m: Medium)
    requires Good(l, b, m) && IsNext(l, h)
    requires EventsFor(l.log[h], h, b, m) != [] && inbox.nextAdd == Inbox.Next(EventsFor(l.log[h], h, b, m))
    ensures Good(ReceiveLink(l, h, inbox, b, m), b, m)
    ensures Evolves(l, ReceiveLink(l, h, inbox, b, m))
  {
    ReceivedKeepsInbox(l, h, inbox, b, m);
    AppendHeight(l.received, h);
  }

  lemma ReceivedKeepsInbox(l: Link, h: Height, inbox: InboxState, b: ChainId, m: Medium)
    requires InboxGood(l, b, m) && IsNext(l, h) && h < |l.log|
    requires EventsFor(l.log[h], h, b, m) != [] && inbox.nextAdd == Inbox.Next(EventsFor(l.log[h], h, b, m))
    ensures InboxGood(ReceiveLink(l, h, inbox, b, m), b, m)
  {
    var l' := ReceiveLink(l, h, inbox, b, m);
    AppendHeight(l.received, h);
    assert l'.received[..|l.received|] == l.received && l'.received[|l.received|] == h;
    assert l'.added == EventsOfBlocks(l'.log, l'.received, b, m);
    assert l'.added[|l'.added| - 1] == EventsFor(l.log[h], h, b, m)[|EventsFor(l.log[h], h, b, m)| - 1];
  }

  lemma AppendHeight(s: seq<Height>, h: Height)
    requires Increasing(s) && forall g :: g in s ==> g < h
    ensures Increasing(s + [h])
    ensures forall g :: g in s + [h] <==> g in s || g == h
  {
    assert forall i :: 0 <= i < |s| ==> s[i] in s;
  }

  /** The certificates kept for a medium are the blocks at exactly its heights. */
  lemma FilterHeights(certificates: seq<Certificate>, heights: seq<Height>, a: ChainId, log: seq<Block>)
    requires Authentic(certificates, a, log) && Increasing(heights)
    requires forall h :: h in heights ==> Carried(certificates, h)
    ensures Authentic(Filter(certificates, heights), a, log)
    ensures HeightsOf(Filter(certificates, heights)) == heights
  {
    var kept := Filter(certificates, heights);
    FilterAuthentic(certificates, heights, a, log);
    forall h ensures h in HeightsOf(kept) <==> h in heights {
      FilterCarries(certificates, heights, h);
      assert h in HeightsOf(kept) <==> Carried(kept, h) by {
        if i :| 0 <= i < |kept| && kept[i].height == h {
          assert HeightsOf(kept)[i] == h;
        }
      }
    }
    SameElements(HeightsOf(kept), heights);
  }

  lemma {:induction false} FilterAuthentic(certificates: seq<Certificate>, heights: seq<Height>, a: ChainId,
                                           log: seq<Block>)
    requires Authentic(certificates, a, log)
    ensures Authentic(Filter(certificates, heights), a, log)
    decreases |certificates|
  {
    if certificates != [] {
      var k := |certificates| - 1;
      var before := Filter(certificates[..k], heights);
      AuthenticPrefix(certificates, k, a, log);
      FilterAuthentic(certificates[..k], heights, a, log);
      forall i | 0 <= i < |before| ensures before[i].height < certificates[k].height {
        FilterFrom(certificates[..k], heights, before[i]);
      }
      AuthenticAppend(before, certificates[k], a, log);
    }
  }

  lemma {:induction false} FilterFrom(certificates: seq<Certificate>, heights: seq<Height>, c: Certificate)
    requires c in Filter(certificates, heights)
    ensures c in certificates
    decreases |certificates|
  {
    var k := |certificates| - 1;
    if c in Filter(certificates[..k], heights) {
      FilterFrom(certificates[..k], heights, c);
    }
  }

  lemma AuthenticPrefix(certificates: seq<Certificate>, k: nat, a: ChainId, log: seq<Block>)
    requires Authentic(certificates, a, log) && k < |certificates|
    ensures Authentic(certificates[..k], a, log)
    ensures forall c :: c in certificates[..k] ==> c.height < certificates[k].height
  {
    assert forall i :: 0 <= i < k ==> certificates[..k][i] == certificates[i];
  }

  lemma AuthenticAppend(certificates: seq<Certificate>, c: Certificate, a: ChainId, log: seq<Block>)
    requires Authentic(certificates, a, log) && c.height < |log| && c == Certificate(true, a, c.height, log[c.height])
    requires forall i :: 0 <= i < |certificates| ==> certificates[i].height < c.height
    ensures Authentic(certificates + [c], a, log)
  {
  }

  lemma {:induction false} FilterCarries(certificates: seq<Certificate>, heights: seq<Height>, h: Height)
    ensures Carried(Filter(certificates, heights), h) <==> Carried(certificates, h) && h in heights
    decreases |certificates|
  {
    if certificates != [] {
      var k := |certificates| - 1;
      var before, kept := Filter(certificates[..k], heights), Filter(certificates, heights);
      FilterCarries(certificates[..k], heights, h);
      CarriedMore(certificates[..k], certificates[k], h);
      CarriedMore(before, certificates[k], h);
      assert certificates == certificates[..k] + [certificates[k]];
      assert certificates[k].height !in heights ==> kept == before;
    }
  }

  lemma CarriedMore(certificates: seq<Certificate>, c: Certificate, h: Height)
    ensures Carried(certificates + [c], h) <==> Carried(certificates, h) || c.height == h
  {
    var all := certificates + [c];
    if i :| 0 <= i < |certificates| && certificates[i].height == h {
      assert all[i].height == h;
    }
    if c.height == h {
      assert all[|certificates|].height == h;
    }
  }

  /** An ordered list of heights is determined by its elements. */
  lemma {:induction false} SameElements(s: seq<Height>, t: seq<Height>)
    requires Increasing(s) && Increasing(t) && forall h :: h in s <==> h in t
    ensures s == t
    decreases |s|
  {
    HasElement(s);
    HasElement(t);
    if s != [] && t != [] {
      WithoutLast(s);
      WithoutLast(t);
      SameElements(s[..|s| - 1], t[..|t| - 1]);
    }
  }

  lemma HasElement(s: seq<Height>)
    ensures s != [] <==> exists h :: h in s
  {
    if s != [] {
      assert s[0] in s;
    }
  }

  lemma WithoutLast(s: seq<Height>)
    requires Increasing(s) && s != []
    ensures var last, rest := s[|s| - 1], s[..|s| - 1];
      && s == rest + [last] && last in s && Increasing(rest)
      && (forall h :: h in s ==> h <= last)
      && (forall h :: h in rest <==> h in s && h != last)
  {
  }

  /** The link after receiving the certificates from `i` to `k`. */
  ghost function ReceivedUpTo(l: Link, certificates: seq<Certificate>, i: nat, k: nat, inbox: InboxState, b: ChainId,
                              m: Medium): Link
    requires i <= k <= |certificates|
  {
    l.(inbox := inbox, received := l.received + HeightsOf(certificates)[i..k],
       added := l.added + EventsOfCertificates(certificates[i..k], b, m))
  }

  lemma ReceivedNone(l: Link, certificates: seq<Certificate>, i: nat, b: ChainId, m: Medium)
    requires i <= |certificates|
    ensures ReceivedUpTo(l, certificates, i, i, l.inbox, b, m) == l && Evolves(l, l)
  {
    assert HeightsOf(certificates)[i..i] == [] && certificates[i..i] == [];
    assert l.received + [] == l.received && l.added + [] == l.added;
  }

  /** Each certificate from `i` to `k` is the next block to receive when its turn comes. */
  ghost predicate InTurn(l: Link, certificates: seq<Certificate>, i: nat, k: nat, b: ChainId, m: Medium) {
    && i <= k <= |certificates|
    && forall j, inbox :: i <= j < k ==> Turn(l, certificates, i, j, inbox, b, m)
  }

  ghost predicate Turn(l: Link, certificates: seq<Certificate>, i: nat, j: nat, inbox: InboxState, b: ChainId,
                       m: Medium)
    requires i <= j < |certificates|
  {
    && certificates[j].height < |l.log| && l.log[certificates[j].height] == certificates[j].block
    && IsNext(ReceivedUpTo(l, certificates, i, j, inbox, b, m), certificates[j].height)
  }

  lemma SelectedInTurn(l: Link, certificates: seq<Certificate>, next: Height, i: nat, k: nat,
                       a: ChainId, b: ChainId, m: Medium)
    requires RoutingGood(l, b, m) && InboxGood(l, b, m) && LogGood(l.log)
    requires Authentic(certificates, a, l.log) && UpdateSafe(l, HeightsOf(certificates))
    requires NextHeightToReceive(l.inbox) == Ok(next) && SkipsTo(certificates, next, i) && i <= k <= |certificates|
    ensures InTurn(l, certificates, i, k, b, m)
  {
    forall j, inbox | i <= j < k ensures Turn(l, certificates, i, j, inbox, b, m) {
      SelectedIsNext(l, certificates, next, i, j, inbox, a, b, m);
    }
  }

  /** Receiving a selection of an update, block after block. */
  lemma {:induction false} ReceiveSelected(l: Link, certificates: seq<Certificate>, i: nat, k: nat, b: ChainId,
                                           m: Medium)
    requires Good(l, b, m) && LogGood(l.log) && InTurn(l, certificates, i, k, b, m)
    ensures Receives(l, certificates, i, k, ReceiveAll(l.inbox, b, m, certificates[i..k]), b, m)
    decreases k
  {
    ReceiveAllLast(l.inbox, b, m, certificates, i, k);
    if k == i {
      ReceivedNone(l, certificates, i, b, m);
    } else {
      ReceiveSelected(l, certificates, i, k - 1, b, m);
      var before := ReceiveAll(l.inbox, b, m, certificates[i..k - 1]);
      if before.Ok? {
        assert Turn(l, certificates, i, k - 1, before.value, b, m);
        ReceiveStep(l, certificates, i, k, before.value, b, m);
      }
    }
  }

  /** The outcome of receiving certificates: a good link, or a contradiction with executed events. */
  ghost predicate Receives(l: Link, certificates: seq<Certificate>, i: nat, k: nat,
                           outcome: Result<InboxState, ReceiveError>, b: ChainId, m: Medium)
    requires i <= k <= |certificates|
  {
    && (outcome.Err? ==> outcome.error.InboxFailure? && outcome.error.error.UnexpectedEvent?)
    && (outcome.Ok? ==> Good(ReceivedUpTo(l, certificates, i, k, outcome.value, b, m), b, m)
                        && Evolves(l, ReceivedUpTo(l, certificates, i, k, outcome.value, b, m)))
  }

  lemma ReceiveAllLast(s: InboxState, b: ChainId, m: Medium, certificates: seq<Certificate>, i: nat, k: nat)
    requires i <= k <= |certificates|
    ensures i == k ==> ReceiveAll(s, b, m, certificates[i..k]) == Ok(s)
    ensures i < k ==>
      var before := ReceiveAll(s, b, m, certificates[i..k - 1]); var c := certificates[k - 1];
      ReceiveAll(s, b, m, certificates[i..k])
        == if before.Ok? then Receive(before.value, b, m, c.height, c.block) else before
  {
    if i < k {
      assert certificates[i..k][..k - i - 1] == certificates[i..k - 1];
    }
  }

  lemma ReceiveStep(l: Link, certificates: seq<Certificate>, i: nat, k: nat, inbox: InboxState, b: ChainId, m: Medium)
    requires i < k <= |certificates| && LogGood(l.log)
    requires var c := certificates[k - 1]; c.height < |l.log| && l.log[c.height] == c.block
    requires var mid := ReceivedUpTo(l, certificates, i, k - 1, inbox, b, m);
      Good(mid, b, m) && Evolves(l, mid) && IsNext(mid, certificates[k - 1].height)
    ensures var c := certificates[k - 1];
      Receives(l, certificates, i, k, Receive(inbox, b, m, c.height, c.block), b, m)
  {
    var c := certificates[k - 1];
    var mid := ReceivedUpTo(l, certificates, i, k - 1, inbox, b, m);
    ReceiveOne(mid, c.height, b, m);
    var outcome := Receive(inbox, b, m, c.height, c.block);
    if outcome.Ok? {
      ReceivedOneMore(l, certificates, i, k, inbox, outcome.value, b, m);
      EvolvesTrans(l, mid, ReceiveLink(mid, c.height, outcome.value, b, m));
    }
  }

  lemma SelectedIsNext(l: Link, certificates: seq<Certificate>, next: Height, i: nat, k: nat, inbox: InboxState,
                       a: ChainId, b: ChainId, m: Medium)
    requires RoutingGood(l, b, m) && InboxGood(l, b, m) && LogGood(l.log)
    requires Authentic(certificates, a, l.log) && UpdateSafe(l, HeightsOf(certificates))
    requires NextHeightToReceive(l.inbox) == Ok(next) && SkipsTo(certificates, next, i) && i <= k < |certificates|
    ensures IsNext(ReceivedUpTo(l, certificates, i, k, inbox, b, m), certificates[k].height)
    ensures certificates[k].height < |l.log| && l.log[certificates[k].height] == certificates[k].block
  {
    NextHeightIs(l, b, m);
    NextOfSelection(l, ReceivedUpTo(l, certificates, i, k, inbox, b, m), certificates, next, i, k);
  }

  lemma ReceivedOneMore(l: Link, certificates: seq<Certificate>, i: nat, k: nat, inbox: InboxState, inbox': InboxState,
                        b: ChainId, m: Medium)
    requires i < k <= |certificates|
    requires var c := certificates[k - 1]; c.height < |l.log| && l.log[c.height] == c.block
    ensures ReceiveLink(ReceivedUpTo(l, certificates, i, k - 1, inbox, b, m), certificates[k - 1].height, inbox', b, m)
         == ReceivedUpTo(l, certificates, i, k, inbox', b, m)
  {
    var c := certificates[k - 1];
    assert HeightsOf(certificates)[i..k] == HeightsOf(certificates)[i..k - 1] + [c.height];
    assert certificates[i..k][..k - i - 1] == certificates[i..k - 1];
    assert l.received + HeightsOf(certificates)[i..k] == l.received + HeightsOf(certificates)[i..k - 1] + [c.height];
  }

  /** Each selected block is the next one to receive when its turn comes. */
  lemma NextOfSelection(l: Link, mid: Link, certificates: seq<Certificate>, next: Height, i: nat, k: nat)
    requires UpdateSafe(l, HeightsOf(certificates)) && Increasing(l.received)
    requires forall h, g :: h in l.requested && g in l.received && h <= g ==> h in l.received
    requires next == if l.received == [] then 0 else l.received[|l.received| - 1] + 1
    requires SkipsTo(certificates, next, i) && i <= k < |certificates|
    requires mid.requested == l.requested && mid.received == l.received + HeightsOf(certificates)[i..k]
    ensures IsNext(mid, certificates[k].height)
  {
    var heights, h := HeightsOf(certificates), certificates[k].height;
    assert h == heights[k] && h in heights;
    SkippedAreReceived(l, heights, next, i);
    forall g | g in mid.received ensures g < h {
      if g in l.received {
        WithoutLast(l.received);
      } else {
        var x :| i <= x < k && heights[x] == g;
      }
    }
    forall g | g in l.requested && g < h ensures g in mid.received {
      if g !in l.received {
        assert g in heights;
        var x :| 0 <= x < |heights| && heights[x] == g;
        assert heights[i..k][x - i] == g;
      }
    }
  }

  /** The heights below the next one to receive were received. */
  lemma SkippedAreReceived(l: Link, heights: seq<Height>, next: Height, i: nat)
    requires UpdateSafe(l, heights) && i <= |heights| && (i > 0 ==> heights[i - 1] < next)
    requires next == if l.received == [] then 0 else l.received[|l.received| - 1] + 1
    requires forall h, g :: h in l.requested && g in l.received && h <= g ==> h in l.received
    ensures forall x :: 0 <= x < i ==> heights[x] in l.received
  {
    forall x | 0 <= x < i ensures heights[x] in l.received {
      assert heights[x] <= heights[i - 1] < next;
      assert l.received[|l.received| - 1] in l.received;
    }
  }

  /** The link after receiving a selection. */
  ghost function AfterSelection(l: Link, selected: seq<Certificate>, inbox: InboxState, b: ChainId, m: Medium): Link {
    l.(inbox := inbox, received := l.received + HeightsOf(selected),
       added := l.added + EventsOfCertificates(selected, b, m))
  }

  /**
    A recipient that handles a safe update receives the selected blocks, unless they contradict
    events that it executed; it may then acknowledge the last one.
   */
  lemma SelectionKeeps(l: Link, carried: seq<Certificate>, heights: seq<Height>, trust: Trust,
                       selected: seq<Certificate>, a: ChainId, b: ChainId, m: Medium)
    requires Good(l, b, m) && LogGood(l.log)
    requires Authentic(carried, a, l.log) && UpdateSafe(l, heights) && forall h :: h in heights ==> Carried(carried, h)
    requires NextHeightToReceive(l.inbox).Ok? && selected != []
    requires Selection(Filter(carried, heights), NextHeightToReceive(l.inbox).value, trust, selected)
    ensures var outcome := ReceiveAll(l.inbox, b, m, selected);
      && (outcome.Err? ==> outcome.error.InboxFailure? && outcome.error.error.UnexpectedEvent?)
      && (outcome.Ok? ==>
            var l' := AfterSelection(l, selected, outcome.value, b, m);
            Good(l', b, m) && Evolves(l, l') && AckSafe(l', HeightsOf(selected)[|selected| - 1]))
  {
    var certificates := Filter(carried, heights);
    FilterHeights(carried, heights, a, l.log);
    var next := NextHeightToReceive(l.inbox).value;
    var i: nat, j: nat :| SkipsTo(certificates, next, i) && TrustsTo(certificates, trust, j)
      && selected == if i < j then certificates[i..j] else [];
    RangeKeeps(l, certificates, next, i, j, a, b, m);
  }

  lemma RangeKeeps(l: Link, certificates: seq<Certificate>, next: Height, i: nat, j: nat, a: ChainId, b: ChainId,
                   m: Medium)
    requires Good(l, b, m) && LogGood(l.log)
    requires Authentic(certificates, a, l.log) && UpdateSafe(l, HeightsOf(certificates))
    requires NextHeightToReceive(l.inbox) == Ok(next) && SkipsTo(certificates, next, i) && i < j <= |certificates|
    ensures var selected := certificates[i..j]; var outcome := ReceiveAll(l.inbox, b, m, selected);
      && (outcome.Err? ==> outcome.error.InboxFailure? && outcome.error.error.UnexpectedEvent?)
      && (outcome.Ok? ==>
            var l' := AfterSelection(l, selected, outcome.value, b, m);
            Good(l', b, m) && Evolves(l, l') && AckSafe(l', HeightsOf(selected)[|selected| - 1]))
  {
    var selected := certificates[i..j];
    SelectedInTurn(l, certificates, next, i, j, a, b, m);
    ReceiveSelected(l, certificates, i, j, b, m);
    var outcome := ReceiveAll(l.inbox, b, m, selected);
    if outcome.Ok? {
      SameSelection(l, certificates, i, j, outcome.value, b, m);
      LastIsAcknowledged(AfterSelection(l, selected, outcome.value, b, m), b, m);
    }
  }

  lemma SameSelection(l: Link, certificates: seq<Certificate>, i: nat, j: nat, inbox: InboxState, b: ChainId, m: Medium)
    requires i < j <= |certificates|
    ensures var l' := AfterSelection(l, certificates[i..j], inbox, b, m);
      && l' == ReceivedUpTo(l, certificates, i, j, inbox, b, m)
      && l'.received != [] && l'.received[|l'.received| - 1] == HeightsOf(certificates[i..j])[j - i - 1]
  {
    assert HeightsOf(certificates[i..j]) == HeightsOf(certificates)[i..j];
  }

  lemma LastIsAcknowledged(l: Link, b: ChainId, m: Medium)
    requires InboxGood(l, b, m) && l.received != []
    ensures AckSafe(l, l.received[|l.received| - 1])
  {
  }

  // ----- Acknowledging -----

  lemma AcknowledgeKeeps(l: Link, height: Height, b: ChainId, m: Medium)
    requires Good(l, b, m) && AckSafe(l, height)
    ensures Good(l.(outbox := Acknowledge(l.outbox, height)), b, m)
  {
    AcknowledgeValid(l.outbox, height);
  }

  // ----- The invariant of every run -----

  ghost predicate RequestSafe(s: State, q: CrossChainRequest) {
    match q
    case UpdateRecipient(heightMap, a, b, certificates) =>
      && Authentic(certificates, a, s.nodes(a).log)
      && (forall k :: 0 <= k < |heightMap| ==> UpdateSafe(LinkOf(s, a, b, heightMap[k].0), heightMap[k].1))
      && (forall k, h :: 0 <= k < |heightMap| && h in heightMap[k].1 ==> Carried(certificates, h))
    case ConfirmUpdatedRecipient(a, b, latestHeights) =>
      forall k :: 0 <= k < |latestHeights| ==> AckSafe(LinkOf(s, a, b, latestHeights[k].0), latestHeights[k].1)
  }

  ghost predicate LinksGood(s: State) {
    && (forall a, b, m :: Good(LinkOf(s, a, b, m), b, m))
    && (forall a: ChainId :: LogGood(s.nodes(a).log))
  }

  ghost predicate Invariant(s: State) {
    && LinksGood(s)
    && (forall q :: q in s.network ==> RequestSafe(s, q))
    && (forall a, b, m, h :: h in s.nodes(b).acknowledged(Origin(a, m)) ==> AckSafe(LinkOf(s, a, b, m), h))
  }

  /** Every link evolves, and logs only grow. */
  ghost predicate LinksEvolve(s: State, s': State) {
    && (forall a, b, m :: Evolves(LinkOf(s, a, b, m), LinkOf(s', a, b, m)))
    && (forall a: ChainId :: s.nodes(a).log <= s'.nodes(a).log)
  }

  lemma RequestStaysSafe(s: State, s': State, q: CrossChainRequest)
    requires LinksGood(s) && LinksEvolve(s, s') && RequestSafe(s, q)
    ensures RequestSafe(s', q)
  {
    match q {
      case UpdateRecipient(heightMap, a, b, certificates) =>
        forall k | 0 <= k < |heightMap| ensures UpdateSafe(LinkOf(s', a, b, heightMap[k].0), heightMap[k].1) {
          UpdateStaysSafe(LinkOf(s, a, b, heightMap[k].0), LinkOf(s', a, b, heightMap[k].0), heightMap[k].1);
        }
      case ConfirmUpdatedRecipient(a, b, latestHeights) =>
        forall k | 0 <= k < |latestHeights|
          ensures AckSafe(LinkOf(s', a, b, latestHeights[k].0), latestHeights[k].1)
        {
          AckStaysSafe(LinkOf(s, a, b, latestHeights[k].0), LinkOf(s', a, b, latestHeights[k].0), latestHeights[k].1);
        }
    }
  }

  ghost predicate NewlyAcknowledged(s: State, s': State, a: ChainId, b: ChainId, m: Medium, h: Height) {
    h in s'.nodes(b).acknowledged(Origin(a, m)) && h !in s.nodes(b).acknowledged(Origin(a, m))
  }

  /** The invariant holds again once the links are good and what is new is safe. */
  lemma Reestablish(s: State, s': State)
    requires Invariant(s) && LinksGood(s') && LinksEvolve(s, s')
    requires forall q :: q in s'.network && q !in s.network ==> RequestSafe(s', q)
    requires forall a, b, m, h :: NewlyAcknowledged(s, s', a, b, m, h) ==> AckSafe(LinkOf(s', a, b, m), h)
    ensures Invariant(s')
  {
    forall q | q in s'.network ensures RequestSafe(s', q) {
      if q in s.network {
        RequestStaysSafe(s, s', q);
      }
    }
    forall a, b, m, h | h in s'.nodes(b).acknowledged(Origin(a, m)) ensures AckSafe(LinkOf(s', a, b, m), h) {
      if !NewlyAcknowledged(s, s', a, b, m, h) {
        AckStaysSafe(LinkOf(s, a, b, m), LinkOf(s', a, b, m), h);
      }
    }
  }

  lemma {:induction false} RouteAllFrame(n: Node, height: Height, results: seq<(ApplicationId, RawResult)>)
    ensures var n' := RouteAll(n, height, results);
      n'.log == n.log && n'.inbox == n.inbox && n'.received == n.received && n'.added == n.added
      && n'.consumed == n.consumed && n'.acknowledged == n.acknowledged
    decreases |results|
  {
    if results != [] {
      RouteAllFrame(n, height, results[..|results| - 1]);
    }
  }

  /** One link is good after a step, and has evolved. */
  ghost predicate LinkKept(s: State, s': State, a: ChainId, b: ChainId, m: Medium) {
    Good(LinkOf(s', a, b, m), b, m) && Evolves(LinkOf(s, a, b, m), LinkOf(s', a, b, m))
  }

  lemma ExecuteBlockLink(s: State, step: Step, s': State, a: ChainId, b: ChainId, m: Medium)
    requires step.ExecuteBlock? && Transition(s, step, s') && Good(LinkOf(s, a, b, m), b, m)
    ensures LinkKept(s, s', a, b, m)
  {
    var n, l := s.nodes(step.chain), LinkOf(s, a, b, m);
    RouteAllFrame(n, |n.log|, step.results);
    if a == step.chain {
      RouteAllKeeps(l, n, step.results, step.block, b, m);
      assert LinkOf(s', a, b, m) == Executing(l, RouteAll(n, |n.log|, step.results), step.block, b, m);
    } else {
      assert LinkOf(s', a, b, m) == l;
    }
  }

  lemma ConsumeMessageLink(s: State, step: Step, s': State, a: ChainId, b: ChainId, m: Medium)
    requires step.ConsumeMessage? && Transition(s, step, s') && Good(LinkOf(s, a, b, m), b, m)
    ensures LinkKept(s, s', a, b, m)
  {
    ConsumedLink(s, step, s', a, b, m);
    ConsumeKeeps(LinkOf(s, a, b, m), LinkOf(s', a, b, m), b, m);
  }

  lemma ConsumedLink(s: State, step: Step, s': State, a: ChainId, b: ChainId, m: Medium)
    requires step.ConsumeMessage? && Transition(s, step, s')
    ensures var l, l' := LinkOf(s, a, b, m), LinkOf(s', a, b, m);
      l' == l.(inbox := l'.inbox, consumed := l'.consumed) && l'.inbox.nextAdd == l.inbox.nextAdd
  {
  }

  lemma ConsumeKeeps(l: Link, l': Link, b: ChainId, m: Medium)
    requires l' == l.(inbox := l'.inbox, consumed := l'.consumed) && l'.inbox.nextAdd == l.inbox.nextAdd
    requires Good(l, b, m)
    ensures Good(l', b, m) && Evolves(l, l')
  {
  }

  /** The receiving side of an update, when its blocks are received and saved. */
  lemma AfterUpdateLink(s: State, q: CrossChainRequest, k: nat, selected: seq<Certificate>, s': State)
    requires q.UpdateRecipient? && k < |q.heightMap|
    requires s' == SetNode(s, q.recipient, AfterUpdate(s.nodes(q.recipient), q, k, selected, true))
    requires ReceiveAll(s.nodes(q.recipient).inbox(Origin(q.sender, q.heightMap[k].0)), q.recipient,
                        q.heightMap[k].0, selected).Ok? && selected != []
    ensures var m := q.heightMap[k].0; var l := LinkOf(s, q.sender, q.recipient, m);
      LinkOf(s', q.sender, q.recipient, m)
      == AfterSelection(l, selected, ReceiveAll(l.inbox, q.recipient, m, selected).value, q.recipient, m)
    ensures forall h :: NewlyAcknowledged(s, s', q.sender, q.recipient, q.heightMap[k].0, h)
              ==> h == HeightsOf(selected)[|selected| - 1]
  {
  }

  /** The link of an update after one of its entries was handled. */
  lemma UpdatedLink(s: State, step: Step, s': State)
    requires step.HandleUpdate? && Transition(s, step, s') && RequestSafe(s, step.request)
    requires var q := step.request; var m := q.heightMap[step.index].0;
      Good(LinkOf(s, q.sender, q.recipient, m), q.recipient, m) && LogGood(s.nodes(q.sender).log)
    ensures var q := step.request; var m := q.heightMap[step.index].0;
      && LinkKept(s, s', q.sender, q.recipient, m)
      && (forall h :: NewlyAcknowledged(s, s', q.sender, q.recipient, m, h)
            ==> AckSafe(LinkOf(s', q.sender, q.recipient, m), h))
  {
    var q, selected := step.request, step.selected;
    var (m, heights) := q.heightMap[step.index];
    var l := LinkOf(s, q.sender, q.recipient, m);
    if step.saved && selected != [] && ReceiveAll(l.inbox, q.recipient, m, selected).Ok? {
      SelectionKeeps(l, q.certificates, heights, step.trust, selected, q.sender, q.recipient, m);
      AfterUpdateLink(s, q, step.index, selected, s');
    } else {
      assert LinkOf(s', q.sender, q.recipient, m) == l;
    }
  }

  lemma HandleUpdateLink(s: State, step: Step, s': State, a: ChainId, b: ChainId, m: Medium)
    requires step.HandleUpdate? && Transition(s, step, s') && RequestSafe(s, step.request)
    requires Good(LinkOf(s, a, b, m), b, m) && LogGood(s.nodes(a).log)
    ensures LinkKept(s, s', a, b, m)
    ensures forall h :: NewlyAcknowledged(s, s', a, b, m, h) ==> AckSafe(LinkOf(s', a, b, m), h)
  {
    var q := step.request;
    if a == q.sender && b == q.recipient && m == q.heightMap[step.index].0 {
      UpdatedLink(s, step, s');
    } else {
      OtherLink(s, step, s', a, b, m);
    }
  }

  lemma OtherLink(s: State, step: Step, s': State, a: ChainId, b: ChainId, m: Medium)
    requires step.HandleUpdate? && Transition(s, step, s')
    requires !(a == step.request.sender && b == step.request.recipient && m == step.request.heightMap[step.index].0)
    ensures LinkOf(s', a, b, m) == LinkOf(s, a, b, m)
    ensures forall h :: !NewlyAcknowledged(s, s', a, b, m, h)
  {
  }

  /** Acknowledgements of what was received keep the link. */
  lemma {:induction false} AcknowledgeEachKeeps(l: Link, b: ChainId, m: Medium, latest: seq<(Medium, Height)>)
    requires Good(l, b, m)
    requires forall k :: 0 <= k < |latest| && latest[k].0 == m ==> AckSafe(l, latest[k].1)
    ensures Good(l.(outbox := AcknowledgeEach(l.outbox, Target(b, m), b, latest)), b, m)
    decreases |latest|
  {
    if latest != [] {
      var before := latest[..|latest| - 1];
      AcknowledgeEachKeeps(l, b, m, before);
      if latest[|latest| - 1].0 == m {
        var o := AcknowledgeEach(l.outbox, Target(b, m), b, before);
        AcknowledgeKeeps(l.(outbox := o), latest[|latest| - 1].1, b, m);
      }
    }
  }

  /** Acknowledgements of one recipient do not touch the outboxes of another. */
  lemma {:induction false} AcknowledgeEachOther(o: Outbox, t: Target, b: ChainId, latest: seq<(Medium, Height)>)
    requires t.recipient != b
    ensures AcknowledgeEach(o, t, b, latest) == o
    decreases |latest|
  {
    if latest != [] {
      AcknowledgeEachOther(o, t, b, latest[..|latest| - 1]);
    }
  }

  lemma HandleConfirmationLink(s: State, step: Step, s': State, a: ChainId, b: ChainId, m: Medium)
    requires step.HandleConfirmation? && Transition(s, step, s') && RequestSafe(s, step.request)
    requires Good(LinkOf(s, a, b, m), b, m)
    ensures LinkKept(s, s', a, b, m)
  {
    var q, l := step.request, LinkOf(s, a, b, m);
    if a == q.sender && b == q.recipient {
      AcknowledgeEachKeeps(l, b, m, q.latestHeights);
      assert LinkOf(s', a, b, m) == l.(outbox := AcknowledgeEach(l.outbox, Target(b, m), b, q.latestHeights));
    } else {
      if a == q.sender {
        AcknowledgeEachOther(l.outbox, Target(b, m), q.recipient, q.latestHeights);
      }
      assert LinkOf(s', a, b, m) == l;
    }
  }

  /** What a sender puts in the network is safe from the start. */
  lemma SentIsSafe(s: State, step: Step, s': State)
    requires Invariant(s) && (step.SendUpdate? || step.SendConfirmation?) && Transition(s, step, s')
    ensures RequestSafe(s, step.request)
  {
    var q := step.request;
    if step.SendUpdate? {
      forall k | 0 <= k < |q.heightMap|
        ensures UpdateSafe(LinkOf(s, q.sender, q.recipient, q.heightMap[k].0), q.heightMap[k].1)
        ensures forall h :: h in q.heightMap[k].1 ==> Carried(q.certificates, h)
      {
        assert Good(LinkOf(s, q.sender, q.recipient, q.heightMap[k].0), q.recipient, q.heightMap[k].0);
      }
    }
  }

  /** Any step keeps any link. */
  lemma StepKeepsLink(s: State, step: Step, s': State, a: ChainId, b: ChainId, m: Medium)
    requires Invariant(s) && Transition(s, step, s')
    ensures LinkKept(s, s', a, b, m)
    ensures forall h :: NewlyAcknowledged(s, s', a, b, m, h) ==> AckSafe(LinkOf(s', a, b, m), h)
  {
    assert Good(LinkOf(s, a, b, m), b, m) && LogGood(s.nodes(a).log);
    assert step.HandleUpdate? || step.HandleConfirmation? ==> RequestSafe(s, step.request);
    StepKeepsGoodLink(s, step, s', a, b, m);
  }

  lemma StepKeepsGoodLink(s: State, step: Step, s': State, a: ChainId, b: ChainId, m: Medium)
    requires Good(LinkOf(s, a, b, m), b, m) && LogGood(s.nodes(a).log) && Transition(s, step, s')
    requires step.HandleUpdate? || step.HandleConfirmation? ==> RequestSafe(s, step.request)
    ensures LinkKept(s, s', a, b, m)
    ensures forall h :: NewlyAcknowledged(s, s', a, b, m, h) ==> AckSafe(LinkOf(s', a, b, m), h)
  {
    match step {
      case ExecuteBlock(_, _, _) => ExecuteBlockLink(s, step, s', a, b, m);
      case ConsumeMessage(_, _, _) => ConsumeMessageLink(s, step, s', a, b, m);
      case HandleUpdate(_, _, _, _, _) => HandleUpdateLink(s, step, s', a, b, m);
      case HandleConfirmation(_) => HandleConfirmationLink(s, step, s', a, b, m);
      case _ => SendLink(s, step, s', a, b, m);
    }
    if !step.HandleUpdate? {
      NothingAcknowledged(s, step, s', a, b, m);
    }
  }

  lemma SendLink(s: State, step: Step, s': State, a: ChainId, b: ChainId, m: Medium)
    requires (step.SendUpdate? || step.SendConfirmation?) && Transition(s, step, s') && Good(LinkOf(s, a, b, m), b, m)
    ensures LinkKept(s, s', a, b, m)
  {
    assert LinkOf(s', a, b, m) == LinkOf(s, a, b, m);
  }

  /** Only an update makes a recipient acknowledge. */
  lemma NothingAcknowledged(s: State, step: Step, s': State, a: ChainId, b: ChainId, m: Medium)
    requires !step.HandleUpdate? && Transition(s, step, s')
    ensures forall h :: !NewlyAcknowledged(s, s', a, b, m, h)
  {
    if step.ExecuteBlock? {
      RouteAllFrame(s.nodes(step.chain), |s.nodes(step.chain).log|, step.results);
    }
  }

  lemma StepKeepsLog(s: State, step: Step, s': State, a: ChainId)
    requires LogGood(s.nodes(a).log) && Transition(s, step, s')
    ensures LogGood(s'.nodes(a).log) && s.nodes(a).log <= s'.nodes(a).log
  {
  }

  /** Every step keeps the invariant. */
  lemma StepKeeps(s: State, step: Step, s': State)
    requires Invariant(s) && Transition(s, step, s')
    ensures Invariant(s')
  {
    forall a, b, m
      ensures LinkKept(s, s', a, b, m)
      ensures forall h :: NewlyAcknowledged(s, s', a, b, m, h) ==> AckSafe(LinkOf(s', a, b, m), h)
    {
      StepKeepsLink(s, step, s', a, b, m);
    }
    forall a: ChainId ensures LogGood(s'.nodes(a).log) && s.nodes(a).log <= s'.nodes(a).log {
      StepKeepsLog(s, step, s', a);
    }
    if step.SendUpdate? || step.SendConfirmation? {
      SentIsSafe(s, step, s');
      assert LinksEvolve(s, s');
      RequestStaysSafe(s, s', step.request);
    }
    Reestablish(s, s');
  }

  lemma {:induction false} RunKeeps(states: seq<State>, steps: seq<Step>, i: nat)
    requires IsRun(states, steps) && i < |states|
    ensures Invariant(states[i])
  {
    if i == 0 {
      assert forall a, b, m :: Good(LinkOf(Init(), a, b, m), b, m);
    } else {
      RunKeeps(states, steps, i - 1);
      StepKeeps(states[i - 1], steps[i - 1], states[i]);
    }
  }
}
