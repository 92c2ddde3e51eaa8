/**
  The part of a chain state that routes messages: results of transactions enter the
  outboxes and channels, acknowledgements leave them, and blocks of other chains enter
  the inboxes.
 */
module Chain {
  import opened Common
  import opened Outboxes

  datatype ChannelState = ChannelState(subscribers: set<ChainId>, blockHeight: Option<Height>)

  const EMPTY_CHANNEL := ChannelState({}, None)

  datatype RawMessage = RawMessage(destination: Destination, authenticated: bool, isSkippable: bool, content: nat)

  /** The externally visible result of a transaction, in the context of one application. */
  datatype RawResult = RawResult(
    signer: Option<Owner>,
    messages: seq<RawMessage>,
    subscribe: seq<(nat, ChainId)>,
    unsubscribe: seq<(nat, ChainId)>)

  datatype ChainError = TryLockError | Overflow

  function ChannelOf(channels: map<ChannelName, ChannelState>, c: ChannelName): ChannelState {
    if c in channels then channels[c] else EMPTY_CHANNEL
  }

  /** One outbox after a list of acknowledgements from `recipient`. */
  function AcknowledgeEach(o: Outbox, t: Target, recipient: ChainId, latest: seq<(Medium, Height)>): Outbox {
    if latest == [] then o
    else var (medium, height) := latest[|latest| - 1];
      var before := AcknowledgeEach(o, t, recipient, latest[..|latest| - 1]);
      if t == Target(recipient, medium) then Acknowledge(before, height) else before
  }

  // ----- What one result asks for -----

  function Lift(application: ApplicationId, signer: Option<Owner>, m: RawMessage): OutgoingMessage {
    OutgoingMessage(m.destination, if m.authenticated then signer else None, m.isSkippable,
                    Message(application, m.content))
  }

  function LiftAll(application: ApplicationId, r: RawResult): seq<OutgoingMessage> {
    seq(|r.messages|, i requires 0 <= i < |r.messages| => Lift(application, r.signer, r.messages[i]))
  }

  predicate SendsTo(r: RawResult, id: ChainId) {
    exists m :: m in r.messages && m.destination == Recipient(id)
  }

  predicate BroadcastsOn(application: ApplicationId, r: RawResult, c: ChannelName) {
    c.application == application && exists m :: m in r.messages && m.destination == Subscribers(c.name)
  }

  predicate Subscribes(application: ApplicationId, r: RawResult, c: ChannelName, id: ChainId) {
    c.application == application && (c.name, id) in r.subscribe
  }

  predicate Unsubscribes(application: ApplicationId, r: RawResult, c: ChannelName, id: ChainId) {
    c.application == application && (c.name, id) in r.unsubscribe
  }

  /** Loading the same channel twice for writing is an error. */
  predicate DistinctNames(s: seq<(nat, ChainId)>) {
    forall i, j :: 0 <= i < j < |s| ==> s[i].0 != s[j].0
  }

  // ----- The state after a result, outbox by outbox and channel by channel -----

  /** The subscribers that receive a broadcast of this result. */
  function Audience(application: ApplicationId, r: RawResult, c: ChannelName, channel: ChannelState): set<ChainId> {
    set id | id in channel.subscribers && !Unsubscribes(application, r, c, id)
  }

  function LatestHeight(application: ApplicationId, r: RawResult, height: Height, c: ChannelName,
                        channel: ChannelState): Option<Height> {
    if BroadcastsOn(application, r, c) then Some(height) else channel.blockHeight
  }

  ghost function ChannelAfter(application: ApplicationId, r: RawResult, height: Height, c: ChannelName,
                              channel: ChannelState): ChannelState {
    ChannelState(
      Audience(application, r, c, channel)
        + (set p | p in r.subscribe && Subscribes(application, r, c, p.1) :: p.1),
      LatestHeight(application, r, height, c, channel))
  }

  /** The height, if any, that the result wants to be sent to a target. */
  function Request(application: ApplicationId, r: RawResult, height: Height, t: Target,
                   channel: ChannelState): Option<Height> {
    match t.medium
    case Direct => if SendsTo(r, t.recipient) then Some(height) else None
    case Channel(c) =>
      if t.recipient in Audience(application, r, c, channel) then
        if BroadcastsOn(application, r, c) then Some(height) else None
      else if Subscribes(application, r, c, t.recipient) then LatestHeight(application, r, height, c, channel)
      else None
  }

  function OutboxAfter(application: ApplicationId, r: RawResult, height: Height, t: Target,
                       channel: ChannelState, o: Outbox): Outbox {
    match Request(application, r, height, t, channel)
    case Some(h) => Schedule(o, h)
    case None => o
  }

  function ChannelFor(channels: map<ChannelName, ChannelState>, t: Target): ChannelState {
    match t.medium
    case Direct => EMPTY_CHANNEL
    case Channel(c) => ChannelOf(channels, c)
  }

  /** Exactly the given targets had the height scheduled. */
  ghost predicate ScheduledAll(before: map<Target, Outbox>, targets: set<Target>, height: Height,
                               after: map<Target, Outbox>) {
    && (forall t :: t in targets ==> OutboxOf(after, t) == Schedule(OutboxOf(before, t), height))
    && (forall t :: t !in targets ==> OutboxOf(after, t) == OutboxOf(before, t))
  }

  /** Exactly the targets in `done` had their own height scheduled. */
  ghost predicate ScheduledEach(before: map<Target, Outbox>, requests: map<Target, Height>, done: set<Target>,
                                after: map<Target, Outbox>) {
    && (forall t :: t in done && t in requests ==> OutboxOf(after, t) == Schedule(OutboxOf(before, t), requests[t]))
    && (forall t :: t !in done ==> OutboxOf(after, t) == OutboxOf(before, t))
  }

  /** The target is a new subscriber of a channel that has a latest height. */
  ghost predicate NewSubscriber(application: ApplicationId, subscribe: seq<(nat, ChainId)>,
                                channels: map<ChannelName, ChannelState>, t: Target) {
    && t.medium.Channel? && t.medium.name.application == application
    && (t.medium.name.name, t.recipient) in subscribe
    && t.recipient !in ChannelOf(channels, t.medium.name).subscribers
    && ChannelOf(channels, t.medium.name).blockHeight.Some?
  }

  // The stages of routing a result: direct messages, broadcasts, then subscriptions.

  ghost predicate ChannelsNoted(application: ApplicationId, r: RawResult, height: Height,
                                before: map<ChannelName, ChannelState>, after: map<ChannelName, ChannelState>) {
    && (forall c :: ChannelOf(after, c).subscribers == Audience(application, r, c, ChannelOf(before, c)))
    && (forall c :: ChannelOf(after, c).blockHeight == LatestHeight(application, r, height, c, ChannelOf(before, c)))
  }

  ghost predicate ReachedByBroadcast(application: ApplicationId, r: RawResult,
                                     channels: map<ChannelName, ChannelState>, t: Target) {
    && t.medium.Channel? && BroadcastsOn(application, r, t.medium.name)
    && t.recipient in Audience(application, r, t.medium.name, ChannelOf(channels, t.medium.name))
  }

  ghost predicate BroadcastsScheduled(application: ApplicationId, r: RawResult, height: Height,
                                      channels: map<ChannelName, ChannelState>, before: map<Target, Outbox>,
                                      after: map<Target, Outbox>) {
    forall t :: OutboxOf(after, t) == if ReachedByBroadcast(application, r, channels, t)
                                      then Schedule(OutboxOf(before, t), height) else OutboxOf(before, t)
  }

  ghost predicate SubscribersAdded(application: ApplicationId, r: RawResult,
                                   before: map<ChannelName, ChannelState>, after: map<ChannelName, ChannelState>) {
    && (forall c :: ChannelOf(after, c).blockHeight == ChannelOf(before, c).blockHeight)
    && (forall c, id :: id in ChannelOf(after, c).subscribers <==>
          id in ChannelOf(before, c).subscribers || Subscribes(application, r, c, id))
  }

  ghost predicate LatestScheduled(application: ApplicationId, r: RawResult, channels: map<ChannelName, ChannelState>,
                                  before: map<Target, Outbox>, after: map<Target, Outbox>) {
    forall t :: OutboxOf(after, t) == if NewSubscriber(application, r.subscribe, channels, t)
                                      then Schedule(OutboxOf(before, t), ChannelFor(channels, t).blockHeight.value)
                                      else OutboxOf(before, t)
  }

  /** The stages together have the effect described outbox by outbox and channel by channel. */
  lemma Routed(application: ApplicationId, r: RawResult, height: Height, channels: map<ChannelName, ChannelState>,
               before: map<Target, Outbox>, direct: map<Target, Outbox>, middle: map<Target, Outbox>,
               after: map<Target, Outbox>, noted: map<ChannelName, ChannelState>,
               channels': map<ChannelName, ChannelState>)
    requires forall t :: OutboxOf(direct, t) == if t.medium.Direct? && SendsTo(r, t.recipient)
                                                then Schedule(OutboxOf(before, t), height) else OutboxOf(before, t)
    requires ChannelsNoted(application, r, height, channels, noted)
    requires BroadcastsScheduled(application, r, height, channels, direct, middle)
    requires SubscribersAdded(application, r, noted, channels')
    requires LatestScheduled(application, r, noted, middle, after)
    ensures OutboxesRouted(application, r, height, channels, before, after)
    ensures ChannelsRouted(application, r, height, channels, channels')
  {
    forall t ensures OutboxOf(after, t)
      == OutboxAfter(application, r, height, t, ChannelFor(channels, t), OutboxOf(before, t))
    {
    }
    forall c ensures ChannelOf(channels', c) == ChannelAfter(application, r, height, c, ChannelOf(channels, c)) {
      var expected := ChannelAfter(application, r, height, c, ChannelOf(channels, c));
      forall id ensures id in ChannelOf(channels', c).subscribers <==> id in expected.subscribers {
        if Subscribes(application, r, c, id) {
          var p := (c.name, id);
          assert p in r.subscribe && p.1 == id;
        }
      }
    }
  }

  ghost predicate OutboxesRouted(application: ApplicationId, r: RawResult, height: Height,
                                 channels: map<ChannelName, ChannelState>, before: map<Target, Outbox>,
                                 after: map<Target, Outbox>) {
    forall t ::
      OutboxOf(after, t) == OutboxAfter(application, r, height, t, ChannelFor(channels, t), OutboxOf(before, t))
  }

  ghost predicate ChannelsRouted(application: ApplicationId, r: RawResult, height: Height,
                                 before: map<ChannelName, ChannelState>, after: map<ChannelName, ChannelState>) {
    forall c :: ChannelOf(after, c) == ChannelAfter(application, r, height, c, ChannelOf(before, c))
  }

  ghost predicate HasHugeChannel(channels: map<ChannelName, ChannelState>) {
    exists c :: ChannelOf(channels, c).blockHeight.Some? && U64_MAX <= ChannelOf(channels, c).blockHeight.value
  }

  // ----- The chain as it is updated in place -----

  class ChainView {
    var outboxes: map<Target, Outbox>
    var outboxCounters: map<Height, nat>
    var channels: map<ChannelName, ChannelState>

    /** Queues are in order and the counters are exact. */
    ghost predicate Valid()
      reads this
    {
      ValidOutboxes(outboxes) && Counted(outboxes, outboxCounters)
    }

    constructor ()
      ensures Valid()
      ensures outboxes == map[] && channels == map[]
    {
      outboxes, outboxCounters, channels := map[], map[], map[];
    }

    /** Loads one outbox, schedules a height, and counts it if it was not scheduled already. */
    method ScheduleAt(target: Target, height: Height) returns (result: Result<(), ChainError>)
      requires Valid()
      modifies this`outboxes, this`outboxCounters
      ensures result.Err? ==> result.error == Overflow && U64_MAX <= height
      ensures result.Ok? ==> Valid()
      ensures result.Ok? ==> OutboxOf(outboxes, target) == Schedule(OutboxOf(old(outboxes), target), height)
      ensures forall t :: t != target ==> OutboxOf(outboxes, t) == OutboxOf(old(outboxes), t)
    {
      var before := OutboxOf(outboxes, target);
      var outbox := new OutboxView(before);
      var scheduled := outbox.ScheduleMessage(height);
      if scheduled.Err? {
        return Err(Overflow);
      }
      ghost var was := outboxes;
      var after := outbox.State();
      outboxes := outboxes[target := after];
      ScheduleValid(before, height);
      if scheduled.value {
        CountedMore(was, outboxCounters, target, after, height);
        outboxCounters := outboxCounters[height := CountOf(outboxCounters, height) + 1];
      } else {
        CountedSame(was, outboxCounters, target, after);
      }
      result := Ok(());
    }

    /** Schedules one height for a set of targets, in any order. */
    method ScheduleAll(targets: set<Target>, height: Height) returns (result: Result<(), ChainError>)
      requires Valid()
      modifies this`outboxes, this`outboxCounters
      ensures result.Err? ==> result.error == Overflow && U64_MAX <= height
      ensures result.Ok? ==> Valid()
      ensures result.Ok? ==> ScheduledAll(old(outboxes), targets, height, outboxes)
    {
      var todo := targets;
      while todo != {}
        invariant todo <= targets
        invariant Valid()
        invariant ScheduledAll(old(outboxes), targets - todo, height, outboxes)
        decreases |todo|
      {
        var t :| t in todo;
        todo := todo - {t};
        var scheduled := ScheduleAt(t, height);
        if scheduled.Err? {
          return scheduled;
        }
      }
      result := Ok(());
    }

    /** Schedules the given heights, in any order. */
    method ScheduleEach(requests: map<Target, Height>) returns (result: Result<(), ChainError>)
      requires Valid()
      modifies this`outboxes, this`outboxCounters
      ensures result.Err? ==> result.error == Overflow && exists t :: t in requests && U64_MAX <= requests[t]
      ensures result.Ok? ==> Valid()
      ensures result.Ok? ==> ScheduledEach(old(outboxes), requests, requests.Keys, outboxes)
    {
      var todo := requests.Keys;
      while todo != {}
        invariant todo <= requests.Keys
        invariant Valid()
        invariant ScheduledEach(old(outboxes), requests, requests.Keys - todo, outboxes)
        decreases |todo|
      {
        var t :| t in todo;
        todo := todo - {t};
        var scheduled := ScheduleAt(t, requests[t]);
        if scheduled.Err? {
          return scheduled;
        }
      }
      result := Ok(());
    }

    method RemoveSubscribers(application: ApplicationId, r: RawResult)
      modifies this`channels
      ensures forall c :: ChannelOf(channels, c).blockHeight == ChannelOf(old(channels), c).blockHeight
      ensures forall c :: ChannelOf(channels, c).subscribers == Audience(application, r, c, ChannelOf(old(channels), c))
    {
      for i := 0 to |r.unsubscribe|
        invariant forall c :: ChannelOf(channels, c).blockHeight == ChannelOf(old(channels), c).blockHeight
        invariant forall c, id :: id in ChannelOf(channels, c).subscribers <==>
          && id in ChannelOf(old(channels), c).subscribers
          && !(c.application == application && (c.name, id) in r.unsubscribe[..i])
      {
        var (name, id) := r.unsubscribe[i];
        var c := ChannelName(application, name);
        var channel := ChannelOf(channels, c);
        channels := channels[c := channel.(subscribers := channel.subscribers - {id})];
        assert r.unsubscribe[..i + 1] == r.unsubscribe[..i] + [r.unsubscribe[i]];
      }
      assert r.unsubscribe[..|r.unsubscribe|] == r.unsubscribe;
    }

    /** Records the height of a broadcast on each channel and returns the targets to notify. */
    method Broadcast(names: set<ChannelName>, height: Height) returns (targets: set<Target>)
      modifies this`channels
      ensures forall c :: ChannelOf(channels, c).subscribers == ChannelOf(old(channels), c).subscribers
      ensures forall c :: c in names ==> ChannelOf(channels, c).blockHeight == Some(height)
      ensures forall c :: c !in names ==> ChannelOf(channels, c) == ChannelOf(old(channels), c)
      ensures forall t :: t in targets <==>
        && t.medium.Channel? && t.medium.name in names
        && t.recipient in ChannelOf(old(channels), t.medium.name).subscribers
    {
      targets := {};
      var todo := names;
      while todo != {}
        invariant todo <= names
        invariant forall c :: ChannelOf(channels, c).subscribers == ChannelOf(old(channels), c).subscribers
        invariant forall c :: c in names && c !in todo ==> ChannelOf(channels, c).blockHeight == Some(height)
        invariant forall c :: c !in names || c in todo ==> ChannelOf(channels, c) == ChannelOf(old(channels), c)
        invariant forall t :: t in targets <==>
          && t.medium.Channel? && t.medium.name in names && t.medium.name !in todo
          && t.recipient in ChannelOf(old(channels), t.medium.name).subscribers
        decreases |todo|
      {
        var c :| c in todo;
        todo := todo - {c};
        var channel := ChannelOf(channels, c);
        channels := channels[c := channel.(blockHeight := Some(height))];
        targets := targets + (set id | id in channel.subscribers :: Target(id, Channel(c)));
      }
    }

    /** Adds subscribers and returns the latest heights to send to the new ones. */
    method AddSubscribers(application: ApplicationId, r: RawResult) returns (requests: map<Target, Height>)
      requires DistinctNames(r.subscribe)
      modifies this`channels
      ensures forall c :: ChannelOf(channels, c).blockHeight == ChannelOf(old(channels), c).blockHeight
      ensures forall c, id :: id in ChannelOf(channels, c).subscribers <==>
        id in ChannelOf(old(channels), c).subscribers || Subscribes(application, r, c, id)
      ensures forall t :: t in requests <==> NewSubscriber(application, r.subscribe, old(channels), t)
      ensures forall t :: t in requests ==> ChannelFor(old(channels), t).blockHeight == Some(requests[t])
    {
      requests := map[];
      for i := 0 to |r.subscribe|
        invariant forall c :: ChannelOf(channels, c).blockHeight == ChannelOf(old(channels), c).blockHeight
        invariant forall c, id :: id in ChannelOf(channels, c).subscribers <==>
          || id in ChannelOf(old(channels), c).subscribers
          || (c.application == application && (c.name, id) in r.subscribe[..i])
        invariant forall t :: t in requests <==> NewSubscriber(application, r.subscribe[..i], old(channels), t)
        invariant forall t :: t in requests ==> ChannelFor(old(channels), t).blockHeight == Some(requests[t])
      {
        var (name, id) := r.subscribe[i];
        var c := ChannelName(application, name);
        var channel := ChannelOf(channels, c);
        assert forall j :: 0 <= j < i ==> r.subscribe[j].0 != name;
        assert r.subscribe[..i + 1] == r.subscribe[..i] + [r.subscribe[i]];
        if id !in channel.subscribers {
          if channel.blockHeight.Some? {
            requests := requests[Target(id, Channel(c)) := channel.blockHeight.value];
          }
          channels := channels[c := channel.(subscribers := channel.subscribers + {id})];
        }
      }
      assert r.subscribe[..|r.subscribe|] == r.subscribe;
    }

    /**
      Records the messages of a result and routes them: direct recipients first, then
      unsubscriptions, broadcasts and subscriptions.
     */
    method ProcessRawExecutionResult(application: ApplicationId, messages: seq<OutgoingMessage>, height: Height,
                                     r: RawResult) returns (result: Result<seq<OutgoingMessage>, ChainError>)
      requires Valid()
      modifies this
      ensures !DistinctNames(r.unsubscribe) || !DistinctNames(r.subscribe) ==> result.Err?
      ensures result == Err(TryLockError) ==> !DistinctNames(r.unsubscribe) || !DistinctNames(r.subscribe)
      ensures result == Err(Overflow) ==> U64_MAX <= height || HasHugeChannel(old(channels))
      ensures result.Ok? ==> Valid()
      ensures result.Ok? ==> result.value == messages + LiftAll(application, r)
      ensures result.Ok? ==> OutboxesRouted(application, r, height, old(channels), old(outboxes), outboxes)
      ensures result.Ok? ==> ChannelsRouted(application, r, height, old(channels), channels)
    {
      var recorded, recipients, broadcasts := Collect(application, messages, r);
      var targets := set id | id in recipients :: Target(id, Direct);
      var scheduled := ScheduleAll(targets, height);
      if scheduled.Err? {
        return Err(scheduled.error);
      }
      ghost var direct := outboxes;
      if !DistinctNames(r.unsubscribe) {
        return Err(TryLockError);
      }
      scheduled := BroadcastAll(application, r, broadcasts, height);
      if scheduled.Err? {
        return Err(scheduled.error);
      }
      ghost var middle, noted := outboxes, channels;
      if !DistinctNames(r.subscribe) {
        return Err(TryLockError);
      }
      scheduled := SubscribeAll(application, r);
      if scheduled.Err? {
        ghost var c :| ChannelOf(noted, c).blockHeight.Some? && U64_MAX <= ChannelOf(noted, c).blockHeight.value;
        assert ChannelOf(noted, c).blockHeight == LatestHeight(application, r, height, c, ChannelOf(old(channels), c));
        return Err(scheduled.error);
      }
      Routed(application, r, height, old(channels), old(outboxes), direct, middle, outboxes, noted, channels);
      result := Ok(recorded);
    }

    /** Removes unsubscribed chains, then schedules the broadcasts for the remaining subscribers. */
    method BroadcastAll(application: ApplicationId, r: RawResult, broadcasts: set<ChannelName>, height: Height)
      returns (result: Result<(), ChainError>)
      requires Valid()
      requires forall c :: c in broadcasts <==> BroadcastsOn(application, r, c)
      modifies this
      ensures result.Err? ==> result.error == Overflow && U64_MAX <= height
      ensures result.Ok? ==> Valid()
      ensures result.Ok? ==> ChannelsNoted(application, r, height, old(channels), channels)
      ensures result.Ok? ==> BroadcastsScheduled(application, r, height, old(channels), old(outboxes), outboxes)
    {
      RemoveSubscribers(application, r);
      var targets := Broadcast(broadcasts, height);
      result := ScheduleAll(targets, height);
    }

    /** Adds subscribers and schedules the latest height of their channel, if any. */
    method SubscribeAll(application: ApplicationId, r: RawResult) returns (result: Result<(), ChainError>)
      requires Valid() && DistinctNames(r.subscribe)
      modifies this
      ensures result.Err? ==> result.error == Overflow && HasHugeChannel(old(channels))
      ensures result.Ok? ==> Valid()
      ensures result.Ok? ==> SubscribersAdded(application, r, old(channels), channels)
      ensures result.Ok? ==> LatestScheduled(application, r, old(channels), old(outboxes), outboxes)
    {
      var requests := AddSubscribers(application, r);
      result := ScheduleEach(requests);
      if result.Err? {
        var t :| t in requests && U64_MAX <= requests[t];
        assert ChannelOf(old(channels), t.medium.name).blockHeight == Some(requests[t]);
      }
    }

    /** Uncounts the heights that leave one outbox. Every counter is present and positive. */
    method DecrementCounters(updates: seq<Height>, ghost all: map<Target, Outbox>, ghost target: Target,
                             ghost rest: seq<Height>)
      requires OutboxOf(all, target).queue == updates + rest && Increasing(updates + rest)
      requires Counted(all, outboxCounters)
      modifies this`outboxCounters
      ensures Counted(all[target := OutboxOf(all, target).(queue := rest)], outboxCounters)
    {
      ghost var o := OutboxOf(all, target);
      CountedSame(all, outboxCounters, target, o);
      for i := 0 to |updates|
        invariant Counted(all[target := o.(queue := updates[i..] + rest)], outboxCounters)
      {
        QueueFront(updates[i..] + rest, updates[i + 1..] + rest, updates + rest, i);
        UncountOne(all, outboxCounters, target, o.(queue := updates[i..] + rest),
                   o.(queue := updates[i + 1..] + rest), updates[i]);
        var count := outboxCounters[updates[i]] - 1;
        outboxCounters := if count == 0 then outboxCounters - {updates[i]} else outboxCounters[updates[i] := count];
      }
      assert updates[|updates|..] + rest == rest;
    }

    /** Handles an acknowledgement. Returns true if a change was made. */
    method MarkMessagesAsReceived(target: Target, height: Height) returns (changed: bool)
      requires Valid()
      modifies this`outboxes, this`outboxCounters
      ensures Valid()
      ensures changed <==> exists h :: h in OutboxOf(old(outboxes), target).queue && h <= height
      ensures OutboxOf(outboxes, target) == Acknowledge(OutboxOf(old(outboxes), target), height)
      ensures changed && Acknowledge(OutboxOf(old(outboxes), target), height).queue == [] ==> target !in outboxes
      ensures forall t :: t != target ==> OutboxOf(outboxes, t) == OutboxOf(old(outboxes), t)
    {
      ghost var was, before := outboxes, OutboxOf(outboxes, target);
      var outbox := new OutboxView(OutboxOf(outboxes, target));
      var updates := outbox.MarkMessagesAsReceived(height);
      var after := outbox.State();
      outboxes := outboxes[target := after];
      changed := updates != [];
      Leaving(before.queue, height, updates, after.queue);
      if !changed {
        CountedSame(was, outboxCounters, target, after);
        return;
      }
      DecrementCounters(updates, was, target, after.queue);
      StillValid(was, target, after);
      if |after.queue| == 0 {
        CountedDelete(outboxes, outboxCounters, target);
        outboxes := outboxes - {target};
      }
    }

    /** True exactly if no outbox holds a height up to `height`; only the first counter is read. */
    method AllMessagesDeliveredUpTo(height: Height) returns (delivered: bool)
      requires Valid()
      ensures delivered <==> forall t, h :: t in outboxes && h in outboxes[t].queue ==> h > height
    {
      if outboxCounters.Keys == {} {
        delivered := true;
      } else {
        var first := FirstKey(outboxCounters.Keys);
        delivered := first > height;
        CountedKeys(outboxes, outboxCounters, first);
        if !delivered {
          var t :| t in outboxes && first in outboxes[t].queue;
          return;
        }
      }
      forall t, h | t in outboxes && h in outboxes[t].queue ensures h > height {
        CountedKeys(outboxes, outboxCounters, h);
      }
    }
  }

  /** Lifts the messages of a result and finds its recipients and channels. */
  method Collect(application: ApplicationId, messages: seq<OutgoingMessage>, r: RawResult)
    returns (recorded: seq<OutgoingMessage>, recipients: set<ChainId>, broadcasts: set<ChannelName>)
    ensures recorded == messages + LiftAll(application, r)
    ensures forall id :: id in recipients <==> SendsTo(r, id)
    ensures forall c :: c in broadcasts <==> BroadcastsOn(application, r, c)
  {
    recorded, recipients, broadcasts := messages, {}, {};
    for i := 0 to |r.messages|
      invariant recorded == messages + LiftAll(application, r)[..i]
      invariant forall id :: id in recipients <==> exists m :: m in r.messages[..i] && m.destination == Recipient(id)
      invariant forall c :: c in broadcasts <==>
        c.application == application && exists m :: m in r.messages[..i] && m.destination == Subscribers(c.name)
    {
      var m := r.messages[i];
      assert r.messages[..i + 1] == r.messages[..i] + [m];
      match m.destination {
        case Recipient(id) => recipients := recipients + {id};
        case Subscribers(name) => broadcasts := broadcasts + {ChannelName(application, name)};
      }
      recorded := recorded + [Lift(application, r.signer, m)];
    }
    assert r.messages[..|r.messages|] == r.messages;
  }

  /** The first key of an ordered map. */
  method FirstKey(keys: set<Height>) returns (first: Height)
    requires keys != {}
    ensures first in keys && forall k :: k in keys ==> first <= k
  {
    first :| first in keys;
    var todo := keys - {first};
    while todo != {}
      invariant first in keys && todo <= keys
      invariant forall k :: k in keys && k !in todo ==> first <= k
      decreases |todo|
    {
      var k :| k in todo;
      if k < first {
        first := k;
      }
      todo := todo - {k};
    }
  }

  /** The heights that leave a queue are exactly those up to the acknowledged one. */
  lemma Leaving(queue: seq<Height>, height: Height, updates: seq<Height>, rest: seq<Height>)
    requires Increasing(queue) && queue == updates + rest && rest == DropUpTo(queue, height)
    ensures updates == [] <==> rest == queue
    ensures updates != [] <==> exists h :: h in queue && h <= height
    ensures Increasing(rest) && forall h :: h in rest ==> h in queue
  {
    DropUpToKeepsLater(queue, height);
    if updates != [] {
      assert queue[0] == updates[0] && queue[0] in queue;
      FrontOfQueue(queue);
      assert queue[0] > height ==> rest == queue;
    } else {
      assert queue == rest;
    }
  }

  /** Outboxes stay in order when one of them is replaced by a part of itself, or deleted. */
  lemma StillValid(outboxes: map<Target, Outbox>, t: Target, o: Outbox)
    requires ValidOutboxes(outboxes) && o.nextHeight == OutboxOf(outboxes, t).nextHeight && Increasing(o.queue)
    requires forall h :: h in o.queue ==> h in OutboxOf(outboxes, t).queue
    ensures ValidOutboxes(outboxes[t := o]) && ValidOutboxes(outboxes[t := o] - {t})
  {
  }

  /** Taking the front off an ordered queue removes that height and no other. */
  lemma QueueFront(queue: seq<Height>, rest: seq<Height>, all: seq<Height>, i: nat)
    requires Increasing(all) && i < |all| && queue == all[i..] && rest == all[i + 1..]
    ensures all[i] in queue
    ensures forall x :: x in rest <==> x != all[i] && x in queue
  {
    assert queue == [all[i]] + rest;
  }

  lemma UncountOne(all: map<Target, Outbox>, counters: map<Height, nat>, t: Target, before: Outbox,
                   after: Outbox, h: Height)
    requires Counted(all[t := before], counters) && h in before.queue
    requires forall x :: x in after.queue <==> x != h && x in before.queue
    ensures h in counters && counters[h] > 0
    ensures Counted(all[t := after], if counters[h] == 1 then counters - {h} else counters[h := counters[h] - 1])
  {
    CountedLess(all[t := before], counters, t, after, h);
    assert all[t := before][t := after] == all[t := after];
  }

  lemma CountedKeys(outboxes: map<Target, Outbox>, counters: map<Height, nat>, h: Height)
    requires Counted(outboxes, counters)
    ensures h in counters <==> exists t :: t in outboxes && h in outboxes[t].queue
  {
    assert CountOf(counters, h) == |Queuing(outboxes, h)|;
    if h in counters {
      var t :| t in Queuing(outboxes, h);
    }
    if t :| t in outboxes && h in outboxes[t].queue {
      assert t in Queuing(outboxes, h);
    }
  }
}
