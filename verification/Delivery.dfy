/**
  Delivery of messages between chains. Chains execute blocks, send their queued blocks to
  recipients, and dequeue them once acknowledged. Requests may be lost, duplicated and
  reordered: the network remembers every request ever sent, and any of them may be
  handled at any time, any number of times, or never.
 */
module Delivery {
  import opened Common
  import opened Inbox
  import opened Outboxes
  import opened Chain
  import opened Receiving

  // ----- States -----

  /** A chain, with the histories (`requested`, `received`, `added`, `consumed`, `acknowledged`) of its mailboxes. */
  datatype Node = Node(
    log: seq<Block>,
    outbox: Target -> Outbox,
    channel: ChannelName -> ChannelState,
    requested: Target -> set<Height>,
    inbox: Origin -> InboxState,
    received: Origin -> seq<Height>,
    added: Origin -> seq<Event>,
    consumed: Origin -> seq<Event>,
    acknowledged: Origin -> set<Height>)

  datatype CrossChainRequest =
    | UpdateRecipient(heightMap: seq<(Medium, seq<Height>)>, sender: ChainId, recipient: ChainId,
                      certificates: seq<Certificate>)
    | ConfirmUpdatedRecipient(sender: ChainId, recipient: ChainId, latestHeights: seq<(Medium, Height)>)

  datatype State = State(nodes: ChainId -> Node, network: iset<CrossChainRequest>)

  ghost function EmptyNode(): Node {
    Node([], t => EMPTY_OUTBOX, c => EMPTY_CHANNEL, t => {}, o => EMPTY_INBOX, o => [], o => [], o => [], o => {})
  }

  ghost function Init(): State {
    State(c => EmptyNode(), iset{})
  }

  ghost function SetNode(s: State, c: ChainId, n: Node): State {
    s.(nodes := (x: ChainId) => if x == c then n else s.nodes(x))
  }

  // ----- Executing a block -----

  ghost function ChannelOn(n: Node, m: Medium): ChannelState {
    match m
    case Direct => EMPTY_CHANNEL
    case Channel(c) => n.channel(c)
  }

  ghost function RequestedBy(application: ApplicationId, r: RawResult, height: Height, t: Target,
                             channel: ChannelState): set<Height> {
    match Request(application, r, height, t, channel)
    case Some(h) => {h}
    case None => {}
  }

  /** Routes one result of the block at `height`. */
  ghost function Route(n: Node, height: Height, application: ApplicationId, r: RawResult): Node {
    n.(outbox := (t: Target) => OutboxAfter(application, r, height, t, ChannelOn(n, t.medium), n.outbox(t)),
       channel := (c: ChannelName) => ChannelAfter(application, r, height, c, n.channel(c)),
       requested := (t: Target) => n.requested(t) + RequestedBy(application, r, height, t, ChannelOn(n, t.medium)))
  }

  ghost function RouteAll(n: Node, height: Height, results: seq<(ApplicationId, RawResult)>): Node {
    if results == [] then n
    else var last := results[|results| - 1];
      Route(RouteAll(n, height, results[..|results| - 1]), height, last.0, last.1)
  }

  ghost function MessagesOf(results: seq<(ApplicationId, RawResult)>): seq<OutgoingMessage> {
    if results == [] then []
    else var last := results[|results| - 1];
      MessagesOf(results[..|results| - 1]) + LiftAll(last.0, last.1)
  }

  // ----- Receiving and acknowledging -----

  /** The certificates of a request that are meant for one medium. */
  function Filter(certificates: seq<Certificate>, heights: seq<Height>): seq<Certificate> {
    if certificates == [] then []
    else var last := certificates[|certificates| - 1];
      Filter(certificates[..|certificates| - 1], heights) + (if last.height in heights then [last] else [])
  }

  function HeightsOf(certificates: seq<Certificate>): seq<Height> {
    seq(|certificates|, i requires 0 <= i < |certificates| => certificates[i].height)
  }

  function ReceiveAll(s: InboxState, recipient: ChainId, medium: Medium, certificates: seq<Certificate>)
    : Result<InboxState, ReceiveError>
  {
    if certificates == [] then Ok(s)
    else var last := certificates[|certificates| - 1];
      match ReceiveAll(s, recipient, medium, certificates[..|certificates| - 1])
      case Err(e) => Err(e)
      case Ok(s') => Receive(s', recipient, medium, last.height, last.block)
  }

  /** The events that an inbox gets from the blocks at the given heights. */
  function EventsOfBlocks(log: seq<Block>, heights: seq<Height>, recipient: ChainId, medium: Medium): seq<Event> {
    if heights == [] then []
    else var h := heights[|heights| - 1];
      EventsOfBlocks(log, heights[..|heights| - 1], recipient, medium)
      + (if h < |log| then EventsFor(log[h], h, recipient, medium) else [])
  }

  ghost function AcknowledgeAll(n: Node, recipient: ChainId, latest: seq<(Medium, Height)>): Node {
    n.(outbox := (t: Target) => AcknowledgeEach(n.outbox(t), t, recipient, latest))
  }

  // ----- Steps -----

  datatype Step =
    | ExecuteBlock(chain: ChainId, results: seq<(ApplicationId, RawResult)>, block: Block)
    | ConsumeMessage(chain: ChainId, origin: Origin, event: Event)
    | SendUpdate(request: CrossChainRequest)
    | HandleUpdate(request: CrossChainRequest, index: nat, trust: Trust, selected: seq<Certificate>, saved: bool)
    | SendConfirmation(request: CrossChainRequest)
    | HandleConfirmation(request: CrossChainRequest)

  /** The certificates are blocks of the sender's log, by increasing heights. */
  ghost predicate Authentic(certificates: seq<Certificate>, sender: ChainId, log: seq<Block>) {
    && (forall i, j :: 0 <= i < j < |certificates| ==> certificates[i].height < certificates[j].height)
    && (forall i :: 0 <= i < |certificates| ==>
          && certificates[i].height < |log|
          && certificates[i] == Certificate(true, sender, certificates[i].height, log[certificates[i].height]))
  }

  /** Some certificate has the given height. */
  ghost predicate Carried(certificates: seq<Certificate>, h: Height) {
    exists i :: 0 <= i < |certificates| && certificates[i].height == h
  }

  /** The request carries the queued heights of some outboxes, and the blocks at those heights. */
  ghost predicate CanSendUpdate(n: Node, q: CrossChainRequest) {
    && q.UpdateRecipient?
    && (forall k :: 0 <= k < |q.heightMap| ==>
          q.heightMap[k].1 == n.outbox(Target(q.recipient, q.heightMap[k].0)).queue)
    && Authentic(q.certificates, q.sender, n.log)
    && (forall k, h :: 0 <= k < |q.heightMap| && h in q.heightMap[k].1 && h < |n.log| ==> Carried(q.certificates, h))
  }

  /** A recipient handles one entry of an update: nothing changes unless every block is received and saved. */
  ghost function AfterUpdate(n: Node, q: CrossChainRequest, k: nat, selected: seq<Certificate>, saved: bool): Node
    requires q.UpdateRecipient? && k < |q.heightMap|
  {
    var medium := q.heightMap[k].0;
    var origin := Origin(q.sender, medium);
    match ReceiveAll(n.inbox(origin), q.recipient, medium, selected)
    case Err(_) => n
    case Ok(inbox) =>
      if selected == [] || !saved then n
      else
        var heights, events := HeightsOf(selected), EventsOfCertificates(selected, q.recipient, medium);
        var latest := heights[|heights| - 1];
        n.(inbox := (o: Origin) => if o == origin then inbox else n.inbox(o),
           received := (o: Origin) => if o == origin then n.received(o) + heights else n.received(o),
           added := (o: Origin) => if o == origin then n.added(o) + events else n.added(o),
           acknowledged := (o: Origin) => if o == origin then n.acknowledged(o) + {latest} else n.acknowledged(o))
  }

  function EventsOfCertificates(certificates: seq<Certificate>, recipient: ChainId, medium: Medium): seq<Event> {
    if certificates == [] then []
    else var c := certificates[|certificates| - 1];
      EventsOfCertificates(certificates[..|certificates| - 1], recipient, medium)
      + EventsFor(c.block, c.height, recipient, medium)
  }

  ghost predicate Transition(s: State, step: Step, s': State) {
    match step
    case ExecuteBlock(c, results, block) =>
      var n := s.nodes(c);
      && |n.log| < U64_MAX && |block.messages| <= U32_MAX
      && block.messages == MessagesOf(results)
      && s' == SetNode(s, c, RouteAll(n, |n.log|, results).(log := n.log + [block]))
    case ConsumeMessage(c, origin, event) =>
      var n := s.nodes(c);
      && Remove(n.inbox(origin), event).Ok?
      && s' == SetNode(s, c, n.(
           inbox := (o: Origin) => if o == origin then Remove(n.inbox(o), event).value else n.inbox(o),
           consumed := (o: Origin) => if o == origin then n.consumed(o) + [event] else n.consumed(o)))
    case SendUpdate(q) =>
      && CanSendUpdate(s.nodes(q.sender), q)
      && s' == s.(network := s.network + iset{q})
    case HandleUpdate(q, k, trust, selected, saved) =>
      && q in s.network && q.UpdateRecipient? && k < |q.heightMap|
      && var n := s.nodes(q.recipient); var (medium, heights) := q.heightMap[k];
      && NextHeightToReceive(n.inbox(Origin(q.sender, medium))).Ok?
      && Selection(Filter(q.certificates, heights), NextHeightToReceive(n.inbox(Origin(q.sender, medium))).value,
                   trust, selected)
      && s' == SetNode(s, q.recipient, AfterUpdate(n, q, k, selected, saved))
    case SendConfirmation(q) =>
      && q.ConfirmUpdatedRecipient?
      && (forall k :: 0 <= k < |q.latestHeights| ==>
            q.latestHeights[k].1 in s.nodes(q.recipient).acknowledged(Origin(q.sender, q.latestHeights[k].0)))
      && s' == s.(network := s.network + iset{q})
    case HandleConfirmation(q) =>
      && q in s.network && q.ConfirmUpdatedRecipient?
      && s' == SetNode(s, q.sender, AcknowledgeAll(s.nodes(q.sender), q.recipient, q.latestHeights))
  }

  /** A run: the states visited from the initial one. */
  ghost predicate IsRun(states: seq<State>, steps: seq<Step>) {
    && |states| == |steps| + 1 && states[0] == Init()
    && forall i :: 0 <= i < |steps| ==> Transition(states[i], steps[i], states[i + 1])
  }
}
