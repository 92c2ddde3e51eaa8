/**
  The receiving side: a recipient selects, among the certified blocks sent to it, those
  that are new and trusted, and adds their messages to an inbox.
 */
module Receiving {
  import opened Common
  import opened Inbox

  datatype Block = Block(messages: seq<OutgoingMessage>, epoch: nat, timestamp: nat, hash: nat)

  datatype Certificate = Certificate(isConfirmed: bool, chainId: ChainId, height: Height, block: Block)

  datatype ReceiveError =
    | WrongOrder
    | EntirelyIgnored
    | TooManyMessages
    | HeightOverflow
    | InboxFailure(error: InboxError)

  // ----- The events of a block for one inbox -----

  /** The message belongs to the inbox of `recipient` for `medium`. */
  predicate Concerns(m: OutgoingMessage, recipient: ChainId, medium: Medium) {
    match m.destination
    case Recipient(id) => medium == Direct && id == recipient
    case Subscribers(name) => medium == Channel(ChannelName(m.message.application, name))
  }

  function EventAt(block: Block, height: Height, i: nat): Event
    requires i < |block.messages|
  {
    var m := block.messages[i];
    Event(block.hash, height, i, m.signer, m.isSkippable, block.timestamp, m.message)
  }

  /** The events of the first `n` messages. */
  function EventsUpTo(block: Block, height: Height, recipient: ChainId, medium: Medium, n: nat): seq<Event>
    requires n <= |block.messages|
  {
    if n == 0 then []
    else EventsUpTo(block, height, recipient, medium, n - 1)
         + (if Concerns(block.messages[n - 1], recipient, medium) then [EventAt(block, height, n - 1)] else [])
  }

  function EventsFor(block: Block, height: Height, recipient: ChainId, medium: Medium): seq<Event> {
    EventsUpTo(block, height, recipient, medium, |block.messages|)
  }

  /** The block has a message for this inbox. */
  ghost predicate Reaches(block: Block, recipient: ChainId, medium: Medium) {
    exists i :: 0 <= i < |block.messages| && Concerns(block.messages[i], recipient, medium)
  }

  /**
    The events of a block are messages of the block for this inbox, each at its own index,
    in increasing order.
   */
  ghost predicate EventsOf(block: Block, height: Height, recipient: ChainId, medium: Medium, n: nat, events: seq<Event>)
    requires n <= |block.messages|
  {
    && (forall k :: 0 <= k < |events| ==>
          && events[k].index < n && Concerns(block.messages[events[k].index], recipient, medium)
          && events[k] == EventAt(block, height, events[k].index))
    && (forall k, l :: 0 <= k < l < |events| ==> events[k].index < events[l].index)
  }

  lemma {:induction false} EventsUpToMeaning(block: Block, height: Height, recipient: ChainId, medium: Medium, n: nat)
    requires n <= |block.messages|
    ensures EventsOf(block, height, recipient, medium, n, EventsUpTo(block, height, recipient, medium, n))
  {
    if n > 0 {
      EventsUpToMeaning(block, height, recipient, medium, n - 1);
      var before := EventsUpTo(block, height, recipient, medium, n - 1);
      var events := EventsUpTo(block, height, recipient, medium, n);
      if Concerns(block.messages[n - 1], recipient, medium) {
        assert events == before + [EventAt(block, height, n - 1)];
      } else {
        assert events == before;
      }
    }
  }

  /** Every message for this inbox has its event. */
  lemma {:induction false} EventIn(block: Block, height: Height, recipient: ChainId, medium: Medium, n: nat, i: nat)
    requires i < n <= |block.messages| && Concerns(block.messages[i], recipient, medium)
    ensures EventAt(block, height, i) in EventsUpTo(block, height, recipient, medium, n)
  {
    if i < n - 1 {
      EventIn(block, height, recipient, medium, n - 1, i);
    }
  }

  lemma EventsForReaches(block: Block, height: Height, recipient: ChainId, medium: Medium)
    ensures EventsFor(block, height, recipient, medium) != [] <==> Reaches(block, recipient, medium)
  {
    EventsUpToMeaning(block, height, recipient, medium, |block.messages|);
    var events := EventsFor(block, height, recipient, medium);
    if events != [] {
      assert Concerns(block.messages[events[0].index], recipient, medium);
    } else if i :| 0 <= i < |block.messages| && Concerns(block.messages[i], recipient, medium) {
      EventIn(block, height, recipient, medium, |block.messages|, i);
    }
  }

  // ----- Receiving a block -----

  function AddAll(s: InboxState, events: seq<Event>): Result<InboxState, InboxError>
    decreases |events|
  {
    if events == [] then Ok(s)
    else match Add(s, events[0])
      case Err(e) => Err(e)
      case Ok(s') => AddAll(s', events[1..])
  }

  function Receive(s: InboxState, recipient: ChainId, medium: Medium, height: Height, block: Block)
    : Result<InboxState, ReceiveError>
  {
    match NextHeightToReceive(s)
    case Err(_) => Err(HeightOverflow)
    case Ok(next) =>
      var events := EventsFor(block, height, recipient, medium);
      if height < next then Err(WrongOrder)
      else if |block.messages| > U32_MAX + 1 then Err(TooManyMessages)
      else if events == [] then Err(EntirelyIgnored)
      else match AddAll(s, events)
        case Err(e) => Err(InboxFailure(e))
        case Ok(s') => Ok(s')
  }

  function InboxOf(inboxes: map<Origin, InboxState>, origin: Origin): InboxState {
    if origin in inboxes then inboxes[origin] else EMPTY_INBOX
  }

  class ReceiverView {
    const chainId: ChainId
    var inboxes: map<Origin, InboxState>
    var receivedLog: seq<(ChainId, Height)>

    constructor (id: ChainId)
      ensures chainId == id && inboxes == map[] && receivedLog == []
    {
      chainId, inboxes, receivedLog := id, map[], [];
    }

    /** Adds the messages of a block to the inbox of its origin. */
    method ReceiveBlock(origin: Origin, height: Height, block: Block) returns (result: Result<(), ReceiveError>)
      modifies this
      ensures var spec := Receive(InboxOf(old(inboxes), origin), chainId, origin.medium, height, block);
        && (result.Err? ==> spec == Err(result.error))
        && (result.Ok? ==> spec.Ok? && inboxes == old(inboxes)[origin := spec.value])
      ensures result.Ok? ==> receivedLog == old(receivedLog) + [(origin.sender, height)]
    {
      var inbox := new InboxView.Load(InboxOf(inboxes, origin));
      var next := inbox.NextBlockHeightToReceive();
      if next.Err? {
        return Err(HeightOverflow);
      }
      if height < next.value {
        return Err(WrongOrder);
      }
      var events := [];
      for i := 0 to |block.messages|
        invariant i <= U32_MAX + 1
        invariant events == EventsUpTo(block, height, chainId, origin.medium, i)
      {
        if i > U32_MAX {
          return Err(TooManyMessages);
        }
        if Concerns(block.messages[i], chainId, origin.medium) {
          events := events + [EventAt(block, height, i)];
        }
      }
      if events == [] {
        return Err(EntirelyIgnored);
      }
      for i := 0 to |events|
        invariant fresh(inbox) && inboxes == old(inboxes) && receivedLog == old(receivedLog)
        invariant AddAll(InboxOf(inboxes, origin), events) == AddAll(inbox.State(), events[i..])
      {
        var added := inbox.AddEvent(events[i]);
        if added.Err? {
          return Err(InboxFailure(added.error));
        }
        assert events[i..][1..] == events[i + 1..];
      }
      inboxes := inboxes[origin := inbox.State()];
      receivedLog := receivedLog + [(origin.sender, height)];
      result := Ok(());
    }
  }

  // ----- Selecting certificates -----

  datatype Trust = Trust(
    allowDeprecatedEpochs: bool,
    lastAnticipated: Option<Height>,
    currentEpoch: Option<nat>,
    committees: set<nat>)
  {
    predicate Accepts(c: Certificate) {
      || allowDeprecatedEpochs
      || (lastAnticipated.Some? && c.height <= lastAnticipated.value)
      || currentEpoch.None? || c.block.epoch >= currentEpoch.value
      || c.block.epoch in committees
    }
  }

  /** The certificates confirm blocks of the sender at increasing heights. */
  predicate WellFormed(sender: ChainId, certificates: seq<Certificate>) {
    && (forall i :: 0 <= i < |certificates| ==> certificates[i].isConfirmed && certificates[i].chainId == sender)
    && (forall i, j :: 0 <= i < j < |certificates| ==> certificates[i].height < certificates[j].height)
  }

  /** `n` leads just past the last certificate that was received already. */
  ghost predicate SkipsTo(certificates: seq<Certificate>, next: Height, n: nat) {
    SkippedTo(certificates, next, |certificates|, n)
  }

  /** `n` leads just past the last certificate that is trusted. */
  ghost predicate TrustsTo(certificates: seq<Certificate>, trust: Trust, n: nat) {
    TrustedTo(certificates, trust, |certificates|, n)
  }

  /**
    A selection skips exactly the blocks received already, and ends with the last trusted
    block: an untrusted block is accepted only below a trusted one.
   */
  ghost predicate Selection(certificates: seq<Certificate>, next: Height, trust: Trust, selected: seq<Certificate>) {
    exists skipped: nat, trusted: nat ::
      && SkipsTo(certificates, next, skipped) && TrustsTo(certificates, trust, trusted)
      && selected == if skipped < trusted then certificates[skipped..trusted] else []
  }

  method SelectCertificates(sender: ChainId, next: Height, trust: Trust, certificates: seq<Certificate>)
    returns (result: Result<seq<Certificate>, ()>)
    ensures result.Ok? <==> WellFormed(sender, certificates)
    ensures result.Ok? ==> Selection(certificates, next, trust, result.value)
  {
    var latest: Option<Height> := None;
    var skipped, trusted := 0, 0;
    for i := 0 to |certificates|
      invariant Checked(sender, certificates, i, latest)
      invariant SkippedTo(certificates, next, i, skipped) && TrustedTo(certificates, trust, i, trusted)
    {
      var c := certificates[i];
      CheckStep(sender, certificates, i, latest);
      SkipStep(certificates, next, i, skipped);
      TrustStep(certificates, trust, i, trusted);
      if !c.isConfirmed || c.chainId != sender || (latest.Some? && latest.value >= c.height) {
        return Err(());
      }
      latest := Some(c.height);
      if c.height < next {
        skipped := i + 1;
      }
      if trust.Accepts(c) {
        trusted := i + 1;
      }
    }
    assert SkipsTo(certificates, next, skipped) && TrustsTo(certificates, trust, trusted);
    result := Ok(if skipped < trusted then certificates[skipped..trusted] else []);
  }

  /** The first `i` certificates are well formed, and the last of them is at the latest height. */
  ghost predicate Checked(sender: ChainId, certificates: seq<Certificate>, i: nat, latest: Option<Height>) {
    && i <= |certificates|
    && (forall k :: 0 <= k < i ==> certificates[k].isConfirmed && certificates[k].chainId == sender)
    && (forall k, l :: 0 <= k < l < i ==> certificates[k].height < certificates[l].height)
    && latest == if i == 0 then None else Some(certificates[i - 1].height)
  }

  lemma CheckStep(sender: ChainId, certificates: seq<Certificate>, i: nat, latest: Option<Height>)
    requires i < |certificates| && Checked(sender, certificates, i, latest)
    ensures var c := certificates[i];
      if c.isConfirmed && c.chainId == sender && (latest.Some? ==> latest.value < c.height)
      then Checked(sender, certificates, i + 1, Some(c.height))
      else !WellFormed(sender, certificates)
  {
    var c := certificates[i];
    if latest.Some? {
      assert i > 0 && certificates[i - 1].height == latest.value;
      forall k | 0 <= k < i ensures certificates[k].height <= latest.value {
      }
    }
  }

  /** `n` leads just past the last of the first `i` certificates that was received already. */
  ghost predicate SkippedTo(certificates: seq<Certificate>, next: Height, i: nat, n: nat)
    requires i <= |certificates|
  {
    && n <= i && (n > 0 ==> certificates[n - 1].height < next)
    && (forall k :: n <= k < i ==> certificates[k].height >= next)
  }

  lemma SkipStep(certificates: seq<Certificate>, next: Height, i: nat, n: nat)
    requires i < |certificates| && SkippedTo(certificates, next, i, n)
    ensures SkippedTo(certificates, next, i + 1, if certificates[i].height < next then i + 1 else n)
  {
  }

  lemma TrustStep(certificates: seq<Certificate>, trust: Trust, i: nat, n: nat)
    requires i < |certificates| && TrustedTo(certificates, trust, i, n)
    ensures TrustedTo(certificates, trust, i + 1, if trust.Accepts(certificates[i]) then i + 1 else n)
  {
  }

  /** `n` leads just past the last of the first `i` certificates that is trusted. */
  ghost predicate TrustedTo(certificates: seq<Certificate>, trust: Trust, i: nat, n: nat)
    requires i <= |certificates|
  {
    && n <= i && (n > 0 ==> trust.Accepts(certificates[n - 1]))
    && (forall k :: n <= k < i ==> !trust.Accepts(certificates[k]))
  }
}
