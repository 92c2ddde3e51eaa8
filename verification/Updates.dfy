/** How a worker handles the update of a recipient: entry by entry, each saved on its own or not at all. */
module Updates {
  import opened Common
  import opened Inbox
  import opened Receiving
  import opened Delivery

  datatype UpdateError = InvalidCrossChainRequest | ChainFailure(error: ReceiveError)

  /** The height of the last message executed by anticipation. */
  function LastAnticipated(s: InboxState): Option<Height> {
    if s.removed == [] then None else Some(s.removed[|s.removed| - 1].height)
  }

  /**
    What handling one entry of an update does to the inboxes: when a height is confirmed, all the
    selected blocks up to that height were received; otherwise nothing changed.
   */
  ghost predicate Updated(recipient: ChainId, trust: Trust, origin: Origin, certificates: seq<Certificate>, saved: bool,
                          before: map<Origin, InboxState>, after: map<Origin, InboxState>, confirmed: Option<Height>) {
    exists selected :: UpdatedWith(recipient, trust, origin, certificates, saved, before, after, confirmed, selected)
  }

  ghost predicate UpdatedWith(recipient: ChainId, trust: Trust, origin: Origin, certificates: seq<Certificate>,
                              saved: bool, before: map<Origin, InboxState>, after: map<Origin, InboxState>,
                              confirmed: Option<Height>, selected: seq<Certificate>) {
    var inbox := InboxOf(before, origin);
    && NextHeightToReceive(inbox).Ok?
    && Selection(certificates, NextHeightToReceive(inbox).value, trust, selected)
    && (confirmed.Some? <==> selected != [] && saved)
    && (confirmed.None? ==> after == before)
    && (confirmed.Some? ==>
          && confirmed.value == selected[|selected| - 1].height
          && ReceiveAll(inbox, recipient, origin.medium, selected).Ok?
          && after == before[origin := ReceiveAll(inbox, recipient, origin.medium, selected).value])
  }

  /** Why handling an entry failed: it is malformed, or one of its blocks cannot be received. */
  ghost predicate Fails(recipient: ChainId, trust: Trust, origin: Origin, certificates: seq<Certificate>,
                        inbox: InboxState, error: UpdateError) {
    match error
    case InvalidCrossChainRequest => !WellFormed(origin.sender, certificates)
    case ChainFailure(e) =>
      match NextHeightToReceive(inbox)
      case Err(_) => e == HeightOverflow
      case Ok(next) => exists selected :: Selection(certificates, next, trust, selected)
                         && ReceiveAll(inbox, recipient, origin.medium, selected) == Err(e)
  }

  /** A block that cannot be received stops the blocks after it. */
  lemma {:induction false} ReceiveAllFails(s: InboxState, b: ChainId, m: Medium, certificates: seq<Certificate>, i: nat)
    requires i <= |certificates| && ReceiveAll(s, b, m, certificates[..i]).Err?
    ensures ReceiveAll(s, b, m, certificates) == ReceiveAll(s, b, m, certificates[..i])
    decreases |certificates|
  {
    if i == |certificates| {
      assert certificates[..i] == certificates;
    } else {
      assert certificates[..|certificates| - 1][..i] == certificates[..i];
      ReceiveAllFails(s, b, m, certificates[..|certificates| - 1], i);
    }
  }

  /** Whether a height is in a list, by binary search. */
  method Contains(heights: seq<Height>, height: Height) returns (found: bool)
    requires Increasing(heights)
    ensures found <==> height in heights
  {
    var low, high := 0, |heights|;
    while low < high
      invariant 0 <= low <= high <= |heights|
      invariant forall i :: 0 <= i < low ==> heights[i] < height
      invariant forall i :: high <= i < |heights| ==> heights[i] > height
    {
      var mid := (low + high) / 2;
      if heights[mid] == height {
        return true;
      } else if heights[mid] < height {
        low := mid + 1;
      } else {
        high := mid;
      }
    }
    return false;
  }

  method FilterCertificates(certificates: seq<Certificate>, heights: seq<Height>) returns (filtered: seq<Certificate>)
    requires Increasing(heights)
    ensures filtered == Filter(certificates, heights)
  {
    filtered := [];
    for i := 0 to |certificates|
      invariant filtered == Filter(certificates[..i], heights)
    {
      assert certificates[..i + 1][..i] == certificates[..i];
      var wanted := Contains(heights, certificates[i].height);
      if wanted {
        filtered := filtered + [certificates[i]];
      }
    }
    assert certificates[..|certificates|] == certificates;
  }

  class RecipientWorker {
    const chainId: ChainId
    const allowDeprecatedEpochs: bool
    const allowInactiveChains: bool
    var currentEpoch: Option<nat>
    var committees: set<nat>
    var inboxes: map<Origin, InboxState>

    function TrustIn(origin: Origin): Trust
      reads this
    {
      Trust(allowDeprecatedEpochs, LastAnticipated(InboxOf(inboxes, origin)), currentEpoch, committees)
    }

    /** Messages are refused while the chain is inactive, unless that is allowed. */
    predicate Saves(isActive: bool) {
      allowInactiveChains || isActive
    }

    constructor (chainId: ChainId, allowDeprecatedEpochs: bool, allowInactiveChains: bool)
      ensures this.chainId == chainId && inboxes == map[]
    {
      this.chainId := chainId;
      this.allowDeprecatedEpochs, this.allowInactiveChains := allowDeprecatedEpochs, allowInactiveChains;
      currentEpoch, committees, inboxes := None, {}, map[];
    }

    /** Receives the new and trusted blocks of an update, in a staged state that is saved at the end. */
    method ProcessCrossChainUpdate(origin: Origin, certificates: seq<Certificate>, isActive: bool)
      returns (result: Result<Option<Height>, UpdateError>)
      modifies this`inboxes
      ensures result.Ok? ==>
        Updated(chainId, old(TrustIn(origin)), origin, certificates, Saves(isActive), old(inboxes), inboxes,
                result.value)
      ensures result.Err? ==> inboxes == old(inboxes)
      ensures result.Err? ==>
        Fails(chainId, old(TrustIn(origin)), origin, certificates, InboxOf(old(inboxes), origin), result.error)
    {
      var next := NextHeightToReceive(InboxOf(inboxes, origin));
      if next.Err? {
        return Err(ChainFailure(HeightOverflow));
      }
      var selected := SelectCertificates(origin.sender, next.value, TrustIn(origin), certificates);
      if selected.Err? {
        return Err(InvalidCrossChainRequest);
      }
      if selected.value == [] {
        assert UpdatedWith(chainId, TrustIn(origin), origin, certificates, Saves(isActive), inboxes, inboxes, None, []);
        return Ok(None);
      }
      var received := ReceiveSelected(origin, selected.value);
      if received.Err? {
        return Err(ChainFailure(received.error));
      }
      if !allowInactiveChains && !isActive {
        assert UpdatedWith(chainId, TrustIn(origin), origin, certificates, false, inboxes, inboxes, None,
                           selected.value);
        return Ok(None);
      }
      inboxes := inboxes[origin := received.value];
      assert UpdatedWith(chainId, old(TrustIn(origin)), origin, certificates, true, old(inboxes), inboxes,
                         Some(selected.value[|selected.value| - 1].height), selected.value);
      return Ok(Some(selected.value[|selected.value| - 1].height));
    }

    /** Receives blocks one by one in a copy of the chain. */
    method ReceiveSelected(origin: Origin, selected: seq<Certificate>)
      returns (result: Result<InboxState, ReceiveError>)
      ensures ReceiveAll(InboxOf(inboxes, origin), chainId, origin.medium, selected) == result
    {
      var chain := new ReceiverView(chainId);
      chain.inboxes := inboxes;
      for i := 0 to |selected|
        invariant fresh(chain)
        invariant ReceiveAll(InboxOf(inboxes, origin), chainId, origin.medium, selected[..i])
          == Ok(InboxOf(chain.inboxes, origin))
      {
        assert selected[..i + 1][..i] == selected[..i];
        var received := chain.ReceiveBlock(origin, selected[i].height, selected[i].block);
        if received.Err? {
          ReceiveAllFails(InboxOf(inboxes, origin), chainId, origin.medium, selected, i + 1);
          return Err(received.error);
        }
      }
      assert selected[..|selected|] == selected;
      return Ok(InboxOf(chain.inboxes, origin));
    }

    function Settings(isActive: bool): Rules
      reads this`currentEpoch, this`committees
    {
      Rules(chainId, allowDeprecatedEpochs, currentEpoch, committees, Saves(isActive))
    }

    /** Handles one entry of an update with the certificates at its heights. */
    method HandleEntry(entry: (Medium, seq<Height>), sender: ChainId, certificates: seq<Certificate>, isActive: bool)
      returns (result: Result<Option<Height>, UpdateError>)
      requires Increasing(entry.1)
      modifies this`inboxes
      ensures result.Ok? ==>
        HandledEntry(Settings(isActive), entry, sender, certificates, old(inboxes), inboxes, result.value)
      ensures result.Err? ==> inboxes == old(inboxes)
      ensures result.Err? ==> FailsEntry(Settings(isActive), entry, sender, certificates, inboxes, result.error)
    {
      var filtered := FilterCertificates(certificates, entry.1);
      result := ProcessCrossChainUpdate(Origin(sender, entry.0), filtered, isActive);
    }

    /** Handles an update entry by entry and confirms, for each medium, the last height that was received. */
    method HandleUpdate(heightMap: seq<(Medium, seq<Height>)>, sender: ChainId, certificates: seq<Certificate>,
                        isActive: bool)
      returns (result: Result<seq<(Medium, Height)>, UpdateError>, ghost confirmed: seq<Option<Height>>)
      requires forall k :: 0 <= k < |heightMap| ==> Increasing(heightMap[k].1)
      modifies this`inboxes
      ensures |confirmed| <= |heightMap|
      ensures Handled(Settings(isActive), heightMap, sender, certificates, old(inboxes), inboxes, confirmed)
      ensures result.Ok? ==> |confirmed| == |heightMap| && result.value == Confirmations(heightMap, confirmed)
      ensures result.Err? ==> |confirmed| < |heightMap|
      ensures result.Err? ==>
        FailsEntry(Settings(isActive), heightMap[|confirmed|], sender, certificates, inboxes, result.error)
    {
      confirmed := [];
      var latestHeights: seq<(Medium, Height)> := [];
      for k := 0 to |heightMap|
        invariant |confirmed| == k && latestHeights == Confirmations(heightMap, confirmed)
        invariant Handled(Settings(isActive), heightMap, sender, certificates, old(inboxes), inboxes, confirmed)
      {
        ghost var middle := inboxes;
        var processed := HandleEntry(heightMap[k], sender, certificates, isActive);
        if processed.Err? {
          return Err(processed.error), confirmed;
        }
        HandledMore(Settings(isActive), heightMap, sender, certificates, old(inboxes), middle, inboxes, confirmed,
                    processed.value);
        confirmed := confirmed + [processed.value];
        if processed.value.Some? {
          latestHeights := latestHeights + [(heightMap[k].0, processed.value.value)];
        }
      }
      return Ok(latestHeights), confirmed;
    }
  }

  /** What a worker and the state of its chain say about trust. */
  datatype Rules = Rules(chainId: ChainId, allowDeprecatedEpochs: bool, currentEpoch: Option<nat>, committees: set<nat>,
                         saves: bool)

  function TrustFor(rules: Rules, inbox: InboxState): Trust {
    Trust(rules.allowDeprecatedEpochs, LastAnticipated(inbox), rules.currentEpoch, rules.committees)
  }

  /** One entry of an update was handled. */
  ghost predicate HandledEntry(rules: Rules, entry: (Medium, seq<Height>), sender: ChainId,
                               certificates: seq<Certificate>, before: map<Origin, InboxState>,
                               after: map<Origin, InboxState>, confirmed: Option<Height>) {
    var origin := Origin(sender, entry.0);
    Updated(rules.chainId, TrustFor(rules, InboxOf(before, origin)), origin, Filter(certificates, entry.1), rules.saves,
            before, after, confirmed)
  }

  /** One entry of an update cannot be handled. */
  ghost predicate FailsEntry(rules: Rules, entry: (Medium, seq<Height>), sender: ChainId,
                             certificates: seq<Certificate>, inboxes: map<Origin, InboxState>, error: UpdateError) {
    var origin := Origin(sender, entry.0);
    Fails(rules.chainId, TrustFor(rules, InboxOf(inboxes, origin)), origin, Filter(certificates, entry.1),
          InboxOf(inboxes, origin), error)
  }

  /** The first entries of an update were handled one after the other. */
  ghost predicate Handled(rules: Rules, heightMap: seq<(Medium, seq<Height>)>, sender: ChainId,
                          certificates: seq<Certificate>, before: map<Origin, InboxState>,
                          after: map<Origin, InboxState>, confirmed: seq<Option<Height>>)
    requires |confirmed| <= |heightMap|
    decreases |confirmed|, 1
  {
    if confirmed == [] then before == after
    else exists middle :: HandledLast(rules, heightMap, sender, certificates, before, middle, after, confirmed)
  }

  ghost predicate HandledLast(rules: Rules, heightMap: seq<(Medium, seq<Height>)>, sender: ChainId,
                              certificates: seq<Certificate>, before: map<Origin, InboxState>,
                              middle: map<Origin, InboxState>, after: map<Origin, InboxState>,
                              confirmed: seq<Option<Height>>)
    requires 0 < |confirmed| <= |heightMap|
    decreases |confirmed|, 0
  {
    var n := |confirmed| - 1;
    && Handled(rules, heightMap, sender, certificates, before, middle, confirmed[..n])
    && HandledEntry(rules, heightMap[n], sender, certificates, middle, after, confirmed[n])
  }

  lemma HandledMore(rules: Rules, heightMap: seq<(Medium, seq<Height>)>, sender: ChainId,
                    certificates: seq<Certificate>, before: map<Origin, InboxState>,
                    middle: map<Origin, InboxState>, after: map<Origin, InboxState>,
                    confirmed: seq<Option<Height>>, last: Option<Height>)
    requires |confirmed| < |heightMap| && Handled(rules, heightMap, sender, certificates, before, middle, confirmed)
    requires HandledEntry(rules, heightMap[|confirmed|], sender, certificates, middle, after, last)
    ensures Handled(rules, heightMap, sender, certificates, before, after, confirmed + [last])
    ensures Confirmations(heightMap, confirmed + [last])
      == Confirmations(heightMap, confirmed) + if last.Some? then [(heightMap[|confirmed|].0, last.value)] else []
  {
    var all := confirmed + [last];
    assert all[..|all| - 1] == confirmed && all[|all| - 1] == last;
    assert HandledLast(rules, heightMap, sender, certificates, before, middle, after, all);
  }

  /** The confirmations sent back: one for each entry that was received and saved. */
  function Confirmations(heightMap: seq<(Medium, seq<Height>)>, confirmed: seq<Option<Height>>): seq<(Medium, Height)>
    requires |confirmed| <= |heightMap|
  {
    if confirmed == [] then []
    else
      var n := |confirmed| - 1;
      Confirmations(heightMap, confirmed[..n])
      + if confirmed[n].Some? then [(heightMap[n].0, confirmed[n].value)] else []
  }
}
