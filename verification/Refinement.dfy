/** What the code of workers and chains does in place are steps of the delivery protocol. */
module Refinement {
  import opened Common
  import opened Inbox
  import opened Outboxes
  import opened Chain
  import opened Receiving
  import opened Delivery
  import opened Updates
  import opened Worker

  /** A node of the protocol has the outboxes and the channels of a stored chain. */
  ghost predicate Mirrors(n: Node, outboxes: map<Target, Outbox>, channels: map<ChannelName, ChannelState>) {
    && (forall t :: n.outbox(t) == OutboxOf(outboxes, t))
    && (forall c :: n.channel(c) == ChannelOf(channels, c))
  }

  /** A node of the protocol has the inboxes of a stored chain. */
  ghost predicate Receives(n: Node, inboxes: map<Origin, InboxState>) {
    forall o :: n.inbox(o) == InboxOf(inboxes, o)
  }

  // ----- Sending -----

  /** Routing one result is one step of routing in the protocol. */
  lemma RouteMirrors(n: Node, height: Height, application: ApplicationId, r: RawResult,
                     outboxes: map<Target, Outbox>, channels: map<ChannelName, ChannelState>,
                     outboxes': map<Target, Outbox>, channels': map<ChannelName, ChannelState>)
    requires Mirrors(n, outboxes, channels)
    requires OutboxesRouted(application, r, height, channels, outboxes, outboxes')
    requires ChannelsRouted(application, r, height, channels, channels')
    ensures Mirrors(Route(n, height, application, r), outboxes', channels')
  {
    var n' := Route(n, height, application, r);
    forall t ensures n'.outbox(t) == OutboxOf(outboxes', t) {
      assert ChannelOn(n, t.medium) == ChannelFor(channels, t);
    }
  }

  /** Records and routes all the results of a transaction, one after the other. */
  method ProcessExecutionResults(chain: ChainView, messages: seq<OutgoingMessage>, height: Height,
                                 results: seq<(ApplicationId, RawResult)>, ghost n: Node)
    returns (result: Result<seq<OutgoingMessage>, ChainError>)
    requires chain.Valid() && Mirrors(n, chain.outboxes, chain.channels)
    modifies chain
    ensures result.Ok? ==> chain.Valid() && result.value == messages + MessagesOf(results)
    ensures result.Ok? ==> Mirrors(RouteAll(n, height, results), chain.outboxes, chain.channels)
  {
    var recorded := messages;
    assert messages + MessagesOf([]) == messages;
    for i := 0 to |results|
      invariant chain.Valid() && recorded == messages + MessagesOf(results[..i])
      invariant Mirrors(RouteAll(n, height, results[..i]), chain.outboxes, chain.channels)
    {
      ghost var outboxes, channels := chain.outboxes, chain.channels;
      var processed := chain.ProcessRawExecutionResult(results[i].0, recorded, height, results[i].1);
      if processed.Err? {
        return processed;
      }
      ResultsStep(n, height, results, i, messages);
      RouteMirrors(RouteAll(n, height, results[..i]), height, results[i].0, results[i].1, outboxes, channels,
                   chain.outboxes, chain.channels);
      recorded := processed.value;
    }
    assert results[..|results|] == results;
    return Ok(recorded);
  }

  lemma ResultsStep(n: Node, height: Height, results: seq<(ApplicationId, RawResult)>, i: nat,
                    messages: seq<OutgoingMessage>)
    requires i < |results|
    ensures RouteAll(n, height, results[..i + 1])
         == Route(RouteAll(n, height, results[..i]), height, results[i].0, results[i].1)
    ensures messages + MessagesOf(results[..i + 1])
         == messages + MessagesOf(results[..i]) + LiftAll(results[i].0, results[i].1)
  {
    var all := results[..i + 1];
    assert all[..|all| - 1] == results[..i] && all[|all| - 1] == results[i];
  }

  /** A block whose results were routed is a step of the protocol. */
  lemma BlockIsStep(s: State, c: ChainId, results: seq<(ApplicationId, RawResult)>, block: Receiving.Block,
                    outboxes: map<Target, Outbox>, channels: map<ChannelName, ChannelState>)
    requires |s.nodes(c).log| < U64_MAX && |block.messages| <= U32_MAX && block.messages == MessagesOf(results)
    requires Mirrors(RouteAll(s.nodes(c), |s.nodes(c).log|, results), outboxes, channels)
    ensures exists s' :: Transition(s, ExecuteBlock(c, results, block), s') && Mirrors(s'.nodes(c), outboxes, channels)
  {
    var n := RouteAll(s.nodes(c), |s.nodes(c).log|, results).(log := s.nodes(c).log + [block]);
    var s' := SetNode(s, c, n);
    assert Transition(s, ExecuteBlock(c, results, block), s') && Mirrors(s'.nodes(c), outboxes, channels);
  }

  /** A confirmation that was handled is a step of the protocol. */
  lemma ConfirmationIsStep(s: State, q: CrossChainRequest, outboxes: map<Target, Outbox>,
                           channels: map<ChannelName, ChannelState>, outboxes': map<Target, Outbox>)
    requires q in s.network && q.ConfirmUpdatedRecipient? && Mirrors(s.nodes(q.sender), outboxes, channels)
    requires forall t ::
      OutboxOf(outboxes', t) == AcknowledgeEach(OutboxOf(outboxes, t), t, q.recipient, q.latestHeights)
    ensures exists s' :: Transition(s, HandleConfirmation(q), s') && Mirrors(s'.nodes(q.sender), outboxes', channels)
  {
    var s' := SetNode(s, q.sender, AcknowledgeAll(s.nodes(q.sender), q.recipient, q.latestHeights));
    assert Transition(s, HandleConfirmation(q), s') && Mirrors(s'.nodes(q.sender), outboxes', channels);
  }

  /** Some list asks for a height. */
  ghost predicate Asked(heightMap: seq<(Medium, seq<Height>)>, h: Height) {
    exists k :: 0 <= k < |heightMap| && h in heightMap[k].1
  }

  method AskedHeights(heightMap: seq<(Medium, seq<Height>)>) returns (heights: set<Height>)
    ensures forall h :: h in heights <==> Asked(heightMap, h)
  {
    heights := {};
    for k := 0 to |heightMap|
      invariant forall h :: h in heights <==> exists l :: 0 <= l < k && h in heightMap[l].1
    {
      heights := heights + set h | h in heightMap[k].1;
    }
  }

  /** The certificates cover exactly the heights of the log that were asked for and are not left to do. */
  ghost predicate Covers(certificates: seq<Certificate>, log: seq<Block>, heights: set<Height>, todo: set<Height>) {
    forall h: Height :: Carried(certificates, h) <==> h < |log| && h in heights && h !in todo
  }

  /** Reads the certificates at the listed heights, in increasing order; heights that the log lacks are left out. */
  method CreateCrossChainRequest(log: seq<Block>, heightMap: seq<(Medium, seq<Height>)>, sender: ChainId,
                                 recipient: ChainId)
    returns (request: CrossChainRequest)
    ensures request.UpdateRecipient? && request.heightMap == heightMap
    ensures request.sender == sender && request.recipient == recipient
    ensures Authentic(request.certificates, sender, log)
    ensures forall h: Height :: Carried(request.certificates, h) <==> h < |log| && Asked(heightMap, h)
  {
    var heights := AskedHeights(heightMap);
    var todo, certificates := heights, [];
    while todo != {}
      invariant todo <= heights && Authentic(certificates, sender, log) && Covers(certificates, log, heights, todo)
      invariant forall h, i :: h in todo && 0 <= i < |certificates| ==> certificates[i].height < h
      decreases |todo|
    {
      var first := FirstKey(todo);
      if first < |log| {
        CarriesOneMore(certificates, Certificate(true, sender, first, log[first]));
        certificates := certificates + [Certificate(true, sender, first, log[first])];
      }
      todo := todo - {first};
    }
    request := UpdateRecipient(heightMap, sender, recipient, certificates);
  }

  lemma CarriesOneMore(certificates: seq<Certificate>, c: Certificate)
    ensures forall h :: Carried(certificates + [c], h) <==> Carried(certificates, h) || h == c.height
  {
    var all := certificates + [c];
    assert all[|certificates|] == c;
    forall h | Carried(certificates, h) ensures Carried(all, h) {
      var i :| 0 <= i < |certificates| && certificates[i].height == h;
      assert all[i] == certificates[i];
    }
  }

  /** A request for what is listed for one recipient can be sent. */
  lemma RequestIsStep(s: State, q: CrossChainRequest, outboxes: map<Target, Outbox>,
                      channels: map<ChannelName, ChannelState>, pending: Pending)
    requires q.UpdateRecipient? && Mirrors(s.nodes(q.sender), outboxes, channels)
    requires Lists(pending, outboxes, outboxes.Keys) && q.recipient in pending
    requires forall k :: 0 <= k < |q.heightMap| ==>
      q.heightMap[k].0 in pending[q.recipient] && q.heightMap[k].1 == pending[q.recipient][q.heightMap[k].0]
    requires Authentic(q.certificates, q.sender, s.nodes(q.sender).log)
    requires forall h: Height :: h < |s.nodes(q.sender).log| && Asked(q.heightMap, h) ==> Carried(q.certificates, h)
    ensures Transition(s, SendUpdate(q), s.(network := s.network + iset{q}))
  {
    var n := s.nodes(q.sender);
    forall k | 0 <= k < |q.heightMap|
      ensures q.heightMap[k].1 == n.outbox(Target(q.recipient, q.heightMap[k].0)).queue
    {
      var t := Target(q.recipient, q.heightMap[k].0);
      assert t in outboxes && n.outbox(t) == outboxes[t];
    }
    forall k, h | 0 <= k < |q.heightMap| && h in q.heightMap[k].1 && h < |n.log|
      ensures Carried(q.certificates, h)
    {
      assert Asked(q.heightMap, h);
    }
  }

  // ----- Receiving -----

  lemma SavedInboxes(n: Node, q: CrossChainRequest, k: nat, trust: Trust, selected: seq<Certificate>, saved: bool,
                     before: map<Origin, InboxState>, after: map<Origin, InboxState>, confirmed: Option<Height>)
    requires q.UpdateRecipient? && k < |q.heightMap| && Receives(n, before)
    requires UpdatedWith(q.recipient, trust, Origin(q.sender, q.heightMap[k].0),
                         Filter(q.certificates, q.heightMap[k].1), saved, before, after, confirmed, selected)
    ensures Receives(AfterUpdate(n, q, k, selected, saved), after)
    ensures confirmed.Some? ==>
      confirmed.value in AfterUpdate(n, q, k, selected, saved).acknowledged(Origin(q.sender, q.heightMap[k].0))
  {
    if confirmed.Some? {
      assert HeightsOf(selected)[|selected| - 1] == confirmed.value;
    }
  }

  /** Handling an entry of an update is a step of the protocol, which acknowledges the height that is confirmed. */
  lemma EntryIsStep(s: State, q: CrossChainRequest, k: nat, trust: Trust, saved: bool,
                    before: map<Origin, InboxState>, after: map<Origin, InboxState>, confirmed: Option<Height>)
    requires q in s.network && q.UpdateRecipient? && k < |q.heightMap| && Receives(s.nodes(q.recipient), before)
    requires Updated(q.recipient, trust, Origin(q.sender, q.heightMap[k].0), Filter(q.certificates, q.heightMap[k].1),
                     saved, before, after, confirmed)
    ensures exists selected, s' ::
      && Transition(s, HandleUpdate(q, k, trust, selected, saved), s') && Receives(s'.nodes(q.recipient), after)
      && (confirmed.Some? ==>
            confirmed.value in s'.nodes(q.recipient).acknowledged(Origin(q.sender, q.heightMap[k].0)))
  {
    var n := s.nodes(q.recipient);
    var selected :| UpdatedWith(q.recipient, trust, Origin(q.sender, q.heightMap[k].0),
                                Filter(q.certificates, q.heightMap[k].1), saved, before, after, confirmed, selected);
    SavedInboxes(n, q, k, trust, selected, saved, before, after, confirmed);
    var s' := SetNode(s, q.recipient, AfterUpdate(n, q, k, selected, saved));
    assert Transition(s, HandleUpdate(q, k, trust, selected, saved), s');
  }

  /** Steps lead from one state to another. */
  ghost predicate Leads(s: State, steps: seq<Step>, s': State)
    decreases |steps|, 1
  {
    if steps == [] then s' == s else exists middle :: LeadsBy(s, steps, middle, s')
  }

  /** The last step is from the middle state. */
  ghost predicate LeadsBy(s: State, steps: seq<Step>, middle: State, s': State)
    requires steps != []
    decreases |steps|, 0
  {
    Leads(s, steps[..|steps| - 1], middle) && Transition(middle, steps[|steps| - 1], s')
  }

  lemma LeadsOn(s: State, steps: seq<Step>, middle: State, step: Step, s': State)
    requires Leads(s, steps, middle) && Transition(middle, step, s')
    ensures Leads(s, steps + [step], s')
  {
    assert (steps + [step])[..|steps|] == steps;
    assert LeadsBy(s, steps + [step], middle, s');
  }

  /** The confirmed heights of the first entries of an update are acknowledged. */
  ghost predicate Acknowledges(n: Node, q: CrossChainRequest, latest: seq<(Medium, Height)>) {
    forall k :: 0 <= k < |latest| ==> latest[k].1 in n.acknowledged(Origin(q.sender, latest[k].0))
  }

  lemma StepAcknowledges(s: State, step: Step, s': State, latest: seq<(Medium, Height)>)
    requires step.HandleUpdate? && Transition(s, step, s')
    requires Acknowledges(s.nodes(step.request.recipient), step.request, latest)
    ensures Acknowledges(s'.nodes(step.request.recipient), step.request, latest) && s'.network == s.network
  {
  }

  /**
    Handling an update entry by entry is a sequence of steps of the protocol, after which exactly what was
    confirmed can be sent as a confirmation.
   */
  lemma {:induction false} UpdateIsSteps(s: State, q: CrossChainRequest, rules: Rules, before: map<Origin, InboxState>,
                                         after: map<Origin, InboxState>, confirmed: seq<Option<Height>>)
    returns (steps: seq<Step>, s': State)
    requires q in s.network && q.UpdateRecipient? && q.recipient == rules.chainId && |confirmed| <= |q.heightMap|
    requires Receives(s.nodes(q.recipient), before)
    requires Handled(rules, q.heightMap, q.sender, q.certificates, before, after, confirmed)
    ensures Leads(s, steps, s') && |steps| == |confirmed| && q in s'.network
    ensures Receives(s'.nodes(q.recipient), after)
    ensures Acknowledges(s'.nodes(q.recipient), q, Confirmations(q.heightMap, confirmed))
    decreases |confirmed|
  {
    if confirmed == [] {
      steps, s' := [], s;
    } else {
      var n := |confirmed| - 1;
      var middle :| HandledLast(rules, q.heightMap, q.sender, q.certificates, before, middle, after, confirmed);
      var first, state := UpdateIsSteps(s, q, rules, before, middle, confirmed[..n]);
      var step;
      step, s' := LastEntryStep(state, q, rules, middle, after, confirmed);
      LeadsOn(s, first, state, step, s');
      steps := first + [step];
    }
  }

  lemma LastEntryStep(s: State, q: CrossChainRequest, rules: Rules, before: map<Origin, InboxState>,
                      after: map<Origin, InboxState>, confirmed: seq<Option<Height>>)
    returns (step: Step, s': State)
    requires q in s.network && q.UpdateRecipient? && q.recipient == rules.chainId && 0 < |confirmed| <= |q.heightMap|
    requires Receives(s.nodes(q.recipient), before)
    requires Acknowledges(s.nodes(q.recipient), q, Confirmations(q.heightMap, confirmed[..|confirmed| - 1]))
    requires var n := |confirmed| - 1;
      HandledEntry(rules, q.heightMap[n], q.sender, q.certificates, before, after, confirmed[n])
    ensures Transition(s, step, s') && q in s'.network && Receives(s'.nodes(q.recipient), after)
    ensures Acknowledges(s'.nodes(q.recipient), q, Confirmations(q.heightMap, confirmed))
  {
    var n := |confirmed| - 1;
    step, s' := EntryStep(s, q, n, rules, before, after, confirmed[n]);
    StepAcknowledges(s, step, s', Confirmations(q.heightMap, confirmed[..n]));
    AcknowledgesMore(s'.nodes(q.recipient), q, confirmed);
  }

  lemma EntryStep(s: State, q: CrossChainRequest, k: nat, rules: Rules, before: map<Origin, InboxState>,
                  after: map<Origin, InboxState>, confirmed: Option<Height>)
    returns (step: Step, s': State)
    requires q in s.network && q.UpdateRecipient? && q.recipient == rules.chainId && k < |q.heightMap|
    requires Receives(s.nodes(q.recipient), before)
    requires HandledEntry(rules, q.heightMap[k], q.sender, q.certificates, before, after, confirmed)
    ensures step.HandleUpdate? && step.request == q && Transition(s, step, s') && Receives(s'.nodes(q.recipient), after)
    ensures confirmed.Some? ==>
      confirmed.value in s'.nodes(q.recipient).acknowledged(Origin(q.sender, q.heightMap[k].0))
  {
    var trust := TrustFor(rules, InboxOf(before, Origin(q.sender, q.heightMap[k].0)));
    EntryIsStep(s, q, k, trust, rules.saves, before, after, confirmed);
    var selected, t :|
      && Transition(s, HandleUpdate(q, k, trust, selected, rules.saves), t) && Receives(t.nodes(q.recipient), after)
      && (confirmed.Some? ==>
            confirmed.value in t.nodes(q.recipient).acknowledged(Origin(q.sender, q.heightMap[k].0)));
    step, s' := HandleUpdate(q, k, trust, selected, rules.saves), t;
  }

  lemma AcknowledgesMore(n: Node, q: CrossChainRequest, confirmed: seq<Option<Height>>)
    requires q.UpdateRecipient? && 0 < |confirmed| <= |q.heightMap|
    requires Acknowledges(n, q, Confirmations(q.heightMap, confirmed[..|confirmed| - 1]))
    requires var k := |confirmed| - 1;
      confirmed[k].Some? ==> confirmed[k].value in n.acknowledged(Origin(q.sender, q.heightMap[k].0))
    ensures Acknowledges(n, q, Confirmations(q.heightMap, confirmed))
  {
  }

  /** A worker that handled an update can send its confirmations, after the steps that handled it. */
  lemma UpdateIsConfirmed(s: State, q: CrossChainRequest, rules: Rules, before: map<Origin, InboxState>,
                          after: map<Origin, InboxState>, confirmed: seq<Option<Height>>)
    returns (steps: seq<Step>, s': State)
    requires q in s.network && q.UpdateRecipient? && q.recipient == rules.chainId && |confirmed| <= |q.heightMap|
    requires Receives(s.nodes(q.recipient), before)
    requires Handled(rules, q.heightMap, q.sender, q.certificates, before, after, confirmed)
    ensures var answer := ConfirmUpdatedRecipient(q.sender, q.recipient, Confirmations(q.heightMap, confirmed));
      && Leads(s, steps, s') && steps != [] && steps[|steps| - 1] == SendConfirmation(answer)
      && Receives(s'.nodes(q.recipient), after) && answer in s'.network
  {
    var answer := ConfirmUpdatedRecipient(q.sender, q.recipient, Confirmations(q.heightMap, confirmed));
    var handled, middle := UpdateIsSteps(s, q, rules, before, after, confirmed);
    s' := middle.(network := middle.network + iset{answer});
    LeadsOn(s, handled, middle, SendConfirmation(answer), s');
    steps := handled + [SendConfirmation(answer)];
  }
}
