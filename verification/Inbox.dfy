/**
  The inbox of a chain for one origin: events may be removed (executed in a
  confirmed block) before they are added (received from the sender), and the two
  histories are reconciled event by event.
 */
module Inbox {
  import opened Common

  /** A position in the messages of a chain; cursors are ordered lexicographically. */
  datatype Cursor = Cursor(height: nat, index: nat) {
    predicate Lt(other: Cursor) {
      height < other.height || (height == other.height && index < other.index)
    }

    function TryAddOne(): Result<Cursor, InboxError> {
      if index < U32_MAX then Ok(Cursor(height, index + 1)) else Err(Overflow)
    }
  }

  datatype Event = Event(
    certificateHash: nat,
    height: nat,
    index: nat,
    signer: Option<Owner>,
    isSkippable: bool,
    timestamp: nat,
    message: Message)
  {
    function At(): Cursor { Cursor(height, index) }
  }

  datatype InboxError =
    | UnexpectedEvent(event: Event, previous: Event)
    | IncorrectOrder(event: Event, next: Cursor)
    | UnskippableEvent(event: Event)
    | Overflow

  datatype InboxState = InboxState(nextAdd: Cursor, nextRemove: Cursor, added: seq<Event>, removed: seq<Event>)

  const EMPTY_INBOX := InboxState(Cursor(0, 0), Cursor(0, 0), [], [])

  // ----- The two operations, on values -----

  /** The added events left after discarding those below `cursor`. */
  function DiscardBelow(added: seq<Event>, cursor: Cursor): Result<seq<Event>, InboxError> {
    if added == [] || !added[0].At().Lt(cursor) then Ok(added)
    else if !added[0].isSkippable then Err(UnskippableEvent(added[0]))
    else DiscardBelow(added[1..], cursor)
  }

  function Remove(s: InboxState, event: Event): Result<InboxState, InboxError> {
    var cursor := event.At();
    if cursor.Lt(s.nextRemove) then Err(IncorrectOrder(event, s.nextRemove))
    else match DiscardBelow(s.added, cursor)
      case Err(e) => Err(e)
      case Ok(rest) =>
        if rest != [] && rest[0] != event then Err(UnexpectedEvent(event, rest[0]))
        else match cursor.TryAddOne()
          case Err(e) => Err(e)
          case Ok(next) =>
            if rest != [] then Ok(s.(nextRemove := next, added := rest[1..]))
            else Ok(s.(nextRemove := next, added := [], removed := s.removed + [event]))
  }

  function Add(s: InboxState, event: Event): Result<InboxState, InboxError> {
    var cursor := event.At();
    if cursor.Lt(s.nextAdd) then Err(IncorrectOrder(event, s.nextAdd))
    else if s.removed != [] && s.removed[0].At() == cursor && event != s.removed[0] then
      Err(UnexpectedEvent(event, s.removed[0]))
    else if s.removed != [] && s.removed[0].At() != cursor
            && !(cursor.Lt(s.removed[0].At()) && event.isSkippable) then
      Err(UnexpectedEvent(event, s.removed[0]))
    else match cursor.TryAddOne()
      case Err(e) => Err(e)
      case Ok(next) =>
        if s.removed == [] then Ok(s.(nextAdd := next, added := s.added + [event]))
        else if s.removed[0].At() == cursor then Ok(s.(nextAdd := next, removed := s.removed[1..]))
        else Ok(s.(nextAdd := next))
  }

  /** The externally visible height: blocks are always added as a whole. */
  function NextHeightToReceive(s: InboxState): Result<Height, InboxError> {
    if s.nextAdd.index == 0 then Ok(s.nextAdd.height)
    else if s.nextAdd.height < U64_MAX then Ok(s.nextAdd.height + 1) else Err(Overflow)
  }

  // ----- The inbox as it is stored and updated in place -----

  class InboxView {
    var nextCursorToAdd: Cursor
    var nextCursorToRemove: Cursor
    var addedEvents: seq<Event>
    var removedEvents: seq<Event>

    function State(): InboxState
      reads this
    {
      InboxState(nextCursorToAdd, nextCursorToRemove, addedEvents, removedEvents)
    }

    constructor ()
      ensures State() == EMPTY_INBOX
    {
      nextCursorToAdd, nextCursorToRemove := Cursor(0, 0), Cursor(0, 0);
      addedEvents, removedEvents := [], [];
    }

    constructor Load(s: InboxState)
      ensures State() == s
    {
      nextCursorToAdd, nextCursorToRemove := s.nextAdd, s.nextRemove;
      addedEvents, removedEvents := s.added, s.removed;
    }

    /** The height below which every block was received. */
    method NextBlockHeightToReceive() returns (result: Result<Height, InboxError>)
      ensures result == NextHeightToReceive(State())
    {
      if nextCursorToAdd.index == 0 {
        return Ok(nextCursorToAdd.height);
      }
      if nextCursorToAdd.height >= U64_MAX {
        return Err(Overflow);
      }
      return Ok(nextCursorToAdd.height + 1);
    }

    /** Consumes an event. After an error only some skippable events may be gone. */
    method RemoveEvent(event: Event) returns (result: Result<(), InboxError>)
      modifies this
      ensures result.Ok? ==> Remove(old(State()), event) == Ok(State())
      ensures result.Err? ==> Remove(old(State()), event) == Err(result.error)
    {
      var cursor := event.At();
      if cursor.Lt(nextCursorToRemove) {
        return Err(IncorrectOrder(event, nextCursorToRemove));
      }
      while addedEvents != [] && addedEvents[0].At().Lt(cursor)
        invariant DiscardBelow(addedEvents, cursor) == DiscardBelow(old(addedEvents), cursor)
        invariant nextCursorToAdd == old(nextCursorToAdd) && nextCursorToRemove == old(nextCursorToRemove)
        invariant removedEvents == old(removedEvents)
        decreases |addedEvents|
      {
        if !addedEvents[0].isSkippable {
          return Err(UnskippableEvent(addedEvents[0]));
        }
        addedEvents := addedEvents[1..];
      }
      if addedEvents != [] {
        if event != addedEvents[0] {
          return Err(UnexpectedEvent(event, addedEvents[0]));
        }
        addedEvents := addedEvents[1..];
      } else {
        removedEvents := removedEvents + [event];
      }
      var next := cursor.TryAddOne();
      if next.Err? {
        return Err(next.error);
      }
      nextCursorToRemove := next.value;
      result := Ok(());
    }

    /** Receives an event. */
    method AddEvent(event: Event) returns (result: Result<(), InboxError>)
      modifies this
      ensures result.Ok? ==> Add(old(State()), event) == Ok(State())
      ensures result.Err? ==> Add(old(State()), event) == Err(result.error)
    {
      var cursor := event.At();
      if cursor.Lt(nextCursorToAdd) {
        return Err(IncorrectOrder(event, nextCursorToAdd));
      }
      if removedEvents != [] {
        var previous := removedEvents[0];
        if previous.At() == cursor {
          if event != previous {
            return Err(UnexpectedEvent(event, previous));
          }
          removedEvents := removedEvents[1..];
        } else if !(cursor.Lt(previous.At()) && event.isSkippable) {
          return Err(UnexpectedEvent(event, previous));
        }
      } else {
        addedEvents := addedEvents + [event];
      }
      var next := cursor.TryAddOne();
      if next.Err? {
        return Err(next.error);
      }
      nextCursorToAdd := next.value;
      result := Ok(());
    }
  }

  // ----- When two histories can be reconciled -----

  ghost predicate InOrder(s: seq<Event>) {
    && (forall i, j :: 0 <= i < j < |s| ==> s[i].At().Lt(s[j].At()))
    && (forall i :: 0 <= i < |s| ==> s[i].index < U32_MAX)
  }

  /** `c` is at or below the cursor of the last event of `s`. */
  predicate Covered(c: Cursor, s: seq<Event>) {
    s != [] && !s[|s| - 1].At().Lt(c)
  }

  /**
    Every event of `s` that `t` has passed is in `t`, except, if `maySkip`, for skippable
    events.
   */
  ghost predicate Matched(s: seq<Event>, t: seq<Event>, maySkip: bool) {
    forall e :: e in s && Covered(e.At(), t) && !(maySkip && e.isSkippable) ==> e in t
  }

  /**
    The added events `a` and the removed events `r` agree: both are in order, a removed
    event that the sender has passed was added, and an added event that the receiver
    has passed was removed or is skippable.
   */
  ghost predicate Reconcilable(a: seq<Event>, r: seq<Event>) {
    InOrder(a) && InOrder(r) && Matched(r, a, false) && Matched(a, r, true)
  }

  /** The cursor following the last event. */
  function Next(s: seq<Event>): Cursor {
    if s == [] then Cursor(0, 0) else Cursor(s[|s| - 1].height, s[|s| - 1].index + 1)
  }

  /** Exactly the first `k` events are the leading ones below `c`. */
  ghost predicate Splits(s: seq<Event>, c: Cursor, k: nat) {
    k <= |s| && (forall i :: 0 <= i < k ==> s[i].At().Lt(c)) && (k < |s| ==> !s[k].At().Lt(c))
  }

  lemma SplitExists(s: seq<Event>, c: Cursor)
    ensures exists k: nat :: Splits(s, c, k)
  {
    var k := 0;
    while k < |s| && s[k].At().Lt(c)
      invariant k <= |s| && forall i :: 0 <= i < k ==> s[i].At().Lt(c)
    {
      k := k + 1;
    }
    assert Splits(s, c, k);
  }

  /** The number of leading events below `c`. */
  ghost function Below(s: seq<Event>, c: Cursor): (k: nat)
    ensures Splits(s, c, k)
  {
    SplitExists(s, c);
    var k: nat :| Splits(s, c, k);
    k
  }

  /** The events of an ordered history that are at or above `c`. */
  ghost function AtOrAbove(s: seq<Event>, c: Cursor): seq<Event> {
    s[Below(s, c)..]
  }

  /** The state of an inbox as a function of its two histories alone. */
  ghost function StateOf(a: seq<Event>, r: seq<Event>): InboxState {
    InboxState(Next(a), Next(r), AtOrAbove(a, Next(r)), AtOrAbove(r, Next(a)))
  }

  /** `AtOrAbove` is determined by its split point. */
  lemma AtOrAboveIs(s: seq<Event>, c: Cursor, k: nat)
    requires InOrder(s) && Splits(s, c, k)
    ensures AtOrAbove(s, c) == s[k..]
  {
  }

  /** The events of an ordered history at or above a cursor are those not below it. */
  lemma AtOrAboveContains(s: seq<Event>, c: Cursor, e: Event)
    requires InOrder(s)
    ensures e in AtOrAbove(s, c) <==> e in s && !e.At().Lt(c)
    ensures InOrder(AtOrAbove(s, c))
  {
    var k := Below(s, c);
    if e in s && !e.At().Lt(c) {
      var i :| 0 <= i < |s| && s[i] == e;
      assert s[k..][i - k] == e;
    }
  }

  /** Nothing is at or above the cursor that follows a later event. */
  lemma NoneAtOrAbove(s: seq<Event>, c: Cursor)
    requires InOrder(s) && (s != [] ==> s[|s| - 1].At().Lt(c))
    ensures AtOrAbove(s, c) == []
  {
    AtOrAboveIs(s, c, |s|);
  }

  lemma AtOrAboveAppend(s: seq<Event>, e: Event, c: Cursor)
    requires InOrder(s) && InOrder(s + [e])
    ensures AtOrAbove(s + [e], c) == if e.At().Lt(c) then [] else AtOrAbove(s, c) + [e]
  {
    var k := Below(s, c);
    var s' := s + [e];
    assert forall i :: 0 <= i < |s| ==> s'[i] == s[i];
    assert s'[|s|] == e;
    if e.At().Lt(c) {
      NoneAtOrAbove(s', c);
    } else {
      AtOrAboveIs(s', c, k);
      assert s'[k..] == s[k..] + [e];
    }
  }

  /** Moving a cursor from `c` to just after `e` drops `e`, if it comes next, and nothing else. */
  lemma AtOrAboveAfter(s: seq<Event>, c: Cursor, e: Event)
    requires InOrder(s) && !e.At().Lt(c)
    requires var rest := AtOrAbove(s, c); rest == [] || !rest[0].At().Lt(e.At())
    ensures var rest := AtOrAbove(s, c);
      AtOrAbove(s, Cursor(e.height, e.index + 1)) ==
        if rest != [] && rest[0].At() == e.At() then rest[1..] else rest
  {
    var k := Below(s, c);
    var rest := AtOrAbove(s, c);
    assert rest != [] ==> rest[0] == s[k];
    AtOrAboveIs(s, Cursor(e.height, e.index + 1), if rest != [] && rest[0].At() == e.At() then k + 1 else k);
  }

  /** A cursor is passed by a history exactly when the history covers it. */
  lemma NextCovers(s: seq<Event>, c: Cursor)
    requires InOrder(s)
    ensures c.Lt(Next(s)) <==> Covered(c, s)
  {
  }

  lemma AppendInOrder(s: seq<Event>, e: Event)
    requires InOrder(s)
    ensures InOrder(s + [e]) <==> !e.At().Lt(Next(s)) && e.index < U32_MAX
  {
    var s' := s + [e];
    assert s'[|s|] == e;
    assert forall i :: 0 <= i < |s| ==> s'[i] == s[i];
    if s != [] && InOrder(s') {
      assert s'[|s| - 1].At().Lt(s'[|s|].At());
    }
  }

  /** What appending `e` to the covering history asks of the covered one. */
  lemma MatchedLonger(s: seq<Event>, t: seq<Event>, e: Event, maySkip: bool)
    requires InOrder(s) && InOrder(t) && InOrder(t + [e])
    ensures Matched(s, t + [e], maySkip) <==>
            && Matched(s, t, maySkip)
            && (forall x :: x in AtOrAbove(s, Next(t)) && x.At().Lt(e.At()) ==> maySkip && x.isSkippable)
            && (forall x :: x in AtOrAbove(s, Next(t)) && x.At() == e.At() ==> x == e || (maySkip && x.isSkippable))
  {
    var t' := t + [e];
    AppendInOrder(t, e);
    assert t'[|t|] == e;
    forall x | x in s
      ensures x in AtOrAbove(s, Next(t)) <==> !Covered(x.At(), t)
      ensures Covered(x.At(), t') <==> x.At() == e.At() || x.At().Lt(e.At())
      ensures Covered(x.At(), t) ==> x != e && Covered(x.At(), t')
      ensures x in t' <==> x in t || x == e
      ensures x in t ==> Covered(x.At(), t)
    {
      AtOrAboveContains(s, Next(t), x);
      NextCovers(t, x.At());
    }
  }

  /** What appending `e` to the covered history asks of the covering one. */
  lemma MatchedMore(s: seq<Event>, e: Event, t: seq<Event>, maySkip: bool)
    ensures Matched(s + [e], t, maySkip) <==>
            Matched(s, t, maySkip) && (Covered(e.At(), t) && !(maySkip && e.isSkippable) ==> e in t)
  {
    var s' := s + [e];
    assert s'[|s|] == e;
    assert forall x :: x in s' <==> x in s || x == e;
  }

  /** An ordered list has something below `c` exactly when it starts below `c`. */
  lemma FirstBelow(s: seq<Event>, c: Cursor)
    requires InOrder(s)
    ensures (exists x :: x in s && x.At().Lt(c)) <==> s != [] && s[0].At().Lt(c)
    ensures s != [] ==> forall x :: x in s && x != s[0] ==> s[0].At().Lt(x.At())
  {
    if s != [] {
      assert s[0] in s;
    }
  }

  /** When an added event extends a reconcilable history, in terms of the events still expected. */
  lemma AddCondition(a: seq<Event>, r: seq<Event>, e: Event)
    requires Reconcilable(a, r) && InOrder(a + [e])
    ensures var rest := AtOrAbove(r, Next(a));
      Reconcilable(a + [e], r) <==>
        rest == [] || rest[0] == e || (e.At().Lt(rest[0].At()) && e.isSkippable)
  {
    var rest := AtOrAbove(r, Next(a));
    AppendInOrder(a, e);
    AtOrAboveContains(r, Next(a), e);
    MatchedLonger(r, a, e, false);
    MatchedMore(a, e, r, true);
    FirstBelow(rest, e.At());
    CoveredByRest(r, Next(a), e.At());
  }

  /** A history passes a cursor that is not behind `b` exactly through its events from `b` on. */
  lemma CoveredByRest(s: seq<Event>, b: Cursor, c: Cursor)
    requires InOrder(s) && !c.Lt(b)
    ensures Covered(c, s) <==> AtOrAbove(s, b) != [] && !AtOrAbove(s, b)[|AtOrAbove(s, b)| - 1].At().Lt(c)
    ensures AtOrAbove(s, b) != [] && !AtOrAbove(s, b)[0].At().Lt(c) ==> Covered(c, s)
  {
    var k := Below(s, b);
  }

  /** The outcome of `Add` in terms of the events still expected. */
  lemma AddOutcome(a: seq<Event>, r: seq<Event>, e: Event)
    requires InOrder(a) && InOrder(r)
    ensures var rest := AtOrAbove(r, Next(a));
      Add(StateOf(a, r), e).Ok? <==>
        && InOrder(a + [e])
        && (rest == [] || rest[0] == e || (e.At().Lt(rest[0].At()) && e.isSkippable))
    ensures Add(StateOf(a, r), e).Ok? ==> Add(StateOf(a, r), e) == Ok(StateOf(a + [e], r))
  {
    AppendInOrder(a, e);
    AddValue(StateOf(a, r), e);
    if Add(StateOf(a, r), e).Ok? {
      AddMoves(a, r, e);
    }
  }

  /** The effect of `Add` on any state. */
  lemma AddValue(s: InboxState, e: Event)
    ensures Add(s, e).Ok? <==>
      && !e.At().Lt(s.nextAdd) && e.index < U32_MAX
      && (s.removed == [] || s.removed[0] == e || (e.At().Lt(s.removed[0].At()) && e.isSkippable))
    ensures Add(s, e).Ok? ==> Add(s, e).value == InboxState(
      Cursor(e.height, e.index + 1), s.nextRemove,
      if s.removed == [] then s.added + [e] else s.added,
      if s.removed != [] && s.removed[0].At() == e.At() then s.removed[1..] else s.removed)
  {
  }

  /** Adding succeeds exactly when the longer history can be reconciled, and moves to its state. */
  lemma AddStep(a: seq<Event>, r: seq<Event>, e: Event)
    requires Reconcilable(a, r)
    ensures Reconcilable(a + [e], r) <==> Add(StateOf(a, r), e).Ok?
    ensures Reconcilable(a + [e], r) ==> Add(StateOf(a, r), e) == Ok(StateOf(a + [e], r))
  {
    AddOutcome(a, r, e);
    if InOrder(a + [e]) {
      AddCondition(a, r, e);
    }
  }

  lemma AddMoves(a: seq<Event>, r: seq<Event>, e: Event)
    requires InOrder(a) && InOrder(r) && InOrder(a + [e])
    requires var rest := AtOrAbove(r, Next(a)); rest != [] ==> !rest[0].At().Lt(e.At())
    ensures var rest := AtOrAbove(r, Next(a));
      StateOf(a + [e], r) == InboxState(Cursor(e.height, e.index + 1), Next(r),
        if rest == [] then AtOrAbove(a, Next(r)) + [e] else AtOrAbove(a, Next(r)),
        if rest != [] && rest[0].At() == e.At() then rest[1..] else rest)
  {
    assert Next(a + [e]) == Cursor(e.height, e.index + 1);
    AppendInOrder(a, e);
    AtOrAboveAfter(r, Next(a), e);
    AddedGrows(a, r, e);
  }

  /** A received event waits exactly when no event is expected. */
  lemma AddedGrows(a: seq<Event>, r: seq<Event>, e: Event)
    requires InOrder(a) && InOrder(r) && InOrder(a + [e])
    requires var rest := AtOrAbove(r, Next(a)); rest != [] ==> !rest[0].At().Lt(e.At())
    ensures AtOrAbove(a + [e], Next(r))
      == if AtOrAbove(r, Next(a)) == [] then AtOrAbove(a, Next(r)) + [e] else AtOrAbove(a, Next(r))
  {
    AtOrAboveAppend(a, e, Next(r));
    ExpectedIsCovered(a, r, e);
    if AtOrAbove(r, Next(a)) != [] {
      AppendInOrder(a, e);
      AtOrAboveContains(r, Next(a), AtOrAbove(r, Next(a))[0]);
      NoneAtOrAbove(a, Next(r));
    }
  }

  lemma ExpectedIsCovered(a: seq<Event>, r: seq<Event>, e: Event)
    requires InOrder(a) && InOrder(r) && InOrder(a + [e])
    requires var rest := AtOrAbove(r, Next(a)); rest != [] ==> !rest[0].At().Lt(e.At())
    ensures e.At().Lt(Next(r)) <==> AtOrAbove(r, Next(a)) != []
  {
    AppendInOrder(a, e);
    NextCovers(r, e.At());
    var rest := AtOrAbove(r, Next(a));
    if rest != [] {
      AtOrAboveContains(r, Next(a), rest[0]);
    } else if r != [] {
      AtOrAboveContains(r, Next(a), r[|r| - 1]);
    }
  }

  /** What remains of the added events when the receiver skips to `c`. */
  lemma {:induction false} DiscardIs(s: seq<Event>, c: Cursor)
    requires InOrder(s)
    ensures DiscardBelow(s, c).Ok? <==> forall e :: e in s && e.At().Lt(c) ==> e.isSkippable
    ensures DiscardBelow(s, c).Ok? ==> DiscardBelow(s, c).value == AtOrAbove(s, c)
  {
    FirstBelow(s, c);
    if s == [] || !s[0].At().Lt(c) {
      AtOrAboveIs(s, c, 0);
      assert s[0..] == s;
    } else {
      assert s[0] in s;
      if s[0].isSkippable {
        AtOrAboveTail(s, c);
        DiscardIs(s[1..], c);
      }
    }
  }

  lemma AtOrAboveTail(s: seq<Event>, c: Cursor)
    requires InOrder(s) && s != [] && s[0].At().Lt(c)
    ensures InOrder(s[1..]) && AtOrAbove(s, c) == AtOrAbove(s[1..], c)
    ensures forall e :: e in s <==> e == s[0] || e in s[1..]
  {
    var k := Below(s, c);
    SplitsTail(s, c, 1, k);
    AtOrAboveIs(s[1..], c, k - 1);
    assert s[1..][k - 1..] == s[k..];
    HeadAndTail(s);
  }

  lemma HeadAndTail(s: seq<Event>)
    requires s != []
    ensures forall e :: e in s <==> e == s[0] || e in s[1..]
  {
    assert s == [s[0]] + s[1..];
  }

  /** Events at or above a cursor, among those at or above an earlier one. */
  lemma AtOrAboveTwice(s: seq<Event>, b: Cursor, c: Cursor)
    requires InOrder(s) && !c.Lt(b)
    ensures InOrder(AtOrAbove(s, b))
    ensures AtOrAbove(AtOrAbove(s, b), c) == AtOrAbove(s, c)
  {
    var j, k := Below(s, b), Below(s, c);
    SplitsLater(s, b, c, j, k);
    SplitsTail(s, c, j, k);
    AtOrAboveIs(s[j..], c, k - j);
    assert s[j..][k - j..] == s[k..];
  }

  lemma SplitsLater(s: seq<Event>, b: Cursor, c: Cursor, j: nat, k: nat)
    requires !c.Lt(b) && Splits(s, b, j) && Splits(s, c, k)
    ensures j <= k
  {
  }

  lemma SplitsTail(s: seq<Event>, c: Cursor, j: nat, k: nat)
    requires InOrder(s) && Splits(s, c, k) && j <= k
    ensures InOrder(s[j..]) && Splits(s[j..], c, k - j)
  {
  }

  /** When a removed event extends a reconcilable history, in terms of the events still waiting. */
  lemma RemoveCondition(a: seq<Event>, r: seq<Event>, e: Event)
    requires Reconcilable(a, r) && InOrder(r + [e])
    ensures var rest := AtOrAbove(a, e.At());
      Reconcilable(a, r + [e]) <==>
        && (rest == [] || rest[0] == e)
        && (forall x :: x in AtOrAbove(a, Next(r)) && x.At().Lt(e.At()) ==> x.isSkippable)
  {
    var rest := AtOrAbove(a, e.At());
    AppendInOrder(r, e);
    AtOrAboveContains(a, e.At(), e);
    MatchedLonger(a, r, e, true);
    MatchedMore(r, e, a, false);
    FirstBelow(rest, e.At());
    CoveredByRest(a, e.At(), e.At());
    forall x | x in AtOrAbove(a, Next(r)) && x.At() == e.At()
      ensures x in rest
    {
      AtOrAboveContains(a, e.At(), x);
      AtOrAboveContains(a, Next(r), x);
    }
    if rest != [] {
      AtOrAboveContains(a, e.At(), rest[0]);
    }
  }

  /** The effect of `Remove` on any state whose waiting events are in order. */
  lemma RemoveValue(s: InboxState, e: Event)
    requires InOrder(s.added)
    ensures var rest := AtOrAbove(s.added, e.At());
      Remove(s, e).Ok? <==>
        && !e.At().Lt(s.nextRemove) && e.index < U32_MAX
        && (rest == [] || rest[0] == e)
        && (forall x :: x in s.added && x.At().Lt(e.At()) ==> x.isSkippable)
    ensures var rest := AtOrAbove(s.added, e.At());
      Remove(s, e).Ok? ==> Remove(s, e).value == InboxState(
        s.nextAdd, Cursor(e.height, e.index + 1),
        if rest == [] then [] else rest[1..],
        if rest == [] then s.removed + [e] else s.removed)
  {
    DiscardIs(s.added, e.At());
    RemoveBy(s, e, DiscardBelow(s.added, e.At()));
  }

  /** The effect of `Remove` in terms of what is left after discarding. */
  lemma RemoveBy(s: InboxState, e: Event, rest: Result<seq<Event>, InboxError>)
    requires rest == DiscardBelow(s.added, e.At())
    ensures Remove(s, e).Ok? <==>
      !e.At().Lt(s.nextRemove) && e.index < U32_MAX && rest.Ok? && (rest.value == [] || rest.value[0] == e)
    ensures Remove(s, e).Ok? ==> Remove(s, e).value == InboxState(
      s.nextAdd, Cursor(e.height, e.index + 1),
      if rest.value == [] then [] else rest.value[1..],
      if rest.value == [] then s.removed + [e] else s.removed)
  {
  }

  /** The outcome of `Remove` in terms of the events still waiting. */
  lemma RemoveOutcome(a: seq<Event>, r: seq<Event>, e: Event)
    requires InOrder(a) && InOrder(r)
    ensures var rest := AtOrAbove(a, e.At());
      Remove(StateOf(a, r), e).Ok? <==>
        && InOrder(r + [e])
        && (rest == [] || rest[0] == e)
        && (forall x :: x in AtOrAbove(a, Next(r)) && x.At().Lt(e.At()) ==> x.isSkippable)
    ensures Remove(StateOf(a, r), e).Ok? ==> Remove(StateOf(a, r), e) == Ok(StateOf(a, r + [e]))
  {
    AppendInOrder(r, e);
    if !e.At().Lt(Next(r)) {
      AtOrAboveTwice(a, Next(r), e.At());
      RemoveValue(StateOf(a, r), e);
      if Remove(StateOf(a, r), e).Ok? {
        RemoveMoves(a, r, e);
      }
    }
  }

  /** Removing succeeds exactly when the longer history can be reconciled, and moves to its state. */
  lemma RemoveStep(a: seq<Event>, r: seq<Event>, e: Event)
    requires Reconcilable(a, r)
    ensures Reconcilable(a, r + [e]) <==> Remove(StateOf(a, r), e).Ok?
    ensures Reconcilable(a, r + [e]) ==> Remove(StateOf(a, r), e) == Ok(StateOf(a, r + [e]))
  {
    RemoveOutcome(a, r, e);
    if InOrder(r + [e]) {
      RemoveCondition(a, r, e);
    }
  }

  lemma RemoveMoves(a: seq<Event>, r: seq<Event>, e: Event)
    requires InOrder(a) && InOrder(r) && InOrder(r + [e])
    requires var rest := AtOrAbove(a, e.At()); rest != [] ==> rest[0] == e
    ensures var rest := AtOrAbove(a, e.At());
      StateOf(a, r + [e]) == InboxState(Next(a), Cursor(e.height, e.index + 1),
        if rest == [] then [] else rest[1..],
        if rest == [] then AtOrAbove(r, Next(a)) + [e] else AtOrAbove(r, Next(a)))
  {
    assert Next(r + [e]) == Cursor(e.height, e.index + 1);
    AddedMoves(a, e);
    RemovedMoves(a, r, e);
  }

  /** Executing an event that comes next takes it off the waiting events, and nothing else. */
  lemma AddedMoves(a: seq<Event>, e: Event)
    requires InOrder(a)
    requires var rest := AtOrAbove(a, e.At()); rest != [] ==> rest[0] == e
    ensures var rest := AtOrAbove(a, e.At());
      AtOrAbove(a, Cursor(e.height, e.index + 1)) == if rest == [] then [] else rest[1..]
  {
    AtOrAboveAfter(a, e.At(), e);
  }

  /** An executed event is remembered exactly when it has not been received yet. */
  lemma RemovedMoves(a: seq<Event>, r: seq<Event>, e: Event)
    requires InOrder(a) && InOrder(r) && InOrder(r + [e])
    requires var rest := AtOrAbove(a, e.At()); rest != [] ==> rest[0] == e
    ensures AtOrAbove(r + [e], Next(a))
      == if AtOrAbove(a, e.At()) == [] then AtOrAbove(r, Next(a)) + [e] else AtOrAbove(r, Next(a))
  {
    AtOrAboveAppend(r, e, Next(a));
    RestIsCovered(a, e);
    if AtOrAbove(a, e.At()) != [] {
      AppendInOrder(r, e);
      NoneAtOrAbove(r, Next(a));
    }
  }

  lemma RestIsCovered(a: seq<Event>, e: Event)
    requires InOrder(a)
    requires var rest := AtOrAbove(a, e.At()); rest != [] ==> rest[0] == e
    ensures e.At().Lt(Next(a)) <==> AtOrAbove(a, e.At()) != []
  {
    NextCovers(a, e.At());
    if AtOrAbove(a, e.At()) != [] {
      AtOrAboveContains(a, e.At(), e);
    } else if a != [] {
      AtOrAboveContains(a, e.At(), a[|a| - 1]);
    }
  }

  // ----- Every interleaving of the two histories -----

  datatype Action = Received(event: Event) | Executed(event: Event)

  function Apply(s: InboxState, action: Action): Result<InboxState, InboxError> {
    match action
    case Received(e) => Add(s, e)
    case Executed(e) => Remove(s, e)
  }

  /** Runs a list of actions from the empty inbox, stopping at the first error. */
  function Run(actions: seq<Action>): Result<InboxState, InboxError> {
    if actions == [] then Ok(EMPTY_INBOX)
    else match Run(actions[..|actions| - 1])
      case Err(e) => Err(e)
      case Ok(s) => Apply(s, actions[|actions| - 1])
  }

  function Adds(actions: seq<Action>): seq<Event> {
    if actions == [] then []
    else Adds(actions[..|actions| - 1])
         + (match actions[|actions| - 1] case Received(e) => [e] case Executed(_) => [])
  }

  function Removes(actions: seq<Action>): seq<Event> {
    if actions == [] then []
    else Removes(actions[..|actions| - 1])
         + (match actions[|actions| - 1] case Received(_) => [] case Executed(e) => [e])
  }

  /** A prefix of a reconcilable history is reconcilable. */
  lemma PrefixReconcilable(a: seq<Event>, r: seq<Event>, e: Event)
    requires Reconcilable(a + [e], r) || Reconcilable(a, r + [e])
    ensures Reconcilable(a, r)
  {
    if Reconcilable(a + [e], r) {
      var a' := a + [e];
      assert forall i :: 0 <= i < |a| ==> a'[i] == a[i];
      assert a'[|a|] == e;
      forall x | x in r && Covered(x.At(), a) ensures x in a {
        assert Covered(x.At(), a');
        assert a'[|a| - 1].At().Lt(a'[|a|].At());
      }
      assert forall x :: x in a ==> x in a';
    } else {
      var r' := r + [e];
      assert forall i :: 0 <= i < |r| ==> r'[i] == r[i];
      assert r'[|r|] == e;
      forall x | x in a && Covered(x.At(), r) && x !in r ensures x.isSkippable {
        assert r'[|r| - 1].At().Lt(r'[|r|].At());
        assert Covered(x.At(), r');
      }
      assert forall x :: x in r ==> x in r';
    }
  }

  /**
    Confluence. An interleaving succeeds exactly when its two histories can be
    reconciled, and the state it reaches depends on the two histories alone.
   */
  lemma {:induction false} RunIsReconciliation(actions: seq<Action>)
    ensures Run(actions).Ok? <==> Reconcilable(Adds(actions), Removes(actions))
    ensures Run(actions).Ok? ==> Run(actions).value == StateOf(Adds(actions), Removes(actions))
  {
    if actions != [] {
      var before, last := actions[..|actions| - 1], actions[|actions| - 1];
      var a, r := Adds(before), Removes(before);
      RunIsReconciliation(before);
      match last {
        case Received(e) =>
          assert Adds(actions) == a + [e] && Removes(actions) == r;
          if Reconcilable(a, r) {
            AddStep(a, r, e);
          } else if Reconcilable(a + [e], r) {
            PrefixReconcilable(a, r, e);
          }
        case Executed(e) =>
          assert Adds(actions) == a && Removes(actions) == r + [e];
          if Reconcilable(a, r) {
            RemoveStep(a, r, e);
          } else if Reconcilable(a, r + [e]) {
            PrefixReconcilable(a, r, e);
          }
      }
    }
  }

  /** All interleavings of the same two histories succeed or fail together, in the same state. */
  lemma Confluence(one: seq<Action>, two: seq<Action>)
    requires Adds(one) == Adds(two) && Removes(one) == Removes(two)
    ensures Run(one).Ok? <==> Run(two).Ok?
    ensures Run(one).Ok? ==> Run(one) == Run(two)
  {
    RunIsReconciliation(one);
    RunIsReconciliation(two);
  }

  /**
    No event is lost or executed twice: after any run, an added event was executed exactly
    once, or waits exactly once, or was skipped and is skippable; and an executed event was
    added or is still expected. Never both queues are in use.
   */
  lemma NothingIsLost(actions: seq<Action>, e: Event)
    requires Run(actions).Ok?
    ensures var s := Run(actions).value; var a, r := Adds(actions), Removes(actions);
      && (s.added == [] || s.removed == [])
      && multiset(a)[e] <= 1 && multiset(r)[e] <= 1
      && multiset(s.added)[e] + multiset(r)[e] <= 1
      && (e in a ==> e in r || e in s.added || e.isSkippable)
      && (e in r ==> e in a || e in s.removed)
  {
    RunIsReconciliation(actions);
    var a, r := Adds(actions), Removes(actions);
    OneQueueIsEmpty(a, r);
    Accounted(a, r, e);
    OrderedOnce(a, e);
    OrderedOnce(r, e);
    AtOrAboveContains(a, Next(r), e);
    OrderedOnce(AtOrAbove(a, Next(r)), e);
  }

  lemma OneQueueIsEmpty(a: seq<Event>, r: seq<Event>)
    requires InOrder(a) && InOrder(r)
    ensures AtOrAbove(a, Next(r)) == [] || AtOrAbove(r, Next(a)) == []
  {
    if AtOrAbove(a, Next(r)) != [] {
      AtOrAboveContains(a, Next(r), AtOrAbove(a, Next(r))[0]);
      NoneAtOrAbove(r, Next(a));
    }
  }

  lemma Accounted(a: seq<Event>, r: seq<Event>, e: Event)
    requires Reconcilable(a, r)
    ensures e in a ==> e in r || e in AtOrAbove(a, Next(r)) || e.isSkippable
    ensures e in r ==> e in a || e in AtOrAbove(r, Next(a))
    ensures !(e in r && e in AtOrAbove(a, Next(r)))
  {
    AtOrAboveContains(a, Next(r), e);
    AtOrAboveContains(r, Next(a), e);
    NextCovers(a, e.At());
    NextCovers(r, e.At());
  }

  lemma OrderedOnce(s: seq<Event>, e: Event)
    requires InOrder(s)
    ensures multiset(s)[e] == if e in s then 1 else 0
  {
    if s != [] {
      var n := |s| - 1;
      assert s == s[..n] + [s[n]];
      OrderedOnce(s[..n], e);
      if e in s[..n] {
        var i :| 0 <= i < n && s[i] == e;
        assert s[i].At().Lt(s[n].At());
      }
    }
  }
}
