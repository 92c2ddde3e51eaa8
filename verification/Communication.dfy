/** Communication of a client with a quorum of validators. */
module Communication {
  import opened Common
  import opened Committee
  import opened Sums

  /** What a validator answers: a value, grouped by a key, or an error. */
  datatype Reply = Value(key: nat, value: nat) | Failure(error: nat)

  /** What answers are grouped by. */
  datatype Group = Key(key: nat) | Error(error: nat)

  datatype Outcome = Agreed(key: nat, values: seq<nat>) | Trusted(error: nat) | Sample(errors: seq<nat>)

  type Responses = seq<(Name, Reply)>

  function GroupOf(reply: Reply): Group {
    match reply
    case Value(key, _) => Key(key)
    case Failure(error) => Error(error)
  }

  /** The weight of the validators whose answers are in a group. */
  function Votes(c: Committee, rs: Responses, g: Group): nat {
    if rs == [] then 0
    else Votes(c, rs[..|rs| - 1], g) + if GroupOf(rs[|rs| - 1].1) == g then c.Weight(rs[|rs| - 1].0) else 0
  }

  /** The weight of all the validators that answered. */
  function Answered(c: Committee, rs: Responses): nat {
    if rs == [] then 0 else Answered(c, rs[..|rs| - 1]) + c.Weight(rs[|rs| - 1].0)
  }

  /** The values with a key, in the order of the answers. */
  function ValuesOf(rs: Responses, key: nat): seq<nat> {
    if rs == [] then []
    else ValuesOf(rs[..|rs| - 1], key) + if GroupOf(rs[|rs| - 1].1) == Key(key) then [rs[|rs| - 1].1.value] else []
  }

  function Names(rs: Responses): set<Name> {
    set i | 0 <= i < |rs| :: rs[i].0
  }

  /** Each validator with voting rights is asked once. */
  ghost predicate AskedOnce(c: Committee, rs: Responses) {
    && (forall i, j :: 0 <= i < j < |rs| ==> rs[i].0 != rs[j].0)
    && (forall i :: 0 <= i < |rs| ==> c.Weight(rs[i].0) > 0)
  }

  predicate HasQuorum(c: Committee, rs: Responses, key: nat) {
    Votes(c, rs, Key(key)) >= c.quorumThreshold
  }

  /** Whatever the other validators answer, no key gets a quorum. */
  ghost predicate Hopeless(c: Committee, rs: Responses) {
    forall all, key :: rs <= all && AskedOnce(c, all) ==> !HasQuorum(c, all, key)
  }

  // ----- Counting -----

  lemma {:induction false} AnsweredBound(c: Committee, rs: Responses)
    requires c.Valid() && AskedOnce(c, rs)
    ensures Answered(c, rs) == c.WeightOf(Names(rs)) <= c.totalVotes
  {
    TotalBound(c.validators, Names(rs));
    if rs == [] {
      assert Names(rs) == {};
    } else {
      var front, last := rs[..|rs| - 1], rs[|rs| - 1];
      AnsweredBound(c, front);
      NamesLast(rs);
      TotalPick(c.validators, Names(rs), last.0);
    }
  }

  lemma NamesLast(rs: Responses)
    requires rs != [] && (forall i, j :: 0 <= i < j < |rs| ==> rs[i].0 != rs[j].0)
    ensures rs[|rs| - 1].0 in Names(rs) && Names(rs[..|rs| - 1]) == Names(rs) - {rs[|rs| - 1].0}
  {
    var front := rs[..|rs| - 1];
    assert forall i :: 0 <= i < |front| ==> front[i] == rs[i];
    forall x ensures x in Names(front) <==> x in Names(rs) - {rs[|rs| - 1].0} {
      if x in Names(rs) && x != rs[|rs| - 1].0 {
        var i :| 0 <= i < |rs| && rs[i].0 == x;
        assert front[i].0 == x;
      }
    }
  }

  /** Votes in different groups are different votes. */
  lemma {:induction false} GroupsDisjoint(c: Committee, rs: Responses, g: Group, h: Group)
    requires g != h
    ensures Votes(c, rs, g) + Votes(c, rs, h) <= Answered(c, rs)
  {
    if rs != [] {
      GroupsDisjoint(c, rs[..|rs| - 1], g, h);
    }
  }

  /** More answers add votes, but not more than the weight of those who answered. */
  lemma {:induction false} VotesGrow(c: Committee, rs: Responses, all: Responses, g: Group)
    requires rs <= all
    ensures Votes(c, rs, g) <= Votes(c, all, g) <= Votes(c, rs, g) + (Answered(c, all) - Answered(c, rs))
  {
    if rs == all {
    } else {
      VotesGrow(c, rs, all[..|all| - 1], g);
    }
  }

  /** A quorum leaves no other quorum, and no error that an honest validator must have reported. */
  lemma QuorumExcludes(c: Committee, rs: Responses, key: nat, g: Group)
    requires c.Valid() && AskedOnce(c, rs) && HasQuorum(c, rs, key) && g != Key(key)
    ensures Votes(c, rs, g) < c.validityThreshold && Votes(c, rs, g) < c.quorumThreshold
  {
    AnsweredBound(c, rs);
    GroupsDisjoint(c, rs, Key(key), g);
  }

  /** When no key can reach a quorum with all the votes that remain, the round is hopeless. */
  lemma NoKeyCan(c: Committee, rs: Responses, highest: nat)
    requires c.Valid() && AskedOnce(c, rs)
    requires forall key :: Votes(c, rs, Key(key)) <= highest
    requires highest + (c.totalVotes - Answered(c, rs)) < c.quorumThreshold
    ensures Hopeless(c, rs)
  {
    forall all, key | rs <= all && AskedOnce(c, all) ensures !HasQuorum(c, all, key) {
      AnsweredBound(c, all);
      VotesGrow(c, rs, all, Key(key));
    }
  }

  /** An error that an honest validator must have reported leaves no quorum for any key. */
  lemma TrustedIsHopeless(c: Committee, rs: Responses, error: nat)
    requires c.Valid() && AskedOnce(c, rs) && Votes(c, rs, Error(error)) >= c.validityThreshold
    ensures Hopeless(c, rs)
  {
    forall all, key | rs <= all && AskedOnce(c, all) ensures !HasQuorum(c, all, key) {
      VotesGrow(c, rs, all, Error(error));
      AnsweredBound(c, all);
      GroupsDisjoint(c, all, Key(key), Error(error));
    }
  }

  // ----- The scores kept by the client -----

  ghost predicate ValueScores(c: Committee, rs: Responses, scores: map<nat, (nat, seq<nat>)>) {
    && (forall k :: Votes(c, rs, Key(k)) == (if k in scores then scores[k].0 else 0))
    && (forall k :: ValuesOf(rs, k) == (if k in scores then scores[k].1 else []))
  }

  ghost predicate ErrorScores(c: Committee, rs: Responses, scores: map<nat, nat>) {
    forall e :: Votes(c, rs, Error(e)) == (if e in scores then scores[e] else 0)
  }

  ghost predicate Highest(scores: map<nat, (nat, seq<nat>)>, highest: nat) {
    && (forall k :: k in scores ==> scores[k].0 <= highest)
    && (highest > 0 ==> exists k :: k in scores && scores[k].0 == highest)
  }

  lemma VotesStep(c: Committee, rs: Responses, name: Name, reply: Reply, g: Group)
    ensures Votes(c, rs + [(name, reply)], g) == Votes(c, rs, g) + if GroupOf(reply) == g then c.Weight(name) else 0
  {
    var all := rs + [(name, reply)];
    assert all[..|all| - 1] == rs && all[|all| - 1] == (name, reply);
  }

  lemma ValuesStep(rs: Responses, name: Name, reply: Reply, k: nat)
    ensures ValuesOf(rs + [(name, reply)], k)
      == if GroupOf(reply) == Key(k) then ValuesOf(rs, k) + [reply.value] else ValuesOf(rs, k)
  {
    var all := rs + [(name, reply)];
    assert all[..|all| - 1] == rs && all[|all| - 1] == (name, reply);
  }

  lemma ErrorsStep(c: Committee, rs: Responses, name: Name, reply: Reply, errors: map<nat, nat>, errors': map<nat, nat>)
    requires ErrorScores(c, rs, errors)
    requires reply.Value? ==> errors' == errors
    requires reply.Failure? ==> errors' == errors[reply.error := At(errors, reply.error) + c.Weight(name)]
    ensures ErrorScores(c, rs + [(name, reply)], errors')
  {
    forall e ensures Votes(c, rs + [(name, reply)], Error(e)) == if e in errors' then errors'[e] else 0 {
      VotesStep(c, rs, name, reply, Error(e));
    }
  }

  lemma ValueScoresStep(c: Committee, rs: Responses, name: Name, reply: Reply,
                        values: map<nat, (nat, seq<nat>)>, values': map<nat, (nat, seq<nat>)>)
    requires ValueScores(c, rs, values)
    requires reply.Failure? ==> values' == values
    requires reply.Value? ==> values' == values[reply.key := Score(c, values, name, reply.key, reply.value)]
    ensures ValueScores(c, rs + [(name, reply)], values')
  {
    forall k ensures Votes(c, rs + [(name, reply)], Key(k)) == if k in values' then values'[k].0 else 0 {
      VotesStep(c, rs, name, reply, Key(k));
    }
    forall k ensures ValuesOf(rs + [(name, reply)], k) == if k in values' then values'[k].1 else [] {
      ValuesStep(rs, name, reply, k);
    }
  }

  /** A sample of at most four errors, those of the highest scores, the highest first. */
  ghost predicate TopErrors(scores: map<nat, nat>, sample: seq<nat>) {
    && Distinct(sample) && |sample| == (if |scores| < 4 then |scores| else 4)
    && (forall i :: 0 <= i < |sample| ==> sample[i] in scores)
    && (forall i, j :: 0 <= i < j < |sample| ==> scores[sample[i]] >= scores[sample[j]])
    && (forall i, e :: 0 <= i < |sample| && e in scores && e !in sample ==> scores[sample[i]] >= scores[e])
  }

  /** A sample under construction: no error that is left has a higher score. */
  ghost predicate Sampled(scores: map<nat, nat>, sample: seq<nat>, rest: set<nat>) {
    && Distinct(sample) && |sample| <= 4 && |sample| + |rest| == |scores|
    && rest <= scores.Keys && (forall e :: e in scores <==> e in rest || e in sample)
    && (forall i :: 0 <= i < |sample| ==> sample[i] in scores && sample[i] !in rest)
    && (forall i, j :: 0 <= i < j < |sample| ==> scores[sample[i]] >= scores[sample[j]])
    && (forall i, e :: 0 <= i < |sample| && e in rest ==> scores[sample[i]] >= scores[e])
  }

  lemma SampledStep(scores: map<nat, nat>, sample: seq<nat>, rest: set<nat>, best: nat)
    requires Sampled(scores, sample, rest) && |sample| < 4
    requires best in rest && forall e :: e in rest ==> scores[best] >= scores[e]
    ensures Sampled(scores, sample + [best], rest - {best})
  {
    var after := sample + [best];
    assert forall i :: 0 <= i < |sample| ==> after[i] == sample[i];
    assert after[|sample|] == best;
    forall e ensures e in scores <==> e in rest - {best} || e in after {
    }
  }

  method SampleErrors(scores: map<nat, nat>) returns (sample: seq<nat>)
    ensures TopErrors(scores, sample)
  {
    sample := [];
    var rest := scores.Keys;
    while |sample| < 4 && rest != {}
      invariant Sampled(scores, sample, rest)
      decreases |rest|
    {
      var best := BestError(scores, rest);
      SampledStep(scores, sample, rest, best);
      sample := sample + [best];
      rest := rest - {best};
    }
  }

  method BestError(scores: map<nat, nat>, rest: set<nat>) returns (best: nat)
    requires rest != {} && rest <= scores.Keys
    ensures best in rest && forall e :: e in rest ==> scores[best] >= scores[e]
  {
    best :| best in rest;
    var todo := rest - {best};
    while todo != {}
      invariant todo <= rest && best in rest
      invariant forall e :: e in rest - todo ==> scores[best] >= scores[e]
      decreases |todo|
    {
      var e :| e in todo;
      if scores[e] > scores[best] {
        best := e;
      }
      todo := todo - {e};
    }
  }

  method FindQuorum(c: Committee, ghost rs: Responses, scores: map<nat, (nat, seq<nat>)>) returns (found: Option<nat>)
    requires ValueScores(c, rs, scores)
    requires c.quorumThreshold > 0
    ensures found.Some? ==> found.value in scores && HasQuorum(c, rs, found.value)
    ensures found.None? ==> forall key :: !HasQuorum(c, rs, key)
  {
    var todo := scores.Keys;
    while todo != {}
      invariant todo <= scores.Keys
      invariant forall k :: k in scores && k !in todo ==> scores[k].0 < c.quorumThreshold
      decreases |todo|
    {
      var k :| k in todo;
      if scores[k].0 >= c.quorumThreshold {
        return Some(k);
      }
      todo := todo - {k};
    }
    return None;
  }

  /** The scores kept by the client agree with the answers it got. */
  ghost predicate Tally(c: Committee, rs: Responses, remaining: int, highest: nat,
                        values: map<nat, (nat, seq<nat>)>, errors: map<nat, nat>) {
    && remaining == c.totalVotes - Answered(c, rs)
    && ValueScores(c, rs, values) && ErrorScores(c, rs, errors)
    && Highest(values, highest)
  }

  /** It is clear whether a key has a quorum. */
  ghost predicate Settled(c: Committee, rs: Responses) {
    (exists key :: HasQuorum(c, rs, key)) || Hopeless(c, rs)
  }

  /** How an answer with a value changes the scores. */
  function Score(c: Committee, values: map<nat, (nat, seq<nat>)>, name: Name, key: nat, value: nat): (nat, seq<nat>) {
    var entry := if key in values then values[key] else (0, []);
    (entry.0 + c.Weight(name), entry.1 + [value])
  }

  lemma TallyValue(c: Committee, rs: Responses, remaining: int, highest: nat,
                   values: map<nat, (nat, seq<nat>)>, errors: map<nat, nat>, name: Name, key: nat, value: nat)
    requires Tally(c, rs, remaining, highest, values, errors)
    ensures var entry := Score(c, values, name, key, value);
      Tally(c, rs + [(name, Value(key, value))], remaining - c.Weight(name),
            if highest >= entry.0 then highest else entry.0, values[key := entry], errors)
  {
    var reply, entry := Value(key, value), Score(c, values, name, key, value);
    AnsweredStep(c, rs, name, reply);
    ErrorsStep(c, rs, name, reply, errors, errors);
    ValueScoresStep(c, rs, name, reply, values, values[key := entry]);
    HighestStep(values, highest, key, entry);
  }

  lemma TallyError(c: Committee, rs: Responses, remaining: int, highest: nat,
                   values: map<nat, (nat, seq<nat>)>, errors: map<nat, nat>, name: Name, error: nat)
    requires Tally(c, rs, remaining, highest, values, errors)
    ensures var entry := At(errors, error) + c.Weight(name);
      Tally(c, rs + [(name, Failure(error))], remaining - c.Weight(name), highest, values, errors[error := entry])
      && Votes(c, rs + [(name, Failure(error))], Error(error)) == entry
  {
    var reply, entry := Failure(error), At(errors, error) + c.Weight(name);
    AnsweredStep(c, rs, name, reply);
    ErrorsStep(c, rs, name, reply, errors, errors[error := entry]);
    ValueScoresStep(c, rs, name, reply, values, values);
  }

  /** The condition for stopping holds only once it is clear whether a key has a quorum. */
  lemma StopTest(c: Committee, rs: Responses, remaining: int, highest: nat,
                 values: map<nat, (nat, seq<nat>)>, errors: map<nat, nat>)
    requires c.Valid() && AskedOnce(c, rs) && Tally(c, rs, remaining, highest, values, errors)
    ensures highest >= c.quorumThreshold || highest + remaining < c.quorumThreshold ==> Settled(c, rs)
  {
    HighestVotes(c, rs, values, highest);
    if highest + remaining < c.quorumThreshold {
      NoKeyCan(c, rs, highest);
    }
  }

  /** What a client may report for the answers it used, out of those that could still come. */
  ghost predicate Reports(c: Committee, rs: Responses, complete: bool, outcome: Outcome) {
    match outcome
    case Agreed(key, values) => HasQuorum(c, rs, key) && values == ValuesOf(rs, key)
    case Trusted(error) => Votes(c, rs, Error(error)) >= c.validityThreshold && Hopeless(c, rs)
    case Sample(errors) =>
      && (complete || Hopeless(c, rs)) && (forall key :: !HasQuorum(c, rs, key))
      && (forall e :: Votes(c, rs, Error(e)) == 0 || Votes(c, rs, Error(e)) < c.validityThreshold)
      && (exists scores :: ErrorScores(c, rs, scores) && TopErrors(scores, errors))
  }

  /** No error that was reported is to be trusted. */
  ghost predicate Untrusted(c: Committee, errors: map<nat, nat>) {
    forall e :: e in errors ==> errors[e] < c.validityThreshold
  }

  /**
    Collects answers until an error is trusted, until no answer is left, or until `grace` more
    answers came after it was clear whether a key has a quorum. Returns how many answers were used.
   */
  method CommunicateWithQuorum(c: Committee, responses: Responses, grace: nat) returns (outcome: Outcome, used: nat)
    requires c.Valid() && AskedOnce(c, responses)
    ensures used <= |responses|
    ensures Reports(c, responses[..used], used == |responses|, outcome)
  {
    used := 0;
    var stop: Option<nat> := None;
    var remaining: nat := c.totalVotes;
    var highest: nat := 0;
    var values: map<nat, (nat, seq<nat>)>, errors: map<nat, nat> := map[], map[];
    while used < |responses| && (stop.None? || used < stop.value + grace)
      invariant used <= |responses|
      invariant Tally(c, responses[..used], remaining, highest, values, errors)
      invariant Untrusted(c, errors)
      invariant stop.Some? ==> Settled(c, responses[..used])
    {
      var (name, reply) := responses[used];
      AnswerStep(c, responses, used);
      var trusted;
      highest, values, errors, trusted := Record(c, responses[..used], remaining, highest, values, errors, name, reply);
      used := used + 1;
      remaining := remaining - c.Weight(name);
      ghost var answers := responses[..used];
      if trusted.Some? {
        TrustedIsHopeless(c, answers, trusted.value);
        return Trusted(trusted.value), used;
      }
      StopTest(c, answers, remaining, highest, values, errors);
      if stop.None? && (highest >= c.quorumThreshold || highest + remaining < c.quorumThreshold) {
        stop := Some(used);
      }
    }
    outcome := Report(c, responses[..used], used == |responses|, values, errors);
  }

  /** Adds one answer to the scores, and says whether it makes its error trusted. */
  method Record(c: Committee, ghost rs: Responses, ghost remaining: int, highest: nat,
                values: map<nat, (nat, seq<nat>)>, errors: map<nat, nat>, name: Name, reply: Reply)
    returns (highest': nat, values': map<nat, (nat, seq<nat>)>, errors': map<nat, nat>, trusted: Option<nat>)
    requires Tally(c, rs, remaining, highest, values, errors) && Untrusted(c, errors)
    ensures Tally(c, rs + [(name, reply)], remaining - c.Weight(name), highest', values', errors')
    ensures trusted.None? ==> Untrusted(c, errors')
    ensures trusted.Some? ==> Votes(c, rs + [(name, reply)], Error(trusted.value)) >= c.validityThreshold
  {
    highest', values', errors', trusted := highest, values, errors, None;
    match reply {
      case Value(key, value) =>
        TallyValue(c, rs, remaining, highest, values, errors, name, key, value);
        var entry := Score(c, values, name, key, value);
        values' := values[key := entry];
        highest' := if highest >= entry.0 then highest else entry.0;
      case Failure(error) =>
        TallyError(c, rs, remaining, highest, values, errors, name, error);
        var entry := At(errors, error) + c.Weight(name);
        errors' := errors[error := entry];
        trusted := if entry >= c.validityThreshold then Some(error) else None;
    }
  }

  /** Reports the key with a quorum, if any, and otherwise a sample of errors. */
  method Report(c: Committee, ghost rs: Responses, ghost complete: bool,
                values: map<nat, (nat, seq<nat>)>, errors: map<nat, nat>) returns (outcome: Outcome)
    requires c.Valid() && ValueScores(c, rs, values) && ErrorScores(c, rs, errors) && Untrusted(c, errors)
    requires complete || Settled(c, rs)
    ensures Reports(c, rs, complete, outcome)
  {
    var found := FindQuorum(c, rs, values);
    match found {
      case Some(key) =>
        return Agreed(key, values[key].1);
      case None =>
        var sample := SampleErrors(errors);
        return Sample(sample);
    }
  }

  /** The report is final: no continuation can contradict it, and no continuation of a complete round exists. */
  lemma ReportIsFinal(c: Committee, rs: Responses, all: Responses, complete: bool, outcome: Outcome, key: nat)
    requires c.Valid() && rs <= all && AskedOnce(c, all) && Reports(c, rs, complete, outcome)
    requires complete ==> rs == all
    ensures HasQuorum(c, all, key) <==> outcome.Agreed? && outcome.key == key
  {
    if outcome.Agreed? {
      VotesGrow(c, rs, all, Key(outcome.key));
      if key != outcome.key {
        QuorumExcludes(c, all, outcome.key, Key(key));
      }
    }
  }

  lemma AnsweredStep(c: Committee, rs: Responses, name: Name, reply: Reply)
    ensures Answered(c, rs + [(name, reply)]) == Answered(c, rs) + c.Weight(name)
  {
    var all := rs + [(name, reply)];
    assert all[..|all| - 1] == rs && all[|all| - 1] == (name, reply);
  }

  lemma AnswerStep(c: Committee, responses: Responses, i: nat)
    requires c.Valid() && AskedOnce(c, responses) && i < |responses|
    ensures responses[..i + 1] == responses[..i] + [responses[i]]
    ensures AskedOnce(c, responses[..i + 1])
    ensures Answered(c, responses[..i]) + c.Weight(responses[i].0) <= c.totalVotes
    ensures Settled(c, responses[..i]) ==> Settled(c, responses[..i + 1])
  {
    AnsweredStep(c, responses[..i], responses[i].0, responses[i].1);
    AnsweredBound(c, responses[..i + 1]);
    StopStep(c, responses[..i], responses[..i + 1]);
  }

  lemma HighestStep(values: map<nat, (nat, seq<nat>)>, highest: nat, key: nat, entry: (nat, seq<nat>))
    requires Highest(values, highest) && (key in values ==> values[key].0 <= entry.0)
    ensures Highest(values[key := entry], if highest >= entry.0 then highest else entry.0)
  {
    var after := values[key := entry];
    if highest > entry.0 {
      var k :| k in values && values[k].0 == highest;
      assert k in after && after[k].0 == highest;
    } else {
      assert key in after && after[key].0 == entry.0;
    }
  }

  lemma HighestVotes(c: Committee, rs: Responses, values: map<nat, (nat, seq<nat>)>, highest: nat)
    requires ValueScores(c, rs, values) && Highest(values, highest) && c.quorumThreshold > 0
    ensures forall key :: Votes(c, rs, Key(key)) <= highest
    ensures highest >= c.quorumThreshold ==> exists key :: HasQuorum(c, rs, key)
  {
    if highest >= c.quorumThreshold {
      var k :| k in values && values[k].0 == highest;
      assert HasQuorum(c, rs, k);
    }
  }

  /** What decided to stop stays true when more answers come. */
  lemma StopStep(c: Committee, before: Responses, after: Responses)
    requires before <= after
    ensures Settled(c, before) ==> Settled(c, after)
  {
    if key :| HasQuorum(c, before, key) {
      VotesGrow(c, before, after, Key(key));
      assert HasQuorum(c, after, key);
    }
  }
}
