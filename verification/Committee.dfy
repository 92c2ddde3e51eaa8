/** Committees of validators, their voting rights, and the thresholds of the protocol. */
module Committee {
  import opened Common
  import opened Sums

  /** Validators are named by their public keys, which are totally ordered. */
  type Name = nat

  datatype Committee = Committee(
    validators: map<Name, nat>,
    totalVotes: nat,
    quorumThreshold: nat,
    validityThreshold: nat)
  {
    function Weight(name: Name): nat {
      if name in validators then validators[name] else 0
    }

    ghost predicate Valid() {
      && totalVotes == Total(validators, validators.Keys)
      && quorumThreshold == 2 * totalVotes / 3 + 1
      && validityThreshold == (totalVotes + 2) / 3
    }

    /** The voting rights of a set of validators. */
    ghost function WeightOf(names: set<Name>): nat {
      Total(validators, names)
    }
  }

  /**
    A committee for some validators. Of N votes, the quorum leaves out f, and the validity threshold
    exceeds f, for the largest f with 3 f < N.
   */
  method NewCommittee(validators: map<Name, nat>) returns (c: Committee)
    ensures c.validators == validators && c.Valid()
    ensures c.totalVotes == Total(validators, validators.Keys)
    ensures c.totalVotes >= 1 ==>
      var f := (c.totalVotes - 1) / 3;
      c.quorumThreshold == c.totalVotes - f && c.validityThreshold == f + 1 && 3 * f < c.totalVotes <= 3 * f + 3
  {
    var totalVotes, todo := 0, validators.Keys;
    while todo != {}
      invariant todo <= validators.Keys
      invariant totalVotes == Total(validators, validators.Keys - todo)
      decreases |todo|
    {
      var x :| x in todo;
      totalVotes := totalVotes + validators[x];
      CountOne(validators, todo, x);
      todo := todo - {x};
    }
    assert validators.Keys - todo == validators.Keys;
    c := Committee(validators, totalVotes, 2 * totalVotes / 3 + 1, (totalVotes + 2) / 3);
    if totalVotes >= 1 {
      Thresholds(c);
    }
  }

  lemma CountOne(validators: map<Name, nat>, todo: set<Name>, x: Name)
    requires todo <= validators.Keys && x in todo
    ensures Total(validators, validators.Keys - (todo - {x}))
      == Total(validators, validators.Keys - todo) + validators[x]
  {
    assert (validators.Keys - (todo - {x})) - {x} == validators.Keys - todo;
    TotalPick(validators, validators.Keys - (todo - {x}), x);
  }

  // ----- Thresholds -----

  /** With at least one vote, the thresholds leave exactly `f` votes out and exceed `f` votes. */
  lemma Thresholds(c: Committee)
    requires c.Valid() && c.totalVotes >= 1
    ensures var f := (c.totalVotes - 1) / 3;
      c.quorumThreshold == c.totalVotes - f && c.validityThreshold == f + 1 && 3 * f < c.totalVotes <= 3 * f + 3
  {
  }

  /** Everything that is computed for a committee is a 64-bit number: partial sums, and the steps to the thresholds. */
  ghost predicate Representable(c: Committee) {
    && (forall names :: c.WeightOf(names) <= U64_MAX)
    && 2 * c.totalVotes <= U64_MAX && 2 * c.totalVotes / 3 + 1 <= U64_MAX && c.totalVotes + 2 <= U64_MAX
  }

  /** No overflow occurs if and only if twice the total is a 64-bit number. */
  lemma NoOverflowIff(c: Committee)
    requires c.Valid()
    ensures Representable(c) <==> 2 * c.totalVotes <= U64_MAX
  {
    forall names ensures c.WeightOf(names) <= c.totalVotes {
      TotalBound(c.validators, names);
    }
  }

  /** Two quorums share validators of at least the validity threshold: one of them is honest. */
  lemma QuorumsIntersect(c: Committee, a: set<Name>, b: set<Name>)
    requires c.Valid() && c.WeightOf(a) >= c.quorumThreshold && c.WeightOf(b) >= c.quorumThreshold
    ensures c.WeightOf(a * b) >= c.validityThreshold
  {
    TotalUnion(c.validators, a, b);
    TotalBound(c.validators, a + b);
  }
}
