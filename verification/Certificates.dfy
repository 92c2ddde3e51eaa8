/** Certificates: checking a list of signatures, and aggregating signatures into a certificate. */
module Certificates {
  import opened Common
  import opened Committee
  import opened Sums

  type Signature = nat

  /** Whether a signature by a validator is valid for the certified value and round. */
  type Verifier = (Name, Signature) -> bool

  datatype CertificateError = ValidatorReuse | InvalidSigner | RequiresQuorum | InvalidSignature

  ghost function Signers(signatures: seq<(Name, Signature)>): set<Name> {
    set i | 0 <= i < |signatures| :: signatures[i].0
  }

  predicate StrictlyOrdered(signatures: seq<(Name, Signature)>) {
    forall i, j :: 0 <= i < j < |signatures| ==> signatures[i].0 < signatures[j].0
  }

  /** Distinct validators, all with voting rights. */
  ghost predicate Eligible(c: Committee, signatures: seq<(Name, Signature)>) {
    && (forall i, j :: 0 <= i < j < |signatures| ==> signatures[i].0 != signatures[j].0)
    && (forall i :: 0 <= i < |signatures| ==> c.Weight(signatures[i].0) > 0)
  }

  /** Eligible validators that make a quorum, with valid signatures. */
  ghost predicate Accepted(c: Committee, verify: Verifier, signatures: seq<(Name, Signature)>) {
    && Eligible(c, signatures)
    && c.WeightOf(Signers(signatures)) >= c.quorumThreshold
    && (forall i :: 0 <= i < |signatures| ==> verify(signatures[i].0, signatures[i].1))
  }

  /** What an aggregator returns: a certificate in order that passes the check. */
  ghost predicate Certifies(c: Committee, verify: Verifier, signatures: seq<(Name, Signature)>) {
    StrictlyOrdered(signatures) && Accepted(c, verify, signatures)
  }

  lemma SignersAppend(c: Committee, signatures: seq<(Name, Signature)>, s: (Name, Signature))
    ensures Signers(signatures + [s]) == Signers(signatures) + {s.0}
    ensures s.0 !in Signers(signatures) ==>
      c.WeightOf(Signers(signatures + [s])) == c.WeightOf(Signers(signatures)) + c.Weight(s.0)
  {
    var all := signatures + [s];
    assert all[|signatures|] == s;
    assert forall i :: 0 <= i < |signatures| ==> all[i] == signatures[i];
    forall x ensures x in Signers(all) <==> x in Signers(signatures) || x == s.0 {
      if x in Signers(signatures) {
        var i :| 0 <= i < |signatures| && signatures[i].0 == x;
        assert all[i].0 == x;
      }
    }
    if s.0 !in Signers(signatures) {
      TotalPick(c.validators, Signers(all), s.0);
      assert Signers(all) - {s.0} == Signers(signatures);
    }
  }

  lemma EligibleStep(c: Committee, signatures: seq<(Name, Signature)>, i: nat)
    requires i < |signatures| && Eligible(c, signatures[..i])
    ensures signatures[..i + 1] == signatures[..i] + [signatures[i]]
    ensures Eligible(c, signatures[..i + 1]) <==>
      signatures[i].0 !in Signers(signatures[..i]) && c.Weight(signatures[i].0) > 0
    ensures !Eligible(c, signatures[..i + 1]) ==> !Eligible(c, signatures)
  {
    var before, name := signatures[..i], signatures[i].0;
    assert forall j :: 0 <= j < i ==> before[j] == signatures[j];
    if name in Signers(before) {
      var j :| 0 <= j < |before| && before[j].0 == name;
      assert signatures[..i + 1][j].0 == signatures[..i + 1][i].0;
    } else {
      assert forall j :: 0 <= j < i ==> before[j].0 in Signers(before);
    }
    assert forall j :: 0 <= j <= i ==> signatures[..i + 1][j] == signatures[j];
  }

  /** Verifies certificate signatures: accepts exactly the valid quorums. */
  method CheckSignatures(c: Committee, verify: Verifier, signatures: seq<(Name, Signature)>)
    returns (result: Result<(), CertificateError>)
    ensures result.Ok? <==> Accepted(c, verify, signatures)
    ensures result.Err? && result.error in {ValidatorReuse, InvalidSigner} <==> !Eligible(c, signatures)
    ensures result == Err(InvalidSignature) ==> c.WeightOf(Signers(signatures)) >= c.quorumThreshold
  {
    var weight: nat, used: set<Name> := 0, {};
    for i := 0 to |signatures|
      invariant used == Signers(signatures[..i]) && weight == c.WeightOf(used)
      invariant Eligible(c, signatures[..i])
    {
      var name := signatures[i].0;
      EligibleStep(c, signatures, i);
      SignersAppend(c, signatures[..i], signatures[i]);
      if name in used {
        return Err(ValidatorReuse);
      }
      used := used + {name};
      var votingRights := c.Weight(name);
      if votingRights == 0 {
        return Err(InvalidSigner);
      }
      weight := weight + votingRights;
    }
    assert signatures[..|signatures|] == signatures;
    if weight < c.quorumThreshold {
      return Err(RequiresQuorum);
    }
    if exists i :: 0 <= i < |signatures| && !verify(signatures[i].0, signatures[i].1) {
      return Err(InvalidSignature);
    }
    return Ok(());
  }

  /** Any two certified values share signers that cannot all be faulty. */
  lemma CertificatesIntersect(c: Committee, verify: Verifier, one: seq<(Name, Signature)>,
                              verify': Verifier, two: seq<(Name, Signature)>)
    requires c.Valid() && Accepted(c, verify, one) && Accepted(c, verify', two)
    ensures c.WeightOf(Signers(one) * Signers(two)) >= c.validityThreshold
  {
    QuorumsIntersect(c, Signers(one), Signers(two));
  }

  // ----- Aggregation -----

  /** Where a binary search finds a validator or would insert it. */
  method SearchIndex(signatures: seq<(Name, Signature)>, name: Name) returns (index: nat)
    requires StrictlyOrdered(signatures)
    ensures index <= |signatures|
    ensures forall i :: 0 <= i < index ==> signatures[i].0 < name
    ensures forall i :: index <= i < |signatures| ==> name <= signatures[i].0
  {
    var low, high := 0, |signatures|;
    while low < high
      invariant 0 <= low <= high <= |signatures|
      invariant forall i :: 0 <= i < low ==> signatures[i].0 < name
      invariant forall i :: high <= i < |signatures| ==> name <= signatures[i].0
    {
      var mid := (low + high) / 2;
      if signatures[mid].0 == name {
        return mid;
      } else if signatures[mid].0 < name {
        low := mid + 1;
      } else {
        high := mid;
      }
    }
    return low;
  }

  /** A partial certificate: ordered valid signatures by validators with voting rights. */
  ghost predicate Partial(c: Committee, verify: Verifier, signatures: seq<(Name, Signature)>) {
    && StrictlyOrdered(signatures)
    && (forall s :: s in signatures ==> c.Weight(s.0) > 0 && verify(s.0, s.1))
  }

  /** The signers are the used validators that have voting rights. */
  ghost predicate Taken(c: Committee, used: set<Name>, signatures: seq<(Name, Signature)>, signers: set<Name>) {
    && signers == Signers(signatures)
    && (forall x :: x in signers <==> x in used && c.Weight(x) > 0)
  }

  /** The weight held by an aggregator, before and after it returned a certificate. */
  ghost predicate Weighed(c: Committee, weight: nat, signers: set<Name>, emitted: bool) {
    if emitted then weight + c.quorumThreshold <= c.WeightOf(signers)
    else weight == c.WeightOf(signers) < c.quorumThreshold
  }

  class SignatureAggregator {
    const committee: Committee
    const verify: Verifier
    var weight: nat
    var usedValidators: set<Name>
    var signatures: seq<(Name, Signature)>
    /** Whether a certificate was returned already. */
    ghost var emitted: bool
    /** The validators whose signatures were taken. */
    ghost var signers: set<Name>

    ghost predicate Valid()
      reads this
    {
      && committee.Valid()
      && Partial(committee, verify, signatures)
      && Taken(committee, usedValidators, signatures, signers)
      && Weighed(committee, weight, signers, emitted)
    }

    constructor (committee: Committee, verify: Verifier)
      requires committee.Valid()
      ensures Valid() && this.committee == committee && this.verify == verify
      ensures signatures == [] && usedValidators == {} && !emitted && signers == {}
    {
      this.committee, this.verify := committee, verify;
      weight, usedValidators, signatures, emitted, signers := 0, {}, [], false, {};
    }

    /** Inserts a signature in the order of the validators. */
    method AddSignature(s: (Name, Signature))
      requires StrictlyOrdered(signatures) && s.0 !in Signers(signatures)
      modifies this`signatures
      ensures StrictlyOrdered(signatures)
      ensures Signers(signatures) == Signers(old(signatures)) + {s.0}
      ensures multiset(signatures) == multiset(old(signatures)) + multiset{s}
    {
      var index := SearchIndex(signatures, s.0);
      InsertOrdered(signatures, s, index);
      assert signatures == signatures[..index] + signatures[index..];
      signatures := signatures[..index] + [s] + signatures[index..];
    }

    /** Takes a checked signature into account. */
    method Take(name: Name, signature: Signature) returns (certificate: Option<seq<(Name, Signature)>>)
      requires Valid() && verify(name, signature) && name !in usedValidators && committee.Weight(name) > 0
      modifies this
      ensures Valid() && usedValidators == old(usedValidators) + {name} && signers == old(signers) + {name}
      ensures emitted <==> committee.WeightOf(signers) >= committee.quorumThreshold
      ensures certificate.Some? <==> emitted && !old(emitted)
      ensures old(emitted) ==> emitted
      ensures certificate.Some? ==> certificate.value == signatures && Certifies(committee, verify, signatures)
    {
      ghost var before := signatures;
      TakenMore(committee, usedValidators, signatures, signers, name);
      Reached(committee, weight, signers, emitted, name);
      usedValidators := usedValidators + {name};
      signers := signers + {name};
      weight := weight + committee.Weight(name);
      AddSignature((name, signature));
      SignatureAdded(committee, verify, before, signatures, (name, signature));
      if weight >= committee.quorumThreshold {
        weight := 0;
        emitted := true;
        PartialAccepted(committee, verify, signatures);
        return Some(signatures);
      }
      return None;
    }

    /**
      Appends a signature. Returns a certificate when a quorum is reached for the first time,
      and never again, although the weight is reset.
     */
    method Append(name: Name, signature: Signature)
      returns (result: Result<Option<seq<(Name, Signature)>>, CertificateError>)
      requires Valid()
      modifies this
      ensures Valid()
      ensures result.Ok? <==> verify(name, signature) && name !in old(usedValidators) && committee.Weight(name) > 0
      ensures signers == old(signers) + CountedSigner(committee, verify, (name, signature))
      ensures usedValidators == old(usedValidators) + if verify(name, signature) then {name} else {}
      ensures result.Ok? && result.value.Some? <==> emitted && !old(emitted)
      ensures emitted <==> committee.WeightOf(signers) >= committee.quorumThreshold
      ensures old(emitted) ==> emitted
      ensures result.Ok? && result.value.Some? ==> result.value.value == signatures
      ensures result.Ok? && result.value.Some? ==> Certifies(committee, verify, signatures)
    {
      if !verify(name, signature) {
        return Err(InvalidSignature);
      }
      if name in usedValidators {
        return Err(ValidatorReuse);
      }
      TakenMore(committee, usedValidators, signatures, signers, name);
      if committee.Weight(name) == 0 {
        usedValidators := usedValidators + {name};
        return Err(InvalidSigner);
      }
      var certificate := Take(name, signature);
      return Ok(certificate);
    }

    /** Over every sequence of votes at most one certificate is returned, as soon as the voters make a quorum. */
    method AppendAll(votes: seq<(Name, Signature)>) returns (certificates: seq<seq<(Name, Signature)>>)
      requires Valid() && usedValidators == {} && signers == {} && !emitted
      modifies this
      ensures |certificates| <= 1
      ensures |certificates| == 1 <==> committee.WeightOf(Voters(committee, verify, votes)) >= committee.quorumThreshold
      ensures forall i :: 0 <= i < |certificates| ==> Certifies(committee, verify, certificates[i])
    {
      certificates := [];
      for i := 0 to |votes|
        invariant Valid() && signers == Voters(committee, verify, votes[..i])
        invariant |certificates| == (if emitted then 1 else 0)
        invariant emitted <==> committee.WeightOf(signers) >= committee.quorumThreshold
        invariant |certificates| == 1 ==> Certifies(committee, verify, certificates[0])
      {
        VotersStep(committee, verify, votes, i);
        var result := Append(votes[i].0, votes[i].1);
        if result.Ok? && result.value.Some? {
          certificates := certificates + [result.value.value];
        }
      }
      assert votes[..|votes|] == votes;
    }
  }

  /** The contribution of one vote to the set of voters. */
  function CountedSigner(c: Committee, verify: Verifier, vote: (Name, Signature)): set<Name> {
    if c.Weight(vote.0) > 0 && verify(vote.0, vote.1) then {vote.0} else {}
  }

  /** The validators that cast a counted vote. */
  function Voters(c: Committee, verify: Verifier, votes: seq<(Name, Signature)>): set<Name> {
    if votes == [] then {}
    else Voters(c, verify, votes[..|votes| - 1]) + CountedSigner(c, verify, votes[|votes| - 1])
  }

  lemma VotersStep(c: Committee, verify: Verifier, votes: seq<(Name, Signature)>, i: nat)
    requires i < |votes|
    ensures Voters(c, verify, votes[..i + 1]) == Voters(c, verify, votes[..i]) + CountedSigner(c, verify, votes[i])
  {
    assert votes[..i + 1][..i] == votes[..i] && votes[..i + 1][i] == votes[i];
  }

  /** Voters are the validators with voting rights that cast a valid vote. */
  lemma {:induction false} VotersMeaning(c: Committee, verify: Verifier, votes: seq<(Name, Signature)>, x: Name)
    ensures x in Voters(c, verify, votes) <==>
      c.Weight(x) > 0 && exists i :: 0 <= i < |votes| && votes[i].0 == x && verify(x, votes[i].1)
  {
    if votes != [] {
      VotersMeaning(c, verify, votes[..|votes| - 1], x);
      assert forall i :: 0 <= i < |votes| - 1 ==> votes[..|votes| - 1][i] == votes[i];
    }
  }

  lemma TakenMore(c: Committee, used: set<Name>, signatures: seq<(Name, Signature)>, signers: set<Name>, name: Name)
    requires Taken(c, used, signatures, signers) && name !in used
    ensures name !in Signers(signatures)
    ensures c.Weight(name) == 0 ==> Taken(c, used + {name}, signatures, signers)
    ensures c.Weight(name) > 0 ==> forall after ::
      Signers(after) == Signers(signatures) + {name} ==> Taken(c, used + {name}, after, signers + {name})
  {
  }

  /** Whether one more signer reaches the quorum for the first time. */
  lemma Reached(c: Committee, weight: nat, signers: set<Name>, emitted: bool, name: Name)
    requires c.Valid() && Weighed(c, weight, signers, emitted) && name !in signers
    ensures c.WeightOf(signers + {name}) == c.WeightOf(signers) + c.Weight(name)
    ensures emitted ==> weight + c.Weight(name) < c.quorumThreshold
  {
    TotalPick(c.validators, signers + {name}, name);
    assert (signers + {name}) - {name} == signers;
    TotalBound(c.validators, signers + {name});
  }

  lemma InsertOrdered(signatures: seq<(Name, Signature)>, s: (Name, Signature), index: nat)
    requires StrictlyOrdered(signatures) && s.0 !in Signers(signatures) && index <= |signatures|
    requires forall i :: 0 <= i < index ==> signatures[i].0 < s.0
    requires forall i :: index <= i < |signatures| ==> s.0 <= signatures[i].0
    ensures var after := signatures[..index] + [s] + signatures[index..];
      StrictlyOrdered(after) && Signers(after) == Signers(signatures) + {s.0}
  {
    forall i | index <= i < |signatures| ensures s.0 < signatures[i].0 {
      assert signatures[i].0 in Signers(signatures);
    }
    InsertSigner(signatures, s, index);
  }

  lemma InsertSigner(signatures: seq<(Name, Signature)>, s: (Name, Signature), index: nat)
    requires index <= |signatures|
    ensures Signers(signatures[..index] + [s] + signatures[index..]) == Signers(signatures) + {s.0}
  {
    var after := signatures[..index] + [s] + signatures[index..];
    forall x ensures x in Signers(after) <==> x in Signers(signatures) || x == s.0 {
      if x in Signers(signatures) {
        var i :| 0 <= i < |signatures| && signatures[i].0 == x;
        assert after[if i < index then i else i + 1].0 == x;
      }
      assert after[index] == s;
    }
  }

  lemma SignatureAdded(c: Committee, verify: Verifier, before: seq<(Name, Signature)>, after: seq<(Name, Signature)>,
                       s: (Name, Signature))
    requires Partial(c, verify, before) && StrictlyOrdered(after)
    requires multiset(after) == multiset(before) + multiset{s}
    requires c.Weight(s.0) > 0 && verify(s.0, s.1)
    ensures Partial(c, verify, after)
  {
    forall x | x in after ensures x in before || x == s {
      assert x in multiset(after);
    }
  }

  lemma PartialAccepted(c: Committee, verify: Verifier, signatures: seq<(Name, Signature)>)
    requires Partial(c, verify, signatures) && c.WeightOf(Signers(signatures)) >= c.quorumThreshold
    ensures Accepted(c, verify, signatures)
  {
    forall i | 0 <= i < |signatures| ensures c.Weight(signatures[i].0) > 0 && verify(signatures[i].0, signatures[i].1) {
      assert signatures[i] in signatures;
    }
  }
}
