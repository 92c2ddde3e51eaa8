/**
  Registries stay closed under dependencies, exactly those registrations that close a cycle
  lose acyclicity, and what one chain lists can be replayed by any other.
 */
module RegistryReplay {
  import opened Common
  import opened Registry

  /** Every known application is stored under its own identifier. */
  ghost predicate WellKeyed(known: Apps) {
    forall x :: x in known ==> known[x].Id() == x
  }

  /** Everything that a known application requires is known. */
  ghost predicate Closed(known: Apps) {
    forall x, d :: Requires(known, x, d) ==> d in known
  }

  ghost predicate Acyclic(known: Apps) {
    forall x :: !DependsOn(known, x, x)
  }

  lemma RegisterKeepsClosed(known: Apps, application: Description)
    requires Closed(known) && WellKeyed(known) && Register(known, application).Ok?
    ensures Closed(Register(known, application).value) && WellKeyed(Register(known, application).value)
  {
    var known' := Register(known, application).value;
    forall x, d | Requires(known', x, d) ensures d in known' {
      assert x != application.Id() ==> Requires(known, x, d);
    }
  }

  // ----- When a registration keeps the registry acyclic -----

  /** The application would depend on itself. */
  ghost predicate ClosesCycle(known: Apps, application: Description) {
    exists d :: d in application.required && (d == application.Id() || DependsOn(known, d, application.Id()))
  }

  /** The part of a path up to its first visit of `y`. */
  lemma FirstVisitOf(p: seq<AppId>, y: AppId) returns (j: nat)
    requires |p| >= 2 && p[|p| - 1] == y
    ensures 1 <= j < |p| && p[j] == y && forall i :: 1 <= i < j ==> p[i] != y
  {
    j := 1;
    while p[j] != y
      invariant 1 <= j < |p| && forall i :: 1 <= i < j ==> p[i] != y
      decreases |p| - j
    {
      j := j + 1;
    }
  }

  /** Outside of `x`, replacing the description of `x` changes no dependency. */
  lemma PathOutside(g: Apps, x: AppId, a: Description, p: seq<AppId>)
    requires forall i :: 0 <= i < |p| - 1 ==> p[i] != x
    ensures IsPath(g, p) <==> IsPath(g[x := a], p)
  {
    forall i | 0 <= i < |p| - 1 ensures Requires(g, p[i], p[i + 1]) <==> Requires(g[x := a], p[i], p[i + 1]) {
    }
    assert forall i :: 0 <= i < |p| - 1 ==> (Requires(g, p[i], p[i + 1]) <==> Requires(g[x := a], p[i], p[i + 1]));
  }

  lemma CycleThrough(known: Apps, application: Description)
    requires ClosesCycle(known, application)
    ensures DependsOn(known[application.Id() := application], application.Id(), application.Id())
  {
    var x := application.Id();
    var g' := known[x := application];
    var d :| d in application.required && (d == x || DependsOn(known, d, x));
    if d == x {
      EdgeLeads(g', x, x);
    } else {
      var p :| Leads(known, p, d, x);
      var j := FirstVisitOf(p, x);
      var q := p[..j + 1];
      assert IsPath(known, q);
      PathOutside(known, x, application, q);
      assert Leads(g', q, d, x);
      EdgeLeads(g', x, d);
      DependsTrans(g', x, d, x);
    }
  }

  lemma CycleOutside(g: Apps, x: AppId, a: Description, p: seq<AppId>, y: AppId)
    requires Leads(g[x := a], p, y, y) && forall i :: 0 <= i < |p| - 1 ==> p[i] != x
    ensures DependsOn(g, y, y)
  {
    PathOutside(g, x, a, p);
    assert Leads(g, p, y, y);
  }

  /** A cycle of the new registry passes through the new application. */
  lemma CyclePasses(known: Apps, application: Description, y: AppId)
    requires Acyclic(known) && DependsOn(known[application.Id() := application], y, y)
    ensures DependsOn(known[application.Id() := application], application.Id(), application.Id())
  {
    var x := application.Id();
    var g' := known[x := application];
    var p :| Leads(g', p, y, y);
    if forall i :: 0 <= i < |p| - 1 ==> p[i] != x {
      CycleOutside(known, x, application, p, y);
      assert false;
    } else {
      var i :| 0 <= i < |p| - 1 && p[i] == x;
      if i > 0 {
        assert Leads(g', p[i..], x, y);
        assert Leads(g', p[..i + 1], y, x);
        DependsTrans(g', x, y, x);
      }
    }
  }

  lemma CycleCloses(known: Apps, application: Description)
    requires DependsOn(known[application.Id() := application], application.Id(), application.Id())
    ensures ClosesCycle(known, application)
  {
    var x := application.Id();
    var g' := known[x := application];
    var p :| Leads(g', p, x, x);
    var j := FirstVisitOf(p, x);
    assert Requires(g', p[0], p[1]);
    if j > 1 {
      var q := p[1..j + 1];
      forall i | 0 <= i < |q| - 1 ensures Requires(g', q[i], q[i + 1]) {
        assert Requires(g', p[i + 1], p[i + 2]);
      }
      assert IsPath(g', q);
      PathOutside(known, x, application, q);
      assert Leads(known, q, p[1], x);
    }
  }

  /** A registration keeps the registry acyclic exactly if the application does not depend on itself. */
  lemma AcyclicIff(known: Apps, application: Description)
    requires Acyclic(known)
    ensures Acyclic(known[application.Id() := application]) <==> !ClosesCycle(known, application)
  {
    var g' := known[application.Id() := application];
    if ClosesCycle(known, application) {
      CycleThrough(known, application);
    } else {
      forall y ensures !DependsOn(g', y, y) {
        if DependsOn(g', y, y) {
          CyclePasses(known, application, y);
          CycleCloses(known, application);
          assert false;
        }
      }
    }
  }

  /** In a closed registry, a path from a known application only visits known applications. */
  lemma PathStaysKnown(known: Apps, x: AppId, y: AppId)
    requires Closed(known) && x in known && DependsOn(known, x, y)
    ensures y in known
  {
    var p :| Leads(known, p, x, y);
    var i := 0;
    while i < |p| - 1
      invariant 0 <= i < |p| && p[i] in known
    {
      assert Requires(known, p[i], p[i + 1]);
      i := i + 1;
    }
  }

  /** New applications, and applications registered again unchanged, keep the registry acyclic. */
  lemma FreshKeepsAcyclic(known: Apps, application: Description)
    requires Closed(known) && Acyclic(known) && Register(known, application).Ok?
    requires application.Id() in known ==> known[application.Id()] == application
    ensures Acyclic(Register(known, application).value)
  {
    var x := application.Id();
    if x in known {
      assert known[x := application] == known;
    } else {
      AcyclicIff(known, application);
      forall d | d in application.required ensures d != x && !DependsOn(known, d, x) {
        if DependsOn(known, d, x) {
          PathStaysKnown(known, d, x);
          assert false;
        }
      }
    }
  }

  lemma TwoRegistrations(first: Description, second: Description)
    requires first.required == [] && second.required == [first.Id()]
    ensures RegisterAll(map[], [first, second]) == Ok(map[first.Id() := first, second.Id() := second])
  {
    assert [first, second][..1] == [first] && [first][..0] == [];
    assert RegisterAll(map[], []) == Ok(map[]);
    assert Register(map[], first) == Ok(map[first.Id() := first]);
    assert RegisterAll(map[], [first]) == Ok(map[first.Id() := first]);
  }

  /** A chain that registers an application again with other requirements can create a cycle. */
  lemma ReplacingCanCloseCycle()
    ensures var a, b := AppId(0, 0), AppId(0, 1);
      var known := map[a := Description(0, 0, 0, [], []), b := Description(0, 0, 1, [], [a])];
      var again := Description(0, 0, 0, [], [b]);
      && RegisterAll(map[], [known[a], known[b]]) == Ok(known) && Closed(known) && WellKeyed(known) && Acyclic(known)
      && Register(known, again).Ok? && !Acyclic(Register(known, again).value)
  {
    var a, b := AppId(0, 0), AppId(0, 1);
    var known := map[a := Description(0, 0, 0, [], []), b := Description(0, 0, 1, [], [a])];
    TwoRegistrations(known[a], known[b]);
    RegistrationsKeep([known[a], known[b]]);
    var again := Description(0, 0, 0, [], [b]);
    var g := Register(known, again).value;
    assert Requires(known, b, a);
    EdgeLeads(known, b, a);
    assert again.required[0] == b;
    CycleThrough(known, again);
  }

  // ----- Every sequence of registrations -----

  function RegisterAll(known: Apps, applications: seq<Description>): Result<Apps, RegistryError> {
    if applications == [] then Ok(known)
    else match RegisterAll(known, applications[..|applications| - 1])
      case Err(e) => Err(e)
      case Ok(k) => Register(k, applications[|applications| - 1])
  }

  /** No application is registered twice with different descriptions. */
  ghost predicate Consistent(applications: seq<Description>) {
    forall i, j :: 0 <= i < |applications| && 0 <= j < |applications| && applications[i].Id() == applications[j].Id()
      ==> applications[i] == applications[j]
  }

  lemma {:induction false} RegistrationsKeep(applications: seq<Description>)
    requires RegisterAll(map[], applications).Ok?
    ensures var known := RegisterAll(map[], applications).value;
      && Closed(known) && WellKeyed(known)
      && (forall x :: x in known ==> known[x] in applications)
      && (Consistent(applications) ==> Acyclic(known))
    decreases |applications|
  {
    if applications == [] {
      EmptyIsAcyclic();
    } else {
      var n := |applications| - 1;
      var before, last := applications[..n], applications[n];
      RegistrationsKeep(before);
      var known := RegisterAll(map[], before).value;
      RegisterKeepsClosed(known, last);
      if Consistent(applications) {
        assert Consistent(before);
        if last.Id() in known {
          assert known[last.Id()] in before;
        }
        FreshKeepsAcyclic(known, last);
      }
    }
  }

  lemma EmptyIsAcyclic()
    ensures Acyclic(map[])
  {
    forall x ensures !DependsOn(map[], x, x) {
      DependentIsKnown(map[], x, x);
    }
  }

  lemma DependentIsKnown(g: Apps, x: AppId, y: AppId)
    ensures DependsOn(g, x, y) ==> x in g
  {
    if DependsOn(g, x, y) {
      var p :| Leads(g, p, x, y);
      assert Requires(g, p[0], p[1]);
    }
  }

  // ----- Replaying a list on another chain -----

  /**
    A list of dependencies without cycle can be registered by any chain, one description
    after the other, whatever it knows already; it then knows exactly these in addition.
   */
  lemma {:induction false} ReplaySucceeds(g: Apps, out: seq<AppId>, known: Apps)
    requires (forall x :: x in out ==> x in g && g[x].Id() == x) && Ordered(g, out)
    ensures RegisterAll(known, Describe(g, out)).Ok?
    ensures var after := RegisterAll(known, Describe(g, out)).value;
      && (forall x :: x in after <==> x in known || x in out)
      && (forall x :: x in out ==> after[x] == g[x])
      && (forall x :: x in known && x !in out ==> after[x] == known[x])
    decreases |out|
  {
    if out != [] {
      var n := |out| - 1;
      var before, last := out[..n], out[n];
      assert out == before + [last];
      OrderedBefore(g, out, before, last);
      ReplaySucceeds(g, before, known);
      DescribeLength(g, before);
      assert Describe(g, out)[..n] == Describe(g, before) && Describe(g, out)[n] == g[last];
      ReplayedLast(g, before, last, known, RegisterAll(known, Describe(g, before)).value);
    }
  }

  lemma OrderedBefore(g: Apps, out: seq<AppId>, before: seq<AppId>, last: AppId)
    requires out == before + [last] && Ordered(g, out)
    ensures Ordered(g, before)
    ensures forall x :: x in out <==> x in before || x == last
    ensures forall d :: Requires(g, last, d) ==> d in before
  {
    forall i, d | 0 <= i < |before| && Requires(g, before[i], d) ensures d in before[..i] {
      assert before[i] == out[i] && before[..i] == out[..i];
    }
    forall d | Requires(g, last, d) ensures d in before {
      assert out[|before|] == last && out[..|before|] == before;
    }
  }

  /** Registering the last of an ordered list, after all the others. */
  lemma ReplayedLast(g: Apps, before: seq<AppId>, last: AppId, known: Apps, middle: Apps)
    requires last in g && g[last].Id() == last && forall d :: Requires(g, last, d) ==> d in before
    requires forall x :: x in middle <==> x in known || x in before
    ensures Register(middle, g[last]) == Ok(middle[last := g[last]])
  {
    forall d | d in g[last].required ensures d in middle {
      assert Requires(g, last, d);
    }
  }

  lemma {:induction false} DescribeLength(g: Apps, ids: seq<AppId>)
    requires forall x :: x in ids ==> x in g
    ensures |Describe(g, ids)| == |ids|
    decreases |ids|
  {
    if ids != [] {
      DescribeLength(g, ids[..|ids| - 1]);
    }
  }

  /**
    What a chain lists after any consistent sequence of registrations, any other chain can
    replay, and then the listed applications are described in the same way on both.
   */
  lemma ListedCanBeReplayed(applications: seq<Description>, ids: seq<AppId>, out: seq<AppId>, other: Apps)
    requires RegisterAll(map[], applications).Ok? && Consistent(applications)
    requires DependencyList(RegisterAll(map[], applications).value, ids, out)
    ensures var g := RegisterAll(map[], applications).value;
      && RegisterAll(other, Describe(g, out)).Ok?
      && (forall x :: Reachable(g, ids, x) ==>
            x in g && x in RegisterAll(other, Describe(g, out)).value
            && RegisterAll(other, Describe(g, out)).value[x] == g[x])
  {
    RegistrationsKeep(applications);
    ReplaySucceeds(RegisterAll(map[], applications).value, out, other);
  }
}
