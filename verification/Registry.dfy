/**
  The registry of user applications of a chain: applications are registered after the
  applications they require, and their recursive dependencies can be listed in an order
  that another chain can replay.
 */
module Registry {
  import opened Common

  datatype AppId = AppId(bytecodeId: nat, creation: nat)

  datatype Description = Description(
    bytecodeId: nat,
    bytecodeLocation: nat,
    creation: nat,
    parameters: seq<nat>,
    required: seq<AppId>)
  {
    function Id(): AppId { AppId(bytecodeId, creation) }
  }

  datatype RegistryError = UnknownApplicationId(id: AppId) | UnknownBytecodeId(bytecodeId: nat)

  type Apps = map<AppId, Description>

  // ----- The dependency graph -----

  predicate Requires(g: Apps, x: AppId, y: AppId) {
    x in g && y in g[x].required
  }

  ghost predicate IsPath(g: Apps, p: seq<AppId>) {
    forall i :: 0 <= i < |p| - 1 ==> Requires(g, p[i], p[i + 1])
  }

  /** `y` is a (direct or indirect) dependency of `x`, through the given path. */
  ghost predicate Leads(g: Apps, p: seq<AppId>, x: AppId, y: AppId) {
    |p| >= 2 && p[0] == x && p[|p| - 1] == y && IsPath(g, p)
  }

  ghost predicate DependsOn(g: Apps, x: AppId, y: AppId) {
    exists p :: Leads(g, p, x, y)
  }

  /** `y` is one of the roots or one of their recursive dependencies. */
  ghost predicate Reachable(g: Apps, roots: seq<AppId>, y: AppId) {
    y in roots || exists x :: x in roots && DependsOn(g, x, y)
  }

  lemma EdgeLeads(g: Apps, x: AppId, y: AppId)
    requires Requires(g, x, y)
    ensures DependsOn(g, x, y)
  {
    assert Leads(g, [x, y], x, y);
  }

  lemma DependsTrans(g: Apps, x: AppId, y: AppId, z: AppId)
    requires DependsOn(g, x, y) && DependsOn(g, y, z)
    ensures DependsOn(g, x, z)
  {
    var p :| Leads(g, p, x, y);
    var q :| Leads(g, q, y, z);
    assert Leads(g, p + q[1..], x, z);
  }

  lemma ReachableStep(g: Apps, roots: seq<AppId>, x: AppId, y: AppId)
    requires Reachable(g, roots, x) && Requires(g, x, y)
    ensures Reachable(g, roots, y)
  {
    EdgeLeads(g, x, y);
    if x !in roots {
      var r :| r in roots && DependsOn(g, r, x);
      DependsTrans(g, r, x, y);
    }
  }

  /** A set that contains the roots and is closed under `Requires` contains all that is reachable. */
  lemma ClosedContains(g: Apps, roots: seq<AppId>, closed: set<AppId>, y: AppId)
    requires forall x :: x in roots ==> x in closed
    requires forall x, z :: x in closed && Requires(g, x, z) ==> z in closed
    requires Reachable(g, roots, y)
    ensures y in closed
  {
    if y !in roots {
      var x :| x in roots && DependsOn(g, x, y);
      var p :| Leads(g, p, x, y);
      var i := 0;
      while i < |p| - 1
        invariant 0 <= i < |p| && p[i] in closed
      {
        assert Requires(g, p[i], p[i + 1]);
        i := i + 1;
      }
    }
  }

  /** Every application comes after all the applications it requires. */
  ghost predicate Ordered(g: Apps, out: seq<AppId>) {
    forall i, d :: 0 <= i < |out| && Requires(g, out[i], d) ==> d in out[..i]
  }

  /** An ordered list has no cycle. */
  lemma OrderedIsAcyclic(g: Apps, out: seq<AppId>, x: AppId)
    requires Ordered(g, out) && Distinct(out) && x in out
    ensures !DependsOn(g, x, x)
  {
    if DependsOn(g, x, x) {
      var p :| Leads(g, p, x, x);
      var n: nat :| n < |out| && out[n] == x;
      var k, i := n, 0;
      while i < |p| - 1
        invariant 0 <= i < |p| && 0 <= k <= n && out[k] == p[i] && (i > 0 ==> k < n)
      {
        assert Requires(g, p[i], p[i + 1]);
        assert p[i + 1] in out[..k];
        var j :| 0 <= j < k && out[j] == p[i + 1];
        k, i := j, i + 1;
      }
      assert false;
    }
  }

  // ----- The depth-first search -----

  /** What the search knows: seen entries, sorted entries, and where the others wait on the stack. */
  ghost predicate SearchInv(g: Apps, roots: seq<AppId>, stack: seq<AppId>, seen: set<AppId>, sorted: set<AppId>,
                            out: seq<AppId>, mark: map<AppId, nat>) {
    && Distinct(out) && (forall x :: x in sorted <==> x in out) && sorted <= seen && seen <= g.Keys
    && (forall x :: x in stack || x in seen ==> Reachable(g, roots, x))
    && (forall x :: x in roots ==> x in stack || x in seen)
    && (forall x, d :: x in seen && Requires(g, x, d) ==> d in stack || d in seen)
    && mark.Keys == seen - sorted
  }

  /** An entry that was seen and is not sorted waits below its dependencies. */
  ghost predicate MarkInv(g: Apps, stack: seq<AppId>, sorted: set<AppId>, mark: map<AppId, nat>) {
    && (forall v :: v in mark ==> mark[v] < |stack| && stack[mark[v]] == v)
    && (forall v, k :: v in mark && mark[v] < k < |stack| ==> stack[k] != v && DependsOn(g, v, stack[k]))
    && (forall v, d :: v in mark && Requires(g, v, d) ==>
          d in sorted || d in stack[mark[v] + 1..] || DependsOn(g, v, v))
  }

  /** Sorted entries come after their dependencies, unless they lie on a cycle. */
  ghost predicate OrderInv(g: Apps, out: seq<AppId>) {
    forall i, d :: 0 <= i < |out| && Requires(g, out[i], d) ==> d in out[..i] || DependsOn(g, out[i], out[i])
  }

  lemma PopSorted(g: Apps, roots: seq<AppId>, stack: seq<AppId>, seen: set<AppId>, sorted: set<AppId>,
                  out: seq<AppId>, mark: map<AppId, nat>)
    requires stack != [] && SearchInv(g, roots, stack, seen, sorted, out, mark) && MarkInv(g, stack, sorted, mark)
    requires stack[|stack| - 1] in sorted
    ensures SearchInv(g, roots, stack[..|stack| - 1], seen, sorted, out, mark)
    ensures MarkInv(g, stack[..|stack| - 1], sorted, mark)
  {
    var rest := stack[..|stack| - 1];
    assert stack == rest + [stack[|stack| - 1]];
    forall v, d | v in mark && Requires(g, v, d)
      ensures d in sorted || d in rest[mark[v] + 1..] || DependsOn(g, v, v)
    {
      StackAbove(stack, mark[v], d);
    }
  }

  /** What lies above a position of the stack, without its top. */
  lemma StackAbove(stack: seq<AppId>, k: nat, d: AppId)
    requires k < |stack|
    ensures d in stack[k + 1..] ==> d == stack[|stack| - 1] || d in stack[..|stack| - 1][k + 1..]
  {
    if d in stack[k + 1..] && d != stack[|stack| - 1] {
      var i :| 0 <= i < |stack[k + 1..]| && stack[k + 1..][i] == d;
      assert stack[..|stack| - 1][k + 1..][i] == d;
    }
  }

  /** The second visit of an entry: its dependencies are sorted, or it lies on a cycle. */
  lemma PopSecond(g: Apps, roots: seq<AppId>, stack: seq<AppId>, seen: set<AppId>, sorted: set<AppId>,
                  out: seq<AppId>, mark: map<AppId, nat>)
    requires stack != [] && SearchInv(g, roots, stack, seen, sorted, out, mark) && MarkInv(g, stack, sorted, mark)
    requires OrderInv(g, out)
    requires stack[|stack| - 1] in seen && stack[|stack| - 1] !in sorted
    ensures var id := stack[|stack| - 1]; var rest := stack[..|stack| - 1];
      && SearchInv(g, roots, rest, seen, sorted + {id}, out + [id], mark - {id})
      && MarkInv(g, rest, sorted + {id}, mark - {id}) && OrderInv(g, out + [id])
  {
    var id := stack[|stack| - 1];
    var rest := stack[..|stack| - 1];
    assert stack == rest + [id];
    assert id in mark && mark[id] == |stack| - 1;
    SecondOrder(g, stack, sorted, out, mark);
    forall v, d | v in mark - {id} && Requires(g, v, d)
      ensures d in sorted + {id} || d in rest[mark[v] + 1..] || DependsOn(g, v, v)
    {
      StackAbove(stack, mark[v], d);
    }
  }

  lemma SecondOrder(g: Apps, stack: seq<AppId>, sorted: set<AppId>, out: seq<AppId>, mark: map<AppId, nat>)
    requires stack != [] && MarkInv(g, stack, sorted, mark) && OrderInv(g, out) && forall x :: x in sorted <==> x in out
    requires stack[|stack| - 1] in mark && mark[stack[|stack| - 1]] == |stack| - 1
    ensures OrderInv(g, out + [stack[|stack| - 1]])
  {
    var id := stack[|stack| - 1];
    var out' := out + [id];
    forall i, d | 0 <= i < |out'| && Requires(g, out'[i], d)
      ensures d in out'[..i] || DependsOn(g, out'[i], out'[i])
    {
      if i < |out| {
        assert out'[i] == out[i] && out'[..i] == out[..i];
      } else {
        assert out'[..i] == out;
        assert stack[mark[id] + 1..] == [];
      }
    }
  }

  /** The first visit of an entry: it waits below those of its dependencies that were not seen. */
  lemma FirstVisit(g: Apps, roots: seq<AppId>, stack: seq<AppId>, seen: set<AppId>, sorted: set<AppId>,
                   out: seq<AppId>, mark: map<AppId, nat>, pushed: seq<AppId>)
    requires stack != [] && SearchInv(g, roots, stack, seen, sorted, out, mark) && MarkInv(g, stack, sorted, mark)
    requires var id := stack[|stack| - 1];
      && id !in seen && id in g
      && (forall x :: x in pushed ==> x in g[id].required && x !in seen + {id})
      && (forall d :: d in g[id].required ==> d in seen + {id} || d in pushed)
    ensures var id := stack[|stack| - 1];
      && SearchInv(g, roots, stack + pushed, seen + {id}, sorted, out, mark[id := |stack| - 1])
      && MarkInv(g, stack + pushed, sorted, mark[id := |stack| - 1])
  {
    var id := stack[|stack| - 1];
    forall x | x in pushed ensures Reachable(g, roots, x) && DependsOn(g, id, x) {
      assert id in stack;
      ReachableStep(g, roots, id, x);
      EdgeLeads(g, id, x);
    }
    FirstMarks(g, stack, seen, sorted, mark, pushed);
  }

  lemma FirstMarks(g: Apps, stack: seq<AppId>, seen: set<AppId>, sorted: set<AppId>, mark: map<AppId, nat>,
                   pushed: seq<AppId>)
    requires stack != [] && MarkInv(g, stack, sorted, mark) && mark.Keys == seen - sorted
    requires var id := stack[|stack| - 1];
      && id !in seen && id in g
      && (forall x :: x in pushed ==> x in g[id].required && x !in seen + {id} && DependsOn(g, id, x))
      && (forall d :: d in g[id].required ==> d in seen + {id} || d in pushed)
    ensures MarkInv(g, stack + pushed, sorted, mark[stack[|stack| - 1] := |stack| - 1])
  {
    MarksBelow(g, stack, sorted, mark, pushed);
    MarksCover(g, stack, seen, sorted, mark, pushed);
  }

  /** Every entry above a marked one depends on it being finished first: it is reached from the marked one. */
  lemma MarksBelow(g: Apps, stack: seq<AppId>, sorted: set<AppId>, mark: map<AppId, nat>, pushed: seq<AppId>)
    requires stack != [] && MarkInv(g, stack, sorted, mark)
    requires var id := stack[|stack| - 1];
      id !in mark && forall x :: x in pushed ==> x != id && x !in mark && DependsOn(g, id, x)
    ensures var stack', mark' := stack + pushed, mark[stack[|stack| - 1] := |stack| - 1];
      forall v, k :: v in mark' && mark'[v] < k < |stack'| ==> stack'[k] != v && DependsOn(g, v, stack'[k])
  {
    var id, top := stack[|stack| - 1], |stack| - 1;
    var stack', mark' := stack + pushed, mark[id := top];
    forall v, k | v in mark' && mark'[v] < k < |stack'| ensures stack'[k] != v && DependsOn(g, v, stack'[k]) {
      if k >= |stack| {
        assert stack'[k] == pushed[k - |stack|] && stack'[k] in pushed;
        if v != id {
          assert DependsOn(g, v, stack[top]);
          DependsTrans(g, v, id, stack'[k]);
        }
      } else {
        assert stack'[k] == stack[k] && v in mark;
      }
    }
  }

  /** Every requirement of a marked entry is sorted or waits above it, unless the entry lies on a cycle. */
  lemma MarksCover(g: Apps, stack: seq<AppId>, seen: set<AppId>, sorted: set<AppId>, mark: map<AppId, nat>,
                   pushed: seq<AppId>)
    requires stack != [] && MarkInv(g, stack, sorted, mark) && mark.Keys == seen - sorted
    requires var id := stack[|stack| - 1];
      id !in seen && id in g && forall d :: d in g[id].required ==> d in seen + {id} || d in pushed
    ensures var stack', mark' := stack + pushed, mark[stack[|stack| - 1] := |stack| - 1];
      forall v, d :: v in mark' && Requires(g, v, d) ==>
        d in sorted || d in stack'[mark'[v] + 1..] || DependsOn(g, v, v)
  {
    var id, top := stack[|stack| - 1], |stack| - 1;
    var stack', mark' := stack + pushed, mark[id := top];
    forall v, d | v in mark' && Requires(g, v, d)
      ensures d in sorted || d in stack'[mark'[v] + 1..] || DependsOn(g, v, v)
    {
      if v != id {
        assert stack'[mark[v] + 1..] == stack[mark[v] + 1..] + pushed;
      } else {
        assert stack'[top + 1..] == pushed;
        EdgeLeads(g, id, d);
        if d in mark {
          assert DependsOn(g, d, stack[top]);
          DependsTrans(g, id, d, id);
        }
      }
    }
  }

  /** What the search returns when the stack is empty. */
  lemma SearchDone(g: Apps, roots: seq<AppId>, seen: set<AppId>, sorted: set<AppId>, out: seq<AppId>,
                   mark: map<AppId, nat>)
    requires SearchInv(g, roots, [], seen, sorted, out, mark) && MarkInv(g, [], sorted, mark) && OrderInv(g, out)
    ensures DependencyList(g, roots, out)
  {
    assert forall v :: v !in mark;
    forall v | v in seen ensures v in sorted {
      assert v !in seen - sorted;
    }
    forall x | Reachable(g, roots, x) ensures x in seen {
      ClosedContains(g, roots, seen, x);
    }
    if Ordered(g, out) {
      forall x | Reachable(g, roots, x) ensures !DependsOn(g, x, x) {
        assert x in seen && x in sorted;
        OrderedIsAcyclic(g, out, x);
      }
    }
  }

  // ----- The registry as it is updated in place -----

  class RegistryView {
    var publishedBytecodes: map<nat, nat>
    var knownApplications: Apps

    constructor ()
      ensures publishedBytecodes == map[] && knownApplications == map[]
    {
      publishedBytecodes, knownApplications := map[], map[];
    }

    method DescribeApplication(id: AppId) returns (result: Result<Description, RegistryError>)
      ensures result == if id in knownApplications then Ok(knownApplications[id]) else Err(UnknownApplicationId(id))
    {
      if id in knownApplications {
        return Ok(knownApplications[id]);
      }
      return Err(UnknownApplicationId(id));
    }

    /** Registers an application of another chain, if everything it requires is known. */
    method RegisterApplication(application: Description) returns (result: Result<AppId, RegistryError>)
      modifies this`knownApplications
      ensures result.Ok? ==> result.value == application.Id()
      ensures result.Ok? ==> Register(old(knownApplications), application) == Ok(knownApplications)
      ensures result.Err? ==> Register(old(knownApplications), application) == Err(result.error)
      ensures result.Err? ==> knownApplications == old(knownApplications)
    {
      var missing := FirstMissing(application.required);
      if missing.Some? {
        return Err(UnknownApplicationId(missing.value));
      }
      knownApplications := knownApplications[application.Id() := application];
      return Ok(application.Id());
    }

    /** Registers an application created by this chain. */
    method RegisterNewApplication(id: AppId, parameters: seq<nat>, required: seq<AppId>)
      returns (result: Result<(), RegistryError>)
      modifies this`knownApplications
      ensures result.Ok? <==>
        && (forall d :: d in required ==> d in old(knownApplications)) && id.bytecodeId in publishedBytecodes
      ensures result.Ok? ==> Ok(knownApplications) == Register(old(knownApplications),
        Description(id.bytecodeId, publishedBytecodes[id.bytecodeId], id.creation, parameters, required))
      ensures result.Err? ==> knownApplications == old(knownApplications)
      ensures result.Err? ==> result.error == if (exists d :: d in required && d !in old(knownApplications))
        then UnknownApplicationId(Missing(old(knownApplications), required)) else UnknownBytecodeId(id.bytecodeId)
    {
      var missing := FirstMissing(required);
      if missing.Some? {
        return Err(UnknownApplicationId(missing.value));
      }
      if id.bytecodeId !in publishedBytecodes {
        return Err(UnknownBytecodeId(id.bytecodeId));
      }
      var location := publishedBytecodes[id.bytecodeId];
      var description := Description(id.bytecodeId, location, id.creation, parameters, required);
      knownApplications := knownApplications[id := description];
      return Ok(());
    }

    method FirstMissing(required: seq<AppId>) returns (missing: Option<AppId>)
      ensures missing.None? <==> forall d :: d in required ==> d in knownApplications
      ensures missing.Some? ==> missing.value == Missing(knownApplications, required)
    {
      for i := 0 to |required|
        invariant forall d :: d in required[..i] ==> d in knownApplications
        invariant Missing(knownApplications, required) == Missing(knownApplications, required[i..])
      {
        if required[i] !in knownApplications {
          return Some(required[i]);
        }
        assert required[..i + 1] == required[..i] + [required[i]];
        assert required[i..][1..] == required[i + 1..];
      }
      assert required[..|required|] == required;
      return None;
    }

    /**
      Lists the recursive dependencies of some applications. Fails exactly if one of them is
      unknown; otherwise lists each of them once. The list is ordered by dependency exactly if
      none of them lies on a cycle.
     */
    method FindDependencies(roots: seq<AppId>, registered: Apps) returns (result: Result<seq<AppId>, RegistryError>)
      ensures var g := knownApplications + registered;
        && (result.Err? <==> exists x :: Reachable(g, roots, x) && x !in g)
        && (result.Err? ==> result.error.UnknownApplicationId?)
        && (result.Err? ==> Reachable(g, roots, result.error.id) && result.error.id !in g)
        && (result.Ok? ==> DependencyList(g, roots, result.value))
    {
      ghost var g := knownApplications + registered;
      var stack := roots;
      var out: seq<AppId> := [];
      var sorted: set<AppId> := {};
      var seen: set<AppId> := {};
      ghost var mark: map<AppId, nat> := map[];
      while stack != []
        invariant SearchInv(g, roots, stack, seen, sorted, out, mark) && MarkInv(g, stack, sorted, mark)
        invariant OrderInv(g, out)
        decreases g.Keys - seen, |stack|
      {
        ghost var full := stack;
        var id := stack[|stack| - 1];
        stack := stack[..|stack| - 1];
        if id in sorted {
          PopSorted(g, roots, full, seen, sorted, out, mark);
          continue;
        }
        if id in seen {
          PopSecond(g, roots, full, seen, sorted, out, mark);
          sorted, out, mark := sorted + {id}, out + [id], mark - {id};
          continue;
        }
        assert id in full;
        ghost var was := seen;
        seen := seen + {id};
        stack := stack + [id];
        assert stack == full;
        var app: Description;
        if id in registered {
          app := registered[id];
        } else if id in knownApplications {
          app := knownApplications[id];
        } else {
          return Err(UnknownApplicationId(id));
        }
        var pushed := UnseenLastFirst(app.required, seen);
        FirstVisit(g, roots, full, was, sorted, out, mark, pushed);
        stack, mark := stack + pushed, mark[id := |full| - 1];
        assert id in g.Keys - was;
      }
      SearchDone(g, roots, seen, sorted, out, mark);
      return Ok(out);
    }

    /** The descriptions of some applications, after those of their recursive dependencies. */
    method DescribeApplicationsWithDependencies(ids: seq<AppId>, extra: Apps)
      returns (result: Result<seq<Description>, RegistryError>)
      ensures var g := knownApplications + extra;
        && (result.Err? <==> exists x :: Reachable(g, ids, x) && x !in g)
        && (result.Ok? ==> exists out :: DependencyList(g, ids, out) && result.value == Describe(g, out))
    {
      ghost var g := knownApplications + extra;
      var found := FindDependencies(ids, extra);
      if found.Err? {
        return Err(found.error);
      }
      var out := found.value;
      var descriptions: seq<Description> := [];
      for i := 0 to |out|
        invariant forall x :: x in out ==> x in g
        invariant descriptions == Describe(g, out[..i])
      {
        assert out[i] in g;
        var d := if out[i] in extra then extra[out[i]] else knownApplications[out[i]];
        descriptions := descriptions + [d];
        assert out[..i + 1][..i] == out[..i];
      }
      assert out[..|out|] == out;
      return Ok(descriptions);
    }
  }

  /**
    All recursive dependencies of some applications, each once, and ordered by dependency exactly
    if none of them lies on a cycle.
   */
  ghost predicate DependencyList(g: Apps, roots: seq<AppId>, out: seq<AppId>) {
    && Distinct(out) && (forall x :: x in out <==> Reachable(g, roots, x)) && (forall x :: x in out ==> x in g)
    && (Ordered(g, out) <==> forall x :: Reachable(g, roots, x) ==> !DependsOn(g, x, x))
  }

  /** The dependencies that were not seen, last one first. */
  method UnseenLastFirst(children: seq<AppId>, seen: set<AppId>) returns (pushed: seq<AppId>)
    ensures forall x :: x in pushed ==> x in children && x !in seen
    ensures forall x :: x in children ==> x in seen || x in pushed
  {
    pushed := [];
    for i := |children| downto 0
      invariant forall x :: x in pushed ==> x in children && x !in seen
      invariant forall k :: i <= k < |children| ==> children[k] in seen || children[k] in pushed
    {
      if children[i] !in seen {
        pushed := pushed + [children[i]];
      }
    }
  }

  /** The first required application that is unknown. */
  function Missing(known: Apps, required: seq<AppId>): AppId {
    if required == [] then AppId(0, 0)
    else if required[0] !in known then required[0]
    else Missing(known, required[1..])
  }

  function Register(known: Apps, application: Description): Result<Apps, RegistryError> {
    if exists d :: d in application.required && d !in known
    then Err(UnknownApplicationId(Missing(known, application.required)))
    else Ok(known[application.Id() := application])
  }

  function Describe(g: Apps, ids: seq<AppId>): seq<Description>
    requires forall x :: x in ids ==> x in g
  {
    if ids == [] then [] else Describe(g, ids[..|ids| - 1]) + [g[ids[|ids| - 1]]]
  }
}
