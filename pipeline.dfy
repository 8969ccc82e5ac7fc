/** The stage planner and executor of the job pipeline: turning a set of
    enabled stage names, with an optional explicit order or explicit parallel
    groups, into an execution plan, and walking that plan while threading a
    results map from stage to stage. */
module Pipeline {
  import opened Common

  type StageName = string

  /** Groups run one after another; the members of one group run together. */
  type Plan = seq<seq<StageName>>

  /** The registered stages: their names in registration order, and what
      each one declares in `depends_on`. A stage's `run` body lives apart,
      in the `bodies` function handed to the executor. */
  datatype Registry = Registry(names: seq<StageName>, dependsOn: map<StageName, seq<StageName>>)
  {
    /** Names are the keys of a dictionary: unique, and exactly the registered ones. */
    predicate Valid()
    {
      NoDup(names) && Elems(names) == dependsOn.Keys
    }

    function Deps(n: StageName): seq<StageName>
    {
      if n in dependsOn then dependsOn[n] else []
    }
  }

  /** Every failure `build_plan` can raise; each carries what its message names. */
  datatype PlanError =
    | UnknownStages(missing: seq<StageName>)
    | MissingDependency(stage: StageName, dep: StageName)
    | DuplicateInGroups
    | GroupsIncomplete
    | DependencyInSameOrLaterGroup(stage: StageName, dep: StageName)
    | DuplicateInOrder
    | OrderIncomplete
    | CyclicDependency

  /** A list of names as Python prints it (names are assumed to hold no quote
      or escape characters). */
  function ListRepr(names: seq<StageName>): string
  {
    "[" + QuotedNames(names) + "]"
  }

  function QuotedNames(names: seq<StageName>): string
  {
    if names == [] then ""
    else if |names| == 1 then "'" + names[0] + "'"
    else "'" + names[0] + "', " + QuotedNames(names[1..])
  }

  /** The text `str(exc)` gives for each planning error. */
  function PlanErrorText(e: PlanError): string
  {
    match e
    case UnknownStages(missing) => "Unknown stages: " + ListRepr(missing)
    case MissingDependency(n, d) => "Stage '" + n + "' depends on '" + d + "', which is not enabled"
    case DuplicateInGroups => "Duplicate stage in parallel groups"
    case GroupsIncomplete => "Parallel groups must include all enabled stages"
    case DependencyInSameOrLaterGroup(n, d) =>
      "Invalid parallel plan: '" + n + "' depends on '" + d + "' in same or later group"
    case DuplicateInOrder => "Duplicate stage in order"
    case OrderIncomplete => "Order must include all enabled stages"
    case CyclicDependency => "Cyclic dependency detected in stages"
  }

  // ---------------------------------------------------------------------
  // Validation (`_validate_stages`)
  // ---------------------------------------------------------------------

  /** A declared dependency: `stage` depends on `dep`. */
  datatype Edge = Edge(stage: StageName, dep: StageName)

  function EdgesOf(reg: Registry, n: StageName): seq<Edge>
  {
    seq(|reg.Deps(n)|, k requires 0 <= k < |reg.Deps(n)| => Edge(n, reg.Deps(n)[k]))
  }

  /** The (stage, dependency) pairs in the order the nested
      `for name in enabled: for dep in depends_on` loops visit them. */
  function Edges(reg: Registry, names: seq<StageName>): seq<Edge>
  {
    if names == [] then [] else EdgesOf(reg, names[0]) + Edges(reg, names[1..])
  }

  lemma {:induction false} EdgesMember(reg: Registry, names: seq<StageName>, e: Edge)
    ensures e in Edges(reg, names) <==> e.stage in names && e.dep in reg.Deps(e.stage)
  {
    if names != [] {
      EdgesMember(reg, names[1..], e);
      if e.stage == names[0] && e.dep in reg.Deps(e.stage) {
        var k :| 0 <= k < |reg.Deps(e.stage)| && reg.Deps(e.stage)[k] == e.dep;
        assert EdgesOf(reg, names[0])[k] == e;
      }
    }
  }

  lemma {:induction false} EdgesAppend(reg: Registry, a: seq<StageName>, b: seq<StageName>)
    ensures Edges(reg, a + b) == Edges(reg, a) + Edges(reg, b)
  {
    if a != [] {
      assert (a + b)[0] == a[0] && (a + b)[1..] == a[1..] + b;
      EdgesAppend(reg, a[1..], b);
      calc {
        Edges(reg, a + b);
        EdgesOf(reg, a[0]) + Edges(reg, a[1..] + b);
        EdgesOf(reg, a[0]) + (Edges(reg, a[1..]) + Edges(reg, b));
        (EdgesOf(reg, a[0]) + Edges(reg, a[1..])) + Edges(reg, b);
        Edges(reg, a) + Edges(reg, b);
      }
    } else {
      assert a + b == b;
    }
  }

  /** The first pair, in visiting order, that `bad` holds of: what a loop
      that raises on the first offending pair reports. */
  function FirstWhere(es: seq<Edge>, bad: Edge -> bool): (r: Option<Edge>)
    ensures r.None? <==> forall e :: e in es ==> !bad(e)
    ensures r.Some? ==> r.value in es && bad(r.value)
  {
    if es == [] then None
    else if bad(es[0]) then Some(es[0])
    else FirstWhere(es[1..], bad)
  }

  /** The pair at index `k` is the one reported when nothing before it is bad. */
  lemma {:induction false} FirstWhereAt(es: seq<Edge>, bad: Edge -> bool, k: nat)
    requires k < |es| && bad(es[k])
    requires forall j :: 0 <= j < k ==> !bad(es[j])
    ensures FirstWhere(es, bad) == Some(es[k])
  {
    if k > 0 {
      assert !bad(es[0]);
      FirstWhereAt(es[1..], bad, k - 1);
    }
  }

  /** The names in `enabled` that are not registered, in order (the `missing`
      list comprehension). */
  function Unregistered(reg: Registry, enabled: seq<StageName>): (m: seq<StageName>)
    ensures forall n :: n in m <==> n in enabled && n !in reg.dependsOn
  {
    if enabled == [] then []
    else (if enabled[0] in reg.dependsOn then [] else [enabled[0]]) + Unregistered(reg, enabled[1..])
  }

  /** What `_validate_stages` accepts: every enabled name is registered and
      every dependency it declares is itself enabled. */
  predicate Validated(reg: Registry, enabled: seq<StageName>)
  {
    && (forall n :: n in enabled ==> n in reg.dependsOn)
    && (forall n, d :: n in enabled && d in reg.Deps(n) ==> d in enabled)
  }

  /** `_validate_stages`: unknown names are reported first, all of them;
      otherwise the first enabled stage (in list order) with a dependency
      that is not enabled. */
  function Validate(reg: Registry, enabled: seq<StageName>): (r: Option<PlanError>)
    ensures r.None? <==> Validated(reg, enabled)
    ensures r.Some? && r.value.UnknownStages? ==>
      |r.value.missing| > 0 && forall n :: n in r.value.missing <==> n in enabled && n !in reg.dependsOn
    ensures r.Some? && !r.value.UnknownStages? ==>
      && (forall n :: n in enabled ==> n in reg.dependsOn)
      && r.value.MissingDependency?
      && r.value.stage in enabled && r.value.dep in reg.Deps(r.value.stage) && r.value.dep !in enabled
  {
    var missing := Unregistered(reg, enabled);
    if |missing| > 0 then
      assert missing[0] in missing;
      Some(UnknownStages(missing))
    else
      var first := FirstWhere(Edges(reg, enabled), (e: Edge) => e.dep !in enabled);
      if first.Some? then
        EdgesMember(reg, enabled, first.value);
        Some(MissingDependency(first.value.stage, first.value.dep))
      else
        assert forall n, d :: n in enabled && d in reg.Deps(n) ==> d in enabled by {
          forall n, d | n in enabled && d in reg.Deps(n) ensures d in enabled {
            EdgesMember(reg, enabled, Edge(n, d));
          }
        }
        None
  }

  // ---------------------------------------------------------------------
  // Plans and their properties
  // ---------------------------------------------------------------------

  /** A plan names exactly the enabled stages, each once. */
  predicate Covers(plan: Plan, enabled: seq<StageName>)
  {
    NoDup(Flatten(plan)) && Elems(Flatten(plan)) == Elems(enabled)
  }

  /** All dependencies of `n` already occur in `placed` (`all(dep in ordered ...)`). */
  predicate DepsPlaced(reg: Registry, n: StageName, placed: seq<StageName>)
  {
    forall d :: d in reg.Deps(n) ==> d in placed
  }

  /** Every dependency of every member of group `k` lies in a strictly earlier group. */
  predicate DepsInEarlierGroups(reg: Registry, plan: Plan)
  {
    forall k, n :: 0 <= k < |plan| && n in plan[k] ==> DepsPlaced(reg, n, Flatten(plan[..k]))
  }

  /** `s` lists the set `stages` once each, every stage after all its dependencies. */
  predicate IsTopoOrder(reg: Registry, stages: set<StageName>, s: seq<StageName>)
  {
    NoDup(s) && Elems(s) == stages && DepsFirst(reg, s)
  }

  /** One singleton group per name (`[[name] for name in ordered]`). */
  function Singletons(s: seq<StageName>): (p: Plan)
    ensures |p| == |s| && forall i :: 0 <= i < |s| ==> p[i] == [s[i]]
  {
    seq(|s|, i requires 0 <= i < |s| => [s[i]])
  }

  lemma {:induction false} FlattenSingletons(s: seq<StageName>)
    ensures Flatten(Singletons(s)) == s
  {
    if s != [] {
      assert Singletons(s)[1..] == Singletons(s[1..]);
      FlattenSingletons(s[1..]);
    }
  }

  /** A singleton plan respects dependencies exactly when its order does. */
  lemma {:induction false} SingletonsRespectDeps(reg: Registry, s: seq<StageName>)
    requires forall i :: 0 <= i < |s| ==> DepsPlaced(reg, s[i], s[..i])
    ensures DepsInEarlierGroups(reg, Singletons(s))
  {
    var p := Singletons(s);
    forall k, n | 0 <= k < |p| && n in p[k] ensures DepsPlaced(reg, n, Flatten(p[..k])) {
      assert p[..k] == Singletons(s[..k]);
      FlattenSingletons(s[..k]);
    }
  }

  // ---------------------------------------------------------------------
  // Explicit order (`_plan_sequential` with a non-empty `order`)
  // ---------------------------------------------------------------------

  /** The explicit order is accepted when it is duplicate-free and names
      exactly the enabled stages; dependency edges are not checked. */
  function OrderPlan(order: seq<StageName>, enabled: seq<StageName>): (r: Result<Plan, PlanError>)
    ensures r.Success? <==> NoDup(order) && Elems(order) == Elems(enabled)
    ensures r.Success? ==> |r.value| == |order| && forall i :: 0 <= i < |order| ==> r.value[i] == [order[i]]
    ensures r.Failure? ==> r.error == (if NoDup(order) then OrderIncomplete else DuplicateInOrder)
  {
    NoDupIffCardinality(order);
    if |Elems(order)| != |order| then Failure(DuplicateInOrder)
    else if Elems(order) != Elems(enabled) then Failure(OrderIncomplete)
    else Success(Singletons(order))
  }

  // ---------------------------------------------------------------------
  // Parallel groups (`_plan_from_parallel_groups`)
  // ---------------------------------------------------------------------

  /** The `index_of` dictionary after the fill loop: each name's group index,
      a later group overriding an earlier one. */
  function IndexMap(groups: Plan): map<StageName, nat>
  {
    if groups == [] then map[]
    else IndexMap(groups[..|groups| - 1]) + GroupIndex(groups[|groups| - 1], |groups| - 1)
  }

  /** Every member of one group mapped to that group's index. */
  function GroupIndex(group: seq<StageName>, k: nat): map<StageName, nat>
  {
    map n | n in group :: k
  }

  /** `name` depends on `dep` in the same or a later group. */
  function LateDep(index: map<StageName, nat>): Edge -> bool
  {
    (e: Edge) => e.stage in index && e.dep in index && index[e.dep] >= index[e.stage]
  }

  /** What `_plan_from_parallel_groups` returns or raises. */
  function ParallelPlan(reg: Registry, groups: Plan, enabled: seq<StageName>): Result<Plan, PlanError>
  {
    var flat := Flatten(groups);
    if |Elems(flat)| != |flat| then Failure(DuplicateInGroups)
    else if Elems(flat) != Elems(enabled) then Failure(GroupsIncomplete)
    else match FirstWhere(Edges(reg, enabled), LateDep(IndexMap(groups)))
      case Some(e) => Failure(DependencyInSameOrLaterGroup(e.stage, e.dep))
      case None => Success(groups)
  }

  lemma {:induction false} IndexMapKeys(groups: Plan)
    ensures IndexMap(groups).Keys == Elems(Flatten(groups))
  {
    if groups != [] {
      var last := |groups| - 1;
      IndexMapKeys(groups[..last]);
      assert groups == groups[..last] + [groups[last]];
      FlattenAppend(groups[..last], groups[last]);
    }
  }

  lemma {:induction false} NoDupAppend<T>(a: seq<T>, b: seq<T>)
    requires NoDup(a + b)
    ensures NoDup(a) && NoDup(b) && Elems(a) !! Elems(b)
  {
    forall i, j | 0 <= i < j < |a| ensures a[i] != a[j] {
      assert a[i] == (a + b)[i] && a[j] == (a + b)[j];
    }
    forall i, j | 0 <= i < j < |b| ensures b[i] != b[j] {
      assert b[i] == (a + b)[|a| + i] && b[j] == (a + b)[|a| + j];
    }
    forall i, j | 0 <= i < |a| && 0 <= j < |b| ensures a[i] != b[j] {
      assert a[i] == (a + b)[i] && b[j] == (a + b)[|a| + j];
    }
  }

  /** With no name repeated, `index_of` holds each name's one group index. */
  lemma {:induction false} IndexMapAt(groups: Plan, k: nat, n: StageName)
    requires NoDup(Flatten(groups))
    requires k < |groups| && n in groups[k]
    ensures n in IndexMap(groups) && IndexMap(groups)[n] == k
  {
    var last := |groups| - 1;
    if k < last {
      assert groups == groups[..last] + [groups[last]];
      FlattenAppend(groups[..last], groups[last]);
      NoDupAppend(Flatten(groups[..last]), groups[last]);
      IndexMapAt(groups[..last], k, n);
      FlattenMember(groups[..last], n);
      assert n in groups[..last][k];
      assert n in Elems(Flatten(groups[..last]));
      assert n !in Elems(groups[last]);
    }
  }

  /** For a member `n` of group `k` and a planned `d`, the pair is flagged
      exactly when `d` is not in a group before `k`. */
  lemma {:induction false} LateIffNotEarlier(groups: Plan, k: nat, n: StageName, d: StageName)
    requires NoDup(Flatten(groups)) && k < |groups| && n in groups[k] && d in Flatten(groups)
    ensures LateDep(IndexMap(groups))(Edge(n, d)) <==> d !in Flatten(groups[..k])
  {
    IndexMapAt(groups, k, n);
    FlattenMember(groups, d);
    var kd :| 0 <= kd < |groups| && d in groups[kd];
    IndexMapAt(groups, kd, d);
    FlattenMember(groups[..k], d);
    if kd < k {
      assert d in groups[..k][kd];
    } else if d in Flatten(groups[..k]) {
      var j :| 0 <= j < k && d in groups[..k][j];
      IndexMapAt(groups, j, d);
    }
  }

  lemma {:induction false} EarlierMeansNoLate(reg: Registry, groups: Plan, enabled: seq<StageName>)
    requires Validated(reg, enabled) && Covers(groups, enabled) && DepsInEarlierGroups(reg, groups)
    ensures forall e :: e in Edges(reg, enabled) ==> !LateDep(IndexMap(groups))(e)
  {
    forall e | e in Edges(reg, enabled) ensures !LateDep(IndexMap(groups))(e) {
      EdgesMember(reg, enabled, e);
      assert e.dep in Elems(Flatten(groups));
      assert e.stage in Elems(Flatten(groups));
      FlattenMember(groups, e.stage);
      var kn :| 0 <= kn < |groups| && e.stage in groups[kn];
      LateIffNotEarlier(groups, kn, e.stage, e.dep);
    }
  }

  lemma {:induction false} NoLateMeansEarlier(reg: Registry, groups: Plan, enabled: seq<StageName>)
    requires Validated(reg, enabled) && Covers(groups, enabled)
    requires forall e :: e in Edges(reg, enabled) ==> !LateDep(IndexMap(groups))(e)
    ensures DepsInEarlierGroups(reg, groups)
  {
    forall k, n | 0 <= k < |groups| && n in groups[k] ensures DepsPlaced(reg, n, Flatten(groups[..k])) {
      FlattenMember(groups, n);
      assert n in Elems(Flatten(groups));
      forall d | d in reg.Deps(n) ensures d in Flatten(groups[..k]) {
        EdgesMember(reg, enabled, Edge(n, d));
        assert d in Elems(Flatten(groups));
        LateIffNotEarlier(groups, k, n, d);
      }
    }
  }

  /** Accepted parallel groups are exactly the partitions of the enabled
      stages in which every dependency sits in a strictly earlier group;
      they are returned unchanged. */
  lemma {:induction false} ParallelPlanAccepts(reg: Registry, groups: Plan, enabled: seq<StageName>)
    requires Validated(reg, enabled)
    ensures ParallelPlan(reg, groups, enabled).Success? <==>
      Covers(groups, enabled) && DepsInEarlierGroups(reg, groups)
    ensures ParallelPlan(reg, groups, enabled).Success? ==> ParallelPlan(reg, groups, enabled).value == groups
  {
    NoDupIffCardinality(Flatten(groups));
    if Covers(groups, enabled) {
      if DepsInEarlierGroups(reg, groups) {
        EarlierMeansNoLate(reg, groups, enabled);
      } else if FirstWhere(Edges(reg, enabled), LateDep(IndexMap(groups))).None? {
        NoLateMeansEarlier(reg, groups, enabled);
      }
    }
  }

  /** The `index_of` fill loop of `_plan_from_parallel_groups`. */
  method IndexGroups(groups: Plan) returns (indexOf: map<StageName, nat>)
    ensures indexOf == IndexMap(groups)
  {
    indexOf := map[];
    var i := 0;
    while i < |groups|
      invariant 0 <= i <= |groups|
      invariant indexOf == IndexMap(groups[..i])
    {
      var j := 0;
      while j < |groups[i]|
        invariant 0 <= j <= |groups[i]|
        invariant indexOf == IndexMap(groups[..i]) + GroupIndex(groups[i][..j], i)
      {
        assert groups[i][..j + 1] == groups[i][..j] + [groups[i][j]];
        indexOf := indexOf[groups[i][j] := i];
        j := j + 1;
      }
      assert groups[i][..j] == groups[i];
      assert groups[..i + 1][..i] == groups[..i];
      i := i + 1;
    }
    assert groups[..i] == groups;
  }

  /** The pairs of the stages before `name`, then those of `name` itself. */
  lemma {:induction false} EdgesSplit(reg: Registry, enabled: seq<StageName>, k: nat)
    requires k < |enabled|
    ensures Edges(reg, enabled[..k + 1]) == Edges(reg, enabled[..k]) + EdgesOf(reg, enabled[k])
    ensures Edges(reg, enabled) == Edges(reg, enabled[..k + 1]) + Edges(reg, enabled[k + 1..])
  {
    assert enabled[..k + 1] == enabled[..k] + [enabled[k]];
    EdgesAppend(reg, enabled[..k], [enabled[k]]);
    assert Edges(reg, [enabled[k]]) == EdgesOf(reg, enabled[k]) + Edges(reg, []);
    assert enabled == enabled[..k + 1] + enabled[k + 1..];
    EdgesAppend(reg, enabled[..k + 1], enabled[k + 1..]);
  }

  /** The first flagged pair met by the nested loops is the one `FirstWhere` names. */
  lemma {:induction false} FirstLateEdge(reg: Registry, enabled: seq<StageName>, late: Edge -> bool, k: nat, j: nat)
    requires k < |enabled| && j < |reg.Deps(enabled[k])|
    requires forall e :: e in Edges(reg, enabled[..k]) ==> !late(e)
    requires forall m :: 0 <= m < j ==> !late(Edge(enabled[k], reg.Deps(enabled[k])[m]))
    requires late(Edge(enabled[k], reg.Deps(enabled[k])[j]))
    ensures FirstWhere(Edges(reg, enabled), late) == Some(Edge(enabled[k], reg.Deps(enabled[k])[j]))
  {
    EdgesSplit(reg, enabled, k);
    var before := Edges(reg, enabled[..k]);
    var all := Edges(reg, enabled);
    assert all == before + EdgesOf(reg, enabled[k]) + Edges(reg, enabled[k + 1..]);
    assert all[|before| + j] == Edge(enabled[k], reg.Deps(enabled[k])[j]);
    forall m | 0 <= m < |before| + j ensures !late(all[m]) {
      if m < |before| {
        assert all[m] == before[m];
      } else {
        assert all[m] == Edge(enabled[k], reg.Deps(enabled[k])[m - |before|]);
      }
    }
    FirstWhereAt(all, late, |before| + j);
  }

  /** `_plan_from_parallel_groups`: the duplicate and coverage checks, the
      `index_of` fill loop, then the dependency check loop. */
  method PlanFromParallelGroups(reg: Registry, groups: Plan, enabled: seq<StageName>)
    returns (r: Result<Plan, PlanError>)
    requires Validated(reg, enabled)
    ensures r == ParallelPlan(reg, groups, enabled)
  {
    var flattened := Flatten(groups);
    if |Elems(flattened)| != |flattened| {
      return Failure(DuplicateInGroups);
    }
    if Elems(flattened) != Elems(enabled) {
      return Failure(GroupsIncomplete);
    }
    var indexOf := IndexGroups(groups);
    IndexMapKeys(groups);

    var late := LateDep(indexOf);
    var k := 0;
    while k < |enabled|
      invariant 0 <= k <= |enabled|
      invariant forall e :: e in Edges(reg, enabled[..k]) ==> !late(e)
    {
      var name := enabled[k];
      var deps := reg.dependsOn[name];
      assert deps == reg.Deps(name);
      assert name in indexOf by {
        assert name in Elems(enabled);
      }
      var j := 0;
      while j < |deps|
        invariant 0 <= j <= |deps|
        invariant forall m :: 0 <= m < j ==> !late(Edge(name, deps[m]))
      {
        var dep := deps[j];
        assert dep in indexOf by {
          assert dep in enabled;
          assert dep in Elems(enabled);
        }
        if indexOf[dep] >= indexOf[name] {
          FirstLateEdge(reg, enabled, late, k, j);
          return Failure(DependencyInSameOrLaterGroup(name, dep));
        }
        assert forall m :: 0 <= m < j + 1 ==> !late(Edge(name, deps[m])) by {
          forall m | 0 <= m < j + 1 ensures !late(Edge(name, deps[m])) {
            if m == j {
              assert deps[m] == dep;
            }
          }
        }
        j := j + 1;
      }
      EdgesSplit(reg, enabled, k);
      k := k + 1;
    }
    assert enabled[..k] == enabled;
    return Success(groups);
  }

  // ---------------------------------------------------------------------
  // Derived order (`_plan_sequential` without an order)
  // ---------------------------------------------------------------------

  /** What the derive loop may produce: singleton groups listing the enabled
      stages in a dependency-respecting order, or the cycle error, raised
      exactly when no such order exists. */
  ghost predicate DerivedOutcome(reg: Registry, enabled: seq<StageName>, r: Result<Plan, PlanError>)
  {
    match r
    case Success(p) =>
      (forall k :: 0 <= k < |p| ==> |p[k]| == 1) && IsTopoOrder(reg, Elems(enabled), Flatten(p))
    case Failure(e) =>
      e == CyclicDependency && forall s :: !IsTopoOrder(reg, Elems(enabled), s)
  }

  lemma {:induction false} DepsPlacedGrow(reg: Registry, n: StageName, a: seq<StageName>, b: seq<StageName>)
    requires DepsPlaced(reg, n, a) && Elems(a) <= Elems(b)
    ensures DepsPlaced(reg, n, b)
  {
    forall d | d in reg.Deps(n) ensures d in b {
      assert d in Elems(a);
    }
  }

  /** Each entry of `s` comes after all of its dependencies. */
  predicate DepsFirst(reg: Registry, s: seq<StageName>)
  {
    forall i :: 0 <= i < |s| ==> DepsPlaced(reg, s[i], s[..i])
  }

  /** What the derive loop keeps: `ordered` is a dependency-respecting list
      of distinct stages and, with `remaining`, partitions `stages`. */
  predicate DeriveState(reg: Registry, stages: set<StageName>, ordered: seq<StageName>, remaining: set<StageName>)
  {
    NoDup(ordered) && Elems(ordered) !! remaining && Elems(ordered) + remaining == stages && DepsFirst(reg, ordered)
  }

  /** Placing a remaining stage whose dependencies are all placed keeps the state. */
  lemma {:induction false} PlaceNext(reg: Registry, stages: set<StageName>, ordered: seq<StageName>,
                                     remaining: set<StageName>, name: StageName)
    requires DeriveState(reg, stages, ordered, remaining)
    requires name in remaining && DepsPlaced(reg, name, ordered)
    ensures DeriveState(reg, stages, ordered + [name], remaining - {name})
  {
    var o := ordered + [name];
    assert Elems(o) == Elems(ordered) + {name};
    assert name !in Elems(ordered);
    forall i | 0 <= i < |o| ensures DepsPlaced(reg, o[i], o[..i]) {
      if i < |ordered| {
        assert o[..i] == ordered[..i];
      } else {
        assert o[..i] == ordered;
      }
    }
  }

  /** The first entry of `s` that lies in `r`. */
  lemma {:induction false} FirstIn(s: seq<StageName>, r: set<StageName>, x: StageName) returns (i: nat)
    requires x in r && x in s
    ensures i < |s| && s[i] in r && forall m :: 0 <= m < i ==> s[m] !in r
  {
    if s[0] in r {
      i := 0;
    } else {
      var j := FirstIn(s[1..], r, x);
      i := j + 1;
      forall m | 0 <= m < i ensures s[m] !in r {
        if m > 0 {
          assert s[m] == s[1..][m - 1];
        }
      }
    }
  }

  /** A pass that places nothing proves a cycle: the first leftover in any
      candidate order would need a dependency that is still left over. */
  lemma {:induction false} StuckOrderFails(reg: Registry, stages: set<StageName>,
                                           ordered: seq<StageName>, remaining: set<StageName>, s: seq<StageName>)
    requires Elems(ordered) + remaining == stages && remaining != {}
    requires forall x :: x in remaining ==> !DepsPlaced(reg, x, ordered)
    ensures !IsTopoOrder(reg, stages, s)
  {
    if IsTopoOrder(reg, stages, s) {
      var x :| x in remaining;
      assert x in Elems(s);
      var i := FirstIn(s, remaining, x);
      assert DepsPlaced(reg, s[i], s[..i]);
      assert Elems(s[..i]) <= Elems(ordered) by {
        forall y | y in Elems(s[..i]) ensures y in Elems(ordered) {
          var m :| 0 <= m < i && s[..i][m] == y;
          assert s[m] in Elems(s);
        }
      }
      DepsPlacedGrow(reg, s[i], s[..i], ordered);
    }
  }

  lemma {:induction false} StuckMeansNoOrder(reg: Registry, stages: set<StageName>,
                                              ordered: seq<StageName>, remaining: set<StageName>)
    requires Elems(ordered) + remaining == stages && remaining != {}
    requires forall x :: x in remaining ==> !DepsPlaced(reg, x, ordered)
    ensures forall s :: !IsTopoOrder(reg, stages, s)
  {
    forall s ensures !IsTopoOrder(reg, stages, s) {
      StuckOrderFails(reg, stages, ordered, remaining, s);
    }
  }

  /** `_plan_sequential`: an explicit order is checked and used as is;
      otherwise passes over the remaining names place every stage whose
      dependencies are all placed, in whatever order the set yields them. */
  method PlanSequential(reg: Registry, order: Option<seq<StageName>>, enabled: seq<StageName>)
    returns (r: Result<Plan, PlanError>)
    requires Validated(reg, enabled)
    ensures order.Some? && |order.value| > 0 ==> r == OrderPlan(order.value, enabled)
    ensures !(order.Some? && |order.value| > 0) ==> DerivedOutcome(reg, enabled, r)
  {
    if order.Some? && |order.value| > 0 {
      return OrderPlan(order.value, enabled);
    }
    var ordered: seq<StageName> := [];
    var remaining := Elems(enabled);
    while remaining != {}
      invariant DeriveState(reg, Elems(enabled), ordered, remaining)
      decreases remaining
    {
      var progressed := false;
      var pass := remaining;
      ghost var ordered0, remaining0 := ordered, remaining;
      while pass != {}
        invariant pass <= remaining <= remaining0
        invariant DeriveState(reg, Elems(enabled), ordered, remaining)
        invariant progressed ==> remaining < remaining0
        invariant !progressed ==> ordered == ordered0 && remaining == remaining0
        invariant !progressed ==> forall x :: x in remaining && x !in pass ==> !DepsPlaced(reg, x, ordered)
        decreases pass
      {
        var name :| name in pass;
        pass := pass - {name};
        if DepsPlaced(reg, name, ordered) {
          PlaceNext(reg, Elems(enabled), ordered, remaining, name);
          ordered := ordered + [name];
          remaining := remaining - {name};
          progressed := true;
        }
      }
      if !progressed {
        StuckMeansNoOrder(reg, Elems(enabled), ordered, remaining);
        return Failure(CyclicDependency);
      }
    }
    FlattenSingletons(ordered);
    return Success(Singletons(ordered));
  }

  // ---------------------------------------------------------------------
  // build_plan
  // ---------------------------------------------------------------------

  /** The outcomes `build_plan` may have: validation first, then non-empty
      parallel groups, then a non-empty order, else the derived order. */
  ghost predicate PlanOutcome(reg: Registry, enabled: seq<StageName>, order: Option<seq<StageName>>,
                              groups: Option<Plan>, r: Result<Plan, PlanError>)
  {
    match Validate(reg, enabled)
    case Some(e) => r == Failure(e)
    case None =>
      if groups.Some? && |groups.value| > 0 then r == ParallelPlan(reg, groups.value, enabled)
      else if order.Some? && |order.value| > 0 then r == OrderPlan(order.value, enabled)
      else DerivedOutcome(reg, enabled, r)
  }

  method BuildPlan(reg: Registry, enabled: seq<StageName>, order: Option<seq<StageName>>, groups: Option<Plan>)
    returns (r: Result<Plan, PlanError>)
    ensures PlanOutcome(reg, enabled, order, groups, r)
  {
    var invalid := Validate(reg, enabled);
    if invalid.Some? {
      return Failure(invalid.value);
    }
    if groups.Some? && |groups.value| > 0 {
      r := PlanFromParallelGroups(reg, groups.value, enabled);
      return;
    }
    r := PlanSequential(reg, order, enabled);
  }

  /** Every plan `build_plan` returns runs each enabled stage exactly once;
      a plan from parallel groups or from the derived order also puts every
      dependency in a strictly earlier group. */
  lemma {:induction false} PlannedStagesAreEnabled(reg: Registry, enabled: seq<StageName>,
      order: Option<seq<StageName>>, groups: Option<Plan>, p: Plan)
    requires PlanOutcome(reg, enabled, order, groups, Success(p))
    ensures Covers(p, enabled)
    ensures !(order.Some? && |order.value| > 0) || (groups.Some? && |groups.value| > 0) ==>
      DepsInEarlierGroups(reg, p)
  {
    assert Validated(reg, enabled);
    if groups.Some? && |groups.value| > 0 {
      ParallelPlanAccepts(reg, groups.value, enabled);
    } else if order.Some? && |order.value| > 0 {
      FlattenSingletons(order.value);
      assert p == Singletons(order.value);
    } else {
      var s := Flatten(p);
      assert p == Singletons(s) by {
        SingletonPlanIsFlattened(p);
      }
      SingletonsRespectDeps(reg, s);
    }
  }

  lemma {:induction false} SingletonPlanIsFlattened(p: Plan)
    requires forall k :: 0 <= k < |p| ==> |p[k]| == 1
    ensures p == Singletons(Flatten(p))
  {
    if p != [] {
      SingletonPlanIsFlattened(p[1..]);
      assert p[0] == [p[0][0]];
    }
  }

  /** Without an explicit order or groups, planning fails exactly when the
      enabled stages admit no dependency-respecting order, and then with the
      cycle error. */
  lemma {:induction false} DerivedFailsIffNoOrder(reg: Registry, enabled: seq<StageName>,
      order: Option<seq<StageName>>, groups: Option<Plan>, r: Result<Plan, PlanError>)
    requires Validated(reg, enabled)
    requires !(groups.Some? && |groups.value| > 0) && !(order.Some? && |order.value| > 0)
    requires PlanOutcome(reg, enabled, order, groups, r)
    ensures r.Failure? <==> forall s :: !IsTopoOrder(reg, Elems(enabled), s)
    ensures r.Failure? ==> r.error == CyclicDependency
  {
    if r.Success? {
      assert IsTopoOrder(reg, Elems(enabled), Flatten(r.value));
    }
  }

  /** An explicit order is not checked against dependencies: with `a`
      depending on `b`, the order `[a, b]` is accepted. */
  lemma ExplicitOrderIgnoresDependencies()
    ensures var reg := Registry(["a", "b"], map["a" := ["b"], "b" := []]);
      && Validated(reg, ["a", "b"])
      && OrderPlan(["a", "b"], ["a", "b"]) == Success([["a"], ["b"]])
      && !DepsInEarlierGroups(reg, [["a"], ["b"]])
  {
    var reg := Registry(["a", "b"], map["a" := ["b"], "b" := []]);
    var r := OrderPlan(["a", "b"], ["a", "b"]);
    assert NoDup(["a", "b"]);
    assert r.value[0] == ["a"] && r.value[1] == ["b"];
    assert r.value == [["a"], ["b"]];
    assert ["a", "b"][..0] == [];
    assert !DepsPlaced(reg, "a", Flatten([["a"], ["b"]][..0])) by {
      assert "b" in reg.Deps("a");
      assert [["a"], ["b"]][..0] == [];
    }
  }

  // ---------------------------------------------------------------------
  // run
  // ---------------------------------------------------------------------

  /** The results dictionary: keys in insertion order, and their values. */
  datatype Results<O> = Results(keys: seq<StageName>, values: map<StageName, O>)
  {
    ghost predicate Valid()
    {
      NoDup(keys) && Elems(keys) == values.Keys
    }

    /** `results[name] = v`: a new key goes to the end, an old key keeps its place. */
    function Put(name: StageName, v: O): (r: Results<O>)
      ensures r.values == values[name := v]
      ensures Valid() ==> r.Valid()
      ensures name !in values ==> r.keys == keys + [name]
    {
      if name in values then Results(keys, values[name := v])
      else
        assert Valid() ==> NoDup(keys + [name]) by {
          if Valid() { assert name !in Elems(keys); }
        }
        Results(keys + [name], values[name := v])
    }
  }

  function EmptyResults<O>(): Results<O>
  {
    Results([], map[])
  }

  /** A stage's `run`: from the shared context and the results so far to an
      output, or an exception's message. */
  type Body<!C, !O> = (C, Results<O>) -> Result<O, string>

  datatype RunError = PlanFailed(plan: PlanError) | StageFailed(message: string) | EmptyGroup

  /** The text `str(exc)` gives; an empty group makes the thread pool refuse
      a worker count of 0. */
  function RunErrorText(e: RunError): string
  {
    match e
    case PlanFailed(p) => PlanErrorText(p)
    case StageFailed(m) => m
    case EmptyGroup => "max_workers must be greater than 0"
  }

  /** One stage invocation and the results map it was handed. */
  datatype Call<O> = Call(stage: StageName, seen: Results<O>)

  datatype RunOutcome<O> = RunOutcome(result: Result<Results<O>, RunError>, calls: seq<Call<O>>)

  function Stages<O>(calls: seq<Call<O>>): seq<StageName>
  {
    if calls == [] then [] else [calls[0].stage] + Stages(calls[1..])
  }

  /** Collecting the members' outputs in submission order: the first
      exception propagates, otherwise all outputs are stored. */
  function Collect<O>(names: seq<StageName>, outs: seq<Result<O, string>>, acc: Results<O>): Result<Results<O>, RunError>
    requires |names| == |outs|
  {
    if names == [] then Success(acc)
    else if outs[0].Failure? then Failure(StageFailed(outs[0].error))
    else Collect(names[1..], outs[1..], acc.Put(names[0], outs[0].value))
  }

  /** One group: a singleton runs against the current results; a larger group
      runs every member against the results as they were when it started. */
  function RunGroup<C, O>(bodies: StageName -> Body<C, O>, ctx: C, group: seq<StageName>, acc: Results<O>): RunOutcome<O>
  {
    if |group| == 0 then RunOutcome(Failure(EmptyGroup), [])
    else if |group| == 1 then
      var out := bodies(group[0])(ctx, acc);
      RunOutcome(if out.Success? then Success(acc.Put(group[0], out.value)) else Failure(StageFailed(out.error)),
                 [Call(group[0], acc)])
    else
      var outs := seq(|group|, i requires 0 <= i < |group| => bodies(group[i])(ctx, acc));
      RunOutcome(Collect(group, outs, acc), seq(|group|, i requires 0 <= i < |group| => Call(group[i], acc)))
  }

  /** The groups in plan order; a failing group ends the run. */
  function RunGroups<C, O>(bodies: StageName -> Body<C, O>, ctx: C, plan: Plan, acc: Results<O>): RunOutcome<O>
  {
    if plan == [] then RunOutcome(Success(acc), [])
    else
      var step := RunGroup(bodies, ctx, plan[0], acc);
      if step.result.Failure? then step
      else
        var rest := RunGroups(bodies, ctx, plan[1..], step.result.value);
        RunOutcome(rest.result, step.calls + rest.calls)
  }

  lemma {:induction false} CollectStores<O>(names: seq<StageName>, outs: seq<Result<O, string>>, acc: Results<O>)
    requires |names| == |outs| && acc.Valid() && NoDup(acc.keys + names)
    ensures Collect(names, outs, acc).Success? ==>
      Collect(names, outs, acc).value.keys == acc.keys + names && Collect(names, outs, acc).value.Valid()
  {
    if names != [] && outs[0].Success? {
      var next := acc.Put(names[0], outs[0].value);
      NoDupAppend(acc.keys, names);
      assert names[0] in Elems(names);
      assert next.keys + names[1..] == acc.keys + names;
      CollectStores(names[1..], outs[1..], next);
    }
  }

  lemma {:induction false} CollectKeys<O>(names: seq<StageName>, outs: seq<Result<O, string>>, acc: Results<O>)
    requires |names| == |outs|
    ensures Collect(names, outs, acc).Success? ==>
      Collect(names, outs, acc).value.values.Keys == acc.values.Keys + Elems(names)
  {
    if names != [] && outs[0].Success? {
      CollectKeys(names[1..], outs[1..], acc.Put(names[0], outs[0].value));
      assert Elems(names) == {names[0]} + Elems(names[1..]);
    }
  }

  lemma {:induction false} StagesAppend<O>(a: seq<Call<O>>, b: seq<Call<O>>)
    ensures Stages(a + b) == Stages(a) + Stages(b)
  {
    if a != [] {
      assert (a + b)[0] == a[0] && (a + b)[1..] == a[1..] + b;
      StagesAppend(a[1..], b);
      calc {
        Stages(a + b);
        [a[0].stage] + Stages(a[1..] + b);
        [a[0].stage] + (Stages(a[1..]) + Stages(b));
        ([a[0].stage] + Stages(a[1..])) + Stages(b);
        Stages(a) + Stages(b);
      }
    } else {
      assert a + b == b;
    }
  }

  lemma {:induction false} GroupCalls<C, O>(bodies: StageName -> Body<C, O>, ctx: C, group: seq<StageName>, acc: Results<O>)
    requires |group| > 0
    ensures Stages(RunGroup(bodies, ctx, group, acc).calls) == group
    ensures forall c :: c in RunGroup(bodies, ctx, group, acc).calls ==> c.seen == acc && c.stage in group
  {
    var calls := RunGroup(bodies, ctx, group, acc).calls;
    assert |calls| == |group| && forall i :: 0 <= i < |group| ==> calls[i] == Call(group[i], acc);
    StagesOfCalls(calls, group, acc);
  }

  lemma {:induction false} StagesOfCalls<O>(calls: seq<Call<O>>, group: seq<StageName>, acc: Results<O>)
    requires |calls| == |group| && forall i :: 0 <= i < |group| ==> calls[i] == Call(group[i], acc)
    ensures Stages(calls) == group
  {
    if calls != [] {
      StagesOfCalls(calls[1..], group[1..], acc);
    }
  }

  lemma {:induction false} GroupKeys<C, O>(bodies: StageName -> Body<C, O>, ctx: C, group: seq<StageName>, acc: Results<O>)
    ensures RunGroup(bodies, ctx, group, acc).result.Success? ==>
      RunGroup(bodies, ctx, group, acc).result.value.values.Keys == acc.values.Keys + Elems(group)
    ensures acc.Valid() && NoDup(acc.keys + group) && RunGroup(bodies, ctx, group, acc).result.Success? ==>
      RunGroup(bodies, ctx, group, acc).result.value.keys == acc.keys + group &&
      RunGroup(bodies, ctx, group, acc).result.value.Valid()
  {
    if |group| > 1 {
      var outs := seq(|group|, i requires 0 <= i < |group| => bodies(group[i])(ctx, acc));
      CollectKeys(group, outs, acc);
      if acc.Valid() && NoDup(acc.keys + group) {
        CollectStores(group, outs, acc);
      }
    } else if |group| == 1 {
      assert Elems(group) == {group[0]};
      if acc.Valid() && NoDup(acc.keys + group) {
        NoDupAppend(acc.keys, group);
        assert group[0] in Elems(group);
      }
    }
  }

  /** A successful run stores one key per planned stage, in flattened plan
      order, after the keys it started with. */
  lemma {:induction false} RunKeysFollowPlan<C, O>(bodies: StageName -> Body<C, O>, ctx: C, plan: Plan, acc: Results<O>)
    requires acc.Valid() && NoDup(acc.keys + Flatten(plan))
    ensures RunGroups(bodies, ctx, plan, acc).result.Success? ==>
      RunGroups(bodies, ctx, plan, acc).result.value.keys == acc.keys + Flatten(plan) &&
      RunGroups(bodies, ctx, plan, acc).result.value.Valid()
  {
    if plan != [] {
      var step := RunGroup(bodies, ctx, plan[0], acc);
      assert acc.keys + Flatten(plan) == (acc.keys + plan[0]) + Flatten(plan[1..]);
      NoDupAppend(acc.keys + plan[0], Flatten(plan[1..]));
      GroupKeys(bodies, ctx, plan[0], acc);
      if step.result.Success? {
        RunKeysFollowPlan(bodies, ctx, plan[1..], step.result.value);
      }
    }
  }

  /** Stages are called group by group in plan order: all of them when the
      run succeeds; when it fails, exactly those of the groups up to and
      including the failing one, and none of a later group. */
  lemma {:induction false} RunCallsFollowPlan<C, O>(bodies: StageName -> Body<C, O>, ctx: C, plan: Plan, acc: Results<O>)
    returns (failed: nat)
    ensures var out := RunGroups(bodies, ctx, plan, acc);
      out.result.Success? ==> Stages(out.calls) == Flatten(plan)
    ensures var out := RunGroups(bodies, ctx, plan, acc);
      out.result.Failure? ==> failed < |plan| && Stages(out.calls) == Flatten(plan[..failed + 1])
  {
    failed := 0;
    if plan != [] {
      var step := RunGroup(bodies, ctx, plan[0], acc);
      GroupStages(bodies, ctx, plan[0], acc);
      if step.result.Success? {
        var rest := RunGroups(bodies, ctx, plan[1..], step.result.value);
        var g := RunCallsFollowPlan(bodies, ctx, plan[1..], step.result.value);
        StagesAppend(step.calls, rest.calls);
        if rest.result.Failure? {
          failed := g + 1;
          assert plan[..g + 2][0] == plan[0] && plan[..g + 2][1..] == plan[1..][..g + 1];
        }
      } else {
        assert plan[..1][0] == plan[0] && plan[..1][1..] == [];
      }
    }
  }

  lemma GroupStages<C, O>(bodies: StageName -> Body<C, O>, ctx: C, group: seq<StageName>, acc: Results<O>)
    ensures Stages(RunGroup(bodies, ctx, group, acc).calls) == group
  {
    if |group| > 0 {
      GroupCalls(bodies, ctx, group, acc);
    }
  }

  /** When every dependency of a stage in group k is in the starting map or in
      a group before k, each stage is handed a results map that already holds
      all of its dependencies' outputs. */
  lemma {:induction false} RunSeesDependencies<C, O>(reg: Registry, bodies: StageName -> Body<C, O>, ctx: C,
                                                     plan: Plan, acc: Results<O>)
    requires forall k, n :: 0 <= k < |plan| && n in plan[k] ==>
      forall d :: d in reg.Deps(n) ==> d in acc.values || d in Flatten(plan[..k])
    ensures forall c :: c in RunGroups(bodies, ctx, plan, acc).calls ==>
      forall d :: d in reg.Deps(c.stage) ==> d in c.seen.values
  {
    if plan != [] {
      var step := RunGroup(bodies, ctx, plan[0], acc);
      if |plan[0]| > 0 {
        GroupCalls(bodies, ctx, plan[0], acc);
        assert forall n :: n in plan[0] ==> forall d :: d in reg.Deps(n) ==> d in acc.values by {
          assert plan[..0] == [];
        }
      }
      if step.result.Success? {
        var next := step.result.value;
        GroupKeys(bodies, ctx, plan[0], acc);
        var tail := plan[1..];
        forall k, n | 0 <= k < |tail| && n in tail[k]
          ensures forall d :: d in reg.Deps(n) ==> d in next.values || d in Flatten(tail[..k])
        {
          assert tail[k] == plan[k + 1];
          assert plan[..k + 1][1..] == tail[..k];
          assert Flatten(plan[..k + 1]) == plan[0] + Flatten(tail[..k]);
        }
        RunSeesDependencies(reg, bodies, ctx, tail, next);
      }
    }
  }

  /** Walking a plan, as `run` does after planning. */
  method ExecutePlan<C, O>(bodies: StageName -> Body<C, O>, ctx: C, plan: Plan)
    returns (r: Result<Results<O>, RunError>, ghost calls: seq<Call<O>>)
    ensures RunOutcome(r, calls) == RunGroups(bodies, ctx, plan, EmptyResults())
  {
    var results: Results<O> := EmptyResults();
    calls := [];
    var g := 0;
    while g < |plan|
      invariant 0 <= g <= |plan|
      invariant RunGroups(bodies, ctx, plan, EmptyResults()) ==
        var rest := RunGroups(bodies, ctx, plan[g..], results); RunOutcome(rest.result, calls + rest.calls)
    {
      var group := plan[g];
      assert plan[g..][1..] == plan[g + 1..];
      ghost var step := RunGroup(bodies, ctx, group, results);
      if |group| == 1 {
        var name := group[0];
        var out := bodies(name)(ctx, results);
        calls := calls + [Call(name, results)];
        if out.Failure? {
          return Failure(StageFailed(out.error)), calls;
        }
        results := results.Put(name, out.value);
      } else if |group| == 0 {
        return Failure(EmptyGroup), calls;
      } else {
        var snapshot := results;
        var outs: seq<Result<O, string>> := [];
        var m := 0;
        while m < |group|
          invariant 0 <= m <= |group| && |outs| == m
          invariant forall i :: 0 <= i < m ==> outs[i] == bodies(group[i])(ctx, snapshot)
        {
          outs := outs + [bodies(group[m])(ctx, snapshot)];
          m := m + 1;
        }
        calls := calls + seq(|group|, i requires 0 <= i < |group| => Call(group[i], snapshot));
        assert outs == seq(|group|, i requires 0 <= i < |group| => bodies(group[i])(ctx, snapshot));
        m := 0;
        while m < |group|
          invariant 0 <= m <= |group|
          invariant Collect(group, outs, snapshot) == Collect(group[m..], outs[m..], results)
        {
          assert group[m..][1..] == group[m + 1..] && outs[m..][1..] == outs[m + 1..];
          if outs[m].Failure? {
            return Failure(StageFailed(outs[m].error)), calls;
          }
          results := results.Put(group[m], outs[m].value);
          m := m + 1;
        }
      }
      g := g + 1;
    }
    return Success(results), calls;
  }

  /** `run`: plan, then execute. */
  method Run<C, O>(reg: Registry, bodies: StageName -> Body<C, O>, ctx: C, enabled: seq<StageName>,
                   order: Option<seq<StageName>>, groups: Option<Plan>)
    returns (r: Result<Results<O>, RunError>, ghost built: Result<Plan, PlanError>, ghost calls: seq<Call<O>>)
    ensures PlanOutcome(reg, enabled, order, groups, built)
    ensures built.Failure? ==> r == Failure(PlanFailed(built.error)) && calls == []
    ensures built.Success? ==> RunOutcome(r, calls) == RunGroups(bodies, ctx, built.value, EmptyResults())
    ensures r.Success? ==> r.value.Valid() && NoDup(r.value.keys) && Elems(r.value.keys) == Elems(enabled)
    ensures r.Success? ==> Stages(calls) == r.value.keys
  {
    var plan := BuildPlan(reg, enabled, order, groups);
    built := plan;
    if plan.Failure? {
      return Failure(PlanFailed(plan.error)), plan, [];
    }
    r, calls := ExecutePlan(bodies, ctx, plan.value);
    PlannedStagesAreEnabled(reg, enabled, order, groups, built.value);
    RunKeysFollowPlan(bodies, ctx, built.value, EmptyResults());
    var _ := RunCallsFollowPlan(bodies, ctx, built.value, EmptyResults());
  }
}
