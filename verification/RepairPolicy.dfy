/**
 Choosing one isolated repair unit (`derive_repair_scope`) and deciding whether a
 candidate is a strict improvement (`compare_failure_sets`).
 */
module RepairPolicy {
  import opened Prelude
  import opened Pointers
  import opened RepairScopes

  datatype FeedbackMode = OracleOnly | ContractVisibleScope | Unspecified

  /** A gate's verdict; `violationIds` are the usable assertion IDs among its violations. */
  datatype GateResult = GateResult(
    gate: string,
    passed: bool,
    failureCode: string,
    violationIds: set<string>,
    repairScope: Option<RepairScope>)

  type Atom = (string, string)

  // ---------------------------------------------------------- failure atoms

  function ScopeAtoms(r: GateResult): Option<set<string>> {
    if r.repairScope.Some? && ScopeOk(r.repairScope.value) then Some(r.repairScope.value.failedRuleIds) else None
  }

  /** The failures one result stands for. */
  function ResultAtoms(r: GateResult): set<Atom> {
    if r.passed then {}
    else if r.violationIds != {} then set id | id in r.violationIds :: (r.gate, id)
    else if ScopeAtoms(r).Some? then set id | id in ScopeAtoms(r).value :: (r.gate, id)
    else {(r.gate, r.failureCode)}
  }

  predicate Counted(modes: seq<FeedbackMode>, i: nat) {
    i < |modes| ==> modes[i] != OracleOnly
  }

  /** `_failure_atoms`; an empty list of modes means no gates were given, so none is skipped. */
  function FailureAtoms(modes: seq<FeedbackMode>, results: seq<GateResult>): set<Atom> {
    set i, a | 0 <= i < |results| && Counted(modes, i) && a in ResultAtoms(results[i]) :: a
  }

  method CollectFailureAtoms(modes: seq<FeedbackMode>, results: seq<GateResult>) returns (atoms: set<Atom>)
    ensures atoms == FailureAtoms(modes, results)
  {
    atoms := {};
    for index := 0 to |results|
      invariant atoms == set i, a | 0 <= i < index && Counted(modes, i) && a in ResultAtoms(results[i]) :: a
    {
      if Counted(modes, index) {
        atoms := atoms + ResultAtoms(results[index]);
      }
    }
  }

  /** Atoms stand for failures: each names a counted gate that failed, and each such gate has at least one. */
  lemma {:induction false} AtomsAreFailures(modes: seq<FeedbackMode>, results: seq<GateResult>)
    ensures forall a :: a in FailureAtoms(modes, results) ==>
              exists i :: 0 <= i < |results| && Counted(modes, i) && !results[i].passed && results[i].gate == a.0
    ensures forall i :: 0 <= i < |results| && Counted(modes, i) && !results[i].passed ==>
              exists id :: (results[i].gate, id) in FailureAtoms(modes, results)
    ensures FailureAtoms(modes, results) == {}
            <==> forall i :: 0 <= i < |results| && Counted(modes, i) ==> results[i].passed
  {
    forall i | 0 <= i < |results| && Counted(modes, i) && !results[i].passed
      ensures exists id :: (results[i].gate, id) in FailureAtoms(modes, results)
    {
      var id := AtomOf(results[i]);
      assert (results[i].gate, id) in ResultAtoms(results[i]);
    }
    hide ScopeAtoms;
  }

  lemma {:induction false} AtomOf(r: GateResult) returns (id: string)
    requires !r.passed
    ensures (r.gate, id) in ResultAtoms(r)
  {
    if r.violationIds != {} {
      id :| id in r.violationIds;
    } else if ScopeAtoms(r).Some? {
      assert r.repairScope.value.failedRuleIds != {};
      id :| id in ScopeAtoms(r).value;
    } else {
      id := r.failureCode;
    }
  }

  datatype Reason = FailureRegression | TargetNotResolved | NoStrictImprovement | StrictImprovement

  datatype Comparison = Comparison(reason: Reason, resolved: set<Atom>, introduced: set<Atom>) {
    predicate Accepted() {
      reason == StrictImprovement
    }
  }

  /** `compare_failure_sets` on the two sets of atoms. */
  function CompareFailures(before: set<Atom>, after: set<Atom>, required: set<string>): Comparison {
    var resolved, introduced := before - after, after - before;
    var requiredBefore := set a | a in before && a.1 in required;
    if introduced != {} then Comparison(FailureRegression, resolved, introduced)
    else if required != {} && (requiredBefore == {} || requiredBefore * after != {})
      then Comparison(TargetNotResolved, resolved, {})
    else if resolved == {} then Comparison(NoStrictImprovement, {}, {})
    else Comparison(StrictImprovement, resolved, {})
  }

  /** Acceptance is proper inclusion of the failures, with every required rule among those removed. */
  lemma {:induction false} AcceptedIsStrictProgress(before: set<Atom>, after: set<Atom>, required: set<string>)
    ensures CompareFailures(before, after, required).Accepted() <==>
            && after < before
            && (required != {} ==> exists a :: a in before && a.1 in required)
            && (forall a :: a in after ==> a.1 !in required)
  {
    var requiredBefore := set a | a in before && a.1 in required;
    if CompareFailures(before, after, required).Accepted() {
      assert forall a :: a in after && a !in before ==> a in after - before;
      assert forall a :: a in after && a in before && a.1 in required ==> a in requiredBefore * after;
      if required != {} {
        var a :| a in requiredBefore;
      }
    } else if after < before && (forall a :: a in after ==> a.1 !in required) && required != {} {
      if a :| a in before && a.1 in required {
        assert a in requiredBefore;
      }
    }
  }

  // ---------------------------------------------------------- connected scopes

  /** The two scopes share an overlapping editable path or an atomic group. */
  predicate Linked(a: RepairScope, b: RepairScope) {
    || (exists p :: p in a.editablePaths && OverlapsAny(p, b.editablePaths))
    || a.atomicGroups.Keys * b.atomicGroups.Keys != {}
  }

  lemma {:induction false} LinkedIsSymmetric(a: RepairScope, b: RepairScope)
    ensures Linked(a, b) <==> Linked(b, a)
  {
    if Linked(a, b) {
      LinkedBack(a, b);
    }
    if Linked(b, a) {
      LinkedBack(b, a);
    }
  }

  lemma {:induction false} LinkedBack(a: RepairScope, b: RepairScope)
    requires Linked(a, b)
    ensures Linked(b, a)
  {
    if p :| p in a.editablePaths && OverlapsAny(p, b.editablePaths) {
      var q :| q in b.editablePaths && Overlap(p, q);
      assert Overlap(q, p) && OverlapsAny(q, a.editablePaths);
    }
  }

  function Elems<T>(s: seq<T>): set<T> {
    set x | x in s
  }

  predicate Distinct<T(==)>(s: seq<T>) {
    forall i, j :: 0 <= i < j < |s| ==> s[i] != s[j]
  }

  /** `b` can be reached from `a` in `n` links inside `scopes`. */
  ghost predicate ReachedIn(scopes: set<RepairScope>, a: RepairScope, b: RepairScope, n: nat)
    decreases n
  {
    if n == 0 then a == b && a in scopes
    else b in scopes && exists c :: ReachedIn(scopes, a, c, n - 1) && Linked(c, b)
  }

  ghost predicate Reachable(scopes: set<RepairScope>, a: RepairScope, b: RepairScope) {
    exists n: nat :: ReachedIn(scopes, a, b, n)
  }

  /** The scopes connected to `first`; it depends on the set of scopes only, not on their order. */
  ghost function Component(scopes: set<RepairScope>, first: RepairScope): set<RepairScope> {
    set s | s in scopes && Reachable(scopes, first, s)
  }

  /** A set holding `first`, closed under links and reachable, is the component. */
  lemma {:induction false} ClosedAndReachableIsComponent(scopes: set<RepairScope>, first: RepairScope,
                                                         chosen: set<RepairScope>)
    requires first in chosen && chosen <= scopes
    requires forall s :: s in chosen ==> Reachable(scopes, first, s)
    requires forall s, t :: s in chosen && t in scopes - chosen ==> !Linked(s, t)
    ensures chosen == Component(scopes, first)
  {
    forall s | s in Component(scopes, first) ensures s in chosen {
      var n: nat :| ReachedIn(scopes, first, s, n);
      ReachedIsChosen(scopes, first, chosen, s, n);
    }
  }

  lemma {:induction false} ReachedIsChosen(scopes: set<RepairScope>, first: RepairScope, chosen: set<RepairScope>,
                                           s: RepairScope, n: nat)
    requires first in chosen && chosen <= scopes
    requires forall s, t :: s in chosen && t in scopes - chosen ==> !Linked(s, t)
    requires ReachedIn(scopes, first, s, n)
    ensures s in chosen
    decreases n
  {
    if n > 0 {
      var c :| ReachedIn(scopes, first, c, n - 1) && Linked(c, s);
      ReachedIsChosen(scopes, first, chosen, c, n - 1);
    }
  }

  /** Nothing left out of the component shares a path or a group with anything in it. */
  lemma {:induction false} ComponentIsIsolated(scopes: set<RepairScope>, first: RepairScope, s: RepairScope,
                                               t: RepairScope)
    requires s in Component(scopes, first) && t in scopes && t !in Component(scopes, first)
    ensures !Linked(s, t) && !Linked(t, s)
  {
    var n: nat :| ReachedIn(scopes, first, s, n);
    LinkedIsSymmetric(t, s);
    assert !ReachedIn(scopes, first, t, n + 1);
  }

  function RemoveFirst<T(==)>(s: seq<T>, x: T): (r: seq<T>)
    requires x in s
    ensures |r| == |s| - 1
  {
    if s[0] == x then s[1..] else [s[0]] + RemoveFirst(s[1..], x)
  }

  lemma {:induction false} RemoveFirstMembers<T>(s: seq<T>, x: T, y: T)
    requires x in s && y != x
    ensures y in RemoveFirst(s, x) <==> y in s
  {
    assert s == [s[0]] + s[1..];
    if s[0] != x {
      RemoveFirstMembers(s[1..], x, y);
    }
  }

  lemma {:induction false} RemoveFirstDistinct<T>(s: seq<T>, x: T)
    requires x in s && Distinct(s)
    ensures Distinct(RemoveFirst(s, x)) && x !in RemoveFirst(s, x)
  {
    assert s == [s[0]] + s[1..];
    if s[0] != x {
      RemoveFirstDistinct(s[1..], x);
      RemoveFirstMembers(s[1..], x, s[0]);
    }
  }

  lemma {:induction false} RemoveFirstElems<T>(s: seq<T>, x: T)
    requires x in s && Distinct(s)
    ensures Distinct(RemoveFirst(s, x)) && Elems(RemoveFirst(s, x)) == Elems(s) - {x}
  {
    RemoveFirstDistinct(s, x);
    var r := RemoveFirst(s, x);
    forall y | y in Elems(r) ensures y in Elems(s) - {x} {
      RemoveFirstMembers(s, x, y);
    }
    forall y | y in Elems(s) - {x} ensures y in Elems(r) {
      RemoveFirstMembers(s, x, y);
    }
    assert Elems(r) == Elems(s) - {x};
  }

  ghost predicate Progressing(scopes: set<RepairScope>, first: RepairScope, selected: seq<RepairScope>,
                              remaining: seq<RepairScope>) {
    && Distinct(remaining)
    && Elems(selected) + Elems(remaining) == scopes && Elems(selected) !! Elems(remaining)
    && first in selected
    && forall s :: s in selected ==> Reachable(scopes, first, s)
  }

  lemma {:induction false} MoveOne(scopes: set<RepairScope>, first: RepairScope, selected: seq<RepairScope>,
                                   remaining: seq<RepairScope>,
                from: RepairScope, s: RepairScope)
    requires Progressing(scopes, first, selected, remaining)
    requires s in remaining && from in selected && Linked(from, s)
    ensures Progressing(scopes, first, selected + [s], RemoveFirst(remaining, s))
  {
    RemoveFirstElems(remaining, s);
    assert s in Elems(remaining) && s in scopes;
    var n: nat :| ReachedIn(scopes, first, from, n);
    assert ReachedIn(scopes, first, s, n + 1);
    assert Elems(selected + [s]) == Elems(selected) + {s};
    assert first in selected + [s];
  }

  lemma {:induction false} MoveKeepsTheRest(remaining: seq<RepairScope>, snapshot: seq<RepairScope>, i: nat)
    requires Distinct(remaining) && Distinct(snapshot) && i < |snapshot| && snapshot[i] in remaining
    ensures forall j :: 0 <= j < |snapshot| && j != i ==>
            (snapshot[j] in RemoveFirst(remaining, snapshot[i]) <==> snapshot[j] in remaining)
    ensures snapshot[i] !in RemoveFirst(remaining, snapshot[i])
  {
    RemoveFirstDistinct(remaining, snapshot[i]);
    forall j | 0 <= j < |snapshot| && j != i
      ensures snapshot[j] in RemoveFirst(remaining, snapshot[i]) <==> snapshot[j] in remaining
    {
      assert snapshot[j] != snapshot[i];
      RemoveFirstMembers(remaining, snapshot[i], snapshot[j]);
    }
  }

  /** The two nested loops that grow the selection until no scope moves. */
  method SelectConnected(scopes: seq<RepairScope>) returns (selected: seq<RepairScope>)
    requires scopes != [] && Distinct(scopes)
    ensures Elems(selected) == Component(Elems(scopes), scopes[0])
  {
    ghost var all, first := Elems(scopes), scopes[0];
    selected := [scopes[0]];
    var remaining := scopes[1..];
    assert scopes == selected + remaining;
    assert ReachedIn(all, first, first, 0);
    hide ReachedIn, Overlap, Component;
    var changed := true;
    while changed
      invariant Progressing(all, first, selected, remaining)
      invariant !changed ==> forall s, t :: s in selected && t in remaining ==> !Linked(s, t)
      decreases |remaining|, changed
    {
      changed := false;
      var selectedPaths := set s, p | s in selected && p in s.editablePaths :: p;
      var selectedGroups := set s, g | s in selected && g in s.atomicGroups :: g;
      var snapshot := remaining;
      ghost var frozen := selected;
      for i := 0 to |snapshot|
        invariant Progressing(all, first, selected, remaining)
        invariant frozen <= selected
        invariant forall j :: i <= j < |snapshot| ==> snapshot[j] in remaining
        invariant forall j, s :: 0 <= j < i && s in frozen && snapshot[j] in remaining ==> !Linked(s, snapshot[j])
        invariant if changed then |remaining| < |snapshot| else selected == frozen && remaining == snapshot
      {
        var scope := snapshot[i];
        var overlapsPath := exists p :: p in scope.editablePaths && OverlapsAny(p, selectedPaths);
        var overlapsGroup := selectedGroups * scope.atomicGroups.Keys != {};
        if overlapsPath || overlapsGroup {
          ghost var from := LinkWitness(frozen, scope, selectedPaths, selectedGroups);
          MoveOne(all, first, selected, remaining, from, scope);
          MoveKeepsTheRest(remaining, snapshot, i);
          selected := selected + [scope];
          remaining := RemoveFirst(remaining, scope);
          changed := true;
        } else {
          NoLink(frozen, scope, selectedPaths, selectedGroups);
        }
      }
    }
    forall s, t | s in Elems(selected) && t in all - Elems(selected) ensures !Linked(s, t) {
      assert t in Elems(remaining);
    }
    ClosedAndReachableIsComponent(all, first, Elems(selected));
  }

  lemma {:induction false} LinkWitness(frozen: seq<RepairScope>, scope: RepairScope, paths: set<string>,
                                       groups: set<string>)
      returns (from: RepairScope)
    requires paths == set s, p | s in frozen && p in s.editablePaths :: p
    requires groups == set s, g | s in frozen && g in s.atomicGroups :: g
    requires (exists p :: p in scope.editablePaths && OverlapsAny(p, paths)) || groups * scope.atomicGroups.Keys != {}
    ensures from in frozen && Linked(from, scope)
  {
    if p :| p in scope.editablePaths && OverlapsAny(p, paths) {
      var q :| q in paths && Overlap(p, q);
      var s :| s in frozen && q in s.editablePaths;
      assert OverlapsAny(p, s.editablePaths);
      LinkedIsSymmetric(scope, s);
      from := s;
    } else {
      var g :| g in groups * scope.atomicGroups.Keys;
      var s :| s in frozen && g in s.atomicGroups;
      assert g in s.atomicGroups.Keys * scope.atomicGroups.Keys;
      from := s;
    }
  }

  lemma {:induction false} NoLink(frozen: seq<RepairScope>, scope: RepairScope, paths: set<string>, groups: set<string>)
    requires paths == set s, p | s in frozen && p in s.editablePaths :: p
    requires groups == set s, g | s in frozen && g in s.atomicGroups :: g
    requires !(exists p :: p in scope.editablePaths && OverlapsAny(p, paths)) && groups * scope.atomicGroups.Keys == {}
    ensures forall s :: s in frozen ==> !Linked(s, scope)
  {
    forall s | s in frozen ensures !Linked(s, scope) {
      forall p | p in scope.editablePaths ensures !OverlapsAny(p, s.editablePaths) {
        assert !OverlapsAny(p, paths);
        assert forall q :: q in s.editablePaths ==> q in paths;
      }
      assert s.atomicGroups.Keys <= groups;
      LinkedIsSymmetric(s, scope);
    }
  }

  // ---------------------------------------------------------- merging

  /** `RepairScope.merge` before its result is validated. */
  function Union(scopes: set<RepairScope>): RepairScope {
    var groupIds := set s, g | s in scopes && g in s.atomicGroups :: g;
    RepairScope(
      (set s, x | s in scopes && x in s.failedRuleIds :: x),
      (set s, x | s in scopes && x in s.ruleIds :: x),
      (set s, x | s in scopes && x in s.editablePaths :: x),
      (map g | g in groupIds :: GroupPaths(scopes, g)),
      (set s, x | s in scopes && x in s.sourcePointers :: x))
  }

  function GroupPaths(scopes: set<RepairScope>, g: string): set<string> {
    set s, p | s in scopes && g in s.atomicGroups && p in s.atomicGroups[g] :: p
  }

  function Merge(scopes: set<RepairScope>): Option<RepairScope> {
    if ScopeOk(Union(scopes)) then Some(Union(scopes)) else None
  }

  // ---------------------------------------------------------- the whole derivation

  /** The scopes of the failing non-oracle gates, or `None` if one is missing, invalid or repeats a rule. */
  function AdvertisedScopes(modes: seq<FeedbackMode>, results: seq<GateResult>): Option<seq<RepairScope>>
    requires |modes| == |results|
  {
    if results == [] then Some([])
    else
      var n := |results| - 1;
      AddAdvertised(AdvertisedScopes(modes[..n], results[..n]), modes[n], results[n])
  }

  /** One gate of that loop. */
  function AddAdvertised(found: Option<seq<RepairScope>>, mode: FeedbackMode,
                         result: GateResult): Option<seq<RepairScope>> {
    if found.None? || result.passed || mode == OracleOnly then found
    else if mode != ContractVisibleScope || result.repairScope.None? || !ScopeOk(result.repairScope.value) then None
    else if exists s :: s in found.value && s.failedRuleIds * result.repairScope.value.failedRuleIds != {} then None
    else Some(found.value + [result.repairScope.value])
  }

  lemma {:induction false} AdvertisedPrefix(modes: seq<FeedbackMode>, results: seq<GateResult>, i: nat)
    requires |modes| == |results| && i < |results|
    ensures AdvertisedScopes(modes[..i + 1], results[..i + 1])
            == AddAdvertised(AdvertisedScopes(modes[..i], results[..i]), modes[i], results[i])
  {
    assert modes[..i + 1][..i] == modes[..i] && results[..i + 1][..i] == results[..i];
  }

  /** A failing gate that must advertise a scope for there to be a repair. */
  predicate MustAdvertise(modes: seq<FeedbackMode>, results: seq<GateResult>, i: nat)
    requires |modes| == |results|
  {
    i < |results| && !results[i].passed && modes[i] != OracleOnly
  }

  /** It does: a valid scope, in a contract-visible mode. */
  predicate Advertises(modes: seq<FeedbackMode>, results: seq<GateResult>, i: nat)
    requires |modes| == |results| && i < |results|
  {
    modes[i] == ContractVisibleScope && results[i].repairScope.Some? && ScopeOk(results[i].repairScope.value)
  }

  /** Every failing gate that must advertise does, and no rule is claimed by two of them. */
  predicate AllAdvertise(modes: seq<FeedbackMode>, results: seq<GateResult>)
    requires |modes| == |results|
  {
    && (forall i: nat :: i < |results| && MustAdvertise(modes, results, i) ==> Advertises(modes, results, i))
    && (forall i: nat, j: nat ::
          i < j < |results| && MustAdvertise(modes, results, i) && MustAdvertise(modes, results, j) ==>
            results[i].repairScope.value.failedRuleIds !! results[j].repairScope.value.failedRuleIds)
  }

  ghost predicate IsAdvertised(modes: seq<FeedbackMode>, results: seq<GateResult>, s: RepairScope)
    requires |modes| == |results|
  {
    exists i: nat :: i < |results| && MustAdvertise(modes, results, i) && results[i].repairScope == Some(s)
  }

  lemma {:induction false} AdvertisedGrows(modes: seq<FeedbackMode>, results: seq<GateResult>, mode: FeedbackMode,
                                           r: GateResult, s: RepairScope)
    requires |modes| == |results|
    ensures IsAdvertised(modes + [mode], results + [r], s) <==>
              IsAdvertised(modes, results, s) || (!r.passed && mode != OracleOnly && r.repairScope == Some(s))
  {
    var ms, rs := modes + [mode], results + [r];
    if i: nat :| i < |results| && MustAdvertise(modes, results, i) && results[i].repairScope == Some(s) {
      assert MustAdvertise(ms, rs, i) && rs[i].repairScope == Some(s);
    }
    if !r.passed && mode != OracleOnly && r.repairScope == Some(s) {
      assert MustAdvertise(ms, rs, |results|);
    }
    if i: nat :| i < |rs| && MustAdvertise(ms, rs, i) && rs[i].repairScope == Some(s) {
      assert i < |results| ==> MustAdvertise(modes, results, i);
    }
  }

  lemma {:induction false} FrontIsSame(modes: seq<FeedbackMode>, results: seq<GateResult>, mode: FeedbackMode,
                                       r: GateResult, i: nat)
    requires |modes| == |results| && i < |results|
    ensures MustAdvertise(modes + [mode], results + [r], i) <==> MustAdvertise(modes, results, i)
    ensures Advertises(modes + [mode], results + [r], i) <==> Advertises(modes, results, i)
    ensures (results + [r])[i] == results[i]
  {
    hide ScopeOk;
  }

  /** What the last gate must satisfy beside those before it. */
  ghost predicate LastAdvertises(modes: seq<FeedbackMode>, results: seq<GateResult>, mode: FeedbackMode, r: GateResult)
    requires |modes| == |results|
  {
    !r.passed && mode != OracleOnly ==>
      && mode == ContractVisibleScope && r.repairScope.Some? && ScopeOk(r.repairScope.value)
      && forall s :: IsAdvertised(modes, results, s) ==> s.failedRuleIds !! r.repairScope.value.failedRuleIds
  }

  lemma {:induction false} LastFollows(modes: seq<FeedbackMode>, results: seq<GateResult>, mode: FeedbackMode,
                                       r: GateResult)
    requires |modes| == |results| && AllAdvertise(modes + [mode], results + [r])
    ensures AllAdvertise(modes, results) && LastAdvertises(modes, results, mode, r)
  {
    hide ScopeOk;
    var ms, rs, n := modes + [mode], results + [r], |results|;
    forall i: nat | i < n && MustAdvertise(modes, results, i)
      ensures Advertises(modes, results, i)
    {
      FrontIsSame(modes, results, mode, r, i);
    }
    forall i: nat, j: nat | i < j < n && MustAdvertise(modes, results, i) && MustAdvertise(modes, results, j)
      ensures results[i].repairScope.value.failedRuleIds !! results[j].repairScope.value.failedRuleIds
    {
      FrontIsSame(modes, results, mode, r, i);
      FrontIsSame(modes, results, mode, r, j);
    }
    if !r.passed && mode != OracleOnly {
      assert MustAdvertise(ms, rs, n) && Advertises(ms, rs, n);
      forall s | IsAdvertised(modes, results, s)
        ensures s.failedRuleIds !! r.repairScope.value.failedRuleIds
      {
        var i: nat :| i < n && MustAdvertise(modes, results, i) && results[i].repairScope == Some(s);
        FrontIsSame(modes, results, mode, r, i);
      }
    }
  }

  lemma {:induction false} LastIsEnough(modes: seq<FeedbackMode>, results: seq<GateResult>, mode: FeedbackMode,
                                        r: GateResult)
    requires |modes| == |results| && AllAdvertise(modes, results) && LastAdvertises(modes, results, mode, r)
    ensures AllAdvertise(modes + [mode], results + [r])
  {
    hide ScopeOk;
    var ms, rs, n := modes + [mode], results + [r], |results|;
    forall i: nat | i < |rs| && MustAdvertise(ms, rs, i)
      ensures Advertises(ms, rs, i)
    {
      if i < n {
        FrontIsSame(modes, results, mode, r, i);
      }
    }
    forall i: nat, j: nat | i < j < |rs| && MustAdvertise(ms, rs, i) && MustAdvertise(ms, rs, j)
      ensures rs[i].repairScope.value.failedRuleIds !! rs[j].repairScope.value.failedRuleIds
    {
      FrontIsSame(modes, results, mode, r, i);
      if j < n {
        FrontIsSame(modes, results, mode, r, j);
      } else {
        assert Advertises(modes, results, i) && IsAdvertised(modes, results, results[i].repairScope.value);
      }
    }
  }

  lemma {:induction false} NothingInCommon<T>(a: set<T>, b: set<T>)
    ensures a * b == {} <==> a !! b
  {
    if a * b == {} {
      forall x | x in a
        ensures x !in b
      {
        assert x in b ==> x in a * b;
      }
    }
  }

  lemma {:induction false} OneMoreGate(modes: seq<FeedbackMode>, results: seq<GateResult>, mode: FeedbackMode,
                                       r: GateResult,
                                       found: seq<RepairScope>)
    requires |modes| == |results| && forall s :: s in found <==> IsAdvertised(modes, results, s)
    ensures AddAdvertised(Some(found), mode, r).Some? <==> LastAdvertises(modes, results, mode, r)
    ensures AddAdvertised(Some(found), mode, r).Some? ==>
              forall s :: s in AddAdvertised(Some(found), mode, r).value <==>
                            IsAdvertised(modes, results, s)
                              || (!r.passed && mode != OracleOnly && r.repairScope == Some(s))
  {
    hide ScopeOk, IsAdvertised;
    if r.repairScope.Some? {
      var rules := r.repairScope.value.failedRuleIds;
      forall s: RepairScope
        ensures s.failedRuleIds * rules == {} <==> s.failedRuleIds !! rules
      {
        NothingInCommon(s.failedRuleIds, rules);
      }
    }
  }

  /** The scopes are gathered exactly when all advertise, and then they are the advertised ones. */
  lemma {:induction false} GatheredExactlyWhen(modes: seq<FeedbackMode>, results: seq<GateResult>)
    requires |modes| == |results|
    ensures AdvertisedScopes(modes, results).Some? <==> AllAdvertise(modes, results)
    ensures AdvertisedScopes(modes, results).Some? ==>
              forall s :: s in AdvertisedScopes(modes, results).value <==> IsAdvertised(modes, results, s)
  {
    hide ScopeOk;
    if results != [] {
      var n := |results| - 1;
      var ms, rs := modes[..n], results[..n];
      assert modes == ms + [modes[n]] && results == rs + [results[n]];
      GatheredExactlyWhen(ms, rs);
      if AdvertisedScopes(ms, rs).Some? {
        OneMoreGate(ms, rs, modes[n], results[n], AdvertisedScopes(ms, rs).value);
      }
      forall s
        ensures IsAdvertised(modes, results, s) <==>
                  IsAdvertised(ms, rs, s)
                    || (!results[n].passed && modes[n] != OracleOnly && results[n].repairScope == Some(s))
      {
        AdvertisedGrows(ms, rs, modes[n], results[n], s);
      }
      if AllAdvertise(modes, results) {
        LastFollows(ms, rs, modes[n], results[n]);
      }
      if AllAdvertise(ms, rs) && LastAdvertises(ms, rs, modes[n], results[n]) {
        LastIsEnough(ms, rs, modes[n], results[n]);
      }
      hide AllAdvertise, IsAdvertised, LastAdvertises, AddAdvertised;
    }
  }

  lemma {:induction false} AdvertisedScopesAreValid(modes: seq<FeedbackMode>, results: seq<GateResult>)
    requires |modes| == |results| && AdvertisedScopes(modes, results).Some?
    ensures forall s :: s in AdvertisedScopes(modes, results).value ==> ScopeOk(s)
  {
    if results != [] {
      AdvertisedScopesAreValid(modes[..|results| - 1], results[..|results| - 1]);
    }
  }

  predicate DisjointRules(scopes: seq<RepairScope>) {
    && (forall s :: s in scopes ==> s.failedRuleIds != {})
    && (forall i, j :: 0 <= i < j < |scopes| ==> scopes[i].failedRuleIds * scopes[j].failedRuleIds == {})
  }

  lemma {:induction false} HasFailedRules(s: RepairScope)
    requires ScopeOk(s)
    ensures s.failedRuleIds != {}
  {
  }

  lemma {:induction false} DisjointRulesAreDistinct(scopes: seq<RepairScope>)
    requires DisjointRules(scopes)
    ensures Distinct(scopes)
  {
    forall i, j | 0 <= i < j < |scopes| ensures scopes[i] != scopes[j] {
      assert scopes[i].failedRuleIds * scopes[i].failedRuleIds == scopes[i].failedRuleIds;
    }
  }

  lemma {:induction false} AdvertisedRulesAreDisjoint(modes: seq<FeedbackMode>, results: seq<GateResult>)
    requires |modes| == |results| && AdvertisedScopes(modes, results).Some?
    ensures DisjointRules(AdvertisedScopes(modes, results).value)
  {
    hide ScopeOk;
    if results != [] {
      var n := |results| - 1;
      AdvertisedRulesAreDisjoint(modes[..n], results[..n]);
      var before := AdvertisedScopes(modes[..n], results[..n]).value;
      if AdvertisedScopes(modes, results).value != before {
        HasFailedRules(results[n].repairScope.value);
        assert AdvertisedScopes(modes, results).value == before + [results[n].repairScope.value];
      }
    }
  }

  lemma {:induction false} FailingGatesAdvertise(modes: seq<FeedbackMode>, results: seq<GateResult>, i: nat)
    requires |modes| == |results| && AdvertisedScopes(modes, results).Some?
    requires i < |results| && !results[i].passed && modes[i] != OracleOnly
    ensures results[i].repairScope.Some? && results[i].repairScope.value in AdvertisedScopes(modes, results).value
  {
    var n := |results| - 1;
    var before := AdvertisedScopes(modes[..n], results[..n]);
    assert AdvertisedScopes(modes, results) == AddAdvertised(before, modes[n], results[n]);
    if i < n {
      assert results[..n][i] == results[i] && modes[..n][i] == modes[i];
      FailingGatesAdvertise(modes[..n], results[..n], i);
    }
  }

  /** `derive_repair_scope`. */
  ghost function DerivedScope(modes: seq<FeedbackMode>, results: seq<GateResult>): Option<RepairScope>
    requires |modes| == |results|
  {
    match AdvertisedScopes(modes, results)
    case None => None
    case Some(scopes) => if scopes == [] then None else Merge(Component(Elems(scopes), scopes[0]))
  }

  method DeriveRepairScope(modes: seq<FeedbackMode>, results: seq<GateResult>) returns (scope: Option<RepairScope>)
    requires |modes| == |results|
    ensures scope == DerivedScope(modes, results)
  {
    var scopes: seq<RepairScope> := [];
    var seen: set<string> := {};
    assert seen == SeenRules(scopes);
    hide ScopeOk, SeenRules, Component, Merge;
    for i := 0 to |results|
      invariant AdvertisedScopes(modes[..i], results[..i]) == Some(scopes)
      invariant seen == SeenRules(scopes)
    {
      AdvertisedPrefix(modes, results, i);
      var result := results[i];
      if result.passed || modes[i] == OracleOnly {
        continue;
      }
      if modes[i] != ContractVisibleScope || result.repairScope.None? || !ScopeOk(result.repairScope.value) {
        RefusalLasts(modes, results, i + 1);
        return None;
      }
      var one := result.repairScope.value;
      SeenMeansShared(scopes, one);
      if seen * one.failedRuleIds != {} {
        RefusalLasts(modes, results, i + 1);
        return None;
      }
      seen := seen + one.failedRuleIds;
      scopes := scopes + [one];
    }
    assert modes[..|results|] == modes && results[..|results|] == results;
    if scopes == [] {
      return None;
    }
    AdvertisedRulesAreDisjoint(modes, results);
    DisjointRulesAreDistinct(scopes);
    var selected := SelectConnected(scopes);
    scope := Merge(Elems(selected));
  }

  function SeenRules(scopes: seq<RepairScope>): set<string> {
    set s, x | s in scopes && x in s.failedRuleIds :: x
  }

  lemma {:induction false} SeenMeansShared(scopes: seq<RepairScope>, one: RepairScope)
    ensures SeenRules(scopes) * one.failedRuleIds != {}
            <==> exists s :: s in scopes && s.failedRuleIds * one.failedRuleIds != {}
    ensures SeenRules(scopes + [one]) == SeenRules(scopes) + one.failedRuleIds
  {
    if x :| x in SeenRules(scopes) * one.failedRuleIds {
      var s :| s in scopes && x in s.failedRuleIds;
      assert x in s.failedRuleIds * one.failedRuleIds;
    }
    if s :| s in scopes && s.failedRuleIds * one.failedRuleIds != {} {
      var x :| x in s.failedRuleIds * one.failedRuleIds;
      assert x in SeenRules(scopes) * one.failedRuleIds;
    }
  }

  lemma {:induction false} RefusalLasts(modes: seq<FeedbackMode>, results: seq<GateResult>, n: nat)
    requires |modes| == |results| && n <= |results|
    requires AdvertisedScopes(modes[..n], results[..n]).None?
    ensures AdvertisedScopes(modes, results).None?
    decreases |results| - n
  {
    if n < |results| {
      assert modes[..n + 1][..n] == modes[..n] && results[..n + 1][..n] == results[..n];
      RefusalLasts(modes, results, n + 1);
    } else {
      assert modes[..n] == modes && results[..n] == results;
    }
  }

  /** Nothing editable and no group in common. */
  predicate Isolated(a: RepairScope, b: RepairScope) {
    && a.atomicGroups.Keys !! b.atomicGroups.Keys
    && forall p, q :: p in a.editablePaths && q in b.editablePaths ==> !Overlap(p, q)
  }

  lemma {:induction false} UnlinkedIsIsolated(a: RepairScope, b: RepairScope)
    requires !Linked(a, b)
    ensures Isolated(a, b)
  {
    forall p, q | p in a.editablePaths && q in b.editablePaths ensures !Overlap(p, q) {
      assert !OverlapsAny(p, b.editablePaths);
    }
    forall g | g in a.atomicGroups ensures g !in b.atomicGroups {
      assert g in b.atomicGroups ==> g in a.atomicGroups.Keys * b.atomicGroups.Keys;
    }
  }

  lemma {:induction false} IsolatedFromUnion(scopes: set<RepairScope>, own: RepairScope)
    requires forall s :: s in scopes ==> Isolated(own, s)
    ensures Isolated(own, Union(scopes))
  {
    hide GroupPaths, Overlap;
    var d := Union(scopes);
    forall p, q | p in own.editablePaths && q in d.editablePaths ensures !Overlap(p, q) {
      var s :| s in scopes && q in s.editablePaths;
      assert Isolated(own, s);
    }
    forall g | g in d.atomicGroups ensures g !in own.atomicGroups {
      var s :| s in scopes && g in s.atomicGroups;
      assert Isolated(own, s) && g in s.atomicGroups.Keys;
    }
  }

  lemma {:induction false} PartOfUnion(scopes: set<RepairScope>, own: RepairScope)
    requires own in scopes
    ensures own.editablePaths <= Union(scopes).editablePaths && own.failedRuleIds <= Union(scopes).failedRuleIds
  {
  }

  /**
   A derived scope is a valid scope made of whole advertised scopes, and every failing
   gate whose scope was left out has no editable path and no group in common with it: a
   candidate confined to the derived scope cannot touch that gate's fields.
   */
  lemma {:induction false} DerivedScopeIsIsolated(modes: seq<FeedbackMode>, results: seq<GateResult>, i: nat)
    requires |modes| == |results| && DerivedScope(modes, results).Some?
    requires i < |results| && !results[i].passed && modes[i] != OracleOnly
    ensures var d := DerivedScope(modes, results).value;
            && ScopeOk(d) && results[i].repairScope.Some?
            && var own := results[i].repairScope.value;
               || (own.editablePaths <= d.editablePaths && own.failedRuleIds <= d.failedRuleIds)
               || Isolated(own, d)
  {
    FailingGatesAdvertise(modes, results, i);
    hide Component, Union, Isolated, AdvertisedScopes, ScopeOk, Linked;
    var scopes := AdvertisedScopes(modes, results).value;
    var own := results[i].repairScope.value;
    var component := Component(Elems(scopes), scopes[0]);
    if own in component {
      PartOfUnion(component, own);
    } else {
      forall s | s in component ensures Isolated(own, s) {
        ComponentIsIsolated(Elems(scopes), scopes[0], s, own);
        UnlinkedIsIsolated(own, s);
      }
      IsolatedFromUnion(component, own);
    }
  }

  // ---------------------------------------------------------- when the component merges

  /** What merging valid scopes can run into: too many items, or paths or groups of different scopes that collide. */
  predicate Compatible(scopes: set<RepairScope>) {
    var u := Union(scopes);
    && |u.failedRuleIds| <= MAX_ITEMS && |u.ruleIds| <= MAX_ITEMS && |u.editablePaths| <= MAX_ITEMS
    && |u.atomicGroups| <= MAX_ITEMS && |u.sourcePointers| <= MAX_ITEMS
    && (forall p, q :: p in u.editablePaths && q in u.editablePaths && p != q ==> !Overlap(p, q))
    && (forall g, h :: g in u.atomicGroups && h in u.atomicGroups && g != h ==> u.atomicGroups[g] !! u.atomicGroups[h])
  }

  lemma {:induction false} UnionRules(scopes: set<RepairScope>, one: RepairScope)
    requires one in scopes && forall s :: s in scopes ==> ScopeOk(s)
    ensures var u := Union(scopes);
            && u.failedRuleIds != {} && u.failedRuleIds <= u.ruleIds && u.editablePaths != {}
            && (forall id :: id in u.ruleIds ==> TextOk(id))
            && (forall p :: p in u.sourcePointers ==> SourcePointerOk(p))
  {
    hide TextOk, SourcePointerOk, ProposalPathsOk, GroupPaths;
    var u := Union(scopes);
    assert ScopeOk(one);
    var x, p :| x in one.failedRuleIds && p in one.editablePaths;
    assert x in u.failedRuleIds && p in u.editablePaths;
  }

  lemma {:induction false} UnionPaths(scopes: set<RepairScope>, paths: set<string>)
    requires (forall s :: s in scopes ==> ScopeOk(s)) && paths <= Union(scopes).editablePaths && |paths| <= MAX_ITEMS
    requires forall p, q :: p in paths && q in paths && p != q ==> !Overlap(p, q)
    ensures ProposalPathsOk(paths)
  {
    hide TextOk, SourcePointerOk, GroupPaths, Overlap, ValidPointer, CoveredBy;
    forall p | p in paths
      ensures p != "" && |p| <= MAX_SCOPE_PATH_LENGTH && ValidPointer(p) && CoveredBy(p, PROPOSAL_ROOTS)
    {
      var s :| s in scopes && p in s.editablePaths;
      assert ScopeOk(s);
    }
  }

  lemma {:induction false} UnionGroup(scopes: set<RepairScope>, g: string)
    requires (forall s :: s in scopes ==> ScopeOk(s)) && Compatible(scopes) && g in Union(scopes).atomicGroups
    ensures var u := Union(scopes);
            && TextOk(g) && u.atomicGroups[g] != {} && ProposalPathsOk(u.atomicGroups[g])
            && u.atomicGroups[g] <= u.editablePaths
  {
    hide TextOk, SourcePointerOk, Overlap, ProposalPathsOk;
    var u := Union(scopes);
    var s :| s in scopes && g in s.atomicGroups;
    assert ScopeOk(s);
    var p :| p in s.atomicGroups[g];
    assert p in u.atomicGroups[g];
    forall q | q in u.atomicGroups[g]
      ensures q in u.editablePaths
    {
      var t :| t in scopes && g in t.atomicGroups && q in t.atomicGroups[g];
      assert ScopeOk(t);
    }
    SubsetSize(u.atomicGroups[g], u.editablePaths);
    UnionPaths(scopes, u.atomicGroups[g]);
  }

  lemma {:induction false} CompatibleIsOk(scopes: set<RepairScope>, one: RepairScope)
    requires (one in scopes && forall s :: s in scopes ==> ScopeOk(s)) && Compatible(scopes)
    ensures ScopeOk(Union(scopes))
  {
    hide Union, TextOk, ProposalPathsOk, SourcePointerOk, Overlap;
    UnionRules(scopes, one);
    UnionPaths(scopes, Union(scopes).editablePaths);
    forall g | g in Union(scopes).atomicGroups
      ensures var u := Union(scopes);
              && TextOk(g) && u.atomicGroups[g] != {} && ProposalPathsOk(u.atomicGroups[g])
              && u.atomicGroups[g] <= u.editablePaths
    {
      UnionGroup(scopes, g);
    }
  }

  /** Valid scopes merge exactly when they are compatible: nothing else of `from_raw` can refuse the union. */
  lemma {:induction false} MergesExactlyWhenCompatible(scopes: set<RepairScope>, one: RepairScope)
    requires one in scopes && forall s :: s in scopes ==> ScopeOk(s)
    ensures Merge(scopes).Some? <==> Compatible(scopes)
  {
    hide ScopeOk, Compatible, Union;
    if Compatible(scopes) {
      CompatibleIsOk(scopes, one);
    } else if ScopeOk(Union(scopes)) {
      OkIsCompatible(scopes);
    }
  }

  lemma {:induction false} OkIsCompatible(scopes: set<RepairScope>)
    requires ScopeOk(Union(scopes))
    ensures Compatible(scopes)
  {
    hide Union, TextOk, SourcePointerOk, Overlap;
  }

  /**
   A scope is derived exactly when every failing gate that may advertise does so, there is one,
   and the scopes connected to the first are compatible.
   */
  lemma {:induction false} DerivedExactlyWhen(modes: seq<FeedbackMode>, results: seq<GateResult>)
    requires |modes| == |results|
    ensures DerivedScope(modes, results).Some? <==>
              && AdvertisedScopes(modes, results).Some? && AdvertisedScopes(modes, results).value != []
              && var scopes := AdvertisedScopes(modes, results).value;
                 Compatible(Component(Elems(scopes), scopes[0]))
  {
    hide AdvertisedScopes, Merge, ScopeOk, Compatible, ReachedIn;
    if AdvertisedScopes(modes, results).Some? && AdvertisedScopes(modes, results).value != [] {
      var scopes := AdvertisedScopes(modes, results).value;
      AdvertisedScopesAreValid(modes, results);
      FirstIsReached(Elems(scopes), scopes[0]);
      MergesExactlyWhenCompatible(Component(Elems(scopes), scopes[0]), scopes[0]);
    }
  }

  lemma {:induction false} FirstIsReached(scopes: set<RepairScope>, first: RepairScope)
    requires first in scopes
    ensures first in Component(scopes, first) && Component(scopes, first) <= scopes
  {
    assert ReachedIn(scopes, first, first, 0);
  }

  /** One scope lies inside another in everything it lists. */
  predicate Within(a: RepairScope, b: RepairScope) {
    && a.failedRuleIds <= b.failedRuleIds && a.ruleIds <= b.ruleIds && a.editablePaths <= b.editablePaths
    && a.sourcePointers <= b.sourcePointers
    && forall g :: g in a.atomicGroups ==> g in b.atomicGroups && a.atomicGroups[g] <= b.atomicGroups[g]
  }

  lemma {:induction false} MembersAreWithin(scopes: set<RepairScope>)
    ensures forall s :: s in scopes ==> Within(s, Union(scopes))
  {
  }

  /** An advertised scope that lies wholly within the derived one. */
  ghost predicate Supplies(modes: seq<FeedbackMode>, results: seq<GateResult>, s: RepairScope, d: RepairScope)
    requires |modes| == |results|
  {
    IsAdvertised(modes, results, s) && Within(s, d)
  }

  /** Whatever the scope lists, one of these parts lists. */
  ghost predicate MadeOf(d: RepairScope, parts: set<RepairScope>) {
    && (forall p :: p in d.editablePaths ==> exists s :: s in parts && p in s.editablePaths)
    && (forall x :: x in d.failedRuleIds ==> exists s :: s in parts && x in s.failedRuleIds)
    && (forall x :: x in d.ruleIds ==> exists s :: s in parts && x in s.ruleIds)
    && (forall x :: x in d.sourcePointers ==> exists s :: s in parts && x in s.sourcePointers)
    && (forall g :: g in d.atomicGroups ==> exists s :: s in parts && g in s.atomicGroups)
  }

  lemma {:induction false} UnionIsMadeOf(scopes: set<RepairScope>)
    ensures MadeOf(Union(scopes), scopes)
  {
    hide GroupPaths;
  }

  lemma {:induction false} DerivedIsUnion(modes: seq<FeedbackMode>, results: seq<GateResult>)
      returns (parts: set<RepairScope>)
    requires |modes| == |results| && DerivedScope(modes, results).Some?
    ensures AdvertisedScopes(modes, results).Some? && AdvertisedScopes(modes, results).value != []
    ensures AdvertisedScopes(modes, results).value[0] in parts && parts <= Elems(AdvertisedScopes(modes, results).value)
    ensures DerivedScope(modes, results) == Some(Union(parts))
  {
    hide AdvertisedScopes, ScopeOk, Union, Reachable, Component;
    var scopes := AdvertisedScopes(modes, results).value;
    parts := Component(Elems(scopes), scopes[0]);
    FirstIsReached(Elems(scopes), scopes[0]);
  }

  /**
   A derived scope is made of advertised ones: of whole scopes of failing gates, the first one
   advertised among them, and of nothing else.
   */
  lemma {:induction false} DerivedIsMadeOfAdvertised(modes: seq<FeedbackMode>, results: seq<GateResult>)
    returns (parts: set<RepairScope>)
    requires |modes| == |results| && DerivedScope(modes, results).Some?
    ensures AdvertisedScopes(modes, results).Some? && AdvertisedScopes(modes, results).value != []
    ensures AdvertisedScopes(modes, results).value[0] in parts
    ensures MadeOf(DerivedScope(modes, results).value, parts)
    ensures forall s :: s in parts ==> Supplies(modes, results, s, DerivedScope(modes, results).value)
  {
    hide DerivedScope, Union, AdvertisedScopes, Within, IsAdvertised, MadeOf;
    parts := DerivedIsUnion(modes, results);
    GatheredExactlyWhen(modes, results);
    MembersAreWithin(parts);
    UnionIsMadeOf(parts);
  }
}
