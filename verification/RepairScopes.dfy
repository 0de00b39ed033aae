/**
 Proposals and the value-free repair scopes that say which of their fields a repair
 may edit (`RepairScope`, `RuleAwareRepairPolicy`).

 The sorted tuples of the source are sets here; a scope's groups map a group ID to
 the group's editable paths.
 */
module RepairScopes {
  import opened Prelude
  import opened Json
  import opened Pointers
  import opened PointerAccess
  import opened Diff

  const MAX_ITEMS: nat := 512
  const MAX_TEXT_LENGTH: nat := 256
  const MAX_SCOPE_PATH_LENGTH: nat := 2048
  const PROPOSAL_ROOTS: set<string> := {"/result", "/claims", "/evidence", "/requested_actions"}
  const RESERVED_INPUT_ROOTS: set<string> := {"/expected_result", "/result_spec", "/semantic_assertions",
                                              "/repair_policy"}

  /** An agent proposal; `ToJson` is its `to_dict`. */
  datatype Proposal = Proposal(result: Json, claims: Json, evidence: Json, requestedActions: Json) {
    function ToJson(): Json {
      Obj(map["result" := result, "claims" := claims, "evidence" := evidence, "requested_actions" := requestedActions])
    }
  }

  datatype RepairScope = RepairScope(
    failedRuleIds: set<string>,
    ruleIds: set<string>,
    editablePaths: set<string>,
    atomicGroups: map<string, set<string>>,
    sourcePointers: set<string>)

  predicate TextOk(s: string) {
    NotBlank(s) && |s| <= MAX_TEXT_LENGTH
  }

  predicate OverlapsAny(path: string, candidates: set<string>) {
    exists c :: c in candidates && Overlap(path, c)
  }

  /** `_covered_by`, and the test against the proposal roots. */
  predicate CoveredBy(path: string, roots: set<string>) {
    exists r :: r in roots && Under(path, r)
  }

  /** `_proposal_paths` for a list known to be free of duplicates. */
  predicate ProposalPathsOk(paths: set<string>) {
    && |paths| <= MAX_ITEMS
    && (forall p :: p in paths ==>
        p != "" && |p| <= MAX_SCOPE_PATH_LENGTH && ValidPointer(p) && CoveredBy(p, PROPOSAL_ROOTS))
    && (forall p, q :: p in paths && q in paths && p != q ==> !Overlap(p, q))
  }

  predicate SourcePointerOk(p: string) {
    p != "" && |p| <= MAX_SCOPE_PATH_LENGTH && ValidPointer(p) && !OverlapsAny(p, RESERVED_INPUT_ROOTS)
  }

  /** What `RepairScope.from_raw` accepts. */
  predicate ScopeOk(s: RepairScope) {
    && s.failedRuleIds != {} && s.failedRuleIds <= s.ruleIds
    && |s.failedRuleIds| <= MAX_ITEMS && |s.ruleIds| <= MAX_ITEMS
    && (forall id :: id in s.ruleIds ==> TextOk(id))
    && s.editablePaths != {} && ProposalPathsOk(s.editablePaths)
    && |s.atomicGroups| <= MAX_ITEMS
    && (forall g :: g in s.atomicGroups ==>
          TextOk(g) && s.atomicGroups[g] != {} && ProposalPathsOk(s.atomicGroups[g])
            && s.atomicGroups[g] <= s.editablePaths)
    && (forall g, h :: g in s.atomicGroups && h in s.atomicGroups && g != h ==> s.atomicGroups[g] !! s.atomicGroups[h])
    && |s.sourcePointers| <= MAX_ITEMS
    && (forall p :: p in s.sourcePointers ==> SourcePointerOk(p))
  }

  /** The only policy field with a choice in it; the others are fixed by `from_raw`. */
  datatype Policy = Policy(immutablePaths: set<string>)

  predicate PolicyOk(p: Policy) {
    ProposalPathsOk(p.immutablePaths) && |p.immutablePaths| <= 256
  }

  // ------------------------------------------------------- candidate changes

  datatype ChangeAssessment = ChangeAssessment(changedPaths: set<string>, outsidePaths: set<string>) {
    predicate Allowed() {
      outsidePaths == {}
    }
  }

  /** `assess_candidate_changes`. */
  function AssessChanges(baseline: Proposal, candidate: Proposal, scope: RepairScope,
                         policy: Policy): ChangeAssessment {
    var changed := ChangedPaths(baseline.ToJson(), candidate.ToJson(), "");
    ChangeAssessment(changed,
      set p | p in changed && (!CoveredBy(p, scope.editablePaths) || OverlapsAny(p, policy.immutablePaths)))
  }

  /** The candidate changed nothing outside these paths. */
  ghost predicate ConfinedTo(baseline: Proposal, candidate: Proposal, paths: set<string>) {
    forall c :: c in ChangedPaths(baseline.ToJson(), candidate.ToJson(), "") ==> CoveredBy(c, paths)
  }

  lemma {:induction false} ResultTokens(pointer: string)
    requires ValidPointer(pointer)
    ensures ValidPointer("/result" + pointer)
    ensures Tokens("/result" + pointer) == ["result"] + Tokens(pointer)
  {
    PlainName("result");
    assert "/" + "result" == "/result";
    AppendPointer("/result", pointer);
  }

  lemma {:induction false} ReadThroughProposal(p: Proposal, pointer: string)
    requires ValidPointer(pointer)
    ensures ResolveAt(p.ToJson(), "/result" + pointer) == ResolveAt(p.result, pointer)
  {
    ResultTokens(pointer);
    assert (["result"] + Tokens(pointer))[1..] == Tokens(pointer);
  }

  /** A pointer that overlaps none of the paths a candidate was confined to still reads the same. */
  lemma {:induction false} ConfinedChangesFrame(baseline: Proposal, candidate: Proposal, paths: set<string>,
                                                pointer: string)
    requires ValidPointer(pointer) && !OverlapsAny(pointer, paths)
    requires forall e :: e in paths ==> ValidPointer(e)
    requires ConfinedTo(baseline, candidate, paths)
    ensures ResolveAt(baseline.ToJson(), pointer) == ResolveAt(candidate.ToJson(), pointer)
  {
    var b, c := baseline.ToJson(), candidate.ToJson();
    forall p | p in ChangedPaths(b, c, "") ensures !Overlap(pointer, p) {
      ChangedPathsAreValid(b, c, "", p);
      var e :| e in paths && Under(p, e);
      UnderIsTokenPrefix(p, e);
      assert !Overlap(pointer, e);
      OverlapIsComparability(pointer, e);
      OverlapIsComparability(pointer, p);
    }
    DiffSoundness(b, c, pointer);
  }

  /** An allowed candidate keeps the value, or the absence, of everything at an immutable path. */
  lemma {:induction false} AllowedChangesKeepImmutable(baseline: Proposal, candidate: Proposal, scope: RepairScope,
                                                       policy: Policy,
                                    path: string)
    requires PolicyOk(policy) && path in policy.immutablePaths
    requires AssessChanges(baseline, candidate, scope, policy).Allowed()
    ensures ResolveAt(baseline.ToJson(), path) == ResolveAt(candidate.ToJson(), path)
  {
    var a := AssessChanges(baseline, candidate, scope, policy);
    forall p | p in ChangedPaths(baseline.ToJson(), candidate.ToJson(), "") ensures !Overlap(path, p) {
      assert p !in a.outsidePaths;
      assert !OverlapsAny(p, policy.immutablePaths);
    }
    DiffSoundness(baseline.ToJson(), candidate.ToJson(), path);
  }

  /** `Allowed` says exactly: every difference is editable and none touches an immutable path. */
  lemma {:induction false} AllowedMeansConfined(baseline: Proposal, candidate: Proposal, scope: RepairScope,
                                                policy: Policy)
    ensures AssessChanges(baseline, candidate, scope, policy).Allowed() <==>
            ConfinedTo(baseline, candidate, scope.editablePaths)
            && forall c :: c in ChangedPaths(baseline.ToJson(), candidate.ToJson(), "") ==>
               !OverlapsAny(c, policy.immutablePaths)
  {
    var a := AssessChanges(baseline, candidate, scope, policy);
    if a.Allowed() {
      forall c | c in ChangedPaths(baseline.ToJson(), candidate.ToJson(), "")
        ensures CoveredBy(c, scope.editablePaths) && !OverlapsAny(c, policy.immutablePaths)
      {
        assert c !in a.outsidePaths;
      }
    }
  }
}
