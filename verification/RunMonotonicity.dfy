/**
 Whole-run properties of the controller: under a repair policy every adopted baseline
 strictly improves on the one before and keeps the immutable fields of the first
 proposal, and a run returns the verdicts of the proposal it returns.
 */
module RunMonotonicity {
  import opened Prelude
  import opened Json
  import opened Pointers
  import opened PointerAccess
  import opened RepairScopes
  import opened RepairPolicy
  import opened Controller

  // ------------------------------------------- any engine whose acceptances improve

  ghost predicate Ordered(better: (Proposal, Proposal) -> bool, chain: seq<Proposal>) {
    forall i, j :: 0 <= i < j < |chain| ==> better(chain[i], chain[j])
  }

  ghost predicate Transitive(better: (Proposal, Proposal) -> bool) {
    forall p, q, r :: better(p, q) && better(q, r) ==> better(p, r)
  }

  /** Everything a rule-aware engine adopts over a baseline is better than that baseline. */
  ghost predicate Improving(e: Engine, better: (Proposal, Proposal) -> bool) {
    && Transitive(better)
    && (forall p, seen :: e.nextRepair(p, seen).Some? ==> better(p, e.nextRepair(p, seen).value))
    && (forall b: Baseline, scope, c :: b.results == e.verdicts(b.proposal) && e.accepts(b, scope, c) ==>
        better(b.proposal, c))
  }

  lemma {:induction false} OrderedAppend(better: (Proposal, Proposal) -> bool, a: seq<Proposal>, b: seq<Proposal>)
    requires Transitive(better) && a != [] && b != []
    requires Ordered(better, a) && Ordered(better, b) && better(a[|a| - 1], b[0])
    ensures Ordered(better, a + b)
  {
    forall i, j | 0 <= i < j < |a + b| ensures better((a + b)[i], (a + b)[j]) {
      if i < |a| <= j {
        assert i < |a| - 1 ==> better(a[i], a[|a| - 1]);
        assert 0 < j - |a| ==> better(b[0], b[j - |a|]);
      }
    }
  }

  lemma {:induction false} RepairChainIsOrdered(e: Engine, better: (Proposal, Proposal) -> bool, p: Proposal,
                                                seen: set<Proposal>, steps: nat)
    requires Improving(e, better)
    ensures Ordered(better, RepairChain(e, p, seen, steps))
    decreases steps
  {
    if steps > 0 && e.nextRepair(p, seen).Some? {
      var next := e.nextRepair(p, seen).value;
      RepairChainIsOrdered(e, better, next, seen + {next}, steps - 1);
      OrderedAppend(better, [p], RepairChain(e, next, seen + {next}, steps - 1));
    }
  }

  /** A remembered baseline carries its own verdicts. */
  predicate Paired(e: Engine, b: Option<Baseline>) {
    b.Some? ==> b.value.results == e.verdicts(b.value.proposal)
  }

  /** What holds between attempts. */
  ghost predicate StateOk(e: Engine, better: (Proposal, Proposal) -> bool, attempt: nat, st: RunState) {
    && Paired(e, st.best) && Paired(e, st.last)
    && st.last == st.best
    && (st.best.Some? <==> st.adopted != []) && (st.adopted == [] ==> st.fingerprints == {})
    && (st.best.Some? ==> st.best.value.proposal == st.adopted[|st.adopted| - 1] && !AllPassed(st.best.value.results))
    && (e.ruleAware ==>
          && Ordered(better, st.adopted)
          && (st.best.Some? <==> st.scope.Some?)
          && (if st.adopted == [] then attempt == 1 && st.fingerprints == {}
              else e.runtime(1) == Proposed(st.adopted[0])))
    && (!e.ruleAware ==> st.scope.None?)
  }

  /** How a run ends once every gate has passed. */
  function PassingReason(requiresApproval: bool, humanApproved: bool, identityCapturable: bool): RunReason {
    if humanApproved || !requiresApproval then RunSucceeded
    else if identityCapturable then HumanApprovalRequired
    else ControlPlaneIdentityFailed
  }

  /** What holds of a finished run. */
  ghost predicate ResultOk(e: Engine, better: (Proposal, Proposal) -> bool, result: RunResult, adopted: seq<Proposal>) {
    && (result.reason != NoProgress || e.ruleAware ==>
          if result.proposal.Some? then result.results == e.verdicts(result.proposal.value) else result.results == [])
    && (result.reason == NoProgress && !e.ruleAware ==>
          result.proposal.Some? && adopted != [] && result.results == e.verdicts(adopted[|adopted| - 1]))
    && (result.reason in {RunSucceeded, HumanApprovalRequired, ControlPlaneIdentityFailed} <==>
          result.proposal.Some? && AllPassed(result.results))
    && (result.proposal.Some? && AllPassed(result.results) ==>
          result.reason == PassingReason(e.requiresApproval, e.humanApproved, e.identityCapturable))
    && (result.status == Succeeded <==> result.reason == RunSucceeded)
    && (e.ruleAware ==>
          && Ordered(better, adopted)
          && result.proposal == (if adopted == [] then None else Some(adopted[|adopted| - 1]))
          && (adopted != [] ==> e.runtime(1) == Proposed(adopted[0])))
  }

  lemma {:induction false} AdoptionIsOrdered(e: Engine, better: (Proposal, Proposal) -> bool, attempt: nat,
                                             st: RunState, proposal: Proposal)
    requires e.ruleAware && Improving(e, better) && StateOk(e, better, attempt, st)
    requires e.runtime(attempt) == Proposed(proposal)
    requires Scoped(e, st) ==> e.accepts(st.best.value, st.scope.value, proposal)
    ensures var adopted := st.adopted + RepairChain(e, proposal, {proposal}, e.stepLimit);
            Ordered(better, adopted) && e.runtime(1) == Proposed(adopted[0])
  {
    RepairChainIsOrdered(e, better, proposal, {proposal}, e.stepLimit);
    var chain := RepairChain(e, proposal, {proposal}, e.stepLimit);
    if st.adopted == [] {
      assert st.adopted + chain == chain;
    } else {
      OrderedAppend(better, st.adopted, chain);
    }
  }

  lemma {:induction false} AttemptIsSound(e: Engine, better: (Proposal, Proposal) -> bool, attempt: nat, st: RunState)
    requires e.ruleAware ==> Improving(e, better)
    requires attempt >= 1 && StateOk(e, better, attempt, st)
    ensures match Attempt(e, attempt, st)
            case Continue(next) => StateOk(e, better, attempt + 1, next)
            case Finish(result, adopted) => ResultOk(e, better, result, adopted)
  {
    hide Improving, Ordered, RepairChain;
    if e.runtime(attempt).Proposed? && e.wellFormed(e.runtime(attempt).proposal) {
      var proposal := e.runtime(attempt).proposal;
      if e.ruleAware && proposal !in st.fingerprints
         && (Scoped(e, st) ==> e.accepts(st.best.value, st.scope.value, proposal)) {
        AdoptionIsOrdered(e, better, attempt, st, proposal);
      }
    }
  }

  lemma {:induction false} RunIsSound(e: Engine, better: (Proposal, Proposal) -> bool, attempt: nat, st: RunState)
    requires e.ruleAware ==> Improving(e, better)
    requires attempt >= 1 && e.maxAttempts >= 1 && StateOk(e, better, attempt, st)
    ensures ResultOk(e, better, RunFrom(e, attempt, st).0, RunFrom(e, attempt, st).1)
    decreases e.maxAttempts + 1 - attempt
  {
    if attempt <= e.maxAttempts {
      AttemptIsSound(e, better, attempt, st);
      match Attempt(e, attempt, st)
      case Finish(_, _) =>
      case Continue(next) => RunIsSound(e, better, attempt + 1, next);
    }
  }

  // ------------------------------------------- the controller's own decisions improve

  /** `after` may replace `before`: strictly fewer failures, and nothing immutable changed. */
  ghost predicate Improves(s: Setting, before: Proposal, after: Proposal) {
    && Failures(s.gates, after) < Failures(s.gates, before)
    && SameImmutable(s, before, after)
  }

  ghost predicate SameImmutable(s: Setting, before: Proposal, after: Proposal) {
    s.contract.policy.Some? ==> forall path :: path in s.contract.policy.value.immutablePaths ==>
      ResolveAt(after.ToJson(), path) == ResolveAt(before.ToJson(), path)
  }

  lemma {:induction false} AcceptedImproves(s: Setting, before: Proposal, after: Proposal, scope: RepairScope)
    requires s.contract.policy.Some? && PolicyOk(s.contract.policy.value)
    requires AssessChanges(before, after, scope, s.contract.policy.value).Allowed()
    requires CompareFailures(Failures(s.gates, before), Failures(s.gates, after), scope.failedRuleIds).Accepted()
    ensures Improves(s, before, after)
  {
    AcceptedIsStrictProgress(Failures(s.gates, before), Failures(s.gates, after), scope.failedRuleIds);
    forall path | path in s.contract.policy.value.immutablePaths
      ensures ResolveAt(after.ToJson(), path) == ResolveAt(before.ToJson(), path)
    {
      AllowedChangesKeepImmutable(before, after, scope, s.contract.policy.value, path);
    }
  }

  lemma {:induction false} NextRepairImproves(s: Setting, p: Proposal, seen: set<Proposal>)
    requires s.contract.policy.Some? && PolicyOk(s.contract.policy.value) && NextRepair(s, p, seen).Some?
    ensures Improves(s, p, NextRepair(s, p, seen).value)
  {
    var scope := DerivedScope(Modes(s.gates), Verdicts(s.gates, p));
    assert NextRepair(s, p, seen) == TryScope(s, p, scope, seen);
    AcceptedImproves(s, p, NextRepair(s, p, seen).value, scope.value);
  }

  lemma {:induction false} ScopedAcceptanceImproves(s: Setting, best: Baseline, scope: RepairScope, candidate: Proposal)
    requires s.contract.policy.Some? && PolicyOk(s.contract.policy.value)
    requires best.results == Verdicts(s.gates, best.proposal) && ScopedCandidateAccepted(s, best, scope, candidate)
    ensures Improves(s, best.proposal, candidate)
  {
    AcceptedImproves(s, best.proposal, candidate, scope);
  }

  ghost function Improvement(s: Setting): (Proposal, Proposal) -> bool {
    (p: Proposal, q: Proposal) => Improves(s, p, q)
  }

  lemma {:induction false} ImprovesIsTransitive(s: Setting)
    ensures Transitive(Improvement(s))
  {
    forall p, q, r | Improves(s, p, q) && Improves(s, q, r) ensures Improves(s, p, r) {
      if s.contract.policy.Some? {
        forall path | path in s.contract.policy.value.immutablePaths
          ensures ResolveAt(r.ToJson(), path) == ResolveAt(p.ToJson(), path)
        {
          assert ResolveAt(q.ToJson(), path) == ResolveAt(p.ToJson(), path);
        }
      }
    }
  }

  lemma {:induction false} ControllerImproves(s: Setting)
    requires s.contract.policy.Some? && PolicyOk(s.contract.policy.value)
    ensures Improving(EngineOf(s), Improvement(s))
  {
    ImprovesIsTransitive(s);
    forall p, seen | NextRepair(s, p, seen).Some? ensures Improves(s, p, NextRepair(s, p, seen).value) {
      NextRepairImproves(s, p, seen);
    }
    forall b: Baseline, scope, c | b.results == Verdicts(s.gates, b.proposal) && ScopedCandidateAccepted(s, b, scope, c)
      ensures Improves(s, b.proposal, c)
    {
      ScopedAcceptanceImproves(s, b, scope, c);
    }
  }

  lemma {:induction false} RunOfSettingIsSound(s: Setting)
    requires SettingOk(s)
    ensures ResultOk(EngineOf(s), Improvement(s), RunResultOf(s), AdoptedBy(s))
  {
    if s.contract.policy.Some? {
      ControllerImproves(s);
    }
    RunIsSound(EngineOf(s), Improvement(s), 1, InitialState);
  }

  /**
   Under a repair policy: the adopted baselines begin with the runtime's first proposal;
   each later one has strictly fewer non-oracle failures than every earlier one and the
   same value, or absence, at every immutable path; and the run returns the last of them
   with that proposal's own verdicts.
   */
  lemma {:induction false} PolicyRunsOnlyImprove(s: Setting, i: nat, j: nat)
    requires SettingOk(s) && s.contract.policy.Some?
    requires i < j < |AdoptedBy(s)|
    ensures Failures(s.gates, AdoptedBy(s)[j]) < Failures(s.gates, AdoptedBy(s)[i])
    ensures forall path :: path in s.contract.policy.value.immutablePaths ==>
              ResolveAt(AdoptedBy(s)[j].ToJson(), path) == ResolveAt(AdoptedBy(s)[i].ToJson(), path)
  {
    RunOfSettingIsSound(s);
    assert Improvement(s)(AdoptedBy(s)[i], AdoptedBy(s)[j]);
  }

  lemma {:induction false} PolicyRunReturnsLastBaseline(s: Setting)
    requires SettingOk(s) && s.contract.policy.Some?
    ensures var r, adopted := RunResultOf(s), AdoptedBy(s);
            && (r.proposal.None? <==> adopted == [])
            && (adopted != [] ==>
                  && s.runtime(1) == Proposed(adopted[0])
                  && r.proposal == Some(adopted[|adopted| - 1])
                  && r.results == Verdicts(s.gates, adopted[|adopted| - 1])
                  && SameImmutable(s, adopted[0], adopted[|adopted| - 1]))
  {
    RunOfSettingIsSound(s);
    var adopted := AdoptedBy(s);
    if |adopted| > 1 {
      assert Improvement(s)(adopted[0], adopted[|adopted| - 1]);
    }
  }

  lemma {:induction false} OrderedIsShort(chain: seq<Proposal>, size: Proposal -> nat,
                                          better: (Proposal, Proposal) -> bool)
    requires chain != [] && Ordered(better, chain)
    requires forall p, q :: better(p, q) ==> size(q) < size(p)
    ensures |chain| + size(chain[|chain| - 1]) <= 1 + size(chain[0])
  {
    if |chain| > 1 {
      var init := chain[..|chain| - 1];
      OrderedIsShort(init, size, better);
      assert better(chain[|chain| - 2], chain[|chain| - 1]);
    }
  }

  lemma {:induction false} ProperSubsetIsSmaller<T>(small: set<T>, big: set<T>)
    requires small < big
    ensures |small| < |big|
  {
    assert big == small + (big - small);
    assert big - small != {};
  }

  ghost function FailureCount(s: Setting): Proposal -> nat {
    (p: Proposal) => |Failures(s.gates, p)|
  }

  lemma {:induction false} ImprovementShrinks(s: Setting)
    ensures forall p, q :: Improvement(s)(p, q) ==> FailureCount(s)(q) < FailureCount(s)(p)
  {
    forall p, q | Improvement(s)(p, q) ensures FailureCount(s)(q) < FailureCount(s)(p) {
      ImprovesShrinks(s, p, q);
    }
  }

  lemma {:induction false} ImprovesShrinks(s: Setting, p: Proposal, q: Proposal)
    requires Improves(s, p, q)
    ensures |Failures(s.gates, q)| < |Failures(s.gates, p)|
  {
    ProperSubsetIsSmaller(Failures(s.gates, q), Failures(s.gates, p));
  }

  /** A run never adopts more candidates than the first proposal had failures. */
  lemma {:induction false} PolicyRunIsBounded(s: Setting)
    requires SettingOk(s) && s.contract.policy.Some? && AdoptedBy(s) != []
    ensures |AdoptedBy(s)| <= 1 + |Failures(s.gates, AdoptedBy(s)[0])|
  {
    RunOfSettingIsSound(s);
    ImprovementShrinks(s);
    OrderedIsShort(AdoptedBy(s), FailureCount(s), Improvement(s));
  }

  /**
   In either mode: success means every gate passed on the returned proposal, with approval where the
   contract asks for it.
   */
  lemma {:induction false} SuccessMeansEveryGatePassed(s: Setting)
    requires SettingOk(s)
    ensures var r := RunResultOf(s);
            && (r.status == Succeeded ==>
                  r.proposal.Some? && r.results == Verdicts(s.gates, r.proposal.value) && AllPassed(r.results)
                  && (s.contract.requiresApproval ==> s.humanApproved))
            && (r.reason != NoProgress && r.proposal.Some? ==> r.results == Verdicts(s.gates, r.proposal.value))
  {
    RunOfSettingIsSound(s);
  }

  /**
   A run that returns a proposal on which every gate passed succeeds exactly when its contract
   asks for no approval or approval was given; otherwise it waits for approval exactly when its
   control plane could be captured.
   */
  lemma {:induction false} PassingRunSucceedsExactlyWhen(s: Setting)
    requires SettingOk(s)
    ensures var r := RunResultOf(s);
            r.proposal.Some? && AllPassed(r.results) ==>
              && (r.status == Succeeded <==> !s.contract.requiresApproval || s.humanApproved)
              && (r.status != Succeeded ==> (r.reason == HumanApprovalRequired <==> s.identityCapturable))
    ensures var r := RunResultOf(s);
            r.reason in {RunSucceeded, HumanApprovalRequired, ControlPlaneIdentityFailed} <==>
              r.proposal.Some? && AllPassed(r.results)
  {
    RunOfSettingIsSound(s);
  }

  /** A well-formed first answer on which every gate passes ends the run at once, with that answer. */
  lemma {:induction false} PassingAnswerEndsTheRun(s: Setting, p: Proposal)
    requires SettingOk(s) && s.runtime(1) == Proposed(p) && AllFinite(p.ToJson()) && AllPassed(Verdicts(s.gates, p))
    ensures var r := RunResultOf(s);
            && r.attempts == 1 && r.proposal == Some(p) && r.results == Verdicts(s.gates, p)
            && (r.status == Succeeded <==> !s.contract.requiresApproval || s.humanApproved)
  {
    EngineParts(s);
    var e := EngineOf(s);
    assert e.nextRepair(p, {p}).None?;
    hide EngineOf, AllFinite, Verdicts, NextRepair, DerivedScope, ScopedCandidateAccepted, StepLimit, SettingOk;
    ChainUnfolds(e, p, {p}, e.stepLimit);
    RunUnfolds(e, 1, InitialState);
    AdoptUnfolds(e, 1, InitialState, p);
    hide RunFrom, Adopt, RepairChain, AllPassed;
  }

  // ------------------------------------------------- every answer is judged

  /** Attempt `i` answered a well-formed proposal. */
  predicate Answered(e: Engine, i: nat) {
    e.runtime(i).Proposed? && e.wellFormed(e.runtime(i).proposal)
  }

  predicate IsNew(e: Engine, i: nat) {
    forall j: nat :: 1 <= j < i ==> e.runtime(j) != e.runtime(i)
  }

  /** Some adopted baseline authorizes a scope within which this candidate is no acceptable repair. */
  predicate Refuses(e: Engine, adopted: seq<Proposal>, candidate: Proposal) {
    exists i :: 0 <= i < |adopted| && RefusedBy(e, adopted[i], candidate)
  }

  predicate RefusedBy(e: Engine, baseline: Proposal, candidate: Proposal) {
    && e.ruleAware && e.deriveScope(e.verdicts(baseline)).Some?
    && !e.accepts(Baseline(baseline, e.verdicts(baseline)), e.deriveScope(e.verdicts(baseline)).value, candidate)
  }

  predicate Judged(e: Engine, i: nat, adopted: seq<Proposal>) {
    && Answered(e, i) && IsNew(e, i)
    && (e.runtime(i).proposal in adopted || Refuses(e, adopted, e.runtime(i).proposal))
  }

  /** Between attempts: every answer so far was judged, against baselines that carry their own verdicts and scope. */
  ghost predicate JudgedSoFar(e: Engine, attempt: nat, st: RunState) {
    && (forall i: nat :: 1 <= i < attempt ==> Judged(e, i, st.adopted))
    && (forall p :: p in st.fingerprints <==> exists i: nat :: 1 <= i < attempt && e.runtime(i) == Proposed(p))
    && (st.best.Some? ==>
          && st.best.value.proposal in st.adopted && st.best.value.results == e.verdicts(st.best.value.proposal)
          && (e.ruleAware ==> st.scope.Some? && st.scope == e.deriveScope(st.best.value.results)))
  }

  /** The last attempt's answer is what the run ended for. */
  predicate EndedFor(e: Engine, k: nat, reason: RunReason, adopted: seq<Proposal>) {
    match reason
    case RepairRuntimeUnavailable => e.runtime(k).ScopedRepairUnavailable?
    case RuntimeFailed => e.runtime(k).RuntimeError? || (e.runtime(k).Proposed? && !Answered(e, k))
    case NoProgress => Answered(e, k) && !IsNew(e, k)
    case AttemptBudgetExhausted => k == e.maxAttempts && Judged(e, k, adopted)
    case UnsignaledFailure =>
      && Answered(e, k) && IsNew(e, k) && e.runtime(k).proposal in adopted
      && e.ruleAware && e.deriveScope(e.verdicts(adopted[|adopted| - 1])).None?
    case _ => Answered(e, k) && IsNew(e, k) && e.runtime(k).proposal in adopted
  }

  ghost predicate AllJudged(e: Engine, result: RunResult, adopted: seq<Proposal>) {
    && (forall i: nat :: 1 <= i < result.attempts ==> Judged(e, i, adopted))
    && EndedFor(e, result.attempts, result.reason, adopted)
  }

  lemma {:induction false} JudgedGrows(e: Engine, i: nat, adopted: seq<Proposal>, more: seq<Proposal>)
    requires Judged(e, i, adopted)
    ensures Judged(e, i, adopted + more)
  {
    if Refuses(e, adopted, e.runtime(i).proposal) {
      var k :| 0 <= k < |adopted| && RefusedBy(e, adopted[k], e.runtime(i).proposal);
      assert (adopted + more)[k] == adopted[k];
    }
  }

  lemma {:induction false} AttemptIsJudged(e: Engine, attempt: nat, st: RunState)
    requires attempt >= 1 && JudgedSoFar(e, attempt, st)
    ensures match Attempt(e, attempt, st)
            case Continue(next) => JudgedSoFar(e, attempt + 1, next)
            case Finish(result, adopted) => AllJudged(e, result, adopted)
  {
    hide RefusedBy, AllPassed;
    if Answered(e, attempt) {
      var p := e.runtime(attempt).proposal;
      assert p in st.fingerprints <==> !IsNew(e, attempt);
      if p !in st.fingerprints {
        if Scoped(e, st) && !e.accepts(st.best.value, st.scope.value, p) {
          RefusedAttempt(e, attempt, st);
        } else {
          AdoptedAttempt(e, attempt, st);
        }
      }
    }
  }

  lemma {:induction false} RefusedAttempt(e: Engine, attempt: nat, st: RunState)
    requires attempt >= 1 && JudgedSoFar(e, attempt, st) && Answered(e, attempt) && IsNew(e, attempt)
    requires e.runtime(attempt).proposal !in st.fingerprints
    requires Scoped(e, st) && !e.accepts(st.best.value, st.scope.value, e.runtime(attempt).proposal)
    ensures var next := st.(fingerprints := st.fingerprints + {e.runtime(attempt).proposal}, last := st.best);
            Attempt(e, attempt, st) == Continue(next) && JudgedSoFar(e, attempt + 1, next)
  {
    var k :| 0 <= k < |st.adopted| && st.adopted[k] == st.best.value.proposal;
    assert RefusedBy(e, st.adopted[k], e.runtime(attempt).proposal);
    assert Judged(e, attempt, st.adopted);
  }

  lemma {:induction false} AdoptedAttempt(e: Engine, attempt: nat, st: RunState)
    requires attempt >= 1 && JudgedSoFar(e, attempt, st) && Answered(e, attempt) && IsNew(e, attempt)
    requires e.runtime(attempt).proposal !in st.fingerprints
    requires Scoped(e, st) ==> e.accepts(st.best.value, st.scope.value, e.runtime(attempt).proposal)
    ensures match Attempt(e, attempt, st)
            case Continue(next) => JudgedSoFar(e, attempt + 1, next)
            case Finish(result, adopted) => AllJudged(e, result, adopted)
  {
    var p := e.runtime(attempt).proposal;
    var chain := RepairChain(e, p, {p}, e.stepLimit);
    hide Refuses, AllPassed, RepairChain;
    forall i: nat | 1 <= i < attempt
      ensures Judged(e, i, st.adopted + chain)
    {
      JudgedGrows(e, i, st.adopted, chain);
    }
    assert p == chain[0] && p in st.adopted + chain;
    AdoptUnfolds(e, attempt, st, p);
    hide Adopt, IsNew;
  }

  lemma {:induction false} RunIsJudged(e: Engine, attempt: nat, st: RunState)
    requires 1 <= attempt && e.maxAttempts >= 1 && JudgedSoFar(e, attempt, st) && attempt <= e.maxAttempts + 1
    ensures AllJudged(e, RunFrom(e, attempt, st).0, RunFrom(e, attempt, st).1)
    decreases e.maxAttempts + 1 - attempt
  {
    hide RunFrom, Attempt, Exhausted, AllJudged, JudgedSoFar;
    RunUnfolds(e, attempt, st);
    if attempt <= e.maxAttempts {
      AttemptIsJudged(e, attempt, st);
      match Attempt(e, attempt, st)
      case Finish(_, _) =>
      case Continue(next) => RunIsJudged(e, attempt + 1, next);
    } else {
      ExhaustedIsJudged(e, st);
    }
  }

  lemma {:induction false} ExhaustedIsJudged(e: Engine, st: RunState)
    requires e.maxAttempts >= 1 && JudgedSoFar(e, e.maxAttempts + 1, st)
    ensures AllJudged(e, Exhausted(e, st), st.adopted)
  {
    hide Judged;
    assert Judged(e, e.maxAttempts, st.adopted);
  }

  /**
   The candidate is refused: some adopted baseline authorizes a scope, and a test on the candidate
   within it fails.
   */
  ghost predicate RefusedInScope(s: Setting, baseline: Proposal, candidate: Proposal) {
    && s.contract.policy.Some? && DerivedScope(Modes(s.gates), Verdicts(s.gates, baseline)).Some?
    && var scope := DerivedScope(Modes(s.gates), Verdicts(s.gates, baseline)).value;
       || !AssessChanges(baseline, candidate, scope, s.contract.policy.value).Allowed()
       || !(Failures(s.gates, candidate) < Failures(s.gates, baseline))
       || (exists a :: a in Failures(s.gates, candidate) && a.1 in scope.failedRuleIds)
       || (scope.failedRuleIds != {} && forall a :: a in Failures(s.gates, baseline) ==> a.1 !in scope.failedRuleIds)
  }

  predicate Adopts(adopted: seq<Proposal>, a: Response) {
    a.Proposed? && a.proposal in adopted
  }

  /**
   No answer is passed over: every attempt before the last gave a new, well-formed proposal that
   was adopted, or refused because an adopted baseline's scope, immutable paths or failures
   exclude it; and the run ended for what its last answer was.
   */
  lemma {:induction false} EveryAnswerIsJudged(s: Setting, i: nat)
    requires SettingOk(s) && 1 <= i <= RunResultOf(s).attempts
    ensures var r, adopted, a := RunResultOf(s), AdoptedBy(s), s.runtime(i);
            if i < r.attempts || r.reason == AttemptBudgetExhausted then
              && a.Proposed? && AllFinite(a.proposal.ToJson()) && (forall j: nat :: 1 <= j < i ==> s.runtime(j) != a)
              && (a.proposal in adopted
                  || exists k :: 0 <= k < |adopted| && RefusedInScope(s, adopted[k], a.proposal))
            else match r.reason
              case RepairRuntimeUnavailable => a.ScopedRepairUnavailable?
              case RuntimeFailed => a.RuntimeError? || (a.Proposed? && !AllFinite(a.proposal.ToJson()))
              case NoProgress => a.Proposed? && exists j: nat :: 1 <= j < i && s.runtime(j) == a
              case UnsignaledFailure =>
                && Adopts(adopted, a) && s.contract.policy.Some?
                && DerivedScope(Modes(s.gates), Verdicts(s.gates, adopted[|adopted| - 1])).None?
              case _ => Adopts(adopted, a)
    ensures RunResultOf(s).reason == AttemptBudgetExhausted ==> RunResultOf(s).attempts == s.contract.maxAttempts
  {
    var e := EngineOf(s);
    EngineParts(s);
    RunIsJudged(e, 1, InitialState);
    var r, adopted, a := RunResultOf(s), AdoptedBy(s), s.runtime(i);
    hide RunFrom, AllFinite, SettingOk, Verdicts, DerivedScope;
    if i < r.attempts || r.reason == AttemptBudgetExhausted {
      assert Judged(e, i, adopted);
      if a.proposal !in adopted {
        var k :| 0 <= k < |adopted| && RefusedBy(e, adopted[k], a.proposal);
        RefusalMeans(s, adopted[k], a.proposal);
      }
    }
  }

  lemma {:induction false} RefusalMeans(s: Setting, baseline: Proposal, candidate: Proposal)
    requires RefusedBy(EngineOf(s), baseline, candidate)
    ensures RefusedInScope(s, baseline, candidate)
  {
    var scope := DerivedScope(Modes(s.gates), Verdicts(s.gates, baseline));
    hide DerivedScope, AssessChanges, CompareFailures;
    if scope.Some? {
      AcceptedIsStrictProgress(Failures(s.gates, baseline), Failures(s.gates, candidate), scope.value.failedRuleIds);
    }
  }

  // ------------------------------------------------- deterministic repair goes as far as it can

  /**
   A step adopts the deterministic candidate exactly when the gates still fail and the candidate is a
   real improvement.
   */
  lemma {:induction false} StepAdoptsExactlyWhen(s: Setting, p: Proposal, seen: set<Proposal>, q: Proposal)
    ensures NextRepair(s, p, seen) == Some(q) <==>
              && !AllPassed(Verdicts(s.gates, p))
              && if s.contract.policy.None? then
                   DeterministicCandidate(s, p, None) == Some(q) && AllPassed(Verdicts(s.gates, q))
                 else
                   var scope := DerivedScope(Modes(s.gates), Verdicts(s.gates, p));
                   && scope.Some? && DeterministicCandidate(s, p, scope) == Some(q) && q !in seen
                   && AssessChanges(p, q, scope.value, s.contract.policy.value).Allowed()
                   && Failures(s.gates, q) < Failures(s.gates, p)
                   && (forall a :: a in Failures(s.gates, q) ==> a.1 !in scope.value.failedRuleIds)
                   && (scope.value.failedRuleIds != {} ==>
                         exists a :: a in Failures(s.gates, p) && a.1 in scope.value.failedRuleIds)
  {
    var scope := if s.contract.policy.Some? then DerivedScope(Modes(s.gates), Verdicts(s.gates, p)) else None;
    hide DerivedScope, AssessChanges, CompareFailures, DeterministicCandidate, FailureAtoms, Verdicts;
    if scope.Some? {
      AcceptedIsStrictProgress(Failures(s.gates, p), Failures(s.gates, q), scope.value.failedRuleIds);
    }
  }

  function Members(chain: seq<Proposal>): set<Proposal> {
    set q | q in chain
  }

  /** The chain stops early only where no step adopts anything that it has not seen. */
  lemma {:induction false} RepairGoesOn(e: Engine, p: Proposal, seen: set<Proposal>, steps: nat)
    requires p in seen
    ensures var chain := RepairChain(e, p, seen, steps);
            && |chain| <= steps + 1
            && (|chain| <= steps ==> e.nextRepair(chain[|chain| - 1], seen + Members(chain)).None?)
    decreases steps
  {
    var chain := RepairChain(e, p, seen, steps);
    if steps > 0 && e.nextRepair(p, seen).Some? {
      var next := e.nextRepair(p, seen).value;
      var rest := RepairChain(e, next, seen + {next}, steps - 1);
      RepairGoesOn(e, next, seen + {next}, steps - 1);
      assert seen + Members([p] + rest) == seen + {next} + Members(rest);
    } else {
      assert seen + Members(chain) == seen;
    }
  }

  /** So repair of a proposal ends only at the step limit or where no step is left, whatever the mode. */
  lemma {:induction false} RepairEndsWhenNothingIsLeft(s: Setting, p: Proposal)
    ensures var chain := RepairChain(EngineOf(s), p, {p}, StepLimit(s));
            |chain| == StepLimit(s) + 1 || NextRepair(s, chain[|chain| - 1], Members(chain)).None?
  {
    RepairGoesOn(EngineOf(s), p, {p}, StepLimit(s));
    var chain := RepairChain(EngineOf(s), p, {p}, StepLimit(s));
    assert chain[0] in Members(chain);
    assert {p} + Members(chain) == Members(chain);
    hide RepairChain, StepLimit, NextRepair;
  }

  // ------------------------------------------------- the one mismatched exit

  function Fixed(tag: string): Proposal {
    Proposal(Str(tag), Arr([]), Arr([]), Arr([]))
  }

  /**
   Attempt `i` of a run without a policy answers a new, well-formed proposal that fails and
   has no repair that passes, so the run goes on to ask again.
   */
  ghost predicate FailsAnew(s: Setting, i: nat) {
    && s.runtime(i).Proposed? && AllFinite(s.runtime(i).proposal.ToJson())
    && !AllPassed(Verdicts(s.gates, s.runtime(i).proposal))
    && NextRepair(s, s.runtime(i).proposal, {s.runtime(i).proposal}).None?
    && forall j: nat :: 1 <= j < i ==> s.runtime(j) != s.runtime(i)
  }

  /** All earlier attempts failed anew, and attempt `k` repeats one of them. */
  ghost predicate StallsAt(s: Setting, k: nat) {
    && k >= 2 && s.runtime(k).Proposed? && FailsAnew(s, k - 1)
    && (forall i: nat :: 1 <= i < k ==> FailsAnew(s, i))
    && exists j: nat :: 1 <= j < k && s.runtime(j) == s.runtime(k)
  }

  /** The same of an arbitrary engine, whose decisions stay symbols. */
  ghost predicate EngineFailsAnew(e: Engine, i: nat) {
    && e.runtime(i).Proposed? && e.wellFormed(e.runtime(i).proposal)
    && !AllPassed(e.verdicts(e.runtime(i).proposal))
    && e.nextRepair(e.runtime(i).proposal, {e.runtime(i).proposal}).None?
    && forall j: nat :: 1 <= j < i ==> e.runtime(j) != e.runtime(i)
  }

  ghost predicate EngineStallsAt(e: Engine, k: nat) {
    && k >= 2 && e.runtime(k).Proposed? && EngineFailsAnew(e, k - 1)
    && (forall i: nat :: 1 <= i < k ==> EngineFailsAnew(e, i))
    && exists j: nat :: 1 <= j < k && e.runtime(j) == e.runtime(k)
  }

  /** Without a policy a deterministic repair is adopted only when every gate passes on it. */
  ghost predicate Legacy(e: Engine) {
    && !e.ruleAware && e.stepLimit == 1
    && forall p, seen :: e.nextRepair(p, seen).Some? ==> AllPassed(e.verdicts(e.nextRepair(p, seen).value))
  }

  /** Between attempts: every attempt so far failed anew, and the state remembers exactly their answers. */
  ghost predicate AllFailedAnew(e: Engine, attempt: nat, st: RunState) {
    && (forall i: nat :: 1 <= i < attempt ==> EngineFailsAnew(e, i))
    && (forall p :: p in st.fingerprints <==> exists i: nat :: 1 <= i < attempt && e.runtime(i) == Proposed(p))
    && (attempt > 1 ==>
        EngineFailsAnew(e, attempt - 1)
          && st.last == Some(Baseline(e.runtime(attempt - 1).proposal, e.verdicts(e.runtime(attempt - 1).proposal))))
  }

  ghost function StalledResult(e: Engine, k: nat): RunResult
    requires EngineStallsAt(e, k)
  {
    RunResult(Escalated, k, Some(e.runtime(k).proposal), e.verdicts(e.runtime(k - 1).proposal), NoProgress)
  }

  /**
   One attempt: the run goes on exactly when it failed anew, and stops for want of progress exactly
   when it repeats.
   */
  lemma {:induction false} AttemptFailsAnew(e: Engine, attempt: nat, st: RunState)
    requires Legacy(e) && attempt >= 1 && AllFailedAnew(e, attempt, st)
    ensures match Attempt(e, attempt, st)
            case Continue(next) => EngineFailsAnew(e, attempt) && AllFailedAnew(e, attempt + 1, next)
            case Finish(result, _) =>
              && !EngineFailsAnew(e, attempt)
              && (result.reason == NoProgress <==> EngineStallsAt(e, attempt))
              && (EngineStallsAt(e, attempt) ==> result == StalledResult(e, attempt))
  {
    hide AllPassed;
    if e.runtime(attempt).Proposed? {
      var p := e.runtime(attempt).proposal;
      var next := e.nextRepair(p, {p});
      if p in st.fingerprints {
        var j: nat :| 1 <= j < attempt && e.runtime(j) == Proposed(p);
        assert EngineFailsAnew(e, j) && EngineFailsAnew(e, attempt - 1);
      }
      assert RepairChain(e, p, {p}, 1)
          == if next.None? then [p] else [p] + RepairChain(e, next.value, {p} + {next.value}, 0);
    }
  }

  lemma {:induction false} StallsOnlyOnce(e: Engine, j: nat, k: nat)
    requires 1 <= j < k && EngineStallsAt(e, k)
    ensures EngineFailsAnew(e, j)
  {
  }

  lemma {:induction false} StopsExactlyAtTheRepeat(e: Engine, attempt: nat, st: RunState)
    requires Legacy(e) && attempt >= 1 && AllFailedAnew(e, attempt, st)
    ensures forall k: nat :: attempt <= k <= e.maxAttempts && EngineStallsAt(e, k) ==>
              RunFrom(e, attempt, st).0 == StalledResult(e, k)
    ensures RunFrom(e, attempt, st).0.reason == NoProgress ==>
              exists k: nat :: attempt <= k <= e.maxAttempts && EngineStallsAt(e, k)
    decreases e.maxAttempts + 1 - attempt
  {
    hide Attempt, AllFailedAnew, StalledResult;
    if attempt <= e.maxAttempts {
      AttemptFailsAnew(e, attempt, st);
      forall k: nat | attempt < k <= e.maxAttempts && EngineStallsAt(e, k)
        ensures EngineFailsAnew(e, attempt)
      {
        StallsOnlyOnce(e, attempt, k);
      }
      hide EngineStallsAt, EngineFailsAnew;
      match Attempt(e, attempt, st)
      case Finish(_, _) =>
      case Continue(next) => StopsExactlyAtTheRepeat(e, attempt + 1, next);
    }
  }

  lemma {:induction false} WithoutPolicyIsLegacy(s: Setting)
    requires s.contract.policy.None?
    ensures Legacy(EngineOf(s))
    ensures forall k: nat :: EngineStallsAt(EngineOf(s), k) <==> StallsAt(s, k)
  {
    forall i: nat
      ensures EngineFailsAnew(EngineOf(s), i) <==> FailsAnew(s, i)
    {
      hide AllPassed, AllFinite, NextRepair;
    }
  }

  /** The run's proposal comes with verdicts that are not its own. */
  predicate Mispaired(s: Setting, r: RunResult) {
    r.proposal.Some? && r.results != Verdicts(s.gates, r.proposal.value)
  }

  /**
   Exactly when a run returns a proposal with the verdicts of another: there is no policy,
   some attempt within the budget repeats an answer after all attempts before it failed anew,
   and the gates judge the repeated answer differently from the one just before it.
   */
  lemma {:induction false} ResultsFitExactlyWhen(s: Setting)
    requires SettingOk(s)
    ensures Mispaired(s, RunResultOf(s)) <==>
              && s.contract.policy.None?
              && exists k: nat :: 2 <= k <= s.contract.maxAttempts && StallsAt(s, k)
                   && Verdicts(s.gates, s.runtime(k).proposal) != Verdicts(s.gates, s.runtime(k - 1).proposal)
  {
    RunOfSettingIsSound(s);
    if s.contract.policy.None? {
      var e := EngineOf(s);
      WithoutPolicyIsLegacy(s);
      StopsExactlyAtTheRepeat(e, 1, InitialState);
      hide Legacy, RunFrom, Improvement, SettingOk;
    }
  }

  /** So with at most two attempts the verdicts always fit: a repeat can only be of the answer just before. */
  lemma {:induction false} TwoAttemptsNeverMispair(s: Setting)
    requires SettingOk(s) && s.contract.maxAttempts <= 2
    ensures !Mispaired(s, RunResultOf(s))
  {
    ResultsFitExactlyWhen(s);
  }

  /** One gate that refuses everything and names the proposal it saw; a runtime that answers A, B, A. */
  function AlternatingSetting(): Setting {
    var gate := Gate("g", Unspecified,
                     (p: Proposal) => GateResult("g", false, if p == Fixed("A") then "a" else "b", {}, None));
    Setting(Contract(Null, None, None, 3, false), [gate],
            (o, vs) => Ok(Null),
            attempt => Proposed(if attempt == 2 then Fixed("B") else Fixed("A")),
            true, false)
  }

  lemma {:induction false} AlternatingNeverPasses(p: Proposal)
    ensures var s := AlternatingSetting();
            !AllPassed(Verdicts(s.gates, p)) && RepairChain(EngineOf(s), p, {p}, 1) == [p]
  {
    var s := AlternatingSetting();
    assert !Verdicts(s.gates, p)[0].passed;
    assert EngineOf(s).nextRepair(p, {p}).None?;
  }

  lemma {:induction false} AlternatingSteps(e: Engine, ba: Baseline, bb: Baseline, a: Proposal, b: Proposal)
    requires a != b && !e.ruleAware && e.maxAttempts == 3 && e.stepLimit == 1
    requires e.runtime(1) == e.runtime(3) == Proposed(a) && e.runtime(2) == Proposed(b)
    requires e.wellFormed(a) && e.wellFormed(b)
    requires ba == Baseline(a, e.verdicts(a)) && bb == Baseline(b, e.verdicts(b))
    requires !AllPassed(ba.results) && !AllPassed(bb.results)
    requires RepairChain(e, a, {a}, 1) == [a] && RepairChain(e, b, {b}, 1) == [b]
    ensures RunFrom(e, 1, InitialState).0 == RunResult(Escalated, 3, Some(a), bb.results, NoProgress)
  {
    var st1 := RunState({} + {a}, Some(ba), Some(ba), None, [] + [a]);
    assert Attempt(e, 1, InitialState) == Continue(st1);
    var st2 := RunState({} + {a} + {b}, Some(bb), Some(bb), None, [] + [a] + [b]);
    assert Attempt(e, 2, st1) == Continue(st2);
    assert Attempt(e, 3, st2) == Finish(RunResult(Escalated, 3, Some(a), bb.results, NoProgress), st2.adopted);
    assert RunFrom(e, 3, st2).0 == RunResult(Escalated, 3, Some(a), bb.results, NoProgress);
    assert RunFrom(e, 2, st1) == RunFrom(e, 3, st2);
    assert RunFrom(e, 1, InitialState) == RunFrom(e, 2, st1);
  }

  /**
   Without a policy a run that stops because a proposal came back returns that proposal
   with the verdicts of the one before it.
   */
  lemma {:induction false} LegacyNoProgressMispairs()
    ensures var s := AlternatingSetting();
            && SettingOk(s) && RunResultOf(s).reason == NoProgress
            && RunResultOf(s).proposal == Some(Fixed("A"))
            && RunResultOf(s).results == Verdicts(s.gates, Fixed("B"))
            && RunResultOf(s).results != Verdicts(s.gates, Fixed("A"))
  {
    var s := AlternatingSetting();
    var a, b := Fixed("A"), Fixed("B");
    assert a.result.s[0] != b.result.s[0];
    AlternatingNeverPasses(a);
    AlternatingNeverPasses(b);
    var ba, bb := Baseline(a, Verdicts(s.gates, a)), Baseline(b, Verdicts(s.gates, b));
    AlternatingSteps(EngineOf(s), ba, bb, a, b);
    assert ba.results[0].failureCode[0] != bb.results[0].failureCode[0];
  }
}
