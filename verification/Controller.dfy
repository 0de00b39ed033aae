/**
 The bounded controller: propose, verify, repair deterministically, retry within an
 authorized scope, and adopt only strictly better candidates (`DohaaController.run`).

 Gates are arbitrary functions of the proposal, and the runtime is an arbitrary
 function of the attempt number: what follows holds for every such pair.
 */
module Controller {
  import opened Prelude
  import opened Json
  import opened Pointers
  import opened PointerAccess
  import opened Diff
  import opened RepairScopes
  import opened SemanticAssertions
  import opened SemanticRepair
  import opened RepairPolicy

  datatype Gate = Gate(name: string, mode: FeedbackMode, evaluate: Proposal -> GateResult)

  datatype Contract = Contract(
    inputs: Json,
    assertions: Option<seq<Assertion>>,
    policy: Option<Policy>,
    maxAttempts: nat,
    requiresApproval: bool)

  /** What one call of the untrusted runtime comes to. */
  datatype Response = Proposed(proposal: Proposal) | RuntimeError | ScopedRepairUnavailable

  datatype Setting = Setting(
    contract: Contract,
    gates: seq<Gate>,
    ops: Operators,
    runtime: nat -> Response,
    identityCapturable: bool,
    humanApproved: bool)

  /** A proposal together with the verdicts of all gates on it. */
  datatype Baseline = Baseline(proposal: Proposal, results: seq<GateResult>)

  datatype Status = Succeeded | Escalated

  datatype RunReason =
    | RunSucceeded
    | RuntimeFailed
    | NoProgress
    | UnsignaledFailure
    | RepairRuntimeUnavailable
    | AttemptBudgetExhausted
    | HumanApprovalRequired
    | ControlPlaneIdentityFailed

  datatype RunResult = RunResult(status: Status, attempts: nat, proposal: Option<Proposal>, results: seq<GateResult>,
                                 reason: RunReason)

  // ---------------------------------------------------- control flow of a run

  /**
   The decisions a run depends on, as functions: which proposals are well formed, what
   the gates say, what one deterministic step adopts, which scope a failing baseline
   authorizes, and which scoped candidates are accepted.
   */
  datatype Engine = Engine(
    ruleAware: bool,
    maxAttempts: nat,
    stepLimit: nat,
    runtime: nat -> Response,
    wellFormed: Proposal -> bool,
    verdicts: Proposal -> seq<GateResult>,
    nextRepair: (Proposal, set<Proposal>) -> Option<Proposal>,
    deriveScope: seq<GateResult> -> Option<RepairScope>,
    accepts: (Baseline, RepairScope, Proposal) -> bool,
    requiresApproval: bool,
    identityCapturable: bool,
    humanApproved: bool)

  predicate AllPassed(results: seq<GateResult>) {
    forall i :: 0 <= i < |results| ==> results[i].passed
  }

  /** `_repair_deterministically`: the proposals adopted, starting with the one given. */
  function RepairChain(e: Engine, p: Proposal, seen: set<Proposal>, steps: nat): (chain: seq<Proposal>)
    ensures chain != [] && chain[0] == p
    decreases steps
  {
    if steps == 0 then [p]
    else
      var next := e.nextRepair(p, seen);
      if next.None? then [p] else [p] + RepairChain(e, next.value, seen + {next.value}, steps - 1)
  }

  /** The controller's variables between attempts; `adopted` lists every baseline so far. */
  datatype RunState = RunState(
    fingerprints: set<Proposal>,
    last: Option<Baseline>,
    best: Option<Baseline>,
    scope: Option<RepairScope>,
    adopted: seq<Proposal>)

  datatype Outcome = Continue(state: RunState) | Finish(result: RunResult, adopted: seq<Proposal>)

  const InitialState := RunState({}, None, None, None, [])

  function ProposalOf(b: Option<Baseline>): Option<Proposal> {
    if b.Some? then Some(b.value.proposal) else None
  }

  function ResultsOf(b: Option<Baseline>): seq<GateResult> {
    if b.Some? then b.value.results else []
  }

  predicate Scoped(e: Engine, st: RunState) {
    e.ruleAware && st.scope.Some? && st.best.Some?
  }

  /** `_complete_passing_run`. */
  function CompletePassing(requiresApproval: bool, humanApproved: bool, identityCapturable: bool, attempt: nat,
                           b: Baseline): RunResult {
    if requiresApproval && !humanApproved then
      RunResult(Escalated, attempt, Some(b.proposal), b.results,
                if identityCapturable then HumanApprovalRequired else ControlPlaneIdentityFailed)
    else RunResult(Succeeded, attempt, Some(b.proposal), b.results, RunSucceeded)
  }

  /** The loop body once a well-formed proposal has arrived. */
  function Consider(e: Engine, attempt: nat, st: RunState, proposal: Proposal): Outcome {
    if proposal in st.fingerprints then
      if Scoped(e, st)
        then Finish(RunResult(Escalated, attempt, ProposalOf(st.best), ResultsOf(st.best), NoProgress), st.adopted)
      else Finish(RunResult(Escalated, attempt, Some(proposal), ResultsOf(st.last), NoProgress), st.adopted)
    else
      var seen := st.fingerprints + {proposal};
      if Scoped(e, st) && !e.accepts(st.best.value, st.scope.value, proposal) then
        Continue(st.(fingerprints := seen, last := st.best))
      else Adopt(e, attempt, st, proposal)
  }

  /** Deterministic repair of an accepted proposal, and what follows from its verdicts. */
  function Adopt(e: Engine, attempt: nat, st: RunState, proposal: Proposal): Outcome {
    var seen := st.fingerprints + {proposal};
    var chain := RepairChain(e, proposal, {proposal}, e.stepLimit);
    var repaired := chain[|chain| - 1];
    var b := Baseline(repaired, e.verdicts(repaired));
    var adopted := st.adopted + chain;
    if AllPassed(b.results)
      then Finish(CompletePassing(e.requiresApproval, e.humanApproved, e.identityCapturable, attempt, b), adopted)
    else if e.ruleAware then
      var scope := e.deriveScope(b.results);
      if scope.None? then Finish(RunResult(Escalated, attempt, Some(repaired), b.results, UnsignaledFailure), adopted)
      else Continue(RunState(seen, Some(b), Some(b), scope, adopted))
    else Continue(RunState(seen, Some(b), Some(b), None, adopted))
  }

  function Attempt(e: Engine, attempt: nat, st: RunState): Outcome {
    match e.runtime(attempt)
    case ScopedRepairUnavailable =>
      Finish(RunResult(Escalated, attempt, ProposalOf(st.best), ResultsOf(st.best), RepairRuntimeUnavailable),
             st.adopted)
    case RuntimeError =>
      Finish(RunResult(Escalated, attempt, ProposalOf(st.last), ResultsOf(st.last), RuntimeFailed), st.adopted)
    case Proposed(proposal) =>
      if !e.wellFormed(proposal) then
        Finish(RunResult(Escalated, attempt, ProposalOf(st.last), ResultsOf(st.last), RuntimeFailed), st.adopted)
      else Consider(e, attempt, st, proposal)
  }

  function Exhausted(e: Engine, st: RunState): RunResult {
    var b := if e.ruleAware then st.best else st.last;
    RunResult(Escalated, e.maxAttempts, ProposalOf(b), ResultsOf(b), AttemptBudgetExhausted)
  }

  /** The run from a given attempt on: its result and every baseline it adopted. */
  function RunFrom(e: Engine, attempt: nat, st: RunState): (RunResult, seq<Proposal>)
    decreases e.maxAttempts + 1 - attempt
  {
    if attempt > e.maxAttempts then (Exhausted(e, st), st.adopted)
    else
      match Attempt(e, attempt, st)
      case Finish(result, adopted) => (result, adopted)
      case Continue(next) => RunFrom(e, attempt + 1, next)
  }

  // ---------------------------------------------------- settings and their decisions

  /** What a validated contract and a constructed controller guarantee. */
  predicate SettingOk(s: Setting) {
    && s.gates != []
    && s.contract.maxAttempts >= 1
    && (s.contract.assertions.Some? ==> Parsed(s.contract.assertions.value))
    && (s.contract.policy.Some? ==> PolicyOk(s.contract.policy.value))
  }

  function Modes(gates: seq<Gate>): (modes: seq<FeedbackMode>)
    ensures |modes| == |gates|
  {
    seq(|gates|, i requires 0 <= i < |gates| => gates[i].mode)
  }

  function Verdicts(gates: seq<Gate>, p: Proposal): (results: seq<GateResult>)
    ensures |results| == |gates|
  {
    seq(|gates|, i requires 0 <= i < |gates| => gates[i].evaluate(p))
  }

  /** The non-oracle failures a proposal has under these gates. */
  function Failures(gates: seq<Gate>, p: Proposal): set<Atom> {
    FailureAtoms(Modes(gates), Verdicts(gates, p))
  }

  // ---------------------------------------------------- deterministic repair

  /** The candidate one deterministic step offers. */
  function DeterministicCandidate(s: Setting, p: Proposal, scope: Option<RepairScope>): Option<Proposal> {
    if s.contract.assertions.None? then None
    else
      var allowed := if scope.Some? then Some(scope.value.editablePaths) else None;
      match Propose(s.contract.assertions.value, s.contract.inputs, p, allowed, s.ops)
      case None => None
      case Some(repair) => Some(repair.proposal)
  }

  /** Whether the step adopts the candidate. */
  function CandidateAccepted(s: Setting, p: Proposal, candidate: Proposal, scope: Option<RepairScope>,
                             seen: set<Proposal>): bool {
    match (s.contract.policy, scope)
    case (None, _) => AllPassed(Verdicts(s.gates, candidate))
    case (Some(_), None) => false
    case (Some(policy), Some(unit)) =>
      && AssessChanges(p, candidate, unit, policy).Allowed()
      && CompareFailures(Failures(s.gates, p), Failures(s.gates, candidate), unit.failedRuleIds).Accepted()
      && candidate !in seen
  }

  /** The candidate for one scope, if it is adopted. */
  function TryScope(s: Setting, p: Proposal, scope: Option<RepairScope>, seen: set<Proposal>): Option<Proposal> {
    if s.contract.policy.Some? && scope.None? then None
    else
      var candidate := DeterministicCandidate(s, p, scope);
      if candidate.Some? && CandidateAccepted(s, p, candidate.value, scope, seen) then candidate else None
  }

  /** The proposal one deterministic step adopts, if it adopts one. */
  ghost function NextRepair(s: Setting, p: Proposal, seen: set<Proposal>): Option<Proposal> {
    if AllPassed(Verdicts(s.gates, p)) then None
    else TryScope(s, p, if s.contract.policy.Some? then DerivedScope(Modes(s.gates), Verdicts(s.gates, p))
                  else None, seen)
  }

  /**
   A deterministic candidate stays inside its scope, so a policy refuses its changes only for touching
   something immutable.
   */
  lemma {:induction false} CandidateStaysInScope(s: Setting, p: Proposal, scope: RepairScope, policy: Policy)
    requires SettingOk(s) && ScopeOk(scope) && DeterministicCandidate(s, p, Some(scope)).Some?
    ensures var candidate := DeterministicCandidate(s, p, Some(scope)).value;
            && ConfinedTo(p, candidate, scope.editablePaths)
            && (AssessChanges(p, candidate, scope, policy).Allowed() <==>
                  forall c :: c in ChangedPaths(p.ToJson(), candidate.ToJson(), "") ==>
                    !OverlapsAny(c, policy.immutablePaths))
  {
    ParsedIsEnough(s.contract.assertions.value);
    RepairStaysInScope(s.contract.assertions.value, s.contract.inputs, p, scope.editablePaths, s.ops);
    AllowedMeansConfined(p, DeterministicCandidate(s, p, Some(scope)).value, scope, policy);
  }

  function StepLimit(s: Setting): nat {
    if s.contract.policy.Some? then MAX_ASSERTIONS else 1
  }

  /** Both tests a scoped candidate must pass before it replaces the baseline. */
  predicate ScopedCandidateAccepted(s: Setting, best: Baseline, scope: RepairScope, candidate: Proposal) {
    && s.contract.policy.Some?
    && AssessChanges(best.proposal, candidate, scope, s.contract.policy.value).Allowed()
    && CompareFailures(FailureAtoms(Modes(s.gates), best.results), Failures(s.gates, candidate),
                       scope.failedRuleIds).Accepted()
  }

  /** The decisions of one setting, as functions the run's control flow is stated over. */
  ghost function EngineOf(s: Setting): Engine {
    Engine(
      s.contract.policy.Some?,
      s.contract.maxAttempts,
      StepLimit(s),
      s.runtime,
      (p: Proposal) => AllFinite(p.ToJson()),
      (p: Proposal) => Verdicts(s.gates, p),
      (p: Proposal, seen: set<Proposal>) => NextRepair(s, p, seen),
      (results: seq<GateResult>) => if s.contract.policy.Some? && |results| == |s.gates|
        then DerivedScope(Modes(s.gates), results) else None,
      (best: Baseline, scope: RepairScope, candidate: Proposal) => ScopedCandidateAccepted(s, best, scope, candidate),
      s.contract.requiresApproval,
      s.identityCapturable,
      s.humanApproved)
  }

  // ---------------------------------------------------- deterministic repair, step by step

  method ScopeForStep(s: Setting, results: seq<GateResult>) returns (scope: Option<RepairScope>)
    requires |results| == |s.gates|
    ensures scope == if s.contract.policy.Some? then DerivedScope(Modes(s.gates), results) else None
    ensures scope == EngineOf(s).deriveScope(results)
  {
    scope := None;
    if s.contract.policy.Some? {
      scope := DeriveRepairScope(Modes(s.gates), results);
    }
  }

  method OfferCandidate(s: Setting, proposal: Proposal, scope: Option<RepairScope>)
      returns (candidate: Option<Proposal>)
    ensures candidate == DeterministicCandidate(s, proposal, scope)
  {
    if s.contract.assertions.None? {
      return None;
    }
    var allowed := if scope.Some? then Some(scope.value.editablePaths) else None;
    var repair := ProposeRepair(s.contract.assertions.value, s.contract.inputs, proposal, allowed, s.ops);
    candidate := if repair.Some? then Some(repair.value.proposal) else None;
  }

  method OfferAndJudge(s: Setting, proposal: Proposal, scope: Option<RepairScope>, fingerprints: set<Proposal>)
    returns (next: Option<Proposal>)
    ensures next == TryScope(s, proposal, scope, fingerprints)
  {
    if s.contract.policy.Some? && scope.None? {
      return None;
    }
    var candidate := OfferCandidate(s, proposal, scope);
    if candidate.None? || !CandidateAccepted(s, proposal, candidate.value, scope, fingerprints) {
      return None;
    }
    return candidate;
  }

  /** One turn of the step loop. */
  method RepairStep(s: Setting, proposal: Proposal, results: seq<GateResult>, fingerprints: set<Proposal>)
    returns (next: Option<Proposal>)
    requires results == Verdicts(s.gates, proposal)
    ensures next == NextRepair(s, proposal, fingerprints) == EngineOf(s).nextRepair(proposal, fingerprints)
  {
    if AllPassed(results) {
      return None;
    }
    var scope := ScopeForStep(s, results);
    next := OfferAndJudge(s, proposal, scope, fingerprints);
  }

  ghost function RunResultOf(s: Setting): RunResult {
    RunFrom(EngineOf(s), 1, InitialState).0
  }

  ghost function AdoptedBy(s: Setting): seq<Proposal> {
    RunFrom(EngineOf(s), 1, InitialState).1
  }

  /** Both checks on a scoped candidate, in the source's order; a change out of scope is never verified. */
  method CheckScopedCandidate(s: Setting, best: Baseline, scope: RepairScope, candidate: Proposal)
      returns (accepted: bool)
    requires s.contract.policy.Some?
    ensures accepted == ScopedCandidateAccepted(s, best, scope, candidate)
            == EngineOf(s).accepts(best, scope, candidate)
  {
    if !AssessChanges(best.proposal, candidate, scope, s.contract.policy.value).Allowed() {
      return false;
    }
    var before := CollectFailureAtoms(Modes(s.gates), best.results);
    var after := CollectFailureAtoms(Modes(s.gates), Verdicts(s.gates, candidate));
    return CompareFailures(before, after, scope.failedRuleIds).Accepted();
  }

  /** The functions a setting's engine consists of, for use where the engine's definition is hidden. */
  lemma {:induction false} EngineParts(s: Setting)
    ensures var e := EngineOf(s);
            && e.ruleAware == s.contract.policy.Some? && e.maxAttempts == s.contract.maxAttempts
            && e.stepLimit == StepLimit(s)
            && e.requiresApproval == s.contract.requiresApproval
            && e.identityCapturable == s.identityCapturable && e.humanApproved == s.humanApproved
            && (forall attempt :: e.runtime(attempt) == s.runtime(attempt))
            && (forall p :: e.wellFormed(p) == AllFinite(p.ToJson()))
            && (forall p :: e.verdicts(p) == Verdicts(s.gates, p))
  {
    hide AllFinite, Verdicts, NextRepair, DerivedScope, ScopedCandidateAccepted;
  }

  /** One step of a chain whose definition is hidden. */
  lemma {:induction false} ChainUnfolds(e: Engine, p: Proposal, seen: set<Proposal>, steps: nat)
    ensures RepairChain(e, p, seen, steps) ==
              if steps == 0 || e.nextRepair(p, seen).None? then [p]
              else [p] + RepairChain(e, e.nextRepair(p, seen).value, seen + {e.nextRepair(p, seen).value}, steps - 1)
  {
  }

  /** One attempt of a run whose definition is hidden. */
  lemma {:induction false} RunUnfolds(e: Engine, attempt: nat, st: RunState)
    ensures RunFrom(e, attempt, st) ==
              if attempt > e.maxAttempts then (Exhausted(e, st), st.adopted)
              else
                match Attempt(e, attempt, st)
                case Finish(result, adopted) => (result, adopted)
                case Continue(next) => RunFrom(e, attempt + 1, next)
  {
    hide Attempt, Exhausted;
  }

  /** What adopting a proposal leads to, told by its repaired form and that form's verdicts. */
  lemma {:induction false} AdoptUnfolds(e: Engine, attempt: nat, st: RunState, proposal: Proposal)
    ensures var chain := RepairChain(e, proposal, {proposal}, e.stepLimit);
            var b := Baseline(chain[|chain| - 1], e.verdicts(chain[|chain| - 1]));
            var scope := if e.ruleAware then e.deriveScope(b.results) else None;
            Adopt(e, attempt, st, proposal) ==
              if AllPassed(b.results)
              then Finish(CompletePassing(e.requiresApproval, e.humanApproved, e.identityCapturable, attempt, b),
                          st.adopted + chain)
              else if e.ruleAware && scope.None?
              then Finish(RunResult(Escalated, attempt, Some(b.proposal), b.results, UnsignaledFailure),
                          st.adopted + chain)
              else Continue(RunState(st.fingerprints + {proposal}, Some(b), Some(b), scope, st.adopted + chain))
  {
    hide AllPassed, CompletePassing;
  }

  /** The step loop of `_repair_deterministically`. */
  method RepairDeterministically(s: Setting, proposal: Proposal, results: seq<GateResult>)
    returns (repaired: Proposal, verdicts: seq<GateResult>, ghost chain: seq<Proposal>)
    requires results == Verdicts(s.gates, proposal)
    ensures chain == RepairChain(EngineOf(s), proposal, {proposal}, StepLimit(s))
    ensures repaired == chain[|chain| - 1] && verdicts == Verdicts(s.gates, repaired)
  {
    hide *;
    repaired, verdicts := proposal, results;
    chain := [proposal];
    var fingerprints := {proposal};
    ghost var prefix: seq<Proposal> := [];
    for step := 0 to StepLimit(s)
      invariant chain == prefix + [repaired] && verdicts == Verdicts(s.gates, repaired)
      invariant RepairChain(EngineOf(s), proposal, {proposal}, StepLimit(s))
             == prefix + RepairChain(EngineOf(s), repaired, fingerprints, StepLimit(s) - step)
    {
      ChainUnfolds(EngineOf(s), repaired, fingerprints, StepLimit(s) - step);
      var next := RepairStep(s, repaired, verdicts, fingerprints);
      if next.None? {
        break;
      }
      fingerprints := fingerprints + {next.value};
      prefix := chain;
      repaired := next.value;
      verdicts := Verdicts(s.gates, repaired);
      chain := chain + [repaired];
    }
    ChainUnfolds(EngineOf(s), repaired, fingerprints, 0);
  }

  /** The attempt loop of `run`, with the source's variables, over the modelled gates, repair and policy. */
  method Run(s: Setting) returns (result: RunResult)
    ensures result == RunResultOf(s)
  {
    ghost var e := EngineOf(s);
    EngineParts(s);
    hide EngineOf, Verdicts, AllFinite, NextRepair, DerivedScope, RepairChain, ScopedCandidateAccepted, StepLimit,
         RunFrom, CompletePassing, AllPassed, Adopt;
    var fingerprints: set<Proposal> := {};
    var last: Option<Baseline> := None;
    var best: Option<Baseline> := None;
    var repairScope: Option<RepairScope> := None;
    ghost var adopted: seq<Proposal> := [];
    var attempt := 1;
    while attempt <= s.contract.maxAttempts
      invariant 1 <= attempt
      invariant s.contract.policy.None? ==> repairScope.None?
      invariant RunFrom(e, 1, InitialState)
                == RunFrom(e, attempt, RunState(fingerprints, last, best, repairScope, adopted))
    {
      RunUnfolds(e, attempt, RunState(fingerprints, last, best, repairScope, adopted));
      var scopedAttempt := s.contract.policy.Some? && repairScope.Some? && best.Some?;
      var response := s.runtime(attempt);
      if response.ScopedRepairUnavailable? {
        return RunResult(Escalated, attempt, ProposalOf(best), ResultsOf(best), RepairRuntimeUnavailable);
      }
      if response.RuntimeError? || !AllFinite(response.proposal.ToJson()) {
        return RunResult(Escalated, attempt, ProposalOf(last), ResultsOf(last), RuntimeFailed);
      }
      var proposal := response.proposal;
      if proposal in fingerprints {
        return RunResult(Escalated, attempt,
                         if scopedAttempt then ProposalOf(best) else Some(proposal),
                         if scopedAttempt then ResultsOf(best) else ResultsOf(last), NoProgress);
      }
      fingerprints := fingerprints + {proposal};
      if scopedAttempt {
        var accepted := CheckScopedCandidate(s, best.value, repairScope.value, proposal);
        if !accepted {
          last := best;
          attempt := attempt + 1;
          continue;
        }
      }
      AdoptUnfolds(e, attempt, RunState(fingerprints - {proposal}, last, best, repairScope, adopted), proposal);
      var results := Verdicts(s.gates, proposal);
      ghost var chain;
      proposal, results, chain := RepairDeterministically(s, proposal, results);
      adopted := adopted + chain;
      best := Some(Baseline(proposal, results));
      last := best;
      if AllPassed(results) {
        return CompletePassing(s.contract.requiresApproval, s.humanApproved, s.identityCapturable, attempt, best.value);
      }
      repairScope := ScopeForStep(s, results);
      if s.contract.policy.Some? && repairScope.None? {
        return RunResult(Escalated, attempt, Some(proposal), results, UnsignaledFailure);
      }
      attempt := attempt + 1;
    }
    RunUnfolds(e, attempt, RunState(fingerprints, last, best, repairScope, adopted));
    var b := if s.contract.policy.Some? then best else last;
    return RunResult(Escalated, s.contract.maxAttempts, ProposalOf(b), ResultsOf(b), AttemptBudgetExhausted);
  }
}
