/**
 The tool route: a controller's durable decision on one host step, then at most one
 separately verified effect.

 Five stores are involved, each with its own transactions: the host's steps, the intent
 journal, the tool, the decisions and the controller's ledger. A lock admits one `decide`,
 `execute` or `recover` call at a time; the call is a frame whose constructor names its
 next transaction, and it may vanish before any of them. Host methods may run at any
 moment between two transactions. What the native bridge answers is a parameter of each
 step.
 */
module ToolWorkflow {
  import opened Prelude
  import opened ControlledTools
  import opened ToolInvariants
  import opened ToolProposal
  import opened HostSteps
  import E = ExactlyOnce

  // ------------------------------------------------------------- what is decided upon

  /** The columns of a host row a decision is bound to. */
  datatype Core = Core(
    operationId: string,
    payload: HostStep,
    request: Option<string>,
    policy: Option<string>,
    terminal: Option<Terminal>,
    proposal: Option<Content>)

  function CoreOf(row: Row): Core {
    Core(row.operationId, row.payload, row.request, row.policy, row.terminal, row.proposal)
  }

  datatype Contract = Contract(core: Core, allowedActions: set<string>)

  datatype Candidate = Candidate(core: Core, requestedActions: set<string>)

  datatype Material =
    | Unavailable(core: Core, state: State)
    | Offered(core: Core, contract: Contract, candidate: Candidate, abstained: bool)

  function ActionName(kind: string): string {
    "simulator." + kind
  }

  function ContractFor(row: Row): Contract {
    Contract(CoreOf(row), set k | k in row.payload.allowedKinds :: ActionName(k))
  }

  function CandidateFor(row: Row, operation: Option<Operation>): Candidate {
    Candidate(CoreOf(row), if operation.Some? then {ActionName(KindName(operation.value.kind))} else {})
  }

  function MaterialFor(row: Row): Option<Material> {
    if row.proposal.None? then
      if row.state in {Invalid, GenerationFailed} then Some(Unavailable(CoreOf(row), row.state)) else None
    else
      var bound := BoundProposalOf(row);
      if bound.Err? then None
      else Some(Offered(CoreOf(row), ContractFor(row), CandidateFor(row, bound.value.operation),
                        bound.value.operation.None?))
  }

  /** `_material`, given what the bridge's `verify` answers. */
  function MaterialOf(h: Store, id: string, evidence: Option<TerminalEvidence>): Option<Material> {
    if id !in h.steps || Binding(h.steps[id]).Err? then None
    else if evidence.None? || Some(evidence.value.terminal) != h.steps[id].terminal then None
    else MaterialFor(h.steps[id])
  }

  // ------------------------------------------------------------- the controller's ledger

  datatype GateResults = GateResults(exact: bool, policy: bool)

  datatype RouteEvent =
    | RunReceived(contract: Contract)
    | ProposalReceived(attempt: int, candidate: Candidate)
    | GatesEvaluated(attempt: int, results: GateResults)
    | RunFinished(attempts: int, succeeded: bool)

  datatype RouteRecord = RouteRecord(run: nat, event: RouteEvent)

  datatype Proof = Proof(run: nat, records: seq<RouteEvent>, accepted: bool)

  /** The two gates, configured for `material`, on a contract and a candidate. */
  function EvaluateGates(m: Material, contract: Contract, candidate: Candidate): GateResults
    requires m.Offered?
  {
    GateResults(contract == m.contract
                && candidate == m.candidate, candidate.requestedActions <= contract.allowedActions)
  }

  function RunsFor(ledger: seq<RouteRecord>, contract: Contract): seq<nat> {
    if ledger == [] then []
    else
      var last := ledger[|ledger| - 1];
      RunsFor(ledger[..|ledger| - 1], contract) + (if last.event == RunReceived(contract) then [last.run] else [])
  }

  function EventsOf(ledger: seq<RouteRecord>, run: nat): seq<RouteEvent> {
    if ledger == [] then []
    else
      var last := ledger[|ledger| - 1];
      EventsOf(ledger[..|ledger| - 1], run) + (if last.run == run then [last.event] else [])
  }

  /** `_proof`: the one completed, unrepaired run on this material's contract. */
  function ProofOf(ledger: seq<RouteRecord>, m: Material): Option<Proof>
    requires m.Offered?
  {
    var runs := RunsFor(ledger, m.contract);
    if |runs| != 1 then None
    else
      var es := EventsOf(ledger, runs[0]);
      if |es| != 4 || !es[0].RunReceived? || !es[1].ProposalReceived? || !es[2].GatesEvaluated? || !es[3].RunFinished?
        then None
      else if es[1].attempt != 1 || es[2].attempt != 1 || es[3].attempts != 1 then None
      else
        var accepted := es[2].results.exact && es[2].results.policy;
        if es[3].succeeded != accepted then None
        else if accepted && (es[1].candidate != m.candidate
                             || es[2].results != EvaluateGates(m, m.contract, m.candidate)) then None
        else Some(Proof(runs[0], es, accepted))
  }

  // ------------------------------------------------------------- the decisions

  datatype DecisionState =
    | Deciding | Accepted | AbstentionAccepted | Denied | Executing
    | Done(status: Status) | Closed(state: State)

  datatype Decision = Decision(state: DecisionState, material: Material, proof: Option<Proof>, effect: Option<Receipt>)

  datatype World = World(
    host: Store,
    db: E.Databases,
    decisions: map<string, Decision>,
    ledger: seq<RouteRecord>,
    active: Option<Call>)

  /** A call of the route, by its next transaction. */
  datatype Call =
    | DecideRead(id: string)
    | DecidePending(id: string)
    | DecideNoEffect(id: string)
    | TerminalRead(id: string)
    | TerminalStore(id: string, seen: Row, evidence: Option<TerminalEvidence>)
    | MaterialRead(id: string)
    | DecisionWrite(id: string, material: Material)
    | CloseWrite(id: string, row: Decision)
    | ControllerRun(id: string, row: Decision, run: nat, written: nat)
    | ProofRead(id: string, row: Decision)
    | CommitWrite(id: string, row: Decision, proof: Proof)
    | RecoverRead(id: string)
    | RecoverCheck(id: string, row: Decision)
    | RecoverPending(id: string, row: Decision)
    | RecoverNoEffect(id: string, row: Decision)
    | ExecuteRead(id: string)
    | ExecuteCheck(id: string, row: Decision)
    | ExecutePending(id: string, row: Decision)
    | ExecuteNoEffect(id: string, row: Decision)
    | ExecutingWrite(id: string, row: Decision)
    | OperationRead(id: string, row: Decision)
    | Effect(id: string, row: Decision, frame: E.Frame)
    | ReconcileWrite(id: string, row: Decision)
    | ReceiptRead(id: string, row: Decision)
    | FinalWrite(id: string, row: Decision, receipt: Receipt)

  predicate PendingOther(j: JournalState, task: string, id: string, allowOriginal: bool) {
    exists x :: x in j && PendingAt(j, task, x) && !(allowOriginal && x == id)
  }

  /** `_pending` raises. */
  predicate BlockedByPending(w: World, id: string, allowOriginal: bool) {
    id !in w.host.steps || PendingOther(w.db.journal, w.host.steps[id].taskId, id, allowOriginal)
  }

  /** `_no_effect` raises. */
  predicate HasEffect(w: World, id: string) {
    id in w.db.journal || id in w.db.tool.receipts
  }

  /** `_check` passes. */
  predicate Checked(w: World, id: string, row: Decision, evidence: Option<TerminalEvidence>) {
    && MaterialOf(w.host, id, evidence) == Some(row.material)
    && (row.proof.Some? ==> row.material.Offered? && ProofOf(w.ledger, row.material) == row.proof)
  }

  function Committed(row: Decision, proof: Proof): Decision
    requires row.material.Offered?
  {
    row.(proof := Some(proof),
         state := if !proof.accepted then Denied else if row.material.abstained then AbstentionAccepted else Accepted)
  }

  /** `_receipt`: the original intent, the tool and the host row agree on one receipt. */
  function ReceiptOf(w: World, id: string, row: Decision): Option<Receipt> {
    if id !in w.host.steps || id !in w.db.journal then None
    else
      var h, intent, op := w.host.steps[id], w.db.journal[id], BoundOperation(w.host.steps[id]);
      if op.None? || !intent.complete || intent.payload != op.value || intent.receipt.None? then None
      else
        var r := intent.receipt.value;
        if LookupReceipt(w.db.tool, id) != Some(r) || r.requestSha256 != Sha256(op.value) || r.operationId != id
           || h.effect != Some(r) || h.state != EffectState(r.status) || h.reason != EffectCode(r.code) then None
        else if row.effect.Some? && row.effect.value != r then None
        else Some(r)
  }

  /** What a settled decision reports. */
  datatype Report = Report(state: DecisionState, admitted: Option<bool>, effectApplied: bool, effectCode: Option<Code>)

  /** `_snapshot` of the stored decision, or nothing where the source raises a conflict. */
  function ReportOf(w: World, id: string, evidence: Option<TerminalEvidence>): Option<Report> {
    if id !in w.decisions || w.decisions[id].state in {Deciding, Executing}
       || !Checked(w, id, w.decisions[id], evidence) then None
    else
      var row := w.decisions[id];
      var admitted := if row.proof.Some? then Some(row.proof.value.accepted) else None;
      if row.state.Done? then
        match ReceiptOf(w, id, row)
        case None => None
        case Some(receipt) =>
          if receipt.status != row.state.status then None
          else Some(Report(row.state, admitted, receipt.status == StatusApplied, Some(receipt.code)))
      else if BlockedByPending(w, id, false) || HasEffect(w, id) then None
      else Some(Report(row.state, admitted, false, None))
  }

  /** The controller's next record: the run is a fresh one, and its proposal is the verified material's. */
  function ControllerEvent(m: Material, written: nat): RouteEvent
    requires m.Offered?
  {
    var results := EvaluateGates(m, m.contract, m.candidate);
    if written == 0 then RunReceived(m.contract)
    else if written == 1 then ProposalReceived(1, m.candidate)
    else if written == 2 then GatesEvaluated(1, results)
    else RunFinished(1, results.exact && results.policy)
  }

  function Ended(w: World): World {
    w.(active := None)
  }

  function At(w: World, c: Call): World {
    w.(active := Some(c))
  }

  function WriteDecision(w: World, id: string, row: Decision): World {
    w.(decisions := w.decisions[id := row])
  }

  /** One transaction of `decide`. */
  function DecideStep(w: World, c: Call, evidence: Option<TerminalEvidence>): World {
    match c
    case DecideRead(id) => if id in w.decisions then Ended(w) else At(w, DecidePending(id))
    case DecidePending(id) => if BlockedByPending(w, id, false) then Ended(w) else At(w, DecideNoEffect(id))
    case DecideNoEffect(id) => if HasEffect(w, id) then Ended(w) else At(w, TerminalRead(id))
    case TerminalRead(id) =>
      if id !in w.host.steps || w.host.steps[id].state == Allocated then Ended(w)
      else if w.host.steps[id].state != Requesting then At(w, MaterialRead(id))
      else At(w, TerminalStore(id, w.host.steps[id], evidence))
    case TerminalStore(id, seen, noted) =>
      var (h, done) := StoreTerminal(w.host, w.db.journal, seen, noted);
      if done.Ok? then At(w.(host := h), MaterialRead(id)) else Ended(w.(host := h))
    case MaterialRead(id) =>
      var m := MaterialOf(w.host, id, evidence);
      if m.Some? then At(w, DecisionWrite(id, m.value)) else Ended(w)
    case DecisionWrite(id, m) =>
      var row := Decision(Deciding, m, None, None);
      At(WriteDecision(w, id, row), if m.Unavailable? then CloseWrite(id, row)
         else ControllerRun(id, row, |w.ledger|, 0))
    case _ => w
  }

  /** One transaction of settling a decision, whether by `decide` or by `recover`. */
  function SettleStep(w: World, c: Call, evidence: Option<TerminalEvidence>): World {
    match c
    case CloseWrite(id, row) =>
      if row.material.Offered? then Ended(w) else Ended(WriteDecision(w, id, row.(state := Closed(row.material.state))))
    case ControllerRun(id, row, run, written) =>
      if row.material.Unavailable? || (written == 1 && MaterialOf(w.host, id, evidence) != Some(row.material))
        then Ended(w)
      else
        var next := w.(ledger := w.ledger + [RouteRecord(run, ControllerEvent(row.material, written))]);
        At(next, if written < 3 then ControllerRun(id, row, run, written + 1) else ProofRead(id, row))
    case ProofRead(id, row) =>
      if row.material.Unavailable? then Ended(w)
      else
        var proof := ProofOf(w.ledger, row.material);
        if proof.Some? then At(w, CommitWrite(id, row, proof.value)) else Ended(w)
    case CommitWrite(id, row, proof) =>
      if row.material.Unavailable? then Ended(w) else Ended(WriteDecision(w, id, Committed(row, proof)))
    case RecoverRead(id) => if id in w.decisions then At(w, RecoverCheck(id, w.decisions[id])) else Ended(w)
    case RecoverCheck(id, row) =>
      if !Checked(w, id, row, evidence) then Ended(w)
      else if row.state == Deciding then At(w, RecoverPending(id, row))
      else if row.state == Executing then At(w, ExecuteCheck(id, row))
      else Ended(w)
    case RecoverPending(id, row) => if BlockedByPending(w, id, false) then Ended(w) else At(w, RecoverNoEffect(id, row))
    case RecoverNoEffect(id, row) =>
      if HasEffect(w, id) then Ended(w)
      else At(w, if row.material.Unavailable? then CloseWrite(id, row) else ProofRead(id, row))
    case _ => w
  }

  /** One transaction of `execute`, or of `recover` on an executing decision. */
  ghost function ExecuteStep(w: World, c: Call, evidence: Option<TerminalEvidence>): World {
    match c
    case ExecuteRead(id) =>
      if id !in w.decisions || w.decisions[id].state == Deciding then Ended(w)
        else At(w, ExecuteCheck(id, w.decisions[id]))
    case ExecuteCheck(id, row) => if Checked(w, id, row, evidence) then At(w, ExecutePending(id, row)) else Ended(w)
    case ExecutePending(id, row) =>
      if BlockedByPending(w, id, row.state == Executing) then Ended(w)
      else if row.state == Accepted then At(w, ExecuteNoEffect(id, row))
      else if row.state == Executing then At(w, OperationRead(id, row))
      else Ended(w)
    case ExecuteNoEffect(id, row) => if HasEffect(w, id) then Ended(w) else At(w, ExecutingWrite(id, row))
    case ExecutingWrite(id, row) =>
      var executing := row.(state := Executing);
      At(WriteDecision(w, id, executing), OperationRead(id, executing))
    case OperationRead(id, row) =>
      if row.proof.None? || !row.proof.value.accepted || row.material.Unavailable? || row.material.abstained
        then Ended(w)
      else if id !in w.host.steps || BoundOperation(w.host.steps[id]).None? then Ended(w)
      else At(w, Effect(id, row, E.Starting(BoundOperation(w.host.steps[id]).value)))
    case Effect(id, row, frame) =>
      var (db, next) := E.Step(w.db, frame);
      if next.Finished? then At(w.(db := db), ReconcileWrite(id, row))
      else if E.Ended(next) then Ended(w.(db := db))
      else At(w.(db := db), Effect(id, row, next))
    case ReconcileWrite(id, row) =>
      var (h, done) := ReconcileEffect(w.host, w.db.journal, w.db.tool, id);
      if done.Ok? then At(w.(host := h), ReceiptRead(id, row)) else Ended(w.(host := h))
    case ReceiptRead(id, row) =>
      var receipt := ReceiptOf(w, id, row);
      if receipt.Some? then At(w, FinalWrite(id, row, receipt.value)) else Ended(w)
    case FinalWrite(id, row, receipt) =>
      Ended(WriteDecision(w, id, row.(state := Done(receipt.status), effect := Some(receipt))))
    case _ => w
  }

  predicate IsDecideCall(c: Call) {
    c.DecideRead? || c.DecidePending? || c.DecideNoEffect? || c.TerminalRead? || c.TerminalStore? || c.MaterialRead?
      || c.DecisionWrite?
  }

  predicate IsSettleCall(c: Call) {
    c.CloseWrite? || c.ControllerRun? || c.ProofRead? || c.CommitWrite? || c.RecoverRead? || c.RecoverCheck?
      || c.RecoverPending? || c.RecoverNoEffect?
  }

  ghost function CallStep(w: World, c: Call, evidence: Option<TerminalEvidence>): World {
    if IsDecideCall(c) then DecideStep(w, c, evidence)
    else if IsSettleCall(c) then SettleStep(w, c, evidence)
    else ExecuteStep(w, c, evidence)
  }

  // ------------------------------------------------------------- runs

  datatype Action =
    | Decide(id: string)
    | Execute(id: string)
    | Recover(id: string)
    | Advance(evidence: Option<TerminalEvidence>)
    | Crash
    | HostAllocate(step: HostStep)
    | HostRequest(id: string, request: string, policy: string)
    | HostTerminal(seen: Row, evidence: Option<TerminalEvidence>)
    | HostReconcile(id: string)
    | HostTool(call: ToolCall)

  predicate ActionOk(a: Action) {
    match a
    case HostAllocate(step) => StepOk(step)
    case HostTool(call) => CallOk(call) && !call.ApplyCall?
    case _ => true
  }

  function HostStepOf(w: World, a: Action): World {
    match a
    case HostAllocate(step) => w.(host := Allocate(w.host, w.db.journal, step).0)
    case HostRequest(id, request, policy) => w.(host := BeginRequest(w.host, w.db.journal, id, request, policy).0)
    case HostTerminal(seen, evidence) => w.(host := StoreTerminal(w.host, w.db.journal, seen, evidence).0)
    case HostReconcile(id) => w.(host := ReconcileEffect(w.host, w.db.journal, w.db.tool, id).0)
    case HostTool(call) => w.(db := w.db.(tool := CallTool(w.db.tool, call)))
    case _ => w
  }

  /** The lock refuses a call while another is running. */
  ghost function Next(w: World, a: Action): World {
    match a
    case Decide(id) => if w.active.None? then At(w, DecideRead(id)) else w
    case Execute(id) => if w.active.None? then At(w, ExecuteRead(id)) else w
    case Recover(id) => if w.active.None? then At(w, RecoverRead(id)) else w
    case Advance(evidence) => if w.active.Some? then CallStep(w, w.active.value, evidence) else w
    case Crash => Ended(w)
    case _ => HostStepOf(w, a)
  }

  const EmptyWorld := World(EmptyStore, E.Databases(map[], EmptyTool), map[], [], None)

  ghost function Run(actions: seq<Action>): World {
    if actions == [] then EmptyWorld else Next(Run(actions[..|actions| - 1]), actions[|actions| - 1])
  }
}
