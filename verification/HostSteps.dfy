/**
 The trusted host's steps: which request, proposal and effect each operation has had.

 A step is allocated once with an immutable scope, its request is bound before anything is
 sent, a terminal and the proposal in it are recorded once, and an effect is recorded only
 by observing the finished intent and the tool's receipt. Every change appends a snapshot
 to a hash chain, and every transaction first validates the chain against the table.
 */
module HostSteps {
  import opened Prelude
  import opened ControlledTools
  import opened ToolProposal
  import opened HashChain

  datatype State =
    | Allocated | Requesting | Proposed | Abstained | Invalid | GenerationFailed
    | EffectApplied | EffectRejected

  predicate IsActive(s: State) {
    s in {Allocated, Requesting, Proposed}
  }

  /** `rejected` and `applied` are a receipt's status recorded as a step's state. */
  function EffectState(status: Status): State {
    match status
    case StatusApplied => EffectApplied
    case StatusRejected => EffectRejected
  }

  datatype RequestBinding = RequestBinding(operationId: string, step: HostStep, request: string, policy: string)

  datatype TerminalStatus = Failed(errorCode: string) | Completed(content: Content) | OtherStatus

  /** A terminal receipt, and whether its schema version, flags and field set are the fixed ones. */
  datatype Terminal = Terminal(request: string, serverFinished: bool, wellFormed: bool, status: TerminalStatus)

  datatype TerminalEvidence = TerminalEvidence(policy: string, terminal: Terminal)

  datatype Reason =
    | NoReason | ErrorCode(code: string) | InvalidProposal
    | ProposalReason(reason: string) | EffectCode(effect: Code)

  /** A row of `steps`; a stored digest is the value it was computed from. */
  datatype Row = Row(
    operationId: string,
    taskId: string,
    stepId: string,
    payload: HostStep,
    state: State,
    request: Option<string>,
    policy: Option<string>,
    terminal: Option<Terminal>,
    proposal: Option<Content>,
    effect: Option<Receipt>,
    reason: Reason)

  /** What an event's hash covers besides the previous hash. */
  datatype Snapshot = Snapshot(sequence: int, operationId: string, row: Row)

  type Event = Link<Snapshot>

  datatype Store = Store(steps: map<string, Row>, events: seq<Event>)

  const EmptyStore := Store(map[], [])

  datatype HostError =
    | EventChainInvalid
    | StoredStepChanged
    | HostStepMissing
    | HostScopeOrIdentityChanged
    | PendingEffectRequiresRecovery
    | ActiveStepRequiresRecovery
    | RequestNotBound
    | RequestAlreadyBound
    | RequestIdentityReused
    | TerminalEvidenceUnverified
    | TerminalBindingInvalid
    | TerminalShapeInvalid
    | TerminalEvidenceChanged
    | ProposalUnavailable
    | OperationProposalRequired
    | CompletedIntentRequired
    | EffectReceiptInvalid
    | ToolReceiptUnverified

  // ------------------------------------------------------------- validation

  /** The last snapshot of each operation. */
  function Latest(events: seq<Event>): map<string, Row> {
    if events == [] then map[]
    else
      var e := events[|events| - 1].body;
      Latest(events[..|events| - 1])[e.operationId := e.row]
  }

  predicate SequencesOk(events: seq<Event>) {
    forall i :: 0 <= i < |events| ==> events[i].body.sequence == events[i].sequence
  }

  predicate ColumnsOk(id: string, row: Row) {
    row.operationId == id && row.payload.operationId == id && row.payload.taskId == row.taskId
      && row.payload.stepId == row.stepId
  }

  predicate TableOk(steps: map<string, Row>, latest: map<string, Row>) {
    steps == latest && forall id :: id in steps ==> ColumnsOk(id, steps[id])
  }

  /** `_validate` passes. */
  predicate Consistent(h: Store) {
    ChainOk(h.events) && SequencesOk(h.events) && TableOk(h.steps, Latest(h.events))
  }

  function Audited(h: Store, row: Row): Store {
    Store(h.steps[row.operationId := row],
          h.events + [NextLink(h.events, Snapshot(|h.events| + 1, row.operationId, row))])
  }

  lemma {:induction false} AuditedIsConsistent(h: Store, row: Row)
    requires Consistent(h) && ColumnsOk(row.operationId, row)
    ensures Consistent(Audited(h, row))
  {
    AppendOk(h.events, Snapshot(|h.events| + 1, row.operationId, row));
    assert Audited(h, row).events[..|h.events|] == h.events;
  }

  /** Two stores that validate and end in the same event hash hold the same steps and the same history. */
  lemma {:induction false} SameHeadSameStore(g: Store, h: Store)
    requires Consistent(g) && Consistent(h) && LastHash(g.events) == LastHash(h.events)
    ensures g == h
  {
    SameLastHashSameChain(g.events, h.events);
  }

  // ------------------------------------------------------------- the transactions

  predicate SameStep(id: string, row: Row, step: HostStep) {
    id == step.operationId || (row.taskId == step.taskId && row.stepId == step.stepId)
  }

  predicate HasActive(h: Store, task: string) {
    exists id :: id in h.steps && h.steps[id].taskId == task && IsActive(h.steps[id].state)
  }

  function NewRow(step: HostStep): Row {
    Row(step.operationId, step.taskId, step.stepId, step, Allocated, None, None, None, None, None, NoReason)
  }

  function Allocate(h: Store, j: JournalState, step: HostStep): (Store, Result<Row, HostError>) {
    if exists id :: id in h.steps && SameStep(id, h.steps[id], step) then
      if step.operationId in h.steps && h.steps[step.operationId].payload == step
      then (h, Ok(h.steps[step.operationId]))
      else (h, Err(HostScopeOrIdentityChanged))
    else if HasPending(j, step.taskId) then (h, Err(PendingEffectRequiresRecovery))
    else if HasActive(h, step.taskId) then (h, Err(ActiveStepRequiresRecovery))
    else (Audited(h, NewRow(step)), Ok(NewRow(step)))
  }

  function Binding(row: Row): Result<RequestBinding, HostError> {
    if row.request.None? || row.policy.None? then Err(RequestNotBound)
    else Ok(RequestBinding(row.operationId, row.payload, row.request.value, row.policy.value))
  }

  predicate RequestUsed(h: Store, request: string) {
    exists id :: id in h.steps && h.steps[id].request == Some(request)
  }

  function BeginRequest(h: Store, j: JournalState, id: string, request: string, policy: string)
      : (Store, Result<(), HostError>) {
    if id !in h.steps then (h, Err(HostStepMissing))
    else if h.steps[id].state != Allocated then (h, Err(RequestAlreadyBound))
    else if HasPending(j, h.steps[id].taskId) then (h, Err(PendingEffectRequiresRecovery))
    else if RequestUsed(h, request) then (h, Err(RequestIdentityReused))
    else (Audited(h, h.steps[id].(state := Requesting, request := Some(request), policy := Some(policy))), Ok(()))
  }

  /** The columns a verified terminal fills in. */
  function WithTerminal(row: Row, evidence: Option<TerminalEvidence>): Result<Row, HostError> {
    if Binding(row).Err? then Err(RequestNotBound)
    else if evidence.None? || Some(evidence.value.policy) != row.policy then Err(TerminalEvidenceUnverified)
    else
      var t := evidence.value.terminal;
      if Some(t.request) != row.request || !t.serverFinished then Err(TerminalBindingInvalid)
      else if !t.wellFormed then Err(TerminalShapeInvalid)
      else match t.status
        case Failed(code) =>
          if code in {"budget_exhausted", "runtime_error"}
          then Ok(row.(state := GenerationFailed, terminal := Some(t), proposal := None, reason := ErrorCode(code)))
          else Err(TerminalShapeInvalid)
        case Completed(content) =>
          var bound := Bind(content, row.payload);
          if bound.Err?
            then Ok(row.(state := Invalid, terminal := Some(t), proposal := None, reason := InvalidProposal))
          else Ok(row.(state := if bound.value.operation.Some? then Proposed else Abstained,
                       terminal := Some(t), proposal := Some(content), reason := ProposalReason(bound.value.reason)))
        case OtherStatus => Err(TerminalShapeInvalid)
  }

  /** The last transaction of `record_terminal`, for the row and evidence it has already seen. */
  function StoreTerminal(h: Store, j: JournalState, seen: Row, evidence: Option<TerminalEvidence>)
      : (Store, Result<Row, HostError>) {
    var id := seen.operationId;
    var filled := WithTerminal(seen, evidence);
    if filled.Err? then (h, filled)
    else if id !in h.steps then (h, Err(HostStepMissing))
    else if Binding(h.steps[id]) != Binding(seen) then (h, Err(RequestNotBound))
    else if h.steps[id].state != Requesting then
      (h, if h.steps[id].terminal == filled.value.terminal then Ok(h.steps[id]) else Err(TerminalEvidenceChanged))
    else if HasPending(j, h.steps[id].taskId) then (h, Err(PendingEffectRequiresRecovery))
    else
      var row := h.steps[id].(state := filled.value.state, terminal := filled.value.terminal,
                              proposal := filled.value.proposal, reason := filled.value.reason);
      (Audited(h, row), Ok(row))
  }

  function BoundProposalOf(row: Row): Result<BoundProposal, HostError> {
    if row.proposal.None? then Err(ProposalUnavailable)
    else
      var bound := Bind(row.proposal.value, row.payload);
      if bound.Ok? then Ok(bound.value) else Err(ProposalUnavailable)
  }

  /** The operation a step's recorded proposal asks for. */
  function BoundOperation(row: Row): Option<Operation> {
    var bound := BoundProposalOf(row);
    if bound.Ok? then bound.value.operation else None
  }

  /** `reconcile_effect`: observe a completed intent and the tool's matching receipt. */
  function ReconcileEffect(h: Store, j: JournalState, t: ToolState, id: string): (Store, Result<Row, HostError>) {
    if id !in h.steps then (h, Err(HostStepMissing))
    else
      var row := h.steps[id];
      var op := BoundOperation(row);
      if row.state in {EffectApplied, EffectRejected} then (h, Ok(row))
      else if row.state != Proposed || op.None? then (h, Err(OperationProposalRequired))
      else if HasPending(j, row.taskId) then (h, Err(PendingEffectRequiresRecovery))
      else if id !in j || !j[id].complete || j[id].payload != op.value || j[id].receipt.None?
        then (h, Err(CompletedIntentRequired))
      else if !ReceiptOk(op.value, j[id].receipt.value) then (h, Err(EffectReceiptInvalid))
      else if LookupReceipt(t, id) != j[id].receipt then (h, Err(ToolReceiptUnverified))
      else
        var receipt := j[id].receipt.value;
        var after := row.(state := EffectState(receipt.status), effect := Some(receipt),
                          reason := EffectCode(receipt.code));
        (Audited(h, after), Ok(after))
  }

  // ------------------------------------------------------------- what every transaction keeps

  /** Each state has exactly the columns its history filled in, and a proposal is what its terminal said. */
  predicate StepRowOk(row: Row) {
    && StepOk(row.payload)
    && (row.request.Some? <==> row.state != Allocated) && (row.policy.Some? <==> row.state != Allocated)
    && (row.terminal.Some? <==> row.state !in {Allocated, Requesting})
    && (row.proposal.Some? <==> row.state in {Proposed, Abstained, EffectApplied, EffectRejected})
    && (row.proposal.Some? ==> row.terminal.value.status == Completed(row.proposal.value) && BoundProposalOf(row).Ok?)
    && (BoundOperation(row).Some? <==> row.state in {Proposed, EffectApplied, EffectRejected})
    && (row.effect.Some? <==> row.state in {EffectApplied, EffectRejected})
    && (row.effect.Some? ==>
        ReceiptOk(BoundOperation(row).value, row.effect.value) && row.state == EffectState(row.effect.value.status)
                             && row.reason == EffectCode(row.effect.value.code))
  }

  /** `UNIQUE(task_id,step_id)`, `UNIQUE(request_sha256)` and the one-active-step index. */
  predicate KeysOk(steps: map<string, Row>) {
    && (forall a, b :: a in steps && b in steps && a != b ==>
        steps[a].taskId != steps[b].taskId || steps[a].stepId != steps[b].stepId)
    && (forall a, b :: a in steps && b in steps && a != b && steps[a].request.Some? ==>
        steps[a].request != steps[b].request)
    && (forall a, b :: a in steps && b in steps && a != b && IsActive(steps[a].state) && IsActive(steps[b].state) ==>
          steps[a].taskId != steps[b].taskId)
  }

  predicate StepRowsOk(steps: map<string, Row>) {
    forall id :: id in steps ==> ColumnsOk(id, steps[id]) && StepRowOk(steps[id])
  }

  predicate StoreOk(h: Store) {
    Consistent(h) && StepRowsOk(h.steps) && KeysOk(h.steps)
  }

  /** Columns are written once; the state only moves on. */
  predicate Advances(a: Row, b: Row) {
    && b.operationId == a.operationId && b.taskId == a.taskId && b.stepId == a.stepId && b.payload == a.payload
    && (a.state != Allocated ==> b.request == a.request && b.policy == a.policy)
    && (a.terminal.Some? ==> b.terminal == a.terminal && b.proposal == a.proposal)
    && (a.effect.Some? ==> b == a)
    && (b.state == a.state || StateMoves(a.state, b.state))
  }

  predicate StateMoves(a: State, b: State) {
    match a
    case Allocated => b !in {Allocated}
    case Requesting => b !in {Allocated, Requesting}
    case Proposed => b in {EffectApplied, EffectRejected}
    case _ => false
  }

  predicate StoreAdvances(g: Store, h: Store) {
    forall id :: id in g.steps ==> id in h.steps && Advances(g.steps[id], h.steps[id])
  }

  /** No other row shares the written row's step, its request, or its task while both are active. */
  predicate StandsClear(steps: map<string, Row>, row: Row) {
    forall id :: id in steps && id != row.operationId ==>
      && (steps[id].taskId != row.taskId || steps[id].stepId != row.stepId)
      && (row.request.Some? ==> steps[id].request != row.request)
      && (IsActive(row.state) && IsActive(steps[id].state) ==> steps[id].taskId != row.taskId)
  }

  lemma {:induction false} KeysWritten(steps: map<string, Row>, row: Row)
    requires KeysOk(steps) && StandsClear(steps, row)
    ensures KeysOk(steps[row.operationId := row])
  {
  }

  lemma {:induction false} WriteKeeps(h: Store, row: Row)
    requires StoreOk(h) && ColumnsOk(row.operationId, row) && StepRowOk(row) && StandsClear(h.steps, row)
    requires row.operationId in h.steps ==> Advances(h.steps[row.operationId], row)
    ensures StoreOk(Audited(h, row)) && StoreAdvances(h, Audited(h, row))
  {
    hide BoundOperation, BoundProposalOf, StepOk, Consistent, KeysOk, StandsClear;
    AuditedIsConsistent(h, row);
    KeysWritten(h.steps, row);
  }

  lemma {:induction false} NewStandsClear(h: Store, step: HostStep)
    requires forall id :: id in h.steps ==> !SameStep(id, h.steps[id], step)
    requires !HasActive(h, step.taskId)
    ensures step.operationId !in h.steps && StandsClear(h.steps, NewRow(step))
  {
    if step.operationId in h.steps {
      assert SameStep(step.operationId, h.steps[step.operationId], step);
      assert false;
    }
  }

  lemma {:induction false} NewRowOk(step: HostStep)
    requires StepOk(step)
    ensures StepRowOk(NewRow(step)) && ColumnsOk(step.operationId, NewRow(step))
  {
    hide StepOk;
  }

  lemma {:induction false} AllocateKeeps(h: Store, j: JournalState, step: HostStep)
    requires StoreOk(h) && StepOk(step)
    ensures var (g, _) := Allocate(h, j, step); StoreOk(g) && StoreAdvances(h, g)
  {
    hide StoreOk, StepOk, StandsClear, HasActive, HasPending;
    StandsStill(h);
    if (forall id :: id in h.steps ==> !SameStep(id, h.steps[id], step)) && !HasActive(h, step.taskId) {
      NewRowOk(step);
      NewStandsClear(h, step);
      WriteKeeps(h, NewRow(step));
    }
  }

  lemma {:induction false} OthersStandClear(h: Store, id: string, row: Row)
    requires StoreOk(h) && id in h.steps && row.operationId == id && Advances(h.steps[id], row)
    requires IsActive(row.state) ==> IsActive(h.steps[id].state)
    requires row.request == h.steps[id].request || (row.request.Some? && !RequestUsed(h, row.request.value))
    ensures StandsClear(h.steps, row)
  {
    hide Consistent, StepRowsOk;
  }

  lemma {:induction false} BeginRequestKeeps(h: Store, j: JournalState, id: string, request: string, policy: string)
    requires StoreOk(h)
    ensures var (g, _) := BeginRequest(h, j, id, request, policy); StoreOk(g) && StoreAdvances(h, g)
  {
    hide Consistent, KeysOk, StepOk, Bind;
    var (g, done) := BeginRequest(h, j, id, request, policy);
    if done.Ok? {
      var row := h.steps[id].(state := Requesting, request := Some(request), policy := Some(policy));
      assert StepRowOk(h.steps[id]);
      OthersStandClear(h, id, row);
      WriteKeeps(h, row);
    }
  }

  /** A verified terminal fills a requesting row in consistently. */
  lemma {:induction false} FilledIsOk(row: Row, evidence: Option<TerminalEvidence>)
    requires StepRowOk(row) && row.state == Requesting && WithTerminal(row, evidence).Ok?
    ensures StepRowOk(WithTerminal(row, evidence).value) && Advances(row, WithTerminal(row, evidence).value)
    ensures !IsActive(WithTerminal(row, evidence).value.state) || WithTerminal(row, evidence).value.state == Proposed
  {
    hide StepOk, BindFields;
  }

  lemma {:induction false} FillingDependsOnBinding(a: Row, b: Row, evidence: Option<TerminalEvidence>)
    requires Binding(a) == Binding(b)
    ensures var (x, y) := (WithTerminal(a, evidence), WithTerminal(b, evidence));
            && x.Ok? == y.Ok?
            && (x.Ok? ==> x.value.state == y.value.state && x.value.terminal == y.value.terminal
                          && x.value.proposal == y.value.proposal && x.value.reason == y.value.reason)
  {
    hide Bind;
  }

  lemma {:induction false} StoreTerminalKeeps(h: Store, j: JournalState, seen: Row, evidence: Option<TerminalEvidence>)
    requires StoreOk(h)
    ensures var (g, _) := StoreTerminal(h, j, seen, evidence); StoreOk(g) && StoreAdvances(h, g)
  {
    hide Consistent, KeysOk, StepOk, Bind, WithTerminal, StepRowOk;
    var id := seen.operationId;
    var (g, done) := StoreTerminal(h, j, seen, evidence);
    if g != h {
      var row := h.steps[id];
      FillingDependsOnBinding(seen, row, evidence);
      var filled := WithTerminal(row, evidence).value;
      FilledIsOk(row, evidence);
      assert filled == row.(state := filled.state, terminal := filled.terminal, proposal := filled.proposal,
                            reason := filled.reason) by {
        FilledColumns(row, evidence);
      }
      OthersStandClear(h, id, filled);
      WriteKeeps(h, filled);
    }
  }

  lemma {:induction false} FilledColumns(row: Row, evidence: Option<TerminalEvidence>)
    requires WithTerminal(row, evidence).Ok?
    ensures var filled := WithTerminal(row, evidence).value;
            filled == row.(state := filled.state, terminal := filled.terminal, proposal := filled.proposal,
                           reason := filled.reason)
  {
    hide Bind;
  }

  lemma {:induction false} ReconcileKeeps(h: Store, j: JournalState, t: ToolState, id: string)
    requires StoreOk(h)
    ensures var (g, _) := ReconcileEffect(h, j, t, id); StoreOk(g) && StoreAdvances(h, g)
  {
    hide Consistent, KeysOk, StepOk, Bind, ReceiptOk;
    var (g, done) := ReconcileEffect(h, j, t, id);
    if g != h {
      var row, receipt := h.steps[id], j[id].receipt.value;
      var after := row.(state := EffectState(receipt.status), effect := Some(receipt),
                        reason := EffectCode(receipt.code));
      assert StepRowOk(row) && BoundProposalOf(after) == BoundProposalOf(row);
      OthersStandClear(h, id, after);
      WriteKeeps(h, after);
    }
  }

  // ------------------------------------------------------------- the class

  /** `record_terminal` when nothing interferes between its snapshot and its last transaction. */
  function RecordTerminal(h: Store, j: JournalState, verifier: RequestBinding -> Option<TerminalEvidence>, id: string):
      (Store, Result<Row, HostError>) {
    if id !in h.steps then (h, Err(HostStepMissing))
    else if h.steps[id].state == Allocated then (h, Err(RequestNotBound))
    else if h.steps[id].state != Requesting then (h, Ok(h.steps[id]))
    else
      var binding := Binding(h.steps[id]);
      if binding.Err? then (h, Err(binding.error))
      else StoreTerminal(h, j, h.steps[id], verifier(binding.value))
  }

  class HostStepStore {
    const journal: IntentJournal
    const tool: ToolStore
    const verifier: RequestBinding -> Option<TerminalEvidence>
    var steps: map<string, Row>
    var events: seq<Event>

    constructor (journal: IntentJournal, tool: ToolStore, verifier: RequestBinding -> Option<TerminalEvidence>)
      ensures Contents() == EmptyStore && this.journal == journal && this.tool == tool && this.verifier == verifier
      ensures StoreOk(Contents())
    {
      this.journal, this.tool, this.verifier := journal, tool, verifier;
      steps, events := map[], [];
    }

    function Contents(): Store
      reads this
    {
      Store(steps, events)
    }

    /** `_validate`: one pass over the chain, then every row against its latest snapshot. */
    method Validate() returns (ok: bool)
      ensures ok <==> Consistent(Contents())
    {
      ok := VerifyLinks(events);
      if !ok {
        return;
      }
      var latest: map<string, Row> := map[];
      for i := 0 to |events|
        invariant latest == Latest(events[..i])
        invariant SequencesOk(events[..i])
      {
        assert events[..i + 1][..i] == events[..i];
        var e := events[i];
        if e.body.sequence != e.sequence {
          return false;
        }
        latest := latest[e.body.operationId := e.body.row];
      }
      assert events[..|events|] == events;
      return steps == latest && forall id :: id in steps ==> ColumnsOk(id, steps[id]);
    }

    /** `_audit`: the changed row is written and its snapshot appended. */
    method Audit(row: Row)
      modifies this`steps, this`events
      ensures Contents() == Audited(old(Contents()), row)
    {
      steps := steps[row.operationId := row];
      var previous := if events == [] then Zero else events[|events| - 1].hash;
      var body := Snapshot(|events| + 1, row.operationId, row);
      events := events + [Link(|events| + 1, body, previous, Sha(body, previous))];
    }

    method AllocateStep(step: HostStep) returns (result: Result<Row, HostError>)
      requires StepOk(step)
      modifies this`steps, this`events
      ensures if Consistent(old(Contents()))
              then (Contents(), result) == Allocate(old(Contents()), journal.intents, step)
              else Contents() == old(Contents()) && result == Err(EventChainInvalid)
      ensures old(StoreOk(Contents())) ==> StoreOk(Contents()) && StoreAdvances(old(Contents()), Contents())
    {
      hide StepRowOk;
      ghost var before := Contents();
      if StoreOk(before) {
        AllocateKeeps(before, journal.intents, step);
      }
      var valid := Validate();
      if !valid {
        return Err(EventChainInvalid);
      }
      hide StoreOk, Consistent, StoreAdvances;
      if id :| id in steps && SameStep(id, steps[id], step) {
        if step.operationId in steps && steps[step.operationId].payload == step {
          return Ok(steps[step.operationId]);
        }
        return Err(HostScopeOrIdentityChanged);
      }
      if HasPending(journal.intents, step.taskId) {
        return Err(PendingEffectRequiresRecovery);
      }
      if HasActive(Contents(), step.taskId) {
        return Err(ActiveStepRequiresRecovery);
      }
      Audit(NewRow(step));
      return Ok(NewRow(step));
    }

    method Begin(id: string, request: string, policy: string) returns (done: Result<(), HostError>)
      modifies this`steps, this`events
      ensures if Consistent(old(Contents()))
              then (Contents(), done) == BeginRequest(old(Contents()), journal.intents, id, request, policy)
              else Contents() == old(Contents()) && done == Err(EventChainInvalid)
      ensures old(StoreOk(Contents())) ==> StoreOk(Contents()) && StoreAdvances(old(Contents()), Contents())
    {
      hide StepRowOk;
      ghost var before := Contents();
      if StoreOk(before) {
        BeginRequestKeeps(before, journal.intents, id, request, policy);
      }
      var valid := Validate();
      if !valid {
        return Err(EventChainInvalid);
      }
      hide StoreOk, Consistent, StoreAdvances;
      if id !in steps {
        return Err(HostStepMissing);
      }
      var row := steps[id];
      if row.state != Allocated {
        return Err(RequestAlreadyBound);
      }
      if HasPending(journal.intents, row.taskId) {
        return Err(PendingEffectRequiresRecovery);
      }
      if RequestUsed(Contents(), request) {
        return Err(RequestIdentityReused);
      }
      Audit(row.(state := Requesting, request := Some(request), policy := Some(policy)));
      return Ok(());
    }

    method Record(id: string) returns (result: Result<Row, HostError>)
      modifies this`steps, this`events
      ensures if Consistent(old(Contents()))
              then (Contents(), result) == RecordTerminal(old(Contents()), journal.intents, verifier, id)
              else Contents() == old(Contents()) && result == Err(EventChainInvalid)
      ensures old(StoreOk(Contents())) ==> StoreOk(Contents()) && StoreAdvances(old(Contents()), Contents())
    {
      hide StepRowOk;
      ghost var before := Contents();
      if StoreOk(before) {
        RecordKeeps(before, journal.intents, verifier, id);
      }
      var valid := Validate();
      if !valid {
        return Err(EventChainInvalid);
      }
      assert id in steps ==> steps[id].operationId == id by { if id in steps { ColumnsMatch(before, id); } }
      hide StoreOk, Consistent, StoreAdvances, WithTerminal;
      if id !in steps {
        return Err(HostStepMissing);
      }
      var row := steps[id];
      if row.state == Allocated {
        return Err(RequestNotBound);
      }
      if row.state != Requesting {
        return Ok(row);
      }
      var binding := Binding(row);
      if binding.Err? {
        return Err(binding.error);
      }
      result := FillIn(row, verifier(binding.value));
    }

    /** The last transaction of `record_terminal`: it trusts neither the row it saw before nor its state. */
    method FillIn(seen: Row, evidence: Option<TerminalEvidence>) returns (result: Result<Row, HostError>)
      modifies this`steps, this`events
      ensures if Consistent(old(Contents()))
              then (Contents(), result) == StoreTerminal(old(Contents()), journal.intents, seen, evidence)
              else Contents() == old(Contents()) && result.Err?
    {
      var filled := WithTerminal(seen, evidence);
      if filled.Err? {
        return filled;
      }
      var valid := Validate();
      if !valid {
        return Err(EventChainInvalid);
      }
      ghost var before := Contents();
      hide Consistent, WithTerminal;
      var id := seen.operationId;
      if id !in steps {
        return Err(HostStepMissing);
      }
      var current := steps[id];
      if Binding(current) != Binding(seen) {
        return Err(RequestNotBound);
      }
      if current.state != Requesting {
        if current.terminal != filled.value.terminal {
          return Err(TerminalEvidenceChanged);
        }
        return Ok(current);
      }
      if HasPending(journal.intents, current.taskId) {
        return Err(PendingEffectRequiresRecovery);
      }
      var after := current.(state := filled.value.state, terminal := filled.value.terminal,
                            proposal := filled.value.proposal, reason := filled.value.reason);
      assert current.operationId == id by { ColumnsMatch(before, id); }
      Audit(after);
      return Ok(after);
    }

    method Reconcile(id: string) returns (result: Result<Row, HostError>)
      modifies this`steps, this`events
      ensures if Consistent(old(Contents()))
              then (Contents(), result) == ReconcileEffect(old(Contents()), journal.intents, tool.State(), id)
              else Contents() == old(Contents()) && result == Err(EventChainInvalid)
      ensures old(StoreOk(Contents())) ==> StoreOk(Contents()) && StoreAdvances(old(Contents()), Contents())
    {
      hide StepRowOk;
      ghost var before := Contents();
      if StoreOk(before) {
        ReconcileKeeps(before, journal.intents, tool.State(), id);
      }
      var valid := Validate();
      if !valid {
        return Err(EventChainInvalid);
      }
      hide StoreOk, Consistent, StoreAdvances, ReceiptOk;
      if id !in steps {
        return Err(HostStepMissing);
      }
      var row := steps[id];
      if row.state in {EffectApplied, EffectRejected} {
        return Ok(row);
      }
      var op := BoundOperation(row);
      if row.state != Proposed || op.None? {
        return Err(OperationProposalRequired);
      }
      if HasPending(journal.intents, row.taskId) {
        return Err(PendingEffectRequiresRecovery);
      }
      if id !in journal.intents || !journal.intents[id].complete || journal.intents[id].payload != op.value
         || journal.intents[id].receipt.None? {
        return Err(CompletedIntentRequired);
      }
      var receipt := journal.intents[id].receipt.value;
      if !ReceiptOk(op.value, receipt) {
        return Err(EffectReceiptInvalid);
      }
      var actual := tool.Lookup(id);
      if actual != Some(receipt) {
        return Err(ToolReceiptUnverified);
      }
      var after := row.(state := EffectState(receipt.status), effect := Some(receipt),
                        reason := EffectCode(receipt.code));
      assert row.operationId == id by { ColumnsMatch(before, id); }
      Audit(after);
      return Ok(after);
    }
  }

  lemma {:induction false} ColumnsMatch(h: Store, id: string)
    requires Consistent(h) && id in h.steps
    ensures h.steps[id].operationId == id
  {
  }

  lemma {:induction false} RecordKeeps(h: Store, j: JournalState, verifier: RequestBinding -> Option<TerminalEvidence>,
                                       id: string)
    requires StoreOk(h)
    ensures var (g, _) := RecordTerminal(h, j, verifier, id); StoreOk(g) && StoreAdvances(h, g)
  {
    hide StoreOk, StoreTerminal, Advances;
    StandsStill(h);
    if id in h.steps && Binding(h.steps[id]).Ok? {
      StoreTerminalKeeps(h, j, h.steps[id], verifier(Binding(h.steps[id]).value));
    }
  }

  lemma {:induction false} StandsStill(h: Store)
    ensures StoreAdvances(h, h)
  {
  }

  // ------------------------------------------------------------- what each transaction records

  /** Only this row changed. */
  predicate OnlyRow(g: Store, h: Store, id: string) {
    h.steps.Keys == g.steps.Keys + {id} && forall x :: x in g.steps && x != id ==> h.steps[x] == g.steps[x]
  }

  /** A scope is allocated once: a repeat returns the original row, and a changed scope is refused. */
  lemma {:induction false} AllocationIsImmutable(h: Store, j: JournalState, step: HostStep)
    requires StoreOk(h) && StepOk(step)
    ensures var (g, result) := Allocate(h, j, step);
            && (result.Ok? ==> step.operationId in g.steps && g.steps[step.operationId] == result.value
                               && result.value.payload == step && OnlyRow(h, g, step.operationId))
            && (step.operationId in h.steps && h.steps[step.operationId].payload == step ==>
                (g, result) == (h, Ok(h.steps[step.operationId])))
            && (step.operationId in h.steps && h.steps[step.operationId].payload != step ==>
                result == Err(HostScopeOrIdentityChanged))
            && (result.Ok? && step.operationId !in h.steps ==>
                !HasPending(j, step.taskId) && !HasActive(h, step.taskId))
  {
    hide StoreOk, StepOk;
    if step.operationId in h.steps {
      StepColumns(h, step.operationId);
      assert SameStep(step.operationId, h.steps[step.operationId], step);
    }
  }

  lemma {:induction false} StepColumns(h: Store, id: string)
    requires StoreOk(h) && id in h.steps
    ensures ColumnsOk(id, h.steps[id]) && StepRowOk(h.steps[id])
  {
    hide StepRowOk;
  }

  /** A bound request is the one asked for, was never bound before, and belongs to a step with nothing pending. */
  lemma {:induction false} RequestIsBound(h: Store, j: JournalState, id: string, request: string, policy: string)
    requires StoreOk(h) && BeginRequest(h, j, id, request, policy).1.Ok?
    ensures var g := BeginRequest(h, j, id, request, policy).0;
            && id in h.steps && h.steps[id].state == Allocated && !RequestUsed(h, request)
            && !HasPending(j, h.steps[id].taskId)
            && OnlyRow(h, g, id) && g.steps[id].state == Requesting
            && Binding(g.steps[id]) == Ok(RequestBinding(id, h.steps[id].payload, request, policy))
  {
    StepColumns(h, id);
    hide StoreOk, StepRowOk;
  }

  /** The state a terminal leads to. */
  function Outcome(t: Terminal, step: HostStep): State {
    match t.status
    case Completed(content) =>
      var bound := Bind(content, step);
      if bound.Err? then Invalid else if bound.value.operation.Some? then Proposed else Abstained
    case _ => GenerationFailed
  }

  /**
   A recorded terminal is the evidence's own, for this request and policy, and decides the state by
   binding its content to the step.
   */
  lemma {:induction false} TerminalIsRecorded(h: Store, j: JournalState, id: string, evidence: Option<TerminalEvidence>)
    requires StoreOk(h) && id in h.steps && h.steps[id].state == Requesting
    requires StoreTerminal(h, j, h.steps[id], evidence).1.Ok?
    ensures var g := StoreTerminal(h, j, h.steps[id], evidence).0;
            && evidence.Some? && OnlyRow(h, g, id)
            && g.steps[id].terminal == Some(evidence.value.terminal)
            && Some(evidence.value.terminal.request) == h.steps[id].request
            && Some(evidence.value.policy) == h.steps[id].policy
            && evidence.value.terminal.serverFinished && !HasPending(j, h.steps[id].taskId)
            && g.steps[id].state == Outcome(evidence.value.terminal, h.steps[id].payload)
            && (g.steps[id].proposal.Some? <==> g.steps[id].state in {Proposed, Abstained})
            && (g.steps[id].proposal.Some? ==> evidence.value.terminal.status == Completed(g.steps[id].proposal.value))
  {
    hide StoreOk, StepRowOk, Bind, WithTerminal, Outcome, HasPending, StoreTerminal;
    StepColumns(h, id);
    TerminalIsStored(h, j, id, evidence);
    FilledOutcome(h.steps[id], evidence);
  }

  lemma {:induction false} TerminalIsStored(h: Store, j: JournalState, id: string, evidence: Option<TerminalEvidence>)
    requires id in h.steps && h.steps[id].operationId == id && h.steps[id].state == Requesting
    requires StoreTerminal(h, j, h.steps[id], evidence).1.Ok?
    ensures WithTerminal(h.steps[id], evidence).Ok? && !HasPending(j, h.steps[id].taskId)
    ensures var filled := WithTerminal(h.steps[id], evidence).value;
            StoreTerminal(h, j, h.steps[id], evidence).0
            == Audited(h, h.steps[id].(state := filled.state, terminal := filled.terminal, proposal := filled.proposal,
                                       reason := filled.reason))
  {
    hide WithTerminal, HasPending, Audited;
  }

  lemma {:induction false} FilledOutcome(row: Row, evidence: Option<TerminalEvidence>)
    requires WithTerminal(row, evidence).Ok? && row.state == Requesting
    ensures var filled := WithTerminal(row, evidence).value;
            && evidence.Some? && filled.terminal == Some(evidence.value.terminal)
            && Some(evidence.value.terminal.request) == row.request && Some(evidence.value.policy) == row.policy
            && evidence.value.terminal.serverFinished
            && filled.state == Outcome(evidence.value.terminal, row.payload)
            && (filled.proposal.Some? <==> filled.state in {Proposed, Abstained})
            && (filled.proposal.Some? ==> evidence.value.terminal.status == Completed(filled.proposal.value))
  {
    hide Bind;
  }

  /** An effect is recorded exactly when a proposed step's intent is complete with the receipt the tool holds. */
  lemma {:induction false} EffectIsObserved(h: Store, j: JournalState, t: ToolState, id: string)
    requires StoreOk(h) && id in h.steps && h.steps[id].state == Proposed
    ensures var (g, result) := ReconcileEffect(h, j, t, id);
            && (result.Ok? <==>
                  && !HasPending(j, h.steps[id].taskId) && id in j && j[id].complete
                  && Some(j[id].payload) == BoundOperation(h.steps[id])
                  && j[id].receipt.Some? && ReceiptOk(j[id].payload, j[id].receipt.value)
                  && LookupReceipt(t, id) == j[id].receipt)
            && (result.Ok? ==> OnlyRow(h, g, id) && g.steps[id].effect == LookupReceipt(t, id)
                               && g.steps[id].state == EffectState(g.steps[id].effect.value.status)
                               && (g.steps[id].state == EffectApplied
                                   <==> g.steps[id].effect.value.status == StatusApplied)
                               && g.steps[id].reason == EffectCode(g.steps[id].effect.value.code))
            && (result.Err? ==> g == h)
  {
    StepColumns(h, id);
    assert BoundOperation(h.steps[id]).Some? && h.steps[id].operationId == id;
    hide StoreOk, StepRowOk, BoundOperation, ReceiptOk, HasPending, ReconcileEffect, LookupReceipt, Audited, OnlyRow;
    EffectIsWritten(h, j, t, id);
    if ReconcileEffect(h, j, t, id).1.Ok? {
      var r := j[id].receipt.value;
      AuditedIsOnlyRow(h,
                       h.steps[id].(state := EffectState(r.status), effect := Some(r), reason := EffectCode(r.code)));
    }
  }

  lemma {:induction false} AuditedIsOnlyRow(h: Store, row: Row)
    requires row.operationId in h.steps
    ensures OnlyRow(h, Audited(h, row), row.operationId) && Audited(h, row).steps[row.operationId] == row
  {
  }

  lemma {:induction false} EffectIsWritten(h: Store, j: JournalState, t: ToolState, id: string)
    requires id in h.steps && h.steps[id].state == Proposed && h.steps[id].operationId == id
    requires BoundOperation(h.steps[id]).Some?
    ensures var (g, result) := ReconcileEffect(h, j, t, id);
            && (result.Ok? <==>
                  && !HasPending(j, h.steps[id].taskId) && id in j && j[id].complete
                  && Some(j[id].payload) == BoundOperation(h.steps[id])
                  && j[id].receipt.Some? && ReceiptOk(j[id].payload, j[id].receipt.value)
                  && LookupReceipt(t, id) == j[id].receipt)
            && (result.Ok? ==>
                  var r := j[id].receipt.value;
                  g == Audited(h,
                               h.steps[id].(state := EffectState(r.status), effect := Some(r),
                                            reason := EffectCode(r.code))))
            && (result.Err? ==> g == h)
  {
    hide BoundOperation, ReceiptOk, HasPending, Audited, LookupReceipt;
  }

  // ------------------------------------------------------------- when each transaction is accepted

  /** The step's identity is taken: by its operation, or by its task and step. */
  predicate IsTaken(h: Store, step: HostStep) {
    exists id ::
      id in h.steps
        && (id == step.operationId || (h.steps[id].taskId == step.taskId && h.steps[id].stepId == step.stepId))
  }

  predicate IsRepeat(h: Store, step: HostStep) {
    step.operationId in h.steps && h.steps[step.operationId].payload == step
  }

  /**
   A scope is allocated exactly if it repeats one, or is new to a task with nothing pending and no
   active step; each refusal says why.
   */
  lemma {:induction false} AllocatedExactlyWhen(h: Store, j: JournalState, step: HostStep)
    ensures var result := Allocate(h, j, step).1;
            && (result.Ok? <==>
                  IsRepeat(h, step) || (!IsTaken(h, step) && !HasPending(j, step.taskId) && !HasActive(h, step.taskId)))
            && (result == Err(HostScopeOrIdentityChanged) <==> IsTaken(h, step) && !IsRepeat(h, step))
            && (result == Err(PendingEffectRequiresRecovery) <==> !IsTaken(h, step) && HasPending(j, step.taskId))
            && (result == Err(ActiveStepRequiresRecovery) <==>
                  !IsTaken(h, step) && !HasPending(j, step.taskId) && HasActive(h, step.taskId))
            && (result.Err? ==> Allocate(h, j, step).0 == h)
  {
    hide HasPending, HasActive;
    if IsTaken(h, step) {
      var id :| id in h.steps
          && (id == step.operationId || (h.steps[id].taskId == step.taskId && h.steps[id].stepId == step.stepId));
      assert SameStep(id, h.steps[id], step);
    }
    if id :| id in h.steps && SameStep(id, h.steps[id], step) {
      assert IsTaken(h, step);
    }
  }

  /**
   A request is bound exactly if the step is allocated, its task quiet and the request unused; each
   refusal says why.
   */
  lemma {:induction false} RequestBoundExactlyWhen(h: Store, j: JournalState, id: string, request: string,
                                                   policy: string)
    ensures var result := BeginRequest(h, j, id, request, policy).1;
            && (result.Ok? <==>
                  && id in h.steps && h.steps[id].state == Allocated && !HasPending(j, h.steps[id].taskId)
                  && forall x :: x in h.steps ==> h.steps[x].request != Some(request))
            && (result == Err(HostStepMissing) <==> id !in h.steps)
            && (result == Err(RequestAlreadyBound) <==> id in h.steps && h.steps[id].state != Allocated)
            && (result == Err(PendingEffectRequiresRecovery) <==>
                  id in h.steps && h.steps[id].state == Allocated && HasPending(j, h.steps[id].taskId))
            && (result.Err? ==> BeginRequest(h, j, id, request, policy).0 == h)
  {
    hide HasPending;
  }

  /** What the bridge must answer: this request under this policy, finished by the server, in a known shape. */
  predicate Acceptable(row: Row, evidence: Option<TerminalEvidence>) {
    && row.request.Some? && row.policy.Some? && evidence.Some? && Some(evidence.value.policy) == row.policy
    && Some(evidence.value.terminal.request) == row.request
    && evidence.value.terminal.serverFinished && evidence.value.terminal.wellFormed
    && match evidence.value.terminal.status
       case Completed(_) => true
       case Failed(code) => code == "budget_exhausted" || code == "runtime_error"
       case OtherStatus => false
  }

  /**
   A terminal is recorded exactly if it is acceptable and the task quiet; a failed request keeps its
   code as the reason.
   */
  lemma {:induction false} TerminalRecordedExactlyWhen(h: Store, j: JournalState, id: string,
                                                       evidence: Option<TerminalEvidence>)
    requires StoreOk(h) && id in h.steps && h.steps[id].state == Requesting
    ensures var (g, result) := StoreTerminal(h, j, h.steps[id], evidence);
            && (result.Ok? <==> Acceptable(h.steps[id], evidence) && !HasPending(j, h.steps[id].taskId))
            && (result.Err? ==> g == h)
            && (result.Ok? && evidence.value.terminal.status.Failed? ==>
                  id in g.steps && g.steps[id].state == GenerationFailed
                  && g.steps[id].reason == ErrorCode(evidence.value.terminal.status.errorCode))
            && (result == Err(PendingEffectRequiresRecovery) <==>
                  Acceptable(h.steps[id], evidence) && HasPending(j, h.steps[id].taskId))
            && (evidence.None? ==> result == Err(TerminalEvidenceUnverified))
  {
    StepColumns(h, id);
    FilledExactlyWhen(h.steps[id], evidence);
    hide StoreOk, StepRowOk, WithTerminal, HasPending, Acceptable;
  }

  lemma {:induction false} FilledExactlyWhen(row: Row, evidence: Option<TerminalEvidence>)
    requires row.request.Some? && row.policy.Some?
    ensures WithTerminal(row, evidence).Ok? <==> Acceptable(row, evidence)
    ensures WithTerminal(row, evidence).Ok? && evidence.value.terminal.status.Failed? ==>
              && WithTerminal(row, evidence).value.state == GenerationFailed
              && WithTerminal(row, evidence).value.reason == ErrorCode(evidence.value.terminal.status.errorCode)
    ensures WithTerminal(row, evidence) != Err(PendingEffectRequiresRecovery)
    ensures evidence.None? ==> WithTerminal(row, evidence) == Err(TerminalEvidenceUnverified)
  {
    hide Bind;
  }

  /** Once a terminal is recorded, only that terminal is accepted again, and nothing changes. */
  lemma {:induction false} TerminalIsFinal(h: Store, j: JournalState, seen: Row, evidence: Option<TerminalEvidence>)
    requires seen.operationId in h.steps && Binding(h.steps[seen.operationId]) == Binding(seen)
    requires h.steps[seen.operationId].state !in {Allocated, Requesting} && WithTerminal(seen, evidence).Ok?
    ensures var row := h.steps[seen.operationId];
            StoreTerminal(h, j, seen, evidence)
            == (h, if row.terminal == Some(evidence.value.terminal) then Ok(row) else Err(TerminalEvidenceChanged))
  {
    hide Bind;
  }
}
