/**
 The boundary between a model's proposal and the host's authority: a host step fixes the
 identities and the scope, and binding a proposal to it yields one operation inside that
 scope, an abstention, or an error.
 */
module ToolProposal {
  import opened Prelude
  import opened Json
  import opened ControlledTools

  const VERSION := "controlled-tool-proposal/1.0"
  const MAX_BYTES := 16384
  const MAX_SCOPE := 128
  const ABSTENTION_REASONS := {"no_action", "inventory_unavailable", "insufficient_stock", "conflicting_sources"}
  const FIELDS := {"schema_version", "decision", "product", "quantity", "expected_version", "reservation_id", "reason"}

  datatype ReservationRef = ReservationRef(reservationId: string, product: string, quantity: int)

  datatype HostStep = HostStep(
    taskId: string,
    stepId: string,
    operationId: string,
    allowedKinds: seq<string>,
    allowedProducts: seq<string>,
    maxQuantity: int,
    reservations: seq<ReservationRef>)

  predicate NoRepeats<T(==)>(s: seq<T>) {
    forall i, j :: 0 <= i < j < |s| ==> s[i] != s[j]
  }

  /** `HostStep.__post_init__`. */
  predicate StepOk(step: HostStep) {
    && IdentifierOk(step.taskId) && IdentifierOk(step.stepId) && IdentifierOk(step.operationId)
    && IntegerOk(step.maxQuantity, 1)
    && 0 < |step.allowedKinds| <= MAX_SCOPE && 0 < |step.allowedProducts| <= MAX_SCOPE
    && |step.reservations| <= MAX_SCOPE
    && (forall k :: k in step.allowedKinds ==> k in {"reserve", "release"})
    && (forall p :: p in step.allowedProducts ==> IdentifierOk(p))
    && NoRepeats(step.allowedKinds) && NoRepeats(step.allowedProducts)
    && (forall r :: r in step.reservations ==>
          IdentifierOk(r.reservationId) && IdentifierOk(r.product) && IntegerOk(r.quantity, 1)
            && r.product in step.allowedProducts)
    && (forall i, j :: 0 <= i < j < |step.reservations| ==>
        step.reservations[i].reservationId != step.reservations[j].reservationId)
  }

  /** Proposal text, as its length in bytes and what `json.loads` makes of it, if anything. */
  datatype Content = Content(bytes: nat, parsed: Option<Json>)

  datatype BoundProposal = BoundProposal(operation: Option<Operation>, reason: string)

  datatype BindError =
    | HostStepInvalid
    | ProposalBytesInvalid
    | ProposalJsonInvalid
    | ProposalFieldsInvalid
    | ProposalVersionInvalid
    | DecisionInvalid
    | AbstentionInvalid
    | OperationOutsideScope
    | InvalidIdentifier
    | InvalidInteger
    | ProductOrQuantityOutsideScope
    | ReserveHasNoPriorReservation
    | ReleaseOutsideScope

  predicate IsIdentifier(v: Json) {
    v.Str? && IdentifierOk(v.s)
  }

  predicate IsInteger(v: Json, minimum: int) {
    v.Int? && IntegerOk(v.i, minimum)
  }

  function KindName(kind: Kind): string {
    match kind
    case Reserve => "reserve"
    case Release => "release"
  }

  /** `bind_tool_proposal`. */
  function Bind(content: Content, step: HostStep): Result<BoundProposal, BindError> {
    if !StepOk(step) then Err(HostStepInvalid)
    else if !(0 < content.bytes <= MAX_BYTES) then Err(ProposalBytesInvalid)
    else if content.parsed.None? then Err(ProposalJsonInvalid)
    else if !content.parsed.value.Obj? || content.parsed.value.fields.Keys != FIELDS then Err(ProposalFieldsInvalid)
    else BindFields(content.parsed.value.fields, step)
  }

  function BindFields(f: map<string, Json>, step: HostStep): Result<BoundProposal, BindError>
    requires f.Keys == FIELDS
  {
    if f["schema_version"] != Str(VERSION) then Err(ProposalVersionInvalid)
    else if !f["decision"].Str? || !f["reason"].Str? then Err(DecisionInvalid)
    else if f["decision"].s == "abstain" then
      if f["reason"].s !in ABSTENTION_REASONS || f["product"] != Null || f["quantity"] != Null
         || f["expected_version"] != Null || f["reservation_id"] != Null
      then Err(AbstentionInvalid)
      else Ok(BoundProposal(None, f["reason"].s))
    else if f["decision"].s !in step.allowedKinds || f["reason"].s != "none" then Err(OperationOutsideScope)
    else if !IsIdentifier(f["product"]) then Err(InvalidIdentifier)
    else if !IsInteger(f["quantity"], 1) || !IsInteger(f["expected_version"], 0) then Err(InvalidInteger)
    else if f["product"].s !in step.allowedProducts || f["quantity"].i > step.maxQuantity
      then Err(ProductOrQuantityOutsideScope)
    else BindReservation(f["decision"].s, f["product"].s, f["quantity"].i, f["expected_version"].i, f["reservation_id"],
                         step)
  }

  function BindReservation(kind: string, product: string, quantity: int, version: int, reservation: Json,
                           step: HostStep):
      Result<BoundProposal, BindError> {
    if kind == "reserve" then
      if reservation != Null then Err(ReserveHasNoPriorReservation)
      else Ok(BoundProposal(Some(Operation(step.operationId, step.taskId, step.stepId, Reserve, product, quantity,
                                           version, None)), "none"))
    else if !IsIdentifier(reservation) then Err(InvalidIdentifier)
    else if ReservationRef(reservation.s, product, quantity) !in step.reservations then Err(ReleaseOutsideScope)
    else Ok(BoundProposal(Some(Operation(step.operationId, step.taskId, step.stepId, Release, product, quantity,
                                         version,
                                         Some(reservation.s))), "none"))
  }

  /** What a host step permits, independently of how a proposal is written. */
  predicate InScope(op: Operation, step: HostStep) {
    && StepOk(step) && OperationOk(op)
    && op.operationId == step.operationId && op.taskId == step.taskId && op.stepId == step.stepId
    && KindName(op.kind) in step.allowedKinds && op.product in step.allowedProducts && op.quantity <= step.maxQuantity
    && (op.kind == Release ==> ReservationRef(op.reservationId.value, op.product, op.quantity) in step.reservations)
  }

  /** Whatever a model writes, the bound operation is the host's own and inside the step. */
  lemma {:induction false} BoundStaysInScope(content: Content, step: HostStep)
    ensures Bind(content, step).Ok? && Bind(content, step).value.operation.Some? ==>
              InScope(Bind(content, step).value.operation.value, step)
  {
    if Bind(content, step).Ok? && Bind(content, step).value.operation.Some? {
      var kind := content.parsed.value.fields["decision"].s;
      assert kind in step.allowedKinds && kind in {"reserve", "release"};
    }
  }

  function ProposalFor(op: Operation): map<string, Json> {
    map["schema_version" := Str(VERSION), "decision" := Str(KindName(op.kind)), "product" := Str(op.product),
        "quantity" := Int(op.quantity), "expected_version" := Int(op.expectedVersion),
        "reservation_id" := if op.reservationId.Some? then Str(op.reservationId.value)
          else Null, "reason" := Str("none")]
  }

  /** Round trip: an operation written as a proposal binds to itself exactly when the step permits it. */
  lemma {:induction false} PermittedExactlyWhenInScope(op: Operation, step: HostStep, bytes: nat)
    requires 0 < bytes <= MAX_BYTES
    ensures Bind(Content(bytes, Some(Obj(ProposalFor(op)))), step) == Ok(BoundProposal(Some(op), "none"))
            <==> InScope(op, step)
  {
    var content := Content(bytes, Some(Obj(ProposalFor(op))));
    assert ProposalFor(op).Keys == FIELDS;
    BoundStaysInScope(content, step);
    assert KindName(op.kind) != "abstain";
  }

  /** An abstention grants nothing: it never comes with an operation, and only the fixed reasons are accepted. */
  lemma {:induction false} AbstentionHasNoOperation(content: Content, step: HostStep)
    requires Bind(content, step).Ok?
    ensures var bound := Bind(content, step).value;
            && (bound.operation.None? <==> bound.reason in ABSTENTION_REASONS)
            && (bound.operation.None? <==> content.parsed.value.fields["decision"] == Str("abstain"))
  {
    var kind := content.parsed.value.fields["decision"].s;
    assert forall k :: k in step.allowedKinds ==> k in {"reserve", "release"};
  }
}
