/**
 The synthetic inventory tool and the intent journal, each a database of its own.

 Every public method is one transaction: it reads and writes the committed tables
 atomically, or leaves them untouched when it raises. The functions on `ToolState`
 and `JournalState` say what each transaction does; the classes do it step by step.
 SHA-256 is the injective constructor `Sha256`, and an operation's canonical JSON
 payload is the operation itself.
 */
module ControlledTools {
  import opened Prelude

  const MAX_INTEGER: int := 0x7fff_ffff

  datatype Kind = Reserve | Release

  datatype Operation = Operation(
    operationId: string,
    taskId: string,
    stepId: string,
    kind: Kind,
    product: string,
    quantity: int,
    expectedVersion: int,
    reservationId: Option<string>)

  predicate IdentifierOk(s: string) {
    NotBlank(s) && |s| <= 128
  }

  predicate IntegerOk(n: int, minimum: int) {
    minimum <= n <= MAX_INTEGER
  }

  /** `Operation.__post_init__`. */
  predicate OperationOk(op: Operation) {
    && IdentifierOk(op.operationId) && IdentifierOk(op.taskId) && IdentifierOk(op.stepId) && IdentifierOk(op.product)
    && IntegerOk(op.quantity, 1) && IntegerOk(op.expectedVersion, 0)
    && match op.kind
       case Reserve => op.reservationId.None?
       case Release => op.reservationId.Some? && IdentifierOk(op.reservationId.value)
  }

  datatype Digest = Sha256(payload: Operation)

  datatype Code =
    | Applied
    | NotAuthorized
    | UnknownProduct
    | VersionMismatch
    | QuotaExceeded
    | InsufficientStock
    | ReservationMismatch
    | ReservationInactive

  datatype Status = StatusApplied | StatusRejected

  datatype Receipt = Receipt(
    operationId: string,
    requestSha256: Digest,
    status: Status,
    code: Code,
    available: Option<int>,
    version: Option<int>)

  /** What `record_receipt` checks before it stores a receipt for `op`. */
  predicate ReceiptOk(op: Operation, r: Receipt) {
    && r.operationId == op.operationId && r.requestSha256 == Sha256(op)
    && (r.status == StatusApplied <==> r.code == Applied)
    && (r.available.None? || r.version.None? ==> r.code in {NotAuthorized, UnknownProduct})
    && (r.available.Some? ==> r.available.value >= 0) && (r.version.Some? ==> r.version.value >= 0)
    && (r.available.None? <==> r.version.None?)
  }

  datatype Failure = OperationIdentityReused | PendingIntent | IntentMissing | ReceiptInvalid | ReceiptChanged
                   | ReceiptRequired | AlreadySeeded | GrantChanged | Fault

  // ------------------------------------------------------------- the tool's tables

  datatype Stock = Stock(available: int, version: int)

  datatype Reservation = Reservation(id: string, task: string, product: string, quantity: int, active: bool)

  /** A row of `receipts`; `rowId` is its insertion order. */
  datatype ReceiptRow = ReceiptRow(rowId: nat, task: string, step: string, payload: Operation, receipt: Receipt)

  datatype ToolState = ToolState(
    inventory: map<string, Stock>,
    grants: map<(string, string), int>,
    receipts: map<string, ReceiptRow>,
    reservations: seq<Reservation>)

  const EmptyTool := ToolState(map[], map[], map[], [])

  /** Quantity of `product` in active reservations; of one task if it is given. */
  function ActiveSum(rs: seq<Reservation>, product: string, task: Option<string>): int {
    if rs == [] then 0
    else
      var r := rs[|rs| - 1];
      ActiveSum(rs[..|rs| - 1], product, task)
      + (if r.active && r.product == product && (task.Some? ==> r.task == task.value) then r.quantity else 0)
  }

  /** The row with this primary key. */
  function FindReservation(rs: seq<Reservation>, id: string): Option<nat> {
    if rs == [] then None
    else if rs[|rs| - 1].id == id then Some(|rs| - 1)
    else FindReservation(rs[..|rs| - 1], id)
  }

  predicate SameReceiptKey(id: string, row: ReceiptRow, op: Operation) {
    id == op.operationId || (row.task == op.taskId && row.step == op.stepId)
  }

  /** The rejection code of a fresh operation, or `Applied`. */
  function Judge(s: ToolState, op: Operation): Code {
    var stock := if op.product in s.inventory then Some(s.inventory[op.product]) else None;
    var key := (op.taskId, op.product);
    if key !in s.grants then NotAuthorized
    else if stock.None? then UnknownProduct
    else if stock.value.version != op.expectedVersion then VersionMismatch
    else if op.kind == Reserve then
      if ActiveSum(s.reservations, op.product, Some(op.taskId)) + op.quantity > s.grants[key] then QuotaExceeded
      else if stock.value.available < op.quantity then InsufficientStock
      else Applied
    else
      var found := if op.reservationId.Some? then FindReservation(s.reservations, op.reservationId.value) else None;
      if found.None? then ReservationMismatch
      else
        var r := s.reservations[FoundAt(s.reservations, found)];
        if r.task != op.taskId || r.product != op.product || r.quantity != op.quantity then ReservationMismatch
        else if !r.active then ReservationInactive
        else Applied
  }

  function FoundAt(rs: seq<Reservation>, found: Option<nat>): (i: nat)
    requires rs != []
    ensures i < |rs|
  {
    if found.Some? && found.value < |rs| then found.value else 0
  }

  /** The inventory and reservations after an operation that is judged `Applied`. */
  function Effect(s: ToolState, op: Operation): ToolState
    requires Judge(s, op) == Applied
  {
    var stock := s.inventory[op.product];
    match op.kind
    case Reserve =>
      s.(inventory := s.inventory[op.product := Stock(stock.available - op.quantity, stock.version + 1)],
         reservations := s.reservations + [Reservation(op.operationId, op.taskId, op.product, op.quantity, true)])
    case Release =>
      var i := FoundAt(s.reservations, FindReservation(s.reservations, op.reservationId.value));
      s.(inventory := s.inventory[op.product := Stock(stock.available + op.quantity, stock.version + 1)],
         reservations := s.reservations[i := s.reservations[i].(active := false)])
  }

  predicate Known(s: ToolState, op: Operation) {
    exists id :: id in s.receipts && SameReceiptKey(id, s.receipts[id], op)
  }

  /** The receipt of a fresh operation, read off the inventory it left behind. */
  function ReceiptFor(inventory: map<string, Stock>, op: Operation, code: Code): Receipt {
    var known := op.product in inventory;
    Receipt(op.operationId, Sha256(op), if code == Applied then StatusApplied else StatusRejected, code,
            if known then Some(inventory[op.product].available) else None,
            if known then Some(inventory[op.product].version) else None)
  }

  function WithReceipt(s: ToolState, op: Operation, receipt: Receipt): ToolState {
    s.(receipts := s.receipts[op.operationId := ReceiptRow(|s.receipts|, op.taskId, op.stepId, op, receipt)])
  }

  function AfterJudging(s: ToolState, op: Operation): ToolState {
    if Judge(s, op) == Applied then Effect(s, op) else s
  }

  /** `ToolStore.apply`. */
  function ApplyOp(s: ToolState, op: Operation): (ToolState, Result<Receipt, Failure>) {
    if Known(s, op) then
      if op.operationId in s.receipts && s.receipts[op.operationId].payload == op
      then (s, Ok(s.receipts[op.operationId].receipt))
      else (s, Err(OperationIdentityReused))
    else
      var after := AfterJudging(s, op);
      var receipt := ReceiptFor(after.inventory, op, Judge(s, op));
      (WithReceipt(after, op, receipt), Ok(receipt))
  }

  function SeedProduct(s: ToolState, product: string, quantity: int): (ToolState, Result<(), Failure>) {
    if product in s.inventory then (s, Err(AlreadySeeded))
    else (s.(inventory := s.inventory[product := Stock(quantity, 0)]), Ok(()))
  }

  function Authorize(s: ToolState, task: string, product: string, quantity: int): (ToolState, Result<(), Failure>) {
    if (task, product) in s.grants then (s, if s.grants[(task, product)] != quantity then Err(GrantChanged) else Ok(()))
    else (s.(grants := s.grants[(task, product) := quantity]), Ok(()))
  }

  function LookupReceipt(s: ToolState, id: string): Option<Receipt> {
    if id in s.receipts then Some(s.receipts[id].receipt) else None
  }

  // ------------------------------------------------------------- the journal's table

  datatype Intent = Intent(rowId: nat, payload: Operation, complete: bool, receipt: Option<Receipt>)

  type JournalState = map<string, Intent>

  predicate SameIntentKey(id: string, row: Intent, op: Operation) {
    id == op.operationId || (row.payload.taskId == op.taskId && row.payload.stepId == op.stepId)
  }

  predicate PendingAt(j: JournalState, task: string, id: string) {
    id in j && j[id].payload.taskId == task && !j[id].complete
  }

  predicate HasPending(j: JournalState, task: string) {
    exists id :: id in j && PendingAt(j, task, id)
  }

  /** `IntentJournal.prepare`. */
  function Prepare(j: JournalState, op: Operation): (JournalState, Result<Intent, Failure>) {
    if exists id :: id in j && SameIntentKey(id, j[id], op) then
      if op.operationId in j && j[op.operationId].payload == op then (j, Ok(j[op.operationId]))
      else (j, Err(OperationIdentityReused))
    else if HasPending(j, op.taskId) then (j, Err(PendingIntent))
    else
      var row := Intent(|j|, op, false, None);
      (j[op.operationId := row], Ok(row))
  }

  /** `IntentJournal.record_receipt`. */
  function RecordReceipt(j: JournalState, id: string, receipt: Receipt): (JournalState, Result<(), Failure>) {
    if id !in j then (j, Err(IntentMissing))
    else if receipt.operationId != id || !ReceiptOk(j[id].payload, receipt) then (j, Err(ReceiptInvalid))
    else if j[id].receipt.Some? && j[id].receipt.value != receipt then (j, Err(ReceiptChanged))
    else (j[id := j[id].(receipt := Some(receipt))], Ok(()))
  }

  /** `IntentJournal.complete`. */
  function Complete(j: JournalState, id: string): (JournalState, Result<Receipt, Failure>) {
    if id !in j || j[id].receipt.None? then (j, Err(ReceiptRequired))
    else (j[id := j[id].(complete := true)], Ok(j[id].receipt.value))
  }

  // ------------------------------------------------------------- the classes

  /** `UNIQUE(task,step)` on each table: one row per identity. */
  predicate ReceiptKeysUnique(receipts: map<string, ReceiptRow>) {
    forall a, b :: a in receipts && b in receipts && a != b ==>
      receipts[a].task != receipts[b].task || receipts[a].step != receipts[b].step
  }

  /** The columns repeat what the payload says. */
  predicate ReceiptColumnsOk(receipts: map<string, ReceiptRow>) {
    forall id :: id in receipts ==>
      receipts[id].payload.operationId == id && receipts[id].task == receipts[id].payload.taskId
        && receipts[id].step == receipts[id].payload.stepId
  }

  predicate IntentTableOk(j: JournalState) {
    && (forall id :: id in j ==> j[id].payload.operationId == id)
    && (forall a, b :: a in j && b in j && a != b ==>
          j[a].payload.taskId != j[b].payload.taskId || j[a].payload.stepId != j[b].payload.stepId)
    && (forall a, b ::
        a in j && b in j && j[a].payload.taskId == j[b].payload.taskId && !j[a].complete && !j[b].complete ==> a == b)
  }

  class ToolStore {
    var inventory: map<string, Stock>
    var grants: map<(string, string), int>
    var receipts: map<string, ReceiptRow>
    var reservations: seq<Reservation>

    function State(): ToolState
      reads this
    {
      ToolState(inventory, grants, receipts, reservations)
    }

    predicate Valid()
      reads this
    {
      ReceiptKeysUnique(receipts) && ReceiptColumnsOk(receipts)
    }

    constructor ()
      ensures Valid() && State() == EmptyTool
    {
      inventory, grants, receipts, reservations := map[], map[], map[], [];
    }

    method Seed(product: string, quantity: int) returns (done: Result<(), Failure>)
      requires Valid() && IdentifierOk(product) && IntegerOk(quantity, 0)
      modifies this
      ensures Valid() && (State(), done) == SeedProduct(old(State()), product, quantity)
    {
      if product in inventory {
        return Err(AlreadySeeded);
      }
      inventory := inventory[product := Stock(quantity, 0)];
      return Ok(());
    }

    method Grant(task: string, product: string, quantity: int) returns (done: Result<(), Failure>)
      requires Valid() && IdentifierOk(task) && IdentifierOk(product) && IntegerOk(quantity, 1)
      modifies this
      ensures Valid() && (State(), done) == Authorize(old(State()), task, product, quantity)
    {
      if (task, product) in grants {
        if grants[(task, product)] != quantity {
          return Err(GrantChanged);
        }
        return Ok(());
      }
      grants := grants[(task, product) := quantity];
      return Ok(());
    }

    method Lookup(id: string) returns (receipt: Option<Receipt>)
      ensures receipt == LookupReceipt(State(), id)
    {
      if id in receipts {
        return Some(receipts[id].receipt);
      }
      return None;
    }

    method JudgeOperation(op: Operation) returns (code: Code)
      requires OperationOk(op)
      ensures code == Judge(State(), op)
    {
      if (op.taskId, op.product) !in grants {
        return NotAuthorized;
      }
      if op.product !in inventory {
        return UnknownProduct;
      }
      if inventory[op.product].version != op.expectedVersion {
        return VersionMismatch;
      }
      if op.kind == Reserve {
        var active := SumActive(reservations, op.product, op.taskId);
        if active + op.quantity > grants[(op.taskId, op.product)] {
          return QuotaExceeded;
        }
        return if inventory[op.product].available < op.quantity then InsufficientStock else Applied;
      }
      var found := FindReservation(reservations, op.reservationId.value);
      FoundInRange(reservations, op.reservationId.value);
      if found.None? || reservations[found.value].task != op.taskId || reservations[found.value].product != op.product
         || reservations[found.value].quantity != op.quantity {
        return ReservationMismatch;
      }
      return if reservations[found.value].active then Applied else ReservationInactive;
    }

    method WriteEffect(op: Operation)
      requires OperationOk(op) && Judge(State(), op) == Applied
      modifies this`inventory, this`reservations
      ensures State() == Effect(old(State()), op)
    {
      var stock := inventory[op.product];
      var available := stock.available;
      if op.kind == Reserve {
        available := available - op.quantity;
        reservations := reservations + [Reservation(op.operationId, op.taskId, op.product, op.quantity, true)];
      } else {
        available := available + op.quantity;
        var i := FoundAt(reservations, FindReservation(reservations, op.reservationId.value));
        reservations := reservations[i := reservations[i].(active := false)];
      }
      inventory := inventory[op.product := Stock(available, stock.version + 1)];
    }

    /** `apply`; a `fault` raises between the effect and the receipt, and the transaction rolls back. */
    method Apply(op: Operation, fault: bool) returns (result: Result<Receipt, Failure>)
      requires Valid() && OperationOk(op)
      modifies this
      ensures Valid()
      ensures if fault && !Known(old(State()), op) && Judge(old(State()), op) == Applied
              then State() == old(State()) && result == Err(Fault)
              else (State(), result) == ApplyOp(old(State()), op)
    {
      if previous :| previous in receipts && SameReceiptKey(previous, receipts[previous], op) {
        // Any matching row decides alike, since identities are unique.
        if previous != op.operationId || receipts[previous].payload != op {
          return Err(OperationIdentityReused);
        }
        return Ok(receipts[previous].receipt);
      }
      var savedInventory, savedReservations := inventory, reservations;
      var code := JudgeOperation(op);
      if code == Applied {
        WriteEffect(op);
        if fault {
          inventory, reservations := savedInventory, savedReservations;
          return Err(Fault);
        }
      }
      var receipt := ReceiptFor(inventory, op, code);
      receipts := receipts[op.operationId := ReceiptRow(|receipts|, op.taskId, op.stepId, op, receipt)];
      return Ok(receipt);
    }
  }

  lemma {:induction false} FoundInRange(rs: seq<Reservation>, id: string)
    ensures var f := FindReservation(rs, id);
            if f.Some? then f.value < |rs| && rs[f.value].id == id else forall i :: 0 <= i < |rs| ==> rs[i].id != id
  {
    if rs != [] && rs[|rs| - 1].id != id {
      FoundInRange(rs[..|rs| - 1], id);
    }
  }

  /** `SELECT COALESCE(SUM(quantity),0) ... WHERE task=? AND product=? AND active=1`. */
  method SumActive(rs: seq<Reservation>, product: string, task: string) returns (total: int)
    ensures total == ActiveSum(rs, product, Some(task))
  {
    total := 0;
    for i := 0 to |rs|
      invariant total == ActiveSum(rs[..i], product, Some(task))
    {
      assert rs[..i + 1][..i] == rs[..i];
      if rs[i].active && rs[i].product == product && rs[i].task == task {
        total := total + rs[i].quantity;
      }
    }
    assert rs[..|rs|] == rs;
  }

  class IntentJournal {
    var intents: map<string, Intent>

    predicate Valid()
      reads this
    {
      IntentTableOk(intents) && forall id :: id in intents ==> OperationOk(intents[id].payload)
    }

    constructor ()
      ensures Valid() && intents == map[]
    {
      intents := map[];
    }

    method PrepareIntent(op: Operation) returns (result: Result<Intent, Failure>)
      requires Valid() && OperationOk(op)
      modifies this
      ensures Valid() && (intents, result) == Prepare(old(intents), op)
    {
      if previous :| previous in intents && SameIntentKey(previous, intents[previous], op) {
        if previous != op.operationId || intents[previous].payload != op {
          return Err(OperationIdentityReused);
        }
        return Ok(intents[previous]);
      }
      if HasPending(intents, op.taskId) {
        return Err(PendingIntent);
      }
      var row := Intent(|intents|, op, false, None);
      intents := intents[op.operationId := row];
      return Ok(intents[op.operationId]);
    }

    method Pending(task: string) returns (row: Option<Intent>)
      ensures row.Some? <==> HasPending(intents, task)
      ensures row.Some? ==> exists id :: PendingAt(intents, task, id) && intents[id] == row.value
    {
      if id :| id in intents && PendingAt(intents, task, id) {
        return Some(intents[id]);
      }
      return None;
    }

    method Record(id: string, receipt: Receipt) returns (done: Result<(), Failure>)
      requires Valid()
      modifies this
      ensures Valid() && (intents, done) == RecordReceipt(old(intents), id, receipt)
    {
      if id !in intents {
        return Err(IntentMissing);
      }
      var row := intents[id];
      var unknownStock := receipt.code in {NotAuthorized, UnknownProduct};
      if receipt.operationId != id || receipt.requestSha256 != Sha256(row.payload)
         || (receipt.status == StatusApplied) != (receipt.code == Applied) {
        return Err(ReceiptInvalid);
      }
      if (receipt.available.None? && !unknownStock) || (receipt.available.Some? && receipt.available.value < 0)
         || (receipt.version.None? && !unknownStock) || (receipt.version.Some? && receipt.version.value < 0)
         || receipt.available.None? != receipt.version.None? {
        return Err(ReceiptInvalid);
      }
      if row.receipt.Some? && row.receipt.value != receipt {
        return Err(ReceiptChanged);
      }
      intents := intents[id := row.(receipt := Some(receipt))];
      return Ok(());
    }

    method CompleteIntent(id: string) returns (result: Result<Receipt, Failure>)
      requires Valid()
      modifies this
      ensures Valid() && (intents, result) == Complete(old(intents), id)
    {
      if id !in intents || intents[id].receipt.None? {
        return Err(ReceiptRequired);
      }
      intents := intents[id := intents[id].(complete := true)];
      return Ok(intents[id].receipt.value);
    }
  }
}
