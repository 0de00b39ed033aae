/**
 What every sequence of tool calls keeps: the receipts stay consistent with the operations
 they answer, and the stock, the reservations and the grants balance.
 */
module ToolInvariants {
  import opened Prelude
  import opened ControlledTools

  // ------------------------------------------------------------- the receipts

  /** A reservation is exactly what one applied reserve operation asked for. */
  predicate Backed(s: ToolState, r: Reservation) {
    && r.id in s.receipts
    && var op := s.receipts[r.id].payload;
       op.kind == Reserve && s.receipts[r.id].receipt.code == Applied && op.taskId == r.task && op.product == r.product
         && op.quantity == r.quantity
  }

  predicate RowOk(count: nat, row: ReceiptRow) {
    && row.rowId < count
    && OperationOk(row.payload) && ReceiptOk(row.payload, row.receipt)
  }

  predicate RowsOk(s: ToolState) {
    && ReceiptKeysUnique(s.receipts) && ReceiptColumnsOk(s.receipts)
    && (forall id :: id in s.receipts ==> RowOk(|s.receipts|, s.receipts[id]))
    && RowIdsUnique(s.receipts)
  }

  predicate RowIdsUnique(receipts: map<string, ReceiptRow>) {
    forall a, b :: a in receipts && b in receipts && a != b ==> receipts[a].rowId != receipts[b].rowId
  }

  predicate ReservationsOk(s: ToolState) {
    && (forall i :: 0 <= i < |s.reservations| ==> Backed(s, s.reservations[i]))
    && (forall i, j :: 0 <= i < j < |s.reservations| ==> s.reservations[i].id != s.reservations[j].id)
  }

  predicate CountsOk(s: ToolState) {
    forall p :: p in s.inventory ==> s.inventory[p].available >= 0 && s.inventory[p].version >= 0
  }

  /** Everything about the tables that does not mention how much was seeded or granted. */
  predicate TablesOk(s: ToolState) {
    RowsOk(s) && ReservationsOk(s) && CountsOk(s)
  }

  // ------------------------------------------------------------- the balances

  function AppliedOn(s: ToolState, product: string): set<string> {
    set id | id in s.receipts && s.receipts[id].payload.product == product && s.receipts[id].receipt.code == Applied
  }

  predicate ProductOk(s: ToolState, seeded: map<string, int>, product: string) {
    if product in s.inventory then
      && product in seeded
      && s.inventory[product].available + ActiveSum(s.reservations, product, None) == seeded[product]
      && s.inventory[product].version == |AppliedOn(s, product)|
    else product !in seeded && AppliedOn(s, product) == {}
  }

  function Granted(s: ToolState, task: string, product: string): int {
    if (task, product) in s.grants then s.grants[(task, product)] else 0
  }

  ghost predicate BalancesOk(s: ToolState, seeded: map<string, int>) {
    && (forall product :: ProductOk(s, seeded, product))
    && (forall key :: key in s.grants ==> s.grants[key] >= 1)
    && (forall task, product :: ActiveSum(s.reservations, product, Some(task)) <= Granted(s, task, product))
  }

  function Share(r: Reservation, product: string, task: Option<string>): int {
    if r.active && r.product == product && (task.Some? ==> r.task == task.value) then r.quantity else 0
  }

  lemma {:induction false} SumAppend(rs: seq<Reservation>, r: Reservation, product: string, task: Option<string>)
    ensures ActiveSum(rs + [r], product, task) == ActiveSum(rs, product, task) + Share(r, product, task)
  {
    assert (rs + [r])[..|rs|] == rs;
  }

  lemma {:induction false} SumDeactivate(rs: seq<Reservation>, i: nat, product: string, task: Option<string>)
    requires i < |rs|
    ensures ActiveSum(rs[i := rs[i].(active := false)], product, task)
         == ActiveSum(rs, product, task) - Share(rs[i], product, task)
  {
    var after := rs[i := rs[i].(active := false)];
    var n := |rs| - 1;
    if i == n {
      assert after[..n] == rs[..n];
    } else {
      SumDeactivate(rs[..n], i, product, task);
      assert after[..n] == rs[..n][i := rs[i].(active := false)];
    }
  }

  // ------------------------------------------------------------- one fresh operation

  /** The reservation an applied release cancels is the task's own, active and of the same quantity. */
  lemma {:induction false} Releases(s: ToolState, op: Operation) returns (i: nat)
    requires OperationOk(op) && op.kind == Release && Judge(s, op) == Applied
    ensures i < |s.reservations| && FindReservation(s.reservations, op.reservationId.value) == Some(i)
    ensures var r := s.reservations[i];
            r.active && r.id == op.reservationId.value && r.task == op.taskId && r.product == op.product
              && r.quantity == op.quantity
    ensures Effect(s, op).reservations == s.reservations[i := s.reservations[i].(active := false)]
  {
    FoundInRange(s.reservations, op.reservationId.value);
    i := FindReservation(s.reservations, op.reservationId.value).value;
  }

  lemma {:induction false} EffectKeepsCounts(s: ToolState, op: Operation)
    requires OperationOk(op) && CountsOk(s) && Judge(s, op) == Applied
    ensures CountsOk(Effect(s, op))
  {
    if op.kind == Release {
      var _ := Releases(s, op);
    }
  }

  lemma {:induction false} FreshReceipt(s: ToolState, op: Operation)
    requires OperationOk(op) && CountsOk(s)
    ensures var after := AfterJudging(s, op);
            CountsOk(after) && ReceiptOk(op, ReceiptFor(after.inventory, op, Judge(s, op)))
  {
    if Judge(s, op) == Applied {
      EffectKeepsCounts(s, op);
    }
  }

  /** What `apply` adds for a fresh operation: one row, holding a receipt its journal will accept. */
  lemma {:induction false} FreshRow(s: ToolState, op: Operation) returns (row: ReceiptRow)
    requires OperationOk(op) && CountsOk(s) && !Known(s, op)
    ensures op.operationId !in s.receipts
    ensures forall id :: id in s.receipts ==> s.receipts[id].task != op.taskId || s.receipts[id].step != op.stepId
    ensures row == ReceiptRow(|s.receipts|, op.taskId, op.stepId, op, row.receipt) && ReceiptOk(op, row.receipt)
    ensures row.receipt.code == Judge(s, op)
    ensures ApplyOp(s, op) == (AfterJudging(s, op).(receipts := s.receipts[op.operationId := row]), Ok(row.receipt))
    ensures CountsOk(ApplyOp(s, op).0)
  {
    FreshReceipt(s, op);
    var receipt := ReceiptFor(AfterJudging(s, op).inventory, op, Judge(s, op));
    row := ReceiptRow(|s.receipts|, op.taskId, op.stepId, op, receipt);
    if op.operationId in s.receipts {
      assert SameReceiptKey(op.operationId, s.receipts[op.operationId], op);
      assert false;
    }
    forall id | id in s.receipts
      ensures s.receipts[id].task != op.taskId || s.receipts[id].step != op.stepId
    {
      assert !SameReceiptKey(id, s.receipts[id], op);
    }
  }

  lemma {:induction false} KeysAfter(receipts: map<string, ReceiptRow>, op: Operation, row: ReceiptRow)
    requires ReceiptKeysUnique(receipts) && ReceiptColumnsOk(receipts) && RowIdsUnique(receipts)
    requires op.operationId !in receipts && row == ReceiptRow(|receipts|, op.taskId, op.stepId, op, row.receipt)
    requires forall id :: id in receipts ==> receipts[id].task != op.taskId || receipts[id].step != op.stepId
    requires forall id :: id in receipts ==> receipts[id].rowId < |receipts|
    ensures var after := receipts[op.operationId := row];
            ReceiptKeysUnique(after) && ReceiptColumnsOk(after) && RowIdsUnique(after)
  {
  }

  lemma {:induction false} RowsAfter(s: ToolState, t: ToolState, op: Operation, row: ReceiptRow)
    requires RowsOk(s) && OperationOk(op) && op.operationId !in s.receipts
    requires forall id :: id in s.receipts ==> s.receipts[id].task != op.taskId || s.receipts[id].step != op.stepId
    requires row == ReceiptRow(|s.receipts|, op.taskId, op.stepId, op, row.receipt) && ReceiptOk(op, row.receipt)
    requires t.receipts == s.receipts[op.operationId := row]
    ensures RowsOk(t)
  {
    assert |t.receipts| == |s.receipts| + 1;
    assert RowOk(|t.receipts|, row);
    forall id | id in t.receipts
      ensures RowOk(|t.receipts|, t.receipts[id])
      ensures id != op.operationId ==> t.receipts[id] == s.receipts[id] && t.receipts[id].rowId != row.rowId
    {
      if id != op.operationId {
        assert RowOk(|s.receipts|, s.receipts[id]);
      }
    }
    KeysAfter(s.receipts, op, row);
  }

  /** A reserve operation's identity is unused among the reservations: the insert meets no duplicate key. */
  lemma {:induction false} ReservationsAfter(s: ToolState, op: Operation, row: ReceiptRow)
    requires ReservationsOk(s) && OperationOk(op) && op.operationId !in s.receipts
    requires row.payload == op && row.receipt.code == Judge(s, op)
    ensures ReservationsOk(AfterJudging(s, op).(receipts := s.receipts[op.operationId := row]))
  {
    var t := AfterJudging(s, op).(receipts := s.receipts[op.operationId := row]);
    if Judge(s, op) == Applied && op.kind == Release {
      var i := Releases(s, op);
      assert forall k :: 0 <= k < |s.reservations| ==> t.reservations[k].id == s.reservations[k].id;
    }
    forall k | 0 <= k < |t.reservations|
      ensures Backed(t, t.reservations[k])
    {
      if k < |s.reservations| {
        assert Backed(s, s.reservations[k]);
      }
    }
    assert forall k :: 0 <= k < |s.reservations| ==> Backed(s, s.reservations[k]);
  }

  lemma {:induction false} ApplyKeepsTables(s: ToolState, op: Operation)
    requires TablesOk(s) && OperationOk(op)
    ensures TablesOk(ApplyOp(s, op).0)
  {
    if !Known(s, op) {
      var row := FreshRow(s, op);
      RowsAfter(s, ApplyOp(s, op).0, op, row);
      ReservationsAfter(s, op, row);
    }
  }

  // ------------------------------------------------------------- the balances of one operation

  lemma {:induction false} SumsAfter(s: ToolState, op: Operation, product: string, task: Option<string>)
    requires OperationOk(op) && Judge(s, op) == Applied
    ensures var change := if product == op.product && (task.Some? ==> op.taskId == task.value) then op.quantity else 0;
            ActiveSum(Effect(s, op).reservations, product, task)
            == ActiveSum(s.reservations, product, task) + (if op.kind == Reserve then change else -change)
  {
    if op.kind == Reserve {
      SumAppend(s.reservations, Reservation(op.operationId, op.taskId, op.product, op.quantity, true), product, task);
    } else {
      var i := Releases(s, op);
      SumDeactivate(s.reservations, i, product, task);
    }
  }

  lemma {:induction false} AppliedAfter(s: ToolState, t: ToolState, op: Operation, row: ReceiptRow, product: string)
    requires op.operationId !in s.receipts && row.payload == op && t.receipts == s.receipts[op.operationId := row]
    ensures AppliedOn(t, product)
         == AppliedOn(s, product)
           + (if op.product == product && row.receipt.code == Applied then {op.operationId} else {})
    ensures op.operationId !in AppliedOn(s, product)
  {
  }

  lemma {:induction false} ProductAfter(s: ToolState, t: ToolState, seeded: map<string, int>, op: Operation,
                                        row: ReceiptRow,
                     product: string)
    requires OperationOk(op) && op.operationId !in s.receipts && row.payload == op && row.receipt.code == Judge(s, op)
    requires t == AfterJudging(s, op).(receipts := s.receipts[op.operationId := row])
    requires ProductOk(s, seeded, product)
    ensures ProductOk(t, seeded, product)
  {
    AppliedAfter(s, t, op, row, product);
    if Judge(s, op) == Applied {
      SumsAfter(s, op, product, None);
    }
  }

  lemma {:induction false} GrantAfter(s: ToolState, op: Operation, task: string, product: string)
    requires OperationOk(op) && ActiveSum(s.reservations, product, Some(task)) <= Granted(s, task, product)
    ensures var t := AfterJudging(s, op);
            t.grants == s.grants && ActiveSum(t.reservations, product, Some(task)) <= Granted(s, task, product)
  {
    if Judge(s, op) == Applied {
      SumsAfter(s, op, product, Some(task));
    }
  }

  lemma {:induction false} ApplyKeepsBalances(s: ToolState, seeded: map<string, int>, op: Operation)
    requires TablesOk(s) && OperationOk(op) && BalancesOk(s, seeded)
    ensures BalancesOk(ApplyOp(s, op).0, seeded)
  {
    hide RowsOk, ReservationsOk, CountsOk, Known;
    if !Known(s, op) {
      var t := ApplyOp(s, op).0;
      var row := FreshRow(s, op);
      forall product
        ensures ProductOk(t, seeded, product)
      {
        ProductAfter(s, t, seeded, op, row, product);
      }
      forall task, product
        ensures ActiveSum(t.reservations, product, Some(task)) <= Granted(t, task, product)
      {
        assert ActiveSum(s.reservations, product, Some(task)) <= Granted(s, task, product);
        GrantAfter(s, op, task, product);
      }
    }
  }

  // ------------------------------------------------------------- every sequence of calls

  datatype ToolCall = SeedCall(product: string, quantity: int)
                    | GrantCall(task: string, product: string, quantity: int)
                    | ApplyCall(op: Operation)

  /** The argument checks at the head of each method. */
  predicate CallOk(c: ToolCall) {
    match c
    case SeedCall(product, quantity) => IdentifierOk(product) && IntegerOk(quantity, 0)
    case GrantCall(task, product, quantity) => IdentifierOk(task) && IdentifierOk(product) && IntegerOk(quantity, 1)
    case ApplyCall(op) => OperationOk(op)
  }

  function CallTool(s: ToolState, c: ToolCall): ToolState {
    match c
    case SeedCall(product, quantity) => SeedProduct(s, product, quantity).0
    case GrantCall(task, product, quantity) => Authorize(s, task, product, quantity).0
    case ApplyCall(op) => ApplyOp(s, op).0
  }

  function RunCalls(calls: seq<ToolCall>): ToolState {
    if calls == [] then EmptyTool else CallTool(RunCalls(calls[..|calls| - 1]), calls[|calls| - 1])
  }

  /** The quantity each product was first seeded with. */
  function Seeded(calls: seq<ToolCall>): map<string, int> {
    if calls == [] then map[] else SeededAfter(Seeded(calls[..|calls| - 1]), calls[|calls| - 1])
  }

  function SeededAfter(seeded: map<string, int>, c: ToolCall): map<string, int> {
    if c.SeedCall? && c.product !in seeded then seeded[c.product := c.quantity] else seeded
  }

  lemma {:induction false} NothingActiveUnlessSeeded(s: ToolState, seeded: map<string, int>, product: string)
    requires BalancesOk(s, seeded) && TablesOk(s) && product !in s.inventory
    ensures ActiveSum(s.reservations, product, None) == 0
  {
    assert ProductOk(s, seeded, product);
    NoReservationsOf(s, s.reservations, product);
  }

  lemma {:induction false} NoReservationsOf(s: ToolState, rs: seq<Reservation>, product: string)
    requires AppliedOn(s, product) == {}
    requires forall i :: 0 <= i < |rs| ==> Backed(s, rs[i]) && s.receipts[rs[i].id].receipt.code == Applied
    ensures ActiveSum(rs, product, None) == 0
  {
    if rs != [] {
      NoReservationsOf(s, rs[..|rs| - 1], product);
      var id := rs[|rs| - 1].id;
      assert id !in AppliedOn(s, product);
    }
  }

  lemma {:induction false} SeedKeepsBalances(s: ToolState, seeded: map<string, int>, product: string, quantity: int)
    requires TablesOk(s) && BalancesOk(s, seeded) && product !in s.inventory
    ensures BalancesOk(SeedProduct(s, product, quantity).0, seeded[product := quantity])
  {
    hide RowsOk, ReservationsOk, CountsOk;
    var t := SeedProduct(s, product, quantity).0;
    NothingActiveUnlessSeeded(s, seeded, product);
    var more := seeded[product := quantity];
    forall p
      ensures ProductOk(t, more, p)
    {
      assert ProductOk(s, seeded, p);
      assert AppliedOn(t, p) == AppliedOn(s, p);
    }
    assert forall task, p :: ActiveSum(t.reservations, p, Some(task)) == ActiveSum(s.reservations, p, Some(task))
                          && Granted(t, task, p) == Granted(s, task, p);
  }

  lemma {:induction false} GrantKeepsBalances(s: ToolState, seeded: map<string, int>, task: string, product: string,
                                              quantity: int)
    requires BalancesOk(s, seeded) && IntegerOk(quantity, 1)
    ensures BalancesOk(Authorize(s, task, product, quantity).0, seeded)
  {
    var t := Authorize(s, task, product, quantity).0;
    forall p
      ensures ProductOk(t, seeded, p)
    {
      assert ProductOk(s, seeded, p);
      assert AppliedOn(t, p) == AppliedOn(s, p);
    }
    forall x, p
      ensures ActiveSum(t.reservations, p, Some(x)) <= Granted(t, x, p)
    {
      assert ActiveSum(s.reservations, p, Some(x)) <= Granted(s, x, p);
    }
  }

  predicate CallsOk(calls: seq<ToolCall>) {
    forall i :: 0 <= i < |calls| ==> CallOk(calls[i])
  }

  lemma {:induction false} CallKeepsBalances(s: ToolState, seeded: map<string, int>, c: ToolCall)
    requires CallOk(c) && TablesOk(s) && BalancesOk(s, seeded)
    ensures BalancesOk(CallTool(s, c), SeededAfter(seeded, c))
  {
    match c
    case SeedCall(product, quantity) =>
      assert ProductOk(s, seeded, product);
      if product !in s.inventory {
        SeedKeepsBalances(s, seeded, product, quantity);
      }
    case GrantCall(task, product, quantity) =>
      GrantKeepsBalances(s, seeded, task, product, quantity);
    case ApplyCall(op) =>
      ApplyKeepsBalances(s, seeded, op);
  }

  lemma {:induction false} SameReceiptsSameTables(s: ToolState, t: ToolState)
    requires TablesOk(s) && t.receipts == s.receipts && t.reservations == s.reservations && CountsOk(t)
    ensures TablesOk(t)
  {
    assert forall k :: 0 <= k < |s.reservations| ==> Backed(s, s.reservations[k]);
  }

  lemma {:induction false} CallKeepsTables(s: ToolState, c: ToolCall)
    requires CallOk(c) && TablesOk(s)
    ensures TablesOk(CallTool(s, c))
  {
    hide ApplyOp;
    match c
    case ApplyCall(op) =>
      ApplyKeepsTables(s, op);
    case _ =>
      SameReceiptsSameTables(s, CallTool(s, c));
  }

  /**
   Over every sequence of seed, grant and apply calls: each product's stock plus its active
   reservations is what was seeded, no task holds more than its grant, a product's version
   counts the operations applied to it, stock never goes negative, and every stored receipt is
   one the journal will accept for its operation.
   */
  lemma {:induction false} InventoryInvariants(calls: seq<ToolCall>)
    requires CallsOk(calls)
    ensures TablesOk(RunCalls(calls)) && BalancesOk(RunCalls(calls), Seeded(calls))
  {
    if calls == [] {
      assert forall p :: AppliedOn(EmptyTool, p) == {};
    } else {
      var n := |calls| - 1;
      InventoryInvariants(calls[..n]);
      CallKeepsTables(RunCalls(calls[..n]), calls[n]);
      CallKeepsBalances(RunCalls(calls[..n]), Seeded(calls[..n]), calls[n]);
    }
  }

  lemma {:induction false} ApplyKeepsReceipts(s: ToolState, c: ToolCall, id: string)
    requires TablesOk(s) && CallOk(c) && id in s.receipts
    ensures id in CallTool(s, c).receipts && CallTool(s, c).receipts[id] == s.receipts[id]
  {
    hide RowsOk, ReservationsOk, Known, AfterJudging;
    if c.ApplyCall? && !Known(s, c.op) {
      var row := FreshRow(s, c.op);
    }
  }

  lemma {:induction false} KnownAnswers(s: ToolState, id: string)
    requires RowsOk(s) && id in s.receipts
    ensures ApplyOp(s, s.receipts[id].payload) == (s, Ok(s.receipts[id].receipt))
  {
    assert SameReceiptKey(id, s.receipts[id], s.receipts[id].payload);
  }

  lemma {:induction false} ReceiptsStay(calls: seq<ToolCall>, more: seq<ToolCall>, id: string)
    requires CallsOk(calls) && CallsOk(more) && id in RunCalls(calls).receipts
    ensures id in RunCalls(calls + more).receipts
    ensures RunCalls(calls + more).receipts[id] == RunCalls(calls).receipts[id]
    decreases |more|
  {
    hide TablesOk, BalancesOk, CallTool;
    if more == [] {
      assert calls + more == calls;
    } else {
      var n := |more| - 1;
      ReceiptsStay(calls, more[..n], id);
      var before := calls + more[..n];
      InventoryInvariants(before);
      ApplyKeepsReceipts(RunCalls(before), more[n], id);
      assert (calls + more)[..|calls + more| - 1] == before && (calls + more)[|calls + more| - 1] == more[n];
    }
  }

  /** A receipt is never rewritten, and presenting its operation again returns it and changes nothing. */
  lemma {:induction false} ReceiptsAreFinal(calls: seq<ToolCall>, more: seq<ToolCall>, id: string)
    requires CallsOk(calls) && CallsOk(more) && id in RunCalls(calls).receipts
    ensures id in RunCalls(calls + more).receipts
    ensures var s := RunCalls(calls + more);
            ApplyOp(s, s.receipts[id].payload) == (s, Ok(RunCalls(calls).receipts[id].receipt))
  {
    hide ReservationsOk, CountsOk, BalancesOk, ApplyOp;
    ReceiptsStay(calls, more, id);
    InventoryInvariants(calls + more);
    KnownAnswers(RunCalls(calls + more), id);
  }

  // ------------------------------------------------------------- what a receipt says

  /** When an operation may take effect, independently of the order in which it is judged. */
  predicate Allowed(s: ToolState, op: Operation) {
    && (op.taskId, op.product) in s.grants && op.product in s.inventory
    && s.inventory[op.product].version == op.expectedVersion
    && match op.kind
       case Reserve =>
         && ActiveSum(s.reservations, op.product, Some(op.taskId)) + op.quantity <= s.grants[(op.taskId, op.product)]
         && op.quantity <= s.inventory[op.product].available
       case Release =>
         op.reservationId.Some?
           && Reservation(op.reservationId.value, op.taskId, op.product, op.quantity, true) in s.reservations
  }

  predicate DistinctIds(rs: seq<Reservation>) {
    forall i, j :: 0 <= i < j < |rs| ==> rs[i].id != rs[j].id
  }

  /** Finding a reservation by its key and comparing it is asking whether that very row is there. */
  lemma {:induction false} FindingIsMembership(rs: seq<Reservation>, wanted: Reservation)
    requires DistinctIds(rs)
    ensures wanted in rs
            <==> FindReservation(rs, wanted.id).Some? && rs[FoundAt(rs, FindReservation(rs, wanted.id))] == wanted
  {
    FoundInRange(rs, wanted.id);
  }

  lemma {:induction false} ReleaseWhenThere(s: ToolState, op: Operation)
    requires DistinctIds(s.reservations) && OperationOk(op) && op.kind == Release
    ensures Judge(s, op) == Applied <==> Allowed(s, op)
  {
    FindingIsMembership(s.reservations, Reservation(op.reservationId.value, op.taskId, op.product, op.quantity, true));
    FoundInRange(s.reservations, op.reservationId.value);
    hide FindReservation, ActiveSum, DistinctIds;
  }

  /** A fresh operation is applied exactly when it is allowed. */
  lemma {:induction false} AppliedExactlyWhenAllowed(s: ToolState, op: Operation)
    requires TablesOk(s) && OperationOk(op)
    ensures Judge(s, op) == Applied <==> Allowed(s, op)
  {
    assert DistinctIds(s.reservations);
    hide RowsOk, ReservationsOk, CountsOk, FindReservation, ActiveSum;
    if op.kind == Release {
      ReleaseWhenThere(s, op);
    }
  }

  /** What a fresh operation changes besides its own row: one product's stock, by its quantity, and one version. */
  predicate StockMoves(s: ToolState, t: ToolState, op: Operation) {
    && t.grants == s.grants && t.inventory.Keys == s.inventory.Keys
    && (forall p :: p in s.inventory && p != op.product ==> t.inventory[p] == s.inventory[p])
    && (op.product in s.inventory ==>
          var change := if op.kind == Reserve then -op.quantity else op.quantity;
          t.inventory[op.product] == if Judge(s, op) == Applied
                                     then Stock(s.inventory[op.product].available + change,
                                                s.inventory[op.product].version + 1)
                                     else s.inventory[op.product])
  }

  /** The receipt of a fresh operation names it, says whether it was applied, and reports the stock it left. */
  lemma {:induction false} ReceiptReportsTheStock(s: ToolState, op: Operation)
    requires TablesOk(s) && OperationOk(op) && !Known(s, op)
    ensures var (t, result) := ApplyOp(s, op);
            && StockMoves(s, t, op) && result.Ok?
            && result.value.operationId == op.operationId && result.value.requestSha256 == Sha256(op)
            && (result.value.status == StatusApplied <==> Allowed(s, op))
            && result.value.available
               == (if op.product in t.inventory then Some(t.inventory[op.product].available) else None)
            && result.value.version
               == (if op.product in t.inventory then Some(t.inventory[op.product].version) else None)
            && (Allowed(s, op) ==> result.value.version == Some(op.expectedVersion + 1))
  {
    hide RowsOk, ReservationsOk, Known;
    AppliedExactlyWhenAllowed(s, op);
  }

  /** The grant and the product are there, at the version the operation expects. */
  predicate Current(s: ToolState, op: Operation) {
    && (op.taskId, op.product) in s.grants && op.product in s.inventory
    && s.inventory[op.product].version == op.expectedVersion
  }

  /** With this operation's reservation active, the task would hold more of the product than it was granted. */
  predicate OverGrant(s: ToolState, op: Operation)
    requires Current(s, op)
  {
    ActiveSum(s.reservations, op.product, Some(op.taskId)) + op.quantity > s.grants[(op.taskId, op.product)]
  }

  /** The reservation a release names, as its task, product and quantity describe it. */
  predicate Describes(s: ToolState, op: Operation, active: bool) {
    op.reservationId.Some?
      && Reservation(op.reservationId.value, op.taskId, op.product, op.quantity, active) in s.reservations
  }

  /** What each code says of the tables and the operation, independently of the order of the checks. */
  predicate SaysWhy(code: Code, s: ToolState, op: Operation) {
    match code
    case NotAuthorized => (op.taskId, op.product) !in s.grants
    case UnknownProduct => (op.taskId, op.product) in s.grants && op.product !in s.inventory
    case VersionMismatch =>
      && (op.taskId, op.product) in s.grants && op.product in s.inventory
      && s.inventory[op.product].version != op.expectedVersion
    case QuotaExceeded => Current(s, op) && op.kind == Reserve && OverGrant(s, op)
    case InsufficientStock =>
      Current(s, op) && op.kind == Reserve && !OverGrant(s, op) && op.quantity > s.inventory[op.product].available
    case ReservationMismatch =>
      Current(s, op) && op.kind == Release && !Describes(s, op, true) && !Describes(s, op, false)
    case ReservationInactive => Current(s, op) && op.kind == Release && Describes(s, op, false)
    case Applied => Allowed(s, op)
  }

  /** The code on the receipt of a fresh operation is the one whose condition holds; exactly one does. */
  lemma {:induction false} ReceiptSaysWhy(s: ToolState, op: Operation, code: Code)
    requires TablesOk(s) && OperationOk(op) && !Known(s, op)
    ensures ApplyOp(s, op).1.Ok?
    ensures ApplyOp(s, op).1.value.code == code <==> SaysWhy(code, s, op)
  {
    JudgedForItsReason(s, op, code);
    hide TablesOk, SaysWhy, Known, Judge, AfterJudging;
  }

  lemma {:induction false} JudgedForItsReason(s: ToolState, op: Operation, code: Code)
    requires TablesOk(s) && OperationOk(op)
    ensures Judge(s, op) == code <==> SaysWhy(code, s, op)
  {
    assert DistinctIds(s.reservations);
    hide TablesOk, DistinctIds, FindReservation, ActiveSum;
    if !Current(s, op) {
      NotCurrentSaysWhy(s, op, code);
    } else if op.kind == Release {
      ReleaseSaysWhy(s, op);
      hide Judge, Describes, OperationOk;
      ReleaseCodes(s, op, code);
    } else {
      hide Describes, OperationOk;
    }
  }

  lemma {:induction false} NotCurrentSaysWhy(s: ToolState, op: Operation, code: Code)
    requires !Current(s, op)
    ensures Judge(s, op) == code <==> SaysWhy(code, s, op)
  {
    hide FindReservation, ActiveSum, OverGrant, Describes;
  }

  lemma {:induction false} ReleaseCodes(s: ToolState, op: Operation, code: Code)
    requires Current(s, op) && op.kind == Release
    requires Judge(s, op) == Applied <==> Describes(s, op, true)
    requires Judge(s, op) == ReservationInactive <==> Describes(s, op, false)
    requires Judge(s, op) in {Applied, ReservationInactive, ReservationMismatch}
    requires !(Describes(s, op, true) && Describes(s, op, false))
    ensures Judge(s, op) == code <==> SaysWhy(code, s, op)
  {
    hide Judge, OverGrant, ActiveSum;
  }

  lemma {:induction false} ReleaseSaysWhy(s: ToolState, op: Operation)
    requires DistinctIds(s.reservations) && OperationOk(op) && op.kind == Release && Current(s, op)
    ensures Judge(s, op) == Applied <==> Describes(s, op, true)
    ensures Judge(s, op) == ReservationInactive <==> Describes(s, op, false)
    ensures Judge(s, op) in {Applied, ReservationInactive, ReservationMismatch}
    ensures !(Describes(s, op, true) && Describes(s, op, false))
  {
    var id := op.reservationId.value;
    FindingIsMembership(s.reservations, Reservation(id, op.taskId, op.product, op.quantity, true));
    FindingIsMembership(s.reservations, Reservation(id, op.taskId, op.product, op.quantity, false));
    FoundInRange(s.reservations, id);
    hide FindReservation, ActiveSum, DistinctIds;
  }

  /** An operation whose identity is taken by another payload is refused and changes nothing. */
  lemma {:induction false} TakenIdentityIsRefused(s: ToolState, op: Operation)
    requires Known(s, op) && !(op.operationId in s.receipts && s.receipts[op.operationId].payload == op)
    ensures ApplyOp(s, op) == (s, Err(OperationIdentityReused))
  {
  }

  /** A reserve adds its own active reservation; a release makes inactive exactly the one it names. */
  lemma {:induction false} EffectOnReservations(s: ToolState, op: Operation, r: Reservation)
    requires TablesOk(s) && OperationOk(op) && !Known(s, op) && Allowed(s, op)
    ensures r in ApplyOp(s, op).0.reservations <==>
              match op.kind
              case Reserve => r in s.reservations
                   || r == Reservation(op.operationId, op.taskId, op.product, op.quantity, true)
              case Release =>
                var named := Reservation(op.reservationId.value, op.taskId, op.product, op.quantity, true);
                (r in s.reservations && r != named) || r == named.(active := false)
  {
    AppliedExactlyWhenAllowed(s, op);
    assert DistinctIds(s.reservations);
    hide RowsOk, ReservationsOk, CountsOk, ActiveSum, Known;
    if op.kind == Release {
      var rs := s.reservations;
      var named := Reservation(op.reservationId.value, op.taskId, op.product, op.quantity, true);
      FindingIsMembership(rs, named);
      var i := FoundAt(rs, FindReservation(rs, named.id));
      hide FindReservation, Judge;
      OneTurnsInactive(rs, i, r);
    }
  }

  lemma {:induction false} OneTurnsInactive(rs: seq<Reservation>, i: nat, r: Reservation)
    requires DistinctIds(rs) && i < |rs| && rs[i].active
    ensures r in rs[i := rs[i].(active := false)] <==> (r in rs && r != rs[i]) || r == rs[i].(active := false)
  {
    var after := rs[i := rs[i].(active := false)];
    if r in rs && r != rs[i] {
      var k :| 0 <= k < |rs| && rs[k] == r;
      assert after[k] == r;
    }
    if r in after {
      var k :| 0 <= k < |after| && after[k] == r;
      assert k != i ==> rs[k] == r && rs[k].id != rs[i].id;
    }
    assert after[i] == rs[i].(active := false);
  }

  // ------------------------------------------------------------- seeding and grants

  /** What the two host calls leave, or why they fail. */
  lemma {:induction false} SeedingAndGranting(s: ToolState, task: string, product: string, quantity: int)
    ensures var (t, done) := SeedProduct(s, product, quantity);
            && (done.Ok? <==> product !in s.inventory) && (done.Err? ==> t == s && done == Err(AlreadySeeded))
            && (done.Ok? ==> product in t.inventory && t.inventory[product] == Stock(quantity, 0)
                             && forall p :: p in s.inventory ==> p in t.inventory && t.inventory[p] == s.inventory[p])
    ensures var (t, done) := Authorize(s, task, product, quantity);
            && (done.Ok? <==> (task, product) in s.grants ==> s.grants[(task, product)] == quantity)
            && (done.Ok? ==> (task, product) in t.grants && t.grants[(task, product)] == quantity)
            && (done.Err? ==> t == s && done == Err(GrantChanged))
  {
  }

  lemma {:induction false} CallKeepsGrants(s: ToolState, call: ToolCall, key: (string, string))
    requires key in s.grants
    ensures key in CallTool(s, call).grants && CallTool(s, call).grants[key] == s.grants[key]
  {
    hide Known, ReceiptFor, Judge;
  }

  /** A grant is for good: no later call changes or removes it. */
  lemma {:induction false} GrantsAreFinal(calls: seq<ToolCall>, more: seq<ToolCall>, key: (string, string))
    requires key in RunCalls(calls).grants
    ensures key in RunCalls(calls + more).grants && RunCalls(calls + more).grants[key] == RunCalls(calls).grants[key]
    decreases |more|
  {
    hide CallTool;
    if more == [] {
      assert calls + more == calls;
    } else {
      var n := |more| - 1;
      GrantsAreFinal(calls, more[..n], key);
      CallKeepsGrants(RunCalls(calls + more[..n]), more[n], key);
      assert (calls + more)[..|calls + more| - 1] == calls + more[..n] && (calls + more)[|calls + more| - 1] == more[n];
    }
  }
}
