/**
 The executor over its two databases, as interleaved transactions.

 A frame is one running `execute` or `recover` call, and its constructor says which
 transaction comes next. Any number of frames share one journal and one tool store, any
 of them may advance at any time, and any of them may vanish between two transactions.
 A fault raised inside a transaction rolls it back, so it is the frame vanishing before it.
 */
module ExactlyOnce {
  import opened Prelude
  import opened ControlledTools
  import opened ToolInvariants

  datatype Frame =
    | Starting(op: Operation)
    | Recovering(task: string)
    | Prepared(op: Operation, noted: Option<Receipt>)
    | Absent(op: Operation)
    | Holding(op: Operation, receipt: Receipt)
    | Recorded(op: Operation)
    | Finished(op: Operation, result: Receipt)
    | Nothing
    | Refused(why: Failure)
    | Raised(why: Failure)
    | Vanished

  predicate Ended(f: Frame) {
    f.Finished? || f.Nothing? || f.Refused? || f.Raised? || f.Vanished?
  }

  datatype Databases = Databases(journal: JournalState, tool: ToolState)

  /** The row `pending` selects; a consistent journal holds one per task at most. */
  ghost function PendingRow(j: JournalState, task: string): (row: Option<Intent>)
    ensures row.Some? <==> HasPending(j, task)
    ensures row.Some? ==> exists id :: PendingAt(j, task, id) && j[id] == row.value
  {
    if HasPending(j, task) then
      var id :| PendingAt(j, task, id);
      Some(j[id])
    else None
  }

  /** The next transaction of a frame: `execute`, `recover` and `_reconcile`, one database access at a time. */
  ghost function Step(d: Databases, f: Frame): (Databases, Frame)
  {
    match f
    case Starting(op) =>
      var (j, row) := Prepare(d.journal, op);
      (d.(journal := j), if row.Ok? then Prepared(row.value.payload, row.value.receipt) else Refused(row.error))
    case Recovering(task) =>
      var row := PendingRow(d.journal, task);
      (d, if row.Some? then Prepared(row.value.payload, row.value.receipt) else Nothing)
    case Prepared(op, noted) =>
      if noted.Some? then (d, Holding(op, noted.value))
      else
        var found := LookupReceipt(d.tool, op.operationId);
        (d, if found.Some? then Holding(op, found.value) else Absent(op))
    case Absent(op) =>
      var (t, receipt) := ApplyOp(d.tool, op);
      (d.(tool := t), if receipt.Ok? then Holding(op, receipt.value) else Raised(receipt.error))
    case Holding(op, receipt) =>
      var (j, done) := RecordReceipt(d.journal, op.operationId, receipt);
      (d.(journal := j), if done.Ok? then Recorded(op) else Raised(done.error))
    case Recorded(op) =>
      var (j, receipt) := Complete(d.journal, op.operationId);
      (d.(journal := j), if receipt.Ok? then Finished(op, receipt.value) else Raised(receipt.error))
    case _ => (d, f)
  }

  // ------------------------------------------------------------- what every transaction keeps

  predicate IntentOk(d: Databases, id: string)
    requires id in d.journal
  {
    var row := d.journal[id];
    && row.rowId < |d.journal| && OperationOk(row.payload) && row.payload.operationId == id
    && (row.complete ==> row.receipt.Some?)
    && (row.receipt.Some? ==> ReceiptIs(d.tool, id, row.payload, row.receipt.value))
  }

  predicate ReceiptIs(t: ToolState, id: string, op: Operation, receipt: Receipt) {
    id in t.receipts && t.receipts[id].payload == op && t.receipts[id].receipt == receipt
  }

  predicate HasReceipt(t: ToolState, op: Operation, receipt: Receipt) {
    ReceiptIs(t, op.operationId, op, receipt)
  }

  predicate HasIntent(j: JournalState, op: Operation) {
    op.operationId in j && j[op.operationId].payload == op
  }

  predicate Before(j: JournalState, a: string, b: string) {
    a in j && b in j && j[a].payload.taskId == j[b].payload.taskId && j[a].rowId < j[b].rowId
  }

  /** The intents of one task are finished in the order they were prepared. */
  predicate InOrder(j: JournalState) {
    forall a, b :: a in j && b in j && Before(j, a, b) ==> j[a].complete
  }

  /** The effects of one task happen in the order of its intents. */
  predicate EffectsInOrder(d: Databases) {
    forall a, b :: a in d.tool.receipts && b in d.tool.receipts && Before(d.journal, a, b) ==>
      d.tool.receipts[a].rowId < d.tool.receipts[b].rowId
  }

  predicate IntentIdsUnique(j: JournalState) {
    forall a, b :: a in j && b in j && a != b ==> j[a].rowId != j[b].rowId
  }

  predicate IntentsOk(d: Databases) {
    forall id :: id in d.journal ==> IntentOk(d, id)
  }

  predicate EffectsHaveIntents(d: Databases) {
    forall id :: id in d.tool.receipts ==> id in d.journal && d.journal[id].payload == d.tool.receipts[id].payload
  }

  predicate JournalOk(j: JournalState) {
    IntentTableOk(j) && IntentIdsUnique(j) && InOrder(j)
  }

  predicate DatabasesOk(d: Databases) {
    TablesOk(d.tool) && JournalOk(d.journal) && IntentsOk(d) && EffectsHaveIntents(d) && EffectsInOrder(d)
  }

  /** What a frame may rely on, whatever the others have done since its last transaction. */
  predicate FrameOk(d: Databases, f: Frame) {
    match f
    case Starting(op) => OperationOk(op)
    case Prepared(op, noted) => HasIntent(d.journal, op) && (noted.Some? ==> HasReceipt(d.tool, op, noted.value))
    case Absent(op) => HasIntent(d.journal, op)
    case Holding(op, receipt) => HasIntent(d.journal, op) && HasReceipt(d.tool, op, receipt)
    case Recorded(op) => HasIntent(d.journal, op) && d.journal[op.operationId].receipt.Some?
    case Finished(op, result) => HasIntent(d.journal, op) && d.journal[op.operationId].complete
         && HasReceipt(d.tool, op, result)
    case Raised(_) => false
    case _ => true
  }

  /** Rows are only added, and only towards completion. */
  predicate Grows(d: Databases, e: Databases) {
    && (forall id :: id in d.tool.receipts ==> id in e.tool.receipts && e.tool.receipts[id] == d.tool.receipts[id])
    && (forall id :: id in d.journal ==> id in e.journal && RowGrows(d.journal[id], e.journal[id]))
  }

  predicate RowGrows(a: Intent, b: Intent) {
    && a.payload == b.payload && a.rowId == b.rowId && (a.complete ==> b.complete)
    && (a.receipt.Some? ==> b.receipt == a.receipt)
  }

  lemma {:induction false} FramesSurvive(d: Databases, e: Databases, f: Frame)
    requires Grows(d, e) && FrameOk(d, f)
    ensures FrameOk(e, f)
  {
  }

  // ------------------------------------------------------------- reading one row

  lemma {:induction false} IntentAt(d: Databases, id: string)
    requires DatabasesOk(d) && id in d.journal
    ensures IntentOk(d, id)
  {
    hide TablesOk;
  }

  lemma {:induction false} EffectAt(d: Databases, id: string)
    requires DatabasesOk(d) && id in d.tool.receipts
    ensures var row := d.tool.receipts[id];
            && row.payload.operationId == id && row.task == row.payload.taskId && row.step == row.payload.stepId
            && RowOk(|d.tool.receipts|, row) && HasIntent(d.journal, row.payload)
  {
    hide JournalOk;
  }

  lemma {:induction false} SameStepSameIntent(j: JournalState, a: string, b: string)
    requires IntentTableOk(j) && a in j && b in j
    requires j[a].payload.taskId == j[b].payload.taskId && j[a].payload.stepId == j[b].payload.stepId
    ensures a == b
  {
  }

  // ------------------------------------------------------------- prepare

  lemma {:induction false} FreshIntent(j: JournalState, op: Operation)
    requires JournalOk(j) && !HasPending(j, op.taskId)
    requires forall id :: id in j ==> j[id].rowId < |j| && !SameIntentKey(id, j[id], op)
    ensures JournalOk(j[op.operationId := Intent(|j|, op, false, None)])
  {
    var after := j[op.operationId := Intent(|j|, op, false, None)];
    forall a, b | a in after && b in after && Before(after, a, b)
      ensures after[a].complete
    {
      if b != op.operationId {
        assert Before(j, a, b);
      }
    }
  }

  lemma {:induction false} NewIntentIsLast(d: Databases, op: Operation)
    requires IntentsOk(d) && EffectsHaveIntents(d) && EffectsInOrder(d) && op.operationId !in d.journal
             && OperationOk(op)
    ensures var e := d.(journal := d.journal[op.operationId := Intent(|d.journal|, op, false, None)]);
            IntentsOk(e) && EffectsHaveIntents(e) && EffectsInOrder(e)
  {
    var j := d.journal[op.operationId := Intent(|d.journal|, op, false, None)];
    var e := d.(journal := j);
    forall id | id in j
      ensures IntentOk(e, id)
    {
      assert id != op.operationId ==> IntentOk(d, id);
    }
    forall id | id in d.tool.receipts
      ensures id in d.journal && j[id] == d.journal[id]
    {
    }
    forall a, b | a in d.tool.receipts && b in d.tool.receipts && Before(j, a, b)
      ensures Before(d.journal, a, b)
    {
    }
  }

  lemma {:induction false} PrepareInserts(d: Databases, op: Operation)
    requires DatabasesOk(d) && OperationOk(op) && !HasPending(d.journal, op.taskId)
    requires forall id :: id in d.journal ==> !SameIntentKey(id, d.journal[id], op)
    ensures op.operationId !in d.journal
    ensures DatabasesOk(d.(journal := d.journal[op.operationId := Intent(|d.journal|, op, false, None)]))
  {
    if op.operationId in d.journal {
      assert SameIntentKey(op.operationId, d.journal[op.operationId], op);
      assert false;
    }
    assert forall id :: id in d.journal ==> d.journal[id].rowId < |d.journal| by {
      forall id | id in d.journal
        ensures d.journal[id].rowId < |d.journal|
      {
        IntentAt(d, id);
      }
    }
    FreshIntent(d.journal, op);
    NewIntentIsLast(d, op);
  }

  lemma {:induction false} PrepareKeeps(d: Databases, op: Operation)
    requires DatabasesOk(d) && OperationOk(op)
    ensures var (j, row) := Prepare(d.journal, op);
            var e := d.(journal := j);
            DatabasesOk(e) && Grows(d, e) && (row.Ok? ==> FrameOk(e, Prepared(row.value.payload, row.value.receipt)))
  {
    hide DatabasesOk;
    if op.operationId in d.journal {
      IntentAt(d, op.operationId);
    }
    if (forall id :: id in d.journal ==> !SameIntentKey(id, d.journal[id], op)) && !HasPending(d.journal, op.taskId) {
      PrepareInserts(d, op);
    }
  }

  lemma {:induction false} PendingKeeps(d: Databases, task: string)
    requires DatabasesOk(d)
    ensures var row := PendingRow(d.journal, task);
            row.Some? ==> FrameOk(d, Prepared(row.value.payload, row.value.receipt))
  {
    hide TablesOk, EffectsInOrder, EffectsHaveIntents;
    var row := PendingRow(d.journal, task);
    if row.Some? {
      var id :| PendingAt(d.journal, task, id) && d.journal[id] == row.value;
      IntentAt(d, id);
    }
  }

  // ------------------------------------------------------------- apply

  /** `_reconcile` never presents the tool with an identity it knows under another payload. */
  lemma {:induction false} ApplyAnswers(d: Databases, op: Operation)
    requires DatabasesOk(d) && HasIntent(d.journal, op)
    ensures Known(d.tool, op) ==> HasReceipt(d.tool, op, ApplyOp(d.tool, op).1.value)
    ensures ApplyOp(d.tool, op).1.Ok?
  {
    if Known(d.tool, op) {
      KnownMeansOwn(d, op);
    }
  }

  lemma {:induction false} KnownMeansOwn(d: Databases, op: Operation)
    requires DatabasesOk(d) && HasIntent(d.journal, op) && Known(d.tool, op)
    ensures op.operationId in d.tool.receipts && d.tool.receipts[op.operationId].payload == op
  {
    hide TablesOk;
    var id :| id in d.tool.receipts && SameReceiptKey(id, d.tool.receipts[id], op);
    EffectAt(d, id);
    SameStepSameIntent(d.journal, id, op.operationId);
  }

  /** A fresh effect belongs to the last intent of its task: every earlier one is complete, so has its receipt. */
  lemma {:induction false} EffectIsLast(d: Databases, t: ToolState, op: Operation, row: ReceiptRow)
    requires InOrder(d.journal) && IntentsOk(d) && EffectsInOrder(d)
    requires forall id :: id in d.tool.receipts ==> d.tool.receipts[id].rowId < |d.tool.receipts|
    requires op.operationId !in d.tool.receipts && row.rowId == |d.tool.receipts|
    requires t.receipts == d.tool.receipts[op.operationId := row]
    ensures EffectsInOrder(d.(tool := t))
  {
    forall a, b | a in t.receipts && b in t.receipts && Before(d.journal, a, b)
      ensures t.receipts[a].rowId < t.receipts[b].rowId
    {
      assert IntentOk(d, a) && d.journal[a].complete;
      assert a in d.tool.receipts;
    }
  }

  lemma {:induction false} IntentsStand(d: Databases, e: Databases, moved: string)
    requires IntentsOk(d) && |d.journal| <= |e.journal|
    requires forall id :: id in d.tool.receipts ==> id in e.tool.receipts && e.tool.receipts[id] == d.tool.receipts[id]
    requires forall id :: id in e.journal && id != moved ==> id in d.journal && e.journal[id] == d.journal[id]
    requires moved in e.journal && IntentOk(e, moved)
    ensures IntentsOk(e)
  {
    forall id | id in e.journal
      ensures IntentOk(e, id)
    {
      assert id != moved ==> IntentOk(d, id);
    }
  }

  lemma {:induction false} EffectInserts(d: Databases, t: ToolState, op: Operation, row: ReceiptRow)
    requires DatabasesOk(d) && HasIntent(d.journal, op) && TablesOk(t)
    requires op.operationId !in d.tool.receipts && row.payload == op && row.rowId == |d.tool.receipts|
    requires t.receipts == d.tool.receipts[op.operationId := row]
    ensures DatabasesOk(d.(tool := t))
  {
    hide TablesOk, IntentTableOk, IntentIdsUnique, InOrder, EffectsInOrder, IntentsOk;
    forall id | id in d.tool.receipts
      ensures d.tool.receipts[id].rowId < |d.tool.receipts|
    {
      EffectAt(d, id);
    }
    IntentAt(d, op.operationId);
    IntentsStand(d, d.(tool := t), op.operationId);
    EffectIsLast(d, t, op, row);
  }

  lemma {:induction false} ApplyKeeps(d: Databases, op: Operation)
    requires DatabasesOk(d) && HasIntent(d.journal, op)
    ensures var (t, receipt) := ApplyOp(d.tool, op);
            var e := d.(tool := t);
            DatabasesOk(e) && Grows(d, e) && receipt.Ok? && HasReceipt(t, op, receipt.value)
  {
    hide JournalOk, IntentsOk, EffectsHaveIntents, EffectsInOrder, RowsOk, ReservationsOk, Known, AfterJudging, Judge;
    ApplyAnswers(d, op);
    IntentAt(d, op.operationId);
    if !Known(d.tool, op) {
      var row := FreshRow(d.tool, op);
      ApplyKeepsTables(d.tool, op);
      EffectInserts(d, ApplyOp(d.tool, op).0, op, row);
    }
  }

  // ------------------------------------------------------------- record and complete

  lemma {:induction false} JournalRowMoves(j: JournalState, id: string, row: Intent)
    requires JournalOk(j) && id in j && RowGrows(j[id], row)
    ensures JournalOk(j[id := row])
    ensures forall a, b :: Before(j[id := row], a, b) ==> Before(j, a, b)
  {
  }

  lemma {:induction false} OrderStands(d: Databases, e: Databases)
    requires EffectsInOrder(d) && e.tool == d.tool && forall a, b :: Before(e.journal, a, b) ==> Before(d.journal, a, b)
    ensures EffectsInOrder(e)
  {
  }

  /** Moving one row towards completion leaves everything else in place. */
  lemma {:induction false} RowMoves(d: Databases, id: string, row: Intent)
    requires DatabasesOk(d) && id in d.journal && RowGrows(d.journal[id], row)
    requires row.complete ==> row.receipt.Some?
    requires row.receipt.Some? ==> ReceiptIs(d.tool, id, row.payload, row.receipt.value)
    ensures DatabasesOk(d.(journal := d.journal[id := row])) && Grows(d, d.(journal := d.journal[id := row]))
  {
    hide TablesOk, JournalOk, EffectsInOrder, IntentsOk;
    var e := d.(journal := d.journal[id := row]);
    assert |e.journal| == |d.journal|;
    JournalRowMoves(d.journal, id, row);
    OrderStands(d, e);
    IntentAt(d, id);
    IntentsStand(d, e, id);
  }

  lemma {:induction false} RecordKeeps(d: Databases, op: Operation, receipt: Receipt)
    requires DatabasesOk(d) && HasIntent(d.journal, op) && HasReceipt(d.tool, op, receipt)
    ensures var (j, done) := RecordReceipt(d.journal, op.operationId, receipt);
            var e := d.(journal := j);
            DatabasesOk(e) && Grows(d, e) && done.Ok? && HasIntent(j, op) && j[op.operationId].receipt == Some(receipt)
  {
    hide DatabasesOk;
    var id := op.operationId;
    IntentAt(d, id);
    EffectAt(d, id);
    RowMoves(d, id, d.journal[id].(receipt := Some(receipt)));
  }

  lemma {:induction false} CompleteKeeps(d: Databases, op: Operation)
    requires DatabasesOk(d) && HasIntent(d.journal, op) && d.journal[op.operationId].receipt.Some?
    ensures var (j, receipt) := Complete(d.journal, op.operationId);
            var e := d.(journal := j);
            && DatabasesOk(e) && Grows(d, e) && receipt.Ok? && HasReceipt(d.tool, op, receipt.value)
            && HasIntent(j, op) && j[op.operationId].complete
  {
    hide DatabasesOk;
    var id := op.operationId;
    IntentAt(d, id);
    RowMoves(d, id, d.journal[id].(complete := true));
  }

  /**
   One transaction of one frame keeps the databases consistent, only adds to them, and leaves
   the frame able to rely on them; in particular it never raises Conflict once prepared.
   */
  lemma {:induction false} StepKeeps(d: Databases, f: Frame)
    requires DatabasesOk(d) && FrameOk(d, f)
    ensures var (e, g) := Step(d, f); DatabasesOk(e) && Grows(d, e) && FrameOk(e, g)
  {
    hide TablesOk, JournalOk, IntentsOk, EffectsHaveIntents, EffectsInOrder;
    match f
    case Starting(op) => PrepareKeeps(d, op);
    case Recovering(task) => PendingKeeps(d, task);
    case Prepared(op, _) =>
      if op.operationId in d.tool.receipts {
        EffectAt(d, op.operationId);
      }
    case Absent(op) => ApplyKeeps(d, op);
    case Holding(op, receipt) => RecordKeeps(d, op, receipt);
    case Recorded(op) => CompleteKeeps(d, op);
    case _ =>
  }

  // ------------------------------------------------------------- any number of interleaved calls

  datatype System = System(d: Databases, frames: seq<Frame>)

  datatype Action =
    | Execute(op: Operation)
    | Recover(task: string)
    | Advance(i: nat)
    | Crash(i: nat)
    | Host(call: ToolCall)

  /** Calls check their arguments, and only executors call `apply`. */
  predicate ActionOk(a: Action) {
    match a
    case Execute(op) => OperationOk(op)
    case Host(call) => CallOk(call) && !call.ApplyCall?
    case _ => true
  }

  predicate ActionsOk(actions: seq<Action>) {
    forall i :: 0 <= i < |actions| ==> ActionOk(actions[i])
  }

  ghost function Next(s: System, a: Action): System {
    match a
    case Execute(op) => s.(frames := s.frames + [Starting(op)])
    case Recover(task) => s.(frames := s.frames + [Recovering(task)])
    case Advance(i) =>
      if i < |s.frames| then
        var (d, f) := Step(s.d, s.frames[i]);
        System(d, s.frames[i := f])
      else s
    case Crash(i) => if i < |s.frames| && !Ended(s.frames[i]) then s.(frames := s.frames[i := Vanished]) else s
    case Host(call) => s.(d := s.d.(tool := CallTool(s.d.tool, call)))
  }

  ghost function Run(actions: seq<Action>): System {
    if actions == [] then System(Databases(map[], EmptyTool), [])
    else Next(Run(actions[..|actions| - 1]), actions[|actions| - 1])
  }

  predicate SystemOk(s: System) {
    DatabasesOk(s.d) && forall i :: 0 <= i < |s.frames| ==> FrameOk(s.d, s.frames[i])
  }

  lemma {:induction false} HostKeeps(d: Databases, call: ToolCall)
    requires DatabasesOk(d) && CallOk(call) && !call.ApplyCall?
    ensures var e := d.(tool := CallTool(d.tool, call)); DatabasesOk(e) && Grows(d, e)
  {
    hide TablesOk, JournalOk;
    CallKeepsTables(d.tool, call);
    forall id | id in d.journal
      ensures IntentOk(d.(tool := CallTool(d.tool, call)), id)
    {
      assert IntentOk(d, id);
    }
  }

  lemma {:induction false} NextKeeps(s: System, a: Action)
    requires SystemOk(s) && ActionOk(a)
    ensures SystemOk(Next(s, a)) && Grows(s.d, Next(s, a).d)
  {
    hide DatabasesOk, Step, Grows;
    var t := Next(s, a);
    Unmoved(s.d);
    if a.Advance? && a.i < |s.frames| {
      StepKeeps(s.d, s.frames[a.i]);
    } else if a.Host? {
      HostKeeps(s.d, a.call);
    }
    forall i | 0 <= i < |t.frames| && i < |s.frames|
      ensures FrameOk(t.d, s.frames[i])
    {
      FramesSurvive(s.d, t.d, s.frames[i]);
    }
  }

  lemma {:induction false} Unmoved(d: Databases)
    ensures Grows(d, d)
  {
  }

  /**
   Safety over every interleaving and every pattern of crashes: each tool receipt has an
   intent with the same payload, each recorded receipt is the tool's, a completed intent has
   a receipt, the effects of a task follow the order of its intents, and no frame ever
   raises Conflict from `_reconcile`.
   */
  lemma {:induction false} EveryRunIsSafe(actions: seq<Action>)
    requires ActionsOk(actions)
    ensures SystemOk(Run(actions))
  {
    if actions != [] {
      EveryRunIsSafe(actions[..|actions| - 1]);
      NextKeeps(Run(actions[..|actions| - 1]), actions[|actions| - 1]);
    }
  }

  // ------------------------------------------------------------- one effect

  /** This action is an executor changing the inventory on behalf of operation `id`. */
  ghost predicate Affects(s: System, a: Action, id: string) {
    && a.Advance? && a.i < |s.frames| && s.frames[a.i].Absent? && s.frames[a.i].op.operationId == id
    && Next(s, a).d.tool.inventory != s.d.tool.inventory
  }

  ghost function EffectCount(actions: seq<Action>, id: string): nat {
    if actions == [] then 0
    else
      var before := actions[..|actions| - 1];
      EffectCount(before, id) + (if Affects(Run(before), actions[|actions| - 1], id) then 1 else 0)
  }

  predicate WasApplied(t: ToolState, id: string) {
    id in t.receipts && t.receipts[id].receipt.code == Applied
  }

  lemma {:induction false} ApplyAffects(d: Databases, op: Operation, id: string)
    requires DatabasesOk(d) && HasIntent(d.journal, op)
    ensures var t := ApplyOp(d.tool, op).0;
            && (t.inventory != d.tool.inventory
                <==> !WasApplied(d.tool, op.operationId) && WasApplied(t, op.operationId))
            && (id != op.operationId ==> (WasApplied(t, id) <==> WasApplied(d.tool, id)))
            && (WasApplied(d.tool, id) ==> WasApplied(t, id))
  {
    hide JournalOk, EffectsHaveIntents, EffectsInOrder, RowsOk, ReservationsOk, Known;
    IntentAt(d, op.operationId);
    if !Known(d.tool, op) {
      var row := FreshRow(d.tool, op);
      if Judge(d.tool, op) == Applied {
        assert Effect(d.tool, op).inventory[op.product].version != d.tool.inventory[op.product].version;
      }
    }
  }

  lemma {:induction false} ActionAffects(s: System, a: Action, id: string)
    requires SystemOk(s) && ActionOk(a)
    ensures Affects(s, a, id) <==> !WasApplied(s.d.tool, id) && WasApplied(Next(s, a).d.tool, id)
    ensures WasApplied(s.d.tool, id) ==> WasApplied(Next(s, a).d.tool, id)
    ensures Next(s, a).d.tool.inventory != s.d.tool.inventory ==>
              (a.Host? && a.call.SeedCall?) || (a.Advance? && a.i < |s.frames| && s.frames[a.i].Absent?)
  {
    hide DatabasesOk, ApplyOp, LookupReceipt, Prepare, RecordReceipt, Complete, PendingRow;
    if a.Advance? && a.i < |s.frames| && s.frames[a.i].Absent? {
      ApplyAffects(s.d, s.frames[a.i].op, id);
    }
  }

  /**
   Exactly once: over every run, an operation changes the inventory once if the tool holds
   an applied receipt for it, and never otherwise.
   */
  lemma {:induction false} ExactlyOneEffect(actions: seq<Action>, id: string)
    requires ActionsOk(actions)
    ensures EffectCount(actions, id) == if WasApplied(Run(actions).d.tool, id) then 1 else 0
  {
    if actions != [] {
      var before := actions[..|actions| - 1];
      ExactlyOneEffect(before, id);
      EveryRunIsSafe(before);
      ActionAffects(Run(before), actions[|actions| - 1], id);
    }
  }

  /** Nothing but host seeding and executors at their `apply` changes the inventory. */
  lemma {:induction false} OnlyExecutorsAndSeeding(actions: seq<Action>, a: Action)
    requires ActionsOk(actions) && ActionOk(a)
    requires Next(Run(actions), a).d.tool.inventory != Run(actions).d.tool.inventory
    ensures (a.Host? && a.call.SeedCall?) || exists id :: Affects(Run(actions), a, id)
  {
    hide DatabasesOk, ApplyOp, LookupReceipt, Prepare, RecordReceipt, Complete, PendingRow;
    EveryRunIsSafe(actions);
    ActionAffects(Run(actions), a, "");
    if a.Advance? {
      assert Affects(Run(actions), a, Run(actions).frames[a.i].op.operationId);
    }
  }

  /** Every call that finishes for an operation returns the same receipt: the one the tool stored. */
  lemma {:induction false} OneResult(actions: seq<Action>, i: nat, k: nat)
    requires ActionsOk(actions) && i < |Run(actions).frames| && k < |Run(actions).frames|
    requires Run(actions).frames[i].Finished? && Run(actions).frames[k].Finished?
    requires Run(actions).frames[i].op.operationId == Run(actions).frames[k].op.operationId
    ensures Run(actions).frames[i] == Run(actions).frames[k]
    ensures HasReceipt(Run(actions).d.tool, Run(actions).frames[i].op, Run(actions).frames[i].result)
  {
    hide DatabasesOk, Next;
    EveryRunIsSafe(actions);
    assert FrameOk(Run(actions).d, Run(actions).frames[i]) && FrameOk(Run(actions).d, Run(actions).frames[k]);
  }

  // ------------------------------------------------------------- recovery

  /** A frame left alone for `n` transactions. */
  ghost function Solo(d: Databases, f: Frame, n: nat): (Databases, Frame)
    decreases n
  {
    if n == 0 then (d, f) else var (e, g) := Step(d, f); Solo(e, g, n - 1)
  }

  /** How many more transactions a frame needs at most. */
  function Remaining(f: Frame): nat {
    match f
    case Starting(_) => 5
    case Recovering(_) => 5
    case Prepared(_, _) => 4
    case Absent(_) => 3
    case Holding(_, _) => 2
    case Recorded(_) => 1
    case _ => 0
  }

  lemma {:induction false} StepProgresses(d: Databases, f: Frame)
    requires DatabasesOk(d) && FrameOk(d, f)
    ensures var (e, g) := Step(d, f);
            && (!Ended(f) ==> Remaining(g) < Remaining(f))
            && (!f.Starting? ==> e.journal.Keys == d.journal.Keys)
            && (f.Finished? ==> g == f)
            && (Working(f) ==> g.Finished? || Working(g))
            && (Working(f) ==> g.op == f.op)
  {
    hide DatabasesOk, ApplyOp, Prepare, PendingRow;
    StepKeeps(d, f);
  }

  predicate Working(f: Frame) {
    f.Prepared? || f.Absent? || f.Holding? || f.Recorded?
  }

  lemma {:induction false} SoloFinishes(d: Databases, f: Frame, n: nat)
    requires DatabasesOk(d) && FrameOk(d, f) && (Working(f) || f.Finished?) && n >= Remaining(f)
    ensures var (e, g) := Solo(d, f, n);
            && DatabasesOk(e) && FrameOk(e, g) && g.Finished? && g.op == f.op
            && e.journal.Keys == d.journal.Keys && Grows(d, e)
    decreases n
  {
    hide DatabasesOk, FrameOk, Step, Grows;
    if n == 0 {
      Unmoved(d);
    } else {
      var (e, g) := Step(d, f);
      StepKeeps(d, f);
      StepProgresses(d, f);
      SoloFinishes(e, g, n - 1);
      GrowsOn(d, e, Solo(d, f, n).0);
    }
  }

  lemma {:induction false} GrowsOn(a: Databases, b: Databases, c: Databases)
    requires Grows(a, b) && Grows(b, c)
    ensures Grows(a, c)
  {
  }

  /**
   Recovery: whatever calls crashed, a later `recover` left to run finds the task's pending
   intent, finishes it with the tool's one receipt, and leaves the task nothing pending.
   */
  lemma {:induction false} RecoveryDrains(actions: seq<Action>, task: string)
    requires ActionsOk(actions)
    ensures var d := Run(actions).d;
            var (e, f) := Solo(d, Recovering(task), 5);
            && !HasPending(e.journal, task) && DatabasesOk(e) && Grows(d, e)
            && (f.Nothing? <==> !HasPending(d.journal, task))
            && (!f.Nothing? ==>
                f.Finished? && HasReceipt(e.tool, f.op, f.result) && PendingAt(d.journal, task, f.op.operationId))
  {
    hide DatabasesOk, Grows, ApplyOp, Prepare, Next;
    EveryRunIsSafe(actions);
    var d := Run(actions).d;
    StepKeeps(d, Recovering(task));
    var (_, f) := Step(d, Recovering(task));
    if f.Prepared? {
      var id :| PendingAt(d.journal, task, id) && d.journal[id] == PendingRow(d.journal, task).value;
      IntentAt(d, id);
      SoloFinishes(d, f, 4);
      NothingElsePending(d, Solo(d, f, 4).0, task, id);
    } else {
      IdleStays(d, 4);
      Unmoved(d);
    }
  }

  lemma {:induction false} IdleStays(d: Databases, n: nat)
    ensures Solo(d, Nothing, n) == (d, Nothing)
  {
    if n > 0 {
      IdleStays(d, n - 1);
    }
  }

  lemma {:induction false} NothingElsePending(d: Databases, e: Databases, task: string, id: string)
    requires DatabasesOk(d) && Grows(d, e) && e.journal.Keys == d.journal.Keys
    requires PendingAt(d.journal, task, id) && e.journal[id].complete
    ensures !HasPending(e.journal, task)
  {
    hide TablesOk, IntentsOk, EffectsHaveIntents, EffectsInOrder, IntentIdsUnique, InOrder;
    forall x | x in e.journal && e.journal[x].payload.taskId == task
      ensures e.journal[x].complete
    {
      assert RowGrows(d.journal[x], e.journal[x]) && PendingAt(d.journal, task, id);
    }
  }
}
