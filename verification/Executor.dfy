/**
 The executor as the program runs it: one object over a journal and a tool store.

 `lifetime` is the number of database accesses the process survives, so it ranges over
 every place a call can be cut off; the returned frame says how far the call got.
 */
module Executors {
  import opened Prelude
  import opened ControlledTools
  import opened ExactlyOnce

  class Executor {
    const journal: IntentJournal
    const tool: ToolStore

    constructor (journal: IntentJournal, tool: ToolStore)
      ensures this.journal == journal && this.tool == tool
    {
      this.journal, this.tool := journal, tool;
    }

    function Contents(): Databases
      reads journal, tool
    {
      Databases(journal.intents, tool.State())
    }

    predicate Valid()
      reads journal, tool
    {
      journal.Valid() && tool.Valid()
    }

    /** `execute` does to the databases what its frame does when left alone. */
    method Execute(op: Operation, lifetime: nat) returns (reached: Frame)
      requires Valid() && OperationOk(op)
      modifies journal, tool
      ensures Valid()
      ensures (Contents(), reached) == Solo(old(Contents()), Starting(op), lifetime)
    {
      hide Prepare, ApplyOp, RecordReceipt, Complete;
      if lifetime == 0 {
        return Starting(op);
      }
      var prepared := journal.PrepareIntent(op);
      if prepared.Err? {
        EndedStays(Contents(), Refused(prepared.error), lifetime - 1);
        return Refused(prepared.error);
      }
      PreparedIsValid(old(journal.intents), op);
      reached := Reconcile(prepared.value, lifetime - 1);
    }

    method Resume(task: string, lifetime: nat) returns (reached: Frame)
      requires Valid()
      modifies journal, tool
      ensures Valid()
      ensures (Contents(), reached) == Solo(old(Contents()), Recovering(task), lifetime)
    {
      hide ApplyOp, RecordReceipt, Complete;
      if lifetime == 0 {
        return Recovering(task);
      }
      var row := journal.Pending(task);
      OnePending(journal.intents, task, row);
      if row.None? {
        EndedStays(Contents(), Nothing, lifetime - 1);
        return Nothing;
      }
      reached := Reconcile(row.value, lifetime - 1);
    }

    method Reconcile(row: Intent, lifetime: nat) returns (reached: Frame)
      requires Valid() && OperationOk(row.payload)
      modifies journal, tool
      ensures Valid()
      ensures (Contents(), reached) == Solo(old(Contents()), Prepared(row.payload, row.receipt), lifetime)
    {
      hide ApplyOp, RecordReceipt, Complete;
      var op := row.payload;
      if lifetime == 0 {
        return Prepared(op, row.receipt);
      }
      var found := row.receipt;
      if found.None? {
        found := tool.Lookup(op.operationId);
      }
      if found.Some? {
        reached := Settle(op, found.value, lifetime - 1);
        return;
      }
      if lifetime == 1 {
        return Absent(op);
      }
      var applied := tool.Apply(op, false);
      if applied.Err? {
        EndedStays(Contents(), Raised(applied.error), lifetime - 2);
        return Raised(applied.error);
      }
      reached := Settle(op, applied.value, lifetime - 2);
    }

    method Settle(op: Operation, receipt: Receipt, lifetime: nat) returns (reached: Frame)
      requires Valid()
      modifies journal
      ensures Valid()
      ensures (Contents(), reached) == Solo(old(Contents()), Holding(op, receipt), lifetime)
    {
      hide RecordReceipt, Complete;
      if lifetime == 0 {
        return Holding(op, receipt);
      }
      var recorded := journal.Record(op.operationId, receipt);
      if recorded.Err? {
        EndedStays(Contents(), Raised(recorded.error), lifetime - 1);
        return Raised(recorded.error);
      }
      if lifetime == 1 {
        return Recorded(op);
      }
      var result := journal.CompleteIntent(op.operationId);
      var last := if result.Ok? then Finished(op, result.value) else Raised(result.error);
      EndedStays(Contents(), last, lifetime - 2);
      return last;
    }
  }

  lemma {:induction false} EndedStays(d: Databases, f: Frame, n: nat)
    requires Ended(f)
    ensures Solo(d, f, n) == (d, f)
  {
    if n > 0 {
      EndedStays(d, f, n - 1);
    }
  }

  lemma {:induction false} PreparedIsValid(j: JournalState, op: Operation)
    requires OperationOk(op)
    ensures var (_, row) := Prepare(j, op); row.Ok? ==> row.value.payload == op
  {
  }

  /** `pending` has one row to choose from. */
  lemma {:induction false} OnePending(j: JournalState, task: string, row: Option<Intent>)
    requires IntentTableOk(j)
    requires row.Some? <==> HasPending(j, task)
    requires row.Some? ==> exists id :: PendingAt(j, task, id) && j[id] == row.value
    ensures row == PendingRow(j, task)
  {
  }
}
