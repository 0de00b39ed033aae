/**
 The append-only evidence ledger: one hash-chained table, appended to either one record
 at a time or several in a transaction that commits or rolls back as a whole.

 A payload is its canonical JSON text, and the clock is a parameter.
 */
module EvidenceLedger {
  import opened Prelude
  import opened HashChain

  datatype Envelope = Envelope(runId: string, eventType: string, payload: string, createdAt: string)

  type Record = Link<Envelope>

  datatype LedgerError = ReadOnly | Nested | NoTransaction

  /** The table as it was when a transaction began. */
  datatype Savepoint = Savepoint(records: seq<Record>, lastRowId: int)

  class Ledger {
    const readOnly: bool
    var records: seq<Record>
    // SQLite's AUTOINCREMENT counter, which a rollback also restores.
    var lastRowId: int
    var inTransaction: bool
    var begun: Savepoint

    ghost predicate Valid()
      reads this
    {
      && ChainOk(records) && lastRowId == |records|
      && (inTransaction ==> ChainOk(begun.records) && begun.lastRowId == |begun.records| && begun.records <= records)
    }

    constructor (readOnly: bool)
      ensures Valid() && this.readOnly == readOnly && records == [] && !inTransaction
    {
      this.readOnly := readOnly;
      records, lastRowId, inTransaction := [], 0, false;
      begun := Savepoint([], 0);
    }

    function State(): LedgerState
      reads this
    {
      LedgerState(records, if inTransaction then Some(begun.records) else None)
    }

    method Append(runId: string, eventType: string, payload: string, now: string)
        returns (result: Result<Record, LedgerError>)
      requires Valid()
      modifies this`records, this`lastRowId
      ensures Valid()
      ensures readOnly ==> result == Err(ReadOnly) && State() == old(State())
      ensures !readOnly ==> State() == Do(old(State()), DoAppend(Envelope(runId, eventType, payload, now)))
      ensures !readOnly ==> result.Ok? && records == old(records) + [result.value]
    {
      if readOnly {
        return Err(ReadOnly);
      }
      var previous := if records == [] then Zero else records[|records| - 1].hash;
      var body := Envelope(runId, eventType, payload, now);
      var record := Link(lastRowId + 1, body, previous, Sha(body, previous));
      AppendOk(records, body);
      records, lastRowId := records + [record], lastRowId + 1;
      return Ok(record);
    }

    method Begin() returns (result: Result<(), LedgerError>)
      requires Valid()
      modifies this`inTransaction, this`begun
      ensures Valid()
      ensures result == if readOnly then Err(ReadOnly) else if old(inTransaction) then Err(Nested) else Ok(())
      ensures State() == if readOnly then old(State()) else Do(old(State()), DoBegin)
    {
      if readOnly {
        return Err(ReadOnly);
      }
      if inTransaction {
        return Err(Nested);
      }
      inTransaction, begun := true, Savepoint(records, lastRowId);
      return Ok(());
    }

    method Commit()
      requires Valid() && inTransaction
      modifies this`inTransaction
      ensures Valid() && State() == Do(old(State()), DoCommit)
    {
      inTransaction := false;
    }

    method Rollback()
      requires Valid() && inTransaction
      modifies this`records, this`lastRowId, this`inTransaction
      ensures Valid() && State() == Do(old(State()), DoRollback)
    {
      records, lastRowId, inTransaction := begun.records, begun.lastRowId, false;
    }

    method VerifyChain() returns (ok: bool)
      ensures ok <==> ChainOk(records)
    {
      ok := VerifyLinks(records);
    }

    /** `records(run_id)`: the run's records in order. */
    method RecordsOf(runId: string) returns (found: seq<Record>)
      ensures found == OfRun(records, runId)
    {
      found := [];
      for i := 0 to |records|
        invariant found == OfRun(records[..i], runId)
      {
        assert records[..i + 1][..i] == records[..i];
        if records[i].body.runId == runId {
          found := found + [records[i]];
        }
      }
      assert records[..|records|] == records;
    }
  }

  function OfRun(records: seq<Record>, runId: string): seq<Record> {
    if records == [] then []
    else
      var rest := OfRun(records[..|records| - 1], runId);
      if records[|records| - 1].body.runId == runId then rest + [records[|records| - 1]] else rest
  }

  // ------------------------------------------------------------- every sequence of operations

  datatype LedgerState = LedgerState(records: seq<Record>, begun: Option<seq<Record>>)

  datatype LedgerOp = DoAppend(body: Envelope) | DoBegin | DoCommit | DoRollback | DoCrash

  /** The table after one operation; one that raises leaves it as it was. */
  function Do(s: LedgerState, op: LedgerOp): LedgerState {
    match op
    case DoAppend(body) => s.(records := s.records + [NextLink(s.records, body)])
    case DoBegin => if s.begun.None? then s.(begun := Some(s.records)) else s
    case DoCommit => s.(begun := None)
    case DoRollback => if s.begun.Some? then LedgerState(s.begun.value, None) else s
    case DoCrash => if s.begun.Some? then LedgerState(s.begun.value, None) else s
  }

  function DoAll(ops: seq<LedgerOp>): LedgerState {
    if ops == [] then LedgerState([], None) else Do(DoAll(ops[..|ops| - 1]), ops[|ops| - 1])
  }

  function DurablePart(s: LedgerState): seq<Record> {
    if s.begun.Some? then s.begun.value else s.records
  }

  /**
   Appends, commits, rollbacks and crashes keep `verify_chain` true, for readers inside and outside the
   transaction.
   */
  lemma {:induction false} EveryLedgerVerifies(ops: seq<LedgerOp>)
    ensures ChainOk(DoAll(ops).records) && ChainOk(DurablePart(DoAll(ops)))
    ensures DurablePart(DoAll(ops)) <= DoAll(ops).records
  {
    if ops != [] {
      EveryLedgerVerifies(ops[..|ops| - 1]);
      var s, op := DoAll(ops[..|ops| - 1]), ops[|ops| - 1];
      if op.DoAppend? {
        AppendOk(s.records, op.body);
      }
    }
  }

  /** Committed records are permanent: later operations, crashes included, only add to them. */
  lemma {:induction false} CommittedIsForever(ops: seq<LedgerOp>, more: seq<LedgerOp>)
    ensures DurablePart(DoAll(ops)) <= DurablePart(DoAll(ops + more))
    decreases |more|
  {
    if more == [] {
      assert ops + more == ops;
    } else {
      var n := |more| - 1;
      CommittedIsForever(ops, more[..n]);
      EveryLedgerVerifies(ops + more[..n]);
      assert (ops + more)[..|ops + more| - 1] == ops + more[..n];
    }
  }

  /** Two ledgers that verify and end in the same hash are record for record the same. */
  lemma {:induction false} SameHeadSameHistory(a: seq<Record>, b: seq<Record>)
    requires ChainOk(a) && ChainOk(b) && LastHash(a) == LastHash(b)
    ensures a == b && forall runId :: OfRun(a, runId) == OfRun(b, runId)
  {
    SameLastHashSameChain(a, b);
  }
}
