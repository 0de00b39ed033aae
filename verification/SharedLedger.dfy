/**
 One evidence ledger written through several connections.

 An append reads the newest hash and inserts in two steps. Inside a transaction the
 connection holds the write lock from the start; outside, another connection may commit
 between the two. An insert and its own commit are one step: dying between them leaves neither.
 */
module SharedLedger {
  import opened Prelude
  import opened HashChain
  import opened EvidenceLedger

  /** The connection that holds the write lock, and the table as it sees it. */
  datatype Writer = Writer(connection: int, table: seq<Record>)

  /** `seen` is the table each unfinished append found when it read the newest hash. */
  datatype Shared = Shared(table: seq<Record>, writer: Option<Writer>, seen: map<int, seq<Record>>)

  datatype Op =
    | ReadHead(connection: int)
    | Insert(connection: int, body: Envelope)
    | Begin(connection: int)
    | Commit(connection: int)
    | Abort(connection: int)

  function View(s: Shared, c: int): seq<Record> {
    if s.writer.Some? && s.writer.value.connection == c then s.writer.value.table else s.table
  }

  predicate Holds(s: Shared, c: int) {
    s.writer.Some? && s.writer.value.connection == c
  }

  /** The lock is another connection's, or the hash is already in the table (`UNIQUE`). */
  predicate Refused(s: Shared, c: int, body: Envelope)
    requires c in s.seen
  {
    || (s.writer.Some? && !Holds(s, c))
    || exists i :: 0 <= i < |View(s, c)| && View(s, c)[i].hash == LinkAfter(View(s, c), s.seen[c], body).hash
  }

  /** One step of one connection; an append interrupted by anything else writes nothing. */
  function Step(s: Shared, op: Op): Shared {
    var c := op.connection;
    var rest := s.seen - {c};
    match op
    case ReadHead(_) => s.(seen := s.seen[c := View(s, c)])
    case Insert(_, body) =>
      if c !in s.seen || Refused(s, c, body) then s.(seen := rest)
      else
        var longer := View(s, c) + [LinkAfter(View(s, c), s.seen[c], body)];
        if Holds(s, c) then Shared(s.table, Some(Writer(c, longer)), rest) else Shared(longer, s.writer, rest)
    case Begin(_) => if s.writer.None? then Shared(s.table, Some(Writer(c, s.table)), rest) else s.(seen := rest)
    case Commit(_) => if Holds(s, c) then Shared(s.writer.value.table, None, rest) else s.(seen := rest)
    case Abort(_) => if Holds(s, c) then Shared(s.table, None, rest) else s.(seen := rest)
  }

  function After(ops: seq<Op>): Shared {
    if ops == [] then Shared([], None, map[]) else Step(After(ops[..|ops| - 1]), ops[|ops| - 1])
  }

  /** An insert that takes effect although its connection no longer sees the table it read. */
  predicate Stale(s: Shared, op: Op) {
    && op.Insert? && op.connection in s.seen && !Refused(s, op.connection, op.body)
    && s.seen[op.connection] != View(s, op.connection)
  }

  predicate NeverStale(ops: seq<Op>) {
    forall i :: 0 <= i < |ops| ==> !Stale(After(ops[..i]), ops[i])
  }

  // ------------------------------------------------------------- what the steps keep

  ghost predicate SharedOk(s: Shared) {
    && (forall c :: c in s.seen ==> s.seen[c] <= View(s, c))
    && (s.writer.Some? ==>
          && s.table <= s.writer.value.table
          && (s.writer.value.connection in s.seen ==> s.seen[s.writer.value.connection] == s.writer.value.table))
  }

  lemma {:induction false} StepKeeps(s: Shared, op: Op)
    requires SharedOk(s)
    ensures SharedOk(Step(s, op)) && s.table <= Step(s, op).table
  {
  }

  lemma {:induction false} EveryRunIsOk(ops: seq<Op>)
    ensures SharedOk(After(ops))
  {
    if ops != [] {
      EveryRunIsOk(ops[..|ops| - 1]);
      StepKeeps(After(ops[..|ops| - 1]), ops[|ops| - 1]);
    }
  }

  /** An append inside a transaction has always seen the whole table. */
  lemma {:induction false} TransactionsAreNeverStale(ops: seq<Op>, op: Op)
    requires Holds(After(ops), op.connection)
    ensures !Stale(After(ops), op)
  {
    EveryRunIsOk(ops);
  }

  /** In a table that verifies, an append that has seen all of it is refused only for the lock. */
  lemma {:induction false} FreshInsertsSucceed(s: Shared, c: int, body: Envelope)
    requires c in s.seen && s.seen[c] == View(s, c) && ChainOk(View(s, c))
    ensures Refused(s, c, body) <==> s.writer.Some? && !Holds(s, c)
  {
    NextHashIsNew(View(s, c), body);
  }

  // ------------------------------------------------------------- when the chain verifies

  /** The committed table and the one inside an open transaction verify together or not at all. */
  ghost predicate VerifiesIff(s: Shared, neverStale: bool) {
    && (ChainOk(s.table) <==> neverStale)
    && (s.writer.Some? ==> (ChainOk(s.writer.value.table) <==> neverStale))
  }

  lemma {:induction false} StepVerifies(s: Shared, op: Op, neverStale: bool)
    requires SharedOk(s) && VerifiesIff(s, neverStale)
    ensures VerifiesIff(Step(s, op), neverStale && !Stale(s, op))
  {
    if op.Insert? && op.connection in s.seen && !Refused(s, op.connection, op.body) {
      var c := op.connection;
      var view := View(s, c);
      var longer := view + [LinkAfter(view, s.seen[c], op.body)];
      if ChainOk(view) {
        FitsExactlyWhenSeen(view, s.seen[c], op.body);
      } else {
        BrokenStaysBroken(view, longer);
      }
    }
  }

  lemma {:induction false} StartVerifies()
    ensures VerifiesIff(After([]), true)
  {
  }

  lemma {:induction false} VerifiesAfter(ops: seq<Op>)
    ensures VerifiesIff(After(ops), NeverStale(ops))
  {
    hide VerifiesIff, SharedOk, Stale, Step;
    if ops == [] {
      StartVerifies();
    } else {
      var n := |ops| - 1;
      VerifiesAfter(ops[..n]);
      EveryRunIsOk(ops[..n]);
      StepVerifies(After(ops[..n]), ops[n], NeverStale(ops[..n]));
      assert forall i :: 0 <= i < n ==> ops[..n][..i] == ops[..i] && ops[..n][i] == ops[i];
    }
  }

  /**
   Over all interleavings of connections, transactions and crashes, `verify_chain` holds of
   the ledger exactly when no insert that took effect was stale.
   */
  lemma {:induction false} VerifiesExactlyWhenNeverStale(ops: seq<Op>)
    ensures ChainOk(After(ops).table) <==> NeverStale(ops)
  {
    VerifiesAfter(ops);
  }

  /** Steps of other connections between a read and its insert. */
  predicate NoneOf(ops: seq<Op>, c: int) {
    forall i :: 0 <= i < |ops| ==> ops[i].connection != c
  }

  lemma {:induction false} OtherLeavesTheRead(s: Shared, op: Op, c: int)
    requires op.connection != c && c in s.seen && !Holds(s, c)
    ensures c in Step(s, op).seen && Step(s, op).seen[c] == s.seen[c] && !Holds(Step(s, op), c)
  {
  }

  lemma {:induction false} OthersLeaveTheRead(ops: seq<Op>, between: seq<Op>, c: int)
    requires NoneOf(between, c) && c in After(ops).seen && !Holds(After(ops), c)
    ensures var s := After(ops + between);
            c in s.seen && s.seen[c] == After(ops).seen[c] && !Holds(s, c)
    ensures forall i :: 0 <= i <= |between| ==> After(ops + between[..i]).table <= After(ops + between).table
  {
    hide Step, SharedOk, Holds;
    if between == [] {
      assert ops + between == ops;
    } else {
      var n := |between| - 1;
      OthersLeaveTheRead(ops, between[..n], c);
      EveryRunIsOk(ops + between[..n]);
      assert (ops + between)[..|ops + between| - 1] == ops + between[..n];
      StepKeeps(After(ops + between[..n]), between[n]);
      OtherLeavesTheRead(After(ops + between[..n]), between[n], c);
      forall i | 0 <= i <= |between|
        ensures After(ops + between[..i]).table <= After(ops + between).table
      {
        if i <= n {
          assert between[..n][..i] == between[..i];
        } else {
          assert between[..i] == between;
        }
      }
    }
  }

  /**
   An append outside a transaction is stale exactly when another connection's insert or
   commit changed the table between its read and its insert.
   */
  lemma {:induction false} StaleExactlyWhenOvertaken(ops: seq<Op>, between: seq<Op>, c: int, body: Envelope)
    requires NoneOf(between, c) && !Holds(After(ops), c)
    ensures var start := ops + [ReadHead(c)];
            var s := After(start + between);
            && c in s.seen
            && (Stale(s, Insert(c, body)) <==>
                  && !Refused(s, c, body)
                  && exists i :: 0 <= i <= |between| && After(start + between[..i]).table != After(start).table)
  {
    var start := ops + [ReadHead(c)];
    assert start[..|start| - 1] == ops;
    OthersLeaveTheRead(start, between, c);
    assert between[..|between|] == between && start + between[..0] == start;
    hide SharedOk, Refused;
    if i :| 0 <= i <= |between| && After(start + between[..i]).table != After(start).table {
      OthersLeaveTheRead(start, between[..i], c);
      assert between[..i][..0] == between[..0];
      assert After(start).table <= After(start + between[..i]).table <= After(start + between).table;
    }
  }

  /** Through one connection, or with every insert inside a transaction, the ledger always verifies. */
  lemma {:induction false} OneConnectionVerifies(ops: seq<Op>, c: int)
    requires forall i :: 0 <= i < |ops| ==> ops[i].connection == c
    ensures ChainOk(After(ops).table)
    ensures forall x :: x in After(ops).seen ==> x == c && After(ops).seen[x] == View(After(ops), c)
    ensures After(ops).writer.None? || Holds(After(ops), c)
  {
    if ops != [] {
      var n := |ops| - 1;
      OneConnectionVerifies(ops[..n], c);
      VerifiesAfter(ops[..n]);
      EveryRunIsOk(ops[..n]);
      StepVerifies(After(ops[..n]), ops[n], true);
    }
  }

  lemma {:induction false} TransactionsVerify(ops: seq<Op>)
    requires forall i :: 0 <= i < |ops| && ops[i].Insert? ==> Holds(After(ops[..i]), ops[i].connection)
    ensures ChainOk(After(ops).table)
  {
    forall i | 0 <= i < |ops| && ops[i].Insert?
      ensures !Stale(After(ops[..i]), ops[i])
    {
      TransactionsAreNeverStale(ops[..i], ops[i]);
    }
    VerifiesAfter(ops);
  }

  /**
   If two connections read before either inserts, both records name the same predecessor and the ledger
   no longer verifies.
   */
  lemma {:induction false} OvertakingBreaksTheChain(a: Envelope, b: Envelope)
    requires a != b
    ensures var ops := [ReadHead(1), ReadHead(2), Insert(1, a), Insert(2, b)];
            var table := After(ops).table;
            && |table| == 2 && table[0].body == a && table[1].body == b
            && table[0].previous == table[1].previous == Zero
            && !ChainOk(table)
  {
    var ops := [ReadHead(1), ReadHead(2), Insert(1, a), Insert(2, b)];
    assert ops[..3][..2] == ops[..2] && ops[..2][..1] == ops[..1] && ops[..1][..0] == [];
    var s2 := Shared([], None, map[1 := [], 2 := []]);
    assert After(ops[..1]) == Step(After([]), ReadHead(1)) == Shared([], None, map[1 := []]);
    assert After(ops[..2]) == Step(After(ops[..1]), ReadHead(2)) == s2;
    var first := LinkAfter([], [], a);
    var s3 := Shared([first], None, map[2 := []]);
    assert After(ops[..3]) == Step(s2, Insert(1, a)) == s3;
    assert After(ops) == Step(s3, Insert(2, b));
    assert After(ops).table == [first, LinkAfter([first], [], b)];
    assert !LinkOk(After(ops).table, 1);
  }
}
