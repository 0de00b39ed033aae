/**
 Recovery of an executing decision: exactly when no other operation of the task is pending,
 a later `recover` runs to the end and the decision reports the one receipt of the original
 operation, without a second effect.
 */
module ToolRecovery {
  import opened Prelude
  import opened ControlledTools
  import opened ToolInvariants
  import opened ToolProposal
  import opened HostSteps
  import opened ToolWorkflow
  import opened ToolAuthority
  import E = ExactlyOnce

  /** The active call left to run for `n` transactions, the bridge answering `evidence` throughout. */
  ghost function LeftToRun(w: World, evidence: Option<TerminalEvidence>, n: nat): World
    decreases n
  {
    if n == 0 then w else LeftToRun(Next(w, Advance(evidence)), evidence, n - 1)
  }

  lemma {:induction false} IdleStays(w: World, evidence: Option<TerminalEvidence>, n: nat)
    requires w.active.None?
    ensures LeftToRun(w, evidence, n) == w
  {
    if n > 0 {
      IdleStays(w, evidence, n - 1);
    }
  }

  predicate OtherPending(w: World, id: string) {
    id in w.host.steps && PendingOther(w.db.journal, w.host.steps[id].taskId, id, true)
  }

  /**
   The call has ended with the decision done, reporting the tool's receipt; a receipt already there was
   the last effect.
   */
  predicate Recovered(w: World, id: string) {
    && w.active.None?
    && id in w.decisions && w.decisions[id].state.Done? && w.decisions[id].effect.Some?
    && w.decisions[id].state == Done(w.decisions[id].effect.value.status)
    && Settled(w, id, w.decisions[id].effect.value)
  }

  predicate ToolUntouchedIfKnown(v: World, w: World, id: string) {
    id in v.db.tool.receipts ==> w.db.tool == v.db.tool
  }

  predicate Outcome(v: World, w: World, id: string) {
    Recovered(w, id) && ToolUntouchedIfKnown(v, w, id)
  }

  // ------------------------------------------------------------- the last three transactions

  lemma {:induction false} FinalSucceeds(w: World, evidence: Option<TerminalEvidence>, id: string, row: Decision,
                                         receipt: Receipt)
    requires WorldOk(w) && w.active == Some(FinalWrite(id, row, receipt))
    ensures var v := Next(w, Advance(evidence)); Outcome(w, v, id) && v.db == w.db
  {
    hide StoresOk, BoundOperation;
  }

  lemma {:induction false} ReceiptSucceeds(w: World, evidence: Option<TerminalEvidence>, id: string, row: Decision)
    requires WorldOk(w) && w.active == Some(ReceiptRead(id, row))
    requires id in w.host.steps && w.host.steps[id].effect.Some?
    ensures var v := Next(w, Advance(evidence));
            v.active.Some? && v.active.value.FinalWrite? && v.active.value.id == id && v.db == w.db
  {
    hide StoreOk, E.DatabasesOk, BoundOperation, DecisionOk, Authorized, ReceiptOk;
    var r := w.host.steps[id].effect.value;
    assert Settled(w, id, r);
    ReceiptAgrees(w, id, row);
  }

  lemma {:induction false} ReceiptAgrees(w: World, id: string, row: Decision)
    requires StoresOk(w) && Held(w, id, row) && row.state == Executing
    requires id in w.host.steps && w.host.steps[id].effect.Some?
    ensures ReceiptOf(w, id, row) == w.host.steps[id].effect
  {
    hide StoreOk, E.DatabasesOk, BoundOperation, Authorized, StepOk, Bind;
    var r := w.host.steps[id].effect.value;
    assert Settled(w, id, r);
    assert DecisionOk(w, id);
    StepAt(w.host, id);
    E.IntentAt(w.db, id);
    BoundIsOwn(w.host, id);
    IntentAuthorized(w, id);
  }

  /** With its intent complete and nothing pending, the host can observe the effect. */
  lemma {:induction false} ReconcileSucceeds(w: World, evidence: Option<TerminalEvidence>, id: string, row: Decision)
    requires WorldOk(w) && w.active == Some(ReconcileWrite(id, row))
    requires id in w.db.journal && w.db.journal[id].complete && id in w.host.steps
    requires !HasPending(w.db.journal, w.host.steps[id].taskId)
    ensures var v := Next(w, Advance(evidence));
            && v.active == Some(ReceiptRead(id, row)) && v.db == w.db
            && id in v.host.steps && v.host.steps[id].effect.Some?
  {
    hide StoresOk, CallFits, ReconcileEffect, Settled, StoreAdvances, StoreOk, HasPending;
    ReconcileAccepts(w, id);
    ReconcileIsSettled(w, id);
  }

  lemma {:induction false} ReconcileAccepts(w: World, id: string)
    requires StoresOk(w) && id in w.db.journal && w.db.journal[id].complete && id in w.host.steps
    requires !HasPending(w.db.journal, w.host.steps[id].taskId)
    ensures ReconcileEffect(w.host, w.db.journal, w.db.tool, id).1.Ok?
  {
    hide StoreOk, E.DatabasesOk, BoundOperation, DecisionOk, Settled, HasPending;
    IntentAuthorized(w, id);
    StepAt(w.host, id);
    E.IntentAt(w.db, id);
    E.EffectAt(w.db, id);
  }

  lemma {:induction false} FinishSucceeds(w: World, evidence: Option<TerminalEvidence>, id: string, row: Decision,
                                          n: nat)
    requires WorldOk(w) && w.active == Some(ReconcileWrite(id, row)) && n >= 3
    requires id in w.db.journal && w.db.journal[id].complete && id in w.host.steps
    requires !HasPending(w.db.journal, w.host.steps[id].taskId)
    ensures Outcome(w, LeftToRun(w, evidence, n), id)
  {
    hide WorldOk, Next, Outcome, HasPending;
    ReconcileSucceeds(w, evidence, id, row);
    NextKeeps(w, Advance(evidence));
    var a := Next(w, Advance(evidence));
    ReceiptSucceeds(a, evidence, id, row);
    NextKeeps(a, Advance(evidence));
    var b := Next(a, Advance(evidence));
    FinalSucceeds(b, evidence, id, b.active.value.row, b.active.value.receipt);
    var c := Next(b, Advance(evidence));
    OutcomeFrom(w, b, c, id);
    IdleAfter(w, c, id);
    IdleStays(c, evidence, n - 3);
    assert LeftToRun(w, evidence, n) == LeftToRun(a, evidence, n - 1) == LeftToRun(b, evidence, n - 2)
           == LeftToRun(c, evidence, n - 3);
  }

  lemma {:induction false} OutcomeFrom(u: World, v: World, w: World, id: string)
    requires Outcome(v, w, id) && u.db == v.db
    ensures Outcome(u, w, id)
  {
    hide Settled;
  }

  lemma {:induction false} IdleAfter(v: World, w: World, id: string)
    requires Outcome(v, w, id)
    ensures w.active.None?
  {
    hide Settled;
  }

  // ------------------------------------------------------------- the executor's transactions

  /** The journal cannot refuse an authorized operation while nothing else of its task is pending. */
  lemma {:induction false} PrepareAccepts(w: World, id: string, op: Operation)
    requires StoresOk(w) && id in w.host.steps && BoundOperation(w.host.steps[id]) == Some(op) && !OtherPending(w, id)
    ensures Prepare(w.db.journal, op).1.Ok?
  {
    hide StoreOk, E.DatabasesOk, BoundOperation, DecisionOk, Settled;
    BoundIsOwn(w.host, id);
    if x :| x in w.db.journal && SameIntentKey(x, w.db.journal[x], op) {
      SameKeySameStep(w, id, op, x);
    } else {
      assert id in w.db.journal ==> SameIntentKey(id, w.db.journal[id], op);
    }
  }

  lemma {:induction false} SameKeySameStep(w: World, id: string, op: Operation, x: string)
    requires StoresOk(w) && id in w.host.steps && BoundOperation(w.host.steps[id]) == Some(op)
    requires x in w.db.journal && SameIntentKey(x, w.db.journal[x], op)
    ensures op.operationId in w.db.journal && w.db.journal[op.operationId].payload == op
  {
    hide StoreOk, E.DatabasesOk, BoundOperation, DecisionOk, Settled, InScope;
    BoundIsOwn(w.host, id);
    IntentAuthorized(w, x);
    BoundIsOwn(w.host, x);
    BoundNamesItsStep(w.host, id);
    BoundNamesItsStep(w.host, x);
    StepsAreDistinct(w.host, id, x);
  }

  lemma {:induction false} BoundNamesItsStep(h: Store, id: string)
    requires StoreOk(h) && id in h.steps && BoundOperation(h.steps[id]).Some?
    ensures var op := BoundOperation(h.steps[id]).value;
            op.operationId == id && op.taskId == h.steps[id].taskId && op.stepId == h.steps[id].stepId
  {
    hide StoreOk, BoundOperation;
    BoundIsOwn(h, id);
    StepAt(h, id);
  }

  lemma {:induction false} StepsAreDistinct(h: Store, a: string, b: string)
    requires StoreOk(h) && a in h.steps && b in h.steps
    requires h.steps[a].taskId == h.steps[b].taskId && h.steps[a].stepId == h.steps[b].stepId
    ensures a == b
  {
    hide Consistent, StepRowsOk;
  }

  lemma {:induction false} OthersStayQuiet(d: E.Databases, f: E.Frame, task: string, id: string)
    requires E.DatabasesOk(d) && E.FrameOk(d, f) && (f.Starting? || E.Working(f)) && f.op.operationId == id
    requires !PendingOther(d.journal, task, id, true)
    ensures !PendingOther(E.Step(d, f).0.journal, task, id, true)
  {
    hide E.DatabasesOk, E.Step, E.FrameOk;
    E.StepKeeps(d, f);
    StepAddsOwnIntent(d, f);
    var e := E.Step(d, f).0;
    forall x | x in e.journal && x != id
      ensures !PendingAt(e.journal, task, x)
    {
      assert E.RowGrows(d.journal[x], e.journal[x]) && !PendingAt(d.journal, task, x);
    }
  }

  /** An operation with a receipt does not touch the tool again. */
  lemma {:induction false} KnownToolStays(d: E.Databases, f: E.Frame)
    requires E.DatabasesOk(d) && E.FrameOk(d, f) && (f.Starting? || E.Working(f)) && f.op.operationId in d.tool.receipts
    ensures E.Step(d, f).0.tool == d.tool
  {
    hide E.DatabasesOk, Prepare, RecordReceipt, Complete, LookupReceipt, E.PendingRow;
    if f.Absent? {
      E.EffectAt(d, f.op.operationId);
      E.ApplyAnswers(d, f.op);
      assert SameReceiptKey(f.op.operationId, d.tool.receipts[f.op.operationId], f.op);
    }
  }

  predicate Effecting(w: World, id: string, row: Decision, f: E.Frame) {
    && WorldOk(w) && w.active == Some(Effect(id, row, f))
    && id in w.host.steps && !OtherPending(w, id)
  }

  /** One transaction of the executor leads to the next, or to observing the finished effect. */
  lemma {:induction false} EffectMoves(w: World, evidence: Option<TerminalEvidence>, id: string, row: Decision,
                                       f: E.Frame)
    requires Effecting(w, id, row, f)
    ensures var v := Next(w, Advance(evidence));
            && WorldOk(v) && v.host == w.host && !OtherPending(v, id) && ToolUntouchedIfKnown(w, v, id)
            && (id in w.db.tool.receipts ==> id in v.db.tool.receipts)
            && E.Remaining(f) >= 1
            && if v.active == Some(ReconcileWrite(id, row))
               then id in v.db.journal && v.db.journal[id].complete
               else v.active.Some? && v.active.value.Effect? && v.active == Some(Effect(id, row, v.active.value.frame))
                    && E.Remaining(v.active.value.frame) < E.Remaining(f)
  {
    hide StoresOk, BoundOperation, E.Step, E.FrameOk, PendingOther, Drifts;
    NextKeeps(w, Advance(evidence));
    EffectProgress(w, id, f);
  }

  lemma {:induction false} EffectProgress(w: World, id: string, f: E.Frame)
    requires StoresOk(w) && FrameFits(w, id, f) && !OtherPending(w, id)
    ensures var (e, g) := E.Step(w.db, f);
            && (g.Finished? || E.Working(g)) && !E.Ended(f)
            && E.Remaining(g) < E.Remaining(f)
            && (g.Finished? ==> id in e.journal && e.journal[id].complete)
            && !PendingOther(e.journal, w.host.steps[id].taskId, id, true)
            && (id in w.db.tool.receipts ==> e.tool == w.db.tool)
  {
    hide StoreOk, E.DatabasesOk, BoundOperation, DecisionOk, Authorized, E.Step, PendingOther, Prepare;
    BoundIsOwn(w.host, id);
    E.StepKeeps(w.db, f);
    E.StepProgresses(w.db, f);
    OthersStayQuiet(w.db, f, w.host.steps[id].taskId, id);
    if id in w.db.tool.receipts {
      KnownToolStays(w.db, f);
    }
    if f.Starting? {
      PrepareAccepts(w, id, f.op);
      StartingPrepares(w.db, f.op);
    }
  }

  lemma {:induction false} StartingPrepares(d: E.Databases, op: Operation)
    requires Prepare(d.journal, op).1.Ok?
    ensures E.Step(d, E.Starting(op)).1.Prepared?
  {
    hide Prepare;
  }

  lemma {:induction false} QuietTask(w: World, id: string)
    requires id in w.host.steps && !OtherPending(w, id) && id in w.db.journal && w.db.journal[id].complete
    ensures !HasPending(w.db.journal, w.host.steps[id].taskId)
  {
  }

  lemma {:induction false} EffectSucceeds(w: World, evidence: Option<TerminalEvidence>, id: string, row: Decision,
                                          f: E.Frame, n: nat)
    requires Effecting(w, id, row, f) && n >= E.Remaining(f) + 3
    ensures Outcome(w, LeftToRun(w, evidence, n), id)
    decreases n
  {
    hide WorldOk, Next, Outcome, HasPending, OtherPending;
    EffectMoves(w, evidence, id, row, f);
    var v := Next(w, Advance(evidence));
    if v.active == Some(ReconcileWrite(id, row)) {
      QuietTask(v, id);
      FinishSucceeds(v, evidence, id, row, n - 1);
    } else {
      EffectSucceeds(v, evidence, id, row, v.active.value.frame, n - 1);
    }
    OutcomeThrough(w, v, LeftToRun(v, evidence, n - 1), id);
  }

  lemma {:induction false} OutcomeThrough(u: World, v: World, w: World, id: string)
    requires Outcome(v, w, id) && ToolUntouchedIfKnown(u, v, id)
             && (id in u.db.tool.receipts ==> id in v.db.tool.receipts)
    ensures Outcome(u, w, id)
  {
    hide Settled;
  }

  // ------------------------------------------------------------- from the start of `recover`

  /** What the bridge verified when the terminal was recorded. */
  predicate SameEvidence(w: World, id: string, evidence: Option<TerminalEvidence>) {
    id in w.host.steps && evidence.Some? && Some(evidence.value.terminal) == w.host.steps[id].terminal
  }

  lemma {:induction false} CheckPasses(w: World, id: string, evidence: Option<TerminalEvidence>)
    requires StoresOk(w) && id in w.decisions && SameEvidence(w, id, evidence)
    ensures Checked(w, id, w.decisions[id], evidence)
  {
    hide StoreOk, E.DatabasesOk, Authorized, MaterialFor, ProofOf, StepRowOk, BoundOperation, Settled;
    DecisionAt(w, id);
    StepAt(w.host, id);
    RequestBound(w.host.steps[id]);
  }

  lemma {:induction false} RequestBound(row: Row)
    requires StepRowOk(row) && row.terminal.Some?
    ensures Binding(row).Ok?
  {
    hide BoundOperation, StepOk, BoundProposalOf, ReceiptOk;
  }

  lemma {:induction false} ExecutingIsBound(w: World, id: string)
    requires StoresOk(w) && id in w.decisions && w.decisions[id].state == Executing
    ensures IsAccepted(w.decisions[id]) && id in w.host.steps && BoundOperation(w.host.steps[id]).Some?
  {
    hide StoreOk, E.DatabasesOk, Authorized, ProofStands, Settled, Bind;
    DecisionAt(w, id);
  }

  /**
   The reads between taking the lock and the executor: they change nothing and reach it unless
   something else is pending.
   */
  lemma {:induction false} RecoverReaches(w: World, id: string, evidence: Option<TerminalEvidence>)
    requires WorldOk(w) && w.active.None? && id in w.decisions && w.decisions[id].state == Executing
             && SameEvidence(w, id, evidence)
    ensures var v := LeftToRun(Next(w, Recover(id)), evidence, 4);
            v == if OtherPending(w, id) then w else At(w, OperationRead(id, w.decisions[id]))
  {
    hide StoresOk, Checked, PendingOther;
    var row := w.decisions[id];
    CheckPasses(w, id, evidence);
    var a := Next(w, Recover(id));
    assert a == At(w, RecoverRead(id));
    var b := Next(a, Advance(evidence));
    assert b == At(w, RecoverCheck(id, row));
    CheckIgnoresActive(w, b, id, row, evidence);
    var c := Next(b, Advance(evidence));
    assert c == At(w, ExecuteCheck(id, row));
    CheckIgnoresActive(w, c, id, row, evidence);
    var d := Next(c, Advance(evidence));
    assert d == At(w, ExecutePending(id, row));
    var e := Next(d, Advance(evidence));
    assert e == if OtherPending(w, id) then w else At(w, OperationRead(id, row));
    assert LeftToRun(a, evidence, 4) == LeftToRun(b, evidence, 3) == LeftToRun(c, evidence, 2)
           == LeftToRun(d, evidence, 1) == LeftToRun(e, evidence, 0);
  }

  lemma {:induction false} CheckIgnoresActive(v: World, w: World, id: string, row: Decision,
                                              evidence: Option<TerminalEvidence>)
    requires v.host == w.host && v.ledger == w.ledger
    ensures Checked(v, id, row, evidence) <==> Checked(w, id, row, evidence)
  {
    hide MaterialOf, ProofOf;
  }

  lemma {:induction false} RunSplits(w: World, evidence: Option<TerminalEvidence>, m: nat, n: nat)
    ensures LeftToRun(w, evidence, m + n) == LeftToRun(LeftToRun(w, evidence, m), evidence, n)
    decreases m
  {
    hide Next;
    if m > 0 {
      RunSplits(Next(w, Advance(evidence)), evidence, m - 1, n);
    }
  }

  /**
   Another operation of the task can be pending beside an executing decision only once that
   decision's own effect is settled in the tool, the journal and the host: a task has one
   unfinished host step, and the other operation's is unfinished.
   */
  lemma {:induction false} BlockedIsSettled(w: World, id: string)
    requires StoresOk(w) && id in w.decisions && w.decisions[id].state == Executing && OtherPending(w, id)
    ensures id in w.host.steps && w.host.steps[id].effect.Some? && Settled(w, id, w.host.steps[id].effect.value)
  {
    hide E.DatabasesOk, BoundOperation, Authorized, DecisionOk, Settled, StoreOk, InScope;
    var x :| x in w.db.journal && PendingAt(w.db.journal, w.host.steps[id].taskId, x) && x != id;
    ExecutingIsBound(w, id);
    IntentOfItsTask(w, x);
    if w.host.steps[id].effect.None? {
      UnfinishedIsActive(w, id);
      UnfinishedIsActive(w, x);
      OneActiveStep(w.host, id, x);
    }
  }

  /** A pending intent belongs to a step of its own task that has no effect yet. */
  lemma {:induction false} IntentOfItsTask(w: World, x: string)
    requires StoresOk(w) && x in w.db.journal && !w.db.journal[x].complete
    ensures x in w.host.steps && w.host.steps[x].taskId == w.db.journal[x].payload.taskId
    ensures w.host.steps[x].effect.None? && BoundOperation(w.host.steps[x]).Some?
  {
    hide StoreOk, E.DatabasesOk, BoundOperation, DecisionOk, Settled, InScope;
    IntentAuthorized(w, x);
    BoundIsOwn(w.host, x);
    if w.host.steps[x].effect.Some? {
      EffectIsComplete(w, x);
    }
  }

  lemma {:induction false} EffectIsComplete(w: World, x: string)
    requires StoresOk(w) && x in w.host.steps && w.host.steps[x].effect.Some?
    ensures x in w.db.journal && w.db.journal[x].complete
  {
    hide StoreOk, E.DatabasesOk, BoundOperation, DecisionOk, Authorized;
    assert Settled(w, x, w.host.steps[x].effect.value);
  }

  /** A bound step without an effect is still proposed. */
  lemma {:induction false} UnfinishedIsActive(w: World, x: string)
    requires StoresOk(w) && x in w.host.steps && w.host.steps[x].effect.None? && BoundOperation(w.host.steps[x]).Some?
    ensures w.host.steps[x].state == Proposed
  {
    hide StoreOk, E.DatabasesOk, DecisionOk, Authorized, Settled, Bind, StepOk, ReceiptOk;
    StepAt(w.host, x);
  }

  lemma {:induction false} OneActiveStep(h: Store, a: string, b: string)
    requires StoreOk(h) && a in h.steps && b in h.steps && h.steps[a].taskId == h.steps[b].taskId
    requires h.steps[a].state == Proposed && h.steps[b].state == Proposed
    ensures a == b
  {
    hide Consistent, StepRowsOk;
  }

  /**
   Over every reachable state in which a decision is executing and no call holds the lock:
   `recover` finishes it with the tool's own receipt exactly when no other operation of the
   task is pending. Otherwise it changes nothing, and the tool, the journal and the host
   already hold the effect, so that only the decision is behind. If the tool already held a
   receipt, the tool is not touched.
   */
  lemma {:induction false} RecoveryReturnsTheOriginal(actions: seq<Action>, id: string,
                                                      evidence: Option<TerminalEvidence>)
    requires ActionsOk(actions)
    requires var w := Run(actions);
             w.active.None? && id in w.decisions && w.decisions[id].state == Executing && SameEvidence(w, id, evidence)
    ensures var w := Run(actions);
            var v := LeftToRun(Next(w, Recover(id)), evidence, 13);
            && (OtherPending(w, id) ==>
                  v == w && w.host.steps[id].effect.Some? && Settled(w, id, w.host.steps[id].effect.value))
            && (!OtherPending(w, id) ==> Outcome(w, v, id))
  {
    hide StoresOk, Next, Outcome, OtherPending, SameEvidence;
    var w := Run(actions);
    EveryRunIsOk(actions);
    RecoverReaches(w, id, evidence);
    RunSplits(Next(w, Recover(id)), evidence, 4, 9);
    if OtherPending(w, id) {
      IdleStays(w, evidence, 9);
      BlockedIsSettled(w, id);
    } else {
      OperationStarts(w, id, evidence);
    }
  }

  lemma {:induction false} OperationStarts(w: World, id: string, evidence: Option<TerminalEvidence>)
    requires WorldOk(w) && id in w.decisions && w.decisions[id].state == Executing && !OtherPending(w, id)
    ensures Outcome(w, LeftToRun(At(w, OperationRead(id, w.decisions[id])), evidence, 9), id)
  {
    hide StoresOk, BoundOperation, Outcome, PendingOther;
    var row := w.decisions[id];
    ExecutingIsBound(w, id);
    var a := At(w, OperationRead(id, row));
    StoresIgnoreActive(w, a.active);
    NextKeeps(a, Advance(evidence));
    var b := Next(a, Advance(evidence));
    var op := BoundOperation(w.host.steps[id]).value;
    assert b == At(w, Effect(id, row, E.Starting(op)));
    EffectSucceeds(b, evidence, id, row, E.Starting(op), 8);
    OutcomeFrom(w, b, LeftToRun(b, evidence, 8), id);
  }
}
