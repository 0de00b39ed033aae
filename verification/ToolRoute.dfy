/**
 The tool route as the program runs it: one object over the host's steps, an executor,
 the decisions and the controller's ledger. Each method, left to run to its end, leaves
 the five stores as its call does in the interleaved model.
 */
module ToolRoute {
  import opened Prelude
  import opened ControlledTools
  import opened ToolProposal
  import opened HostSteps
  import opened ToolWorkflow
  import opened ToolRecovery
  import E = ExactlyOnce
  import X = Executors

  /** The call leads from one state of the stores to another. */
  ghost predicate Leads(w: World, evidence: Option<TerminalEvidence>, v: World) {
    exists n: nat :: LeftToRun(w, evidence, n) == v
  }

  lemma {:induction false} StandingLeads(w: World, evidence: Option<TerminalEvidence>)
    ensures Leads(w, evidence, w)
  {
    assert LeftToRun(w, evidence, 0) == w;
  }

  lemma {:induction false} LeadsOn(u: World, evidence: Option<TerminalEvidence>, v: World, w: World)
    requires Leads(u, evidence, v) && Leads(v, evidence, w)
    ensures Leads(u, evidence, w)
  {
    var m: nat :| LeftToRun(u, evidence, m) == v;
    var n: nat :| LeftToRun(v, evidence, n) == w;
    RunSplits(u, evidence, m, n);
  }

  lemma {:induction false} OneStepLeads(w: World, c: Call, evidence: Option<TerminalEvidence>)
    requires w.active == Some(c)
    ensures Leads(w, evidence, CallStep(w, c, evidence))
  {
    hide CallStep;
    assert Next(w, Advance(evidence)) == CallStep(w, c, evidence);
    assert LeftToRun(w, evidence, 1) == LeftToRun(Next(w, Advance(evidence)), evidence, 0);
  }

  /** One more transaction at the front. */
  lemma {:induction false} StepThenLeads(w: World, c: Call, evidence: Option<TerminalEvidence>, v: World)
    requires w.active == Some(c) && Leads(CallStep(w, c, evidence), evidence, v)
    ensures Leads(w, evidence, v)
  {
    hide CallStep, Leads;
    OneStepLeads(w, c, evidence);
    LeadsOn(w, evidence, CallStep(w, c, evidence), v);
  }

  /** The executor's transactions, taken as a whole. */
  lemma {:induction false} EffectFollowsExecutor(w: World, id: string, row: Decision, f: E.Frame,
                                                 evidence: Option<TerminalEvidence>, n: nat)
    requires w.active == Some(Effect(id, row, f)) && !E.Ended(f) && n >= E.Remaining(f)
    ensures var (d, g) := E.Solo(w.db, f, n);
            && E.Ended(g)
            && Leads(w, evidence,
                     World(w.host, d, w.decisions, w.ledger, if g.Finished? then Some(ReconcileWrite(id, row))
                           else None))
    decreases n
  {
    hide Leads, E.Step, Prepare, ApplyOp, RecordReceipt, Complete;
    var (d, g) := E.Step(w.db, f);
    StepShrinks(w.db, f);
    var v := CallStep(w, Effect(id, row, f), evidence);
    var last := E.Solo(w.db, f, n);
    assert last == E.Solo(d, g, n - 1);
    if E.Ended(g) {
      X.EndedStays(d, g, n - 1);
      StandingLeads(v, evidence);
    } else {
      EffectFollowsExecutor(v, id, row, g, evidence, n - 1);
    }
    StepThenLeads(w, Effect(id, row, f), evidence,
                  World(w.host, last.0, w.decisions, w.ledger, if last.1.Finished? then Some(ReconcileWrite(id, row))
                        else None));
  }

  lemma {:induction false} StepShrinks(d: E.Databases, f: E.Frame)
    requires !E.Ended(f)
    ensures E.Remaining(E.Step(d, f).1) < E.Remaining(f)
  {
    hide Prepare, ApplyOp, RecordReceipt, Complete, E.PendingRow;
  }

  class Route {
    const host: HostStepStore
    const executor: X.Executor
    var decisions: map<string, Decision>
    var ledger: seq<RouteRecord>

    constructor (host: HostStepStore, executor: X.Executor)
      ensures this.host == host && this.executor == executor && decisions == map[] && ledger == []
    {
      this.host, this.executor := host, executor;
      decisions, ledger := map[], [];
    }

    predicate Valid()
      reads this, host, executor, executor.journal, executor.tool
    {
      && executor.journal == host.journal && executor.tool == host.tool
      && executor.Valid() && Consistent(host.Contents())
    }

    /** The stores, with a call at this point. */
    function State(active: Option<Call>): World
      reads this, host, executor, executor.journal, executor.tool
    {
      World(host.Contents(), executor.Contents(), decisions, ledger, active)
    }

    /** A done decision that `execute` refuses to report, because something of its task is pending. */
    predicate DoneButBlocked(id: string)
      reads this, host, executor, executor.journal, executor.tool
    {
      id in decisions && decisions[id].state.Done? && BlockedByPending(State(None), id, false)
    }

    /** `_snapshot`, checks and all. */
    method Show(id: string, evidence: Option<TerminalEvidence>) returns (shown: Option<Report>)
      ensures shown == ReportOf(State(None), id, evidence)
    {
      hide Checked, ReceiptOf, BlockedByPending, HasEffect;
      if id !in decisions || decisions[id].state == Deciding || decisions[id].state == Executing {
        return None;
      }
      var row := decisions[id];
      if !Checked(State(None), id, row, evidence) {
        return None;
      }
      var admitted := if row.proof.Some? then Some(row.proof.value.accepted) else None;
      if !row.state.Done? {
        if BlockedByPending(State(None), id, false) || HasEffect(State(None), id) {
          return None;
        }
        return Some(Report(row.state, admitted, false, None));
      }
      var receipt := ReceiptOf(State(None), id, row);
      if receipt.None? || receipt.value.status != row.state.status {
        return None;
      }
      return Some(Report(row.state, admitted, receipt.value.status == StatusApplied, Some(receipt.value.code)));
    }

    /** A call that raised reports nothing; there is then nothing to report. */
    method ShowIf(finished: bool, id: string, evidence: Option<TerminalEvidence>) returns (shown: Option<Report>)
      requires finished || ReportOf(State(None), id, evidence).None?
      ensures shown == ReportOf(State(None), id, evidence)
    {
      hide ReportOf;
      shown := None;
      if finished {
        shown := Show(id, evidence);
      }
    }

    /** `_receipt`, then the final write. */
    method Conclude(id: string, row: Decision, evidence: Option<TerminalEvidence>) returns (finished: bool)
      requires Valid()
      modifies this`decisions
      ensures Valid()
      ensures Leads(old(State(Some(ReceiptRead(id, row)))), evidence, State(None))
      ensures !finished ==> decisions == old(decisions)
    {
      ghost var w := State(Some(ReceiptRead(id, row)));
      hide ReceiptOf, Leads, Consistent;
      var receipt := ReceiptOf(State(None), id, row);
      ReceiptIgnoresActive(w, State(None), id, row);
      finished := receipt.Some?;
      if finished {
        ghost var v := State(Some(FinalWrite(id, row, receipt.value)));
        decisions := decisions[id := row.(state := Done(receipt.value.status), effect := receipt)];
        OneStepLeads(v, FinalWrite(id, row, receipt.value), evidence);
        StepThenLeads(w, ReceiptRead(id, row), evidence, State(None));
      } else {
        OneStepLeads(w, ReceiptRead(id, row), evidence);
      }
    }

    /** `reconcile_effect`, then the receipt. */
    method Observe(id: string, row: Decision, evidence: Option<TerminalEvidence>) returns (finished: bool)
      requires Valid()
      modifies this`decisions, host`steps, host`events
      ensures Valid()
      ensures Leads(old(State(Some(ReconcileWrite(id, row)))), evidence, State(None))
      ensures !finished ==> decisions == old(decisions)
    {
      hide Leads, ReconcileEffect, Consistent;
      ghost var y := State(Some(ReconcileWrite(id, row)));
      ReconcileStaysConsistent(host.Contents(), host.journal.intents, host.tool.State(), id);
      var observed := host.Reconcile(id);
      OneStepLeads(y, ReconcileWrite(id, row), evidence);
      if observed.Err? {
        return false;
      }
      ghost var z := State(Some(ReceiptRead(id, row)));
      finished := Conclude(id, row, evidence);
      LeadsOn(y, evidence, z, State(None));
    }

    /** `_execute` once the decision is executing: the executor, the host's observation, the receipt. */
    method PerformEffect(id: string, row: Decision, evidence: Option<TerminalEvidence>) returns (finished: bool)
      requires Valid()
      modifies this`decisions, host`steps, host`events, executor.journal, executor.tool
      ensures Valid()
      ensures Leads(old(State(Some(OperationRead(id, row)))), evidence, State(None))
      ensures !finished ==> decisions == old(decisions)
    {
      hide Leads, BoundOperation, Consistent, E.Solo;
      ghost var w := State(Some(OperationRead(id, row)));
      OneStepLeads(w, OperationRead(id, row), evidence);
      if row.proof.None? || !row.proof.value.accepted || row.material.Unavailable? || row.material.abstained
         || id !in host.steps || BoundOperation(host.steps[id]).None? {
        return false;
      }
      var op := BoundOperation(host.steps[id]).value;
      BoundIsValid(host.steps[id]);
      ghost var x := State(Some(Effect(id, row, E.Starting(op))));
      assert CallStep(w, OperationRead(id, row), evidence) == x;
      var reached := RunExecutor(id, row, op, evidence);
      hide CallStep;
      if !reached {
        LeadsOn(w, evidence, x, State(None));
        return false;
      }
      ghost var y := State(Some(ReconcileWrite(id, row)));
      LeadsOn(w, evidence, x, y);
      finished := Observe(id, row, evidence);
      LeadsOn(w, evidence, y, State(None));
    }

    method RunExecutor(id: string, row: Decision, op: Operation, evidence: Option<TerminalEvidence>)
        returns (finished: bool)
      requires Valid() && OperationOk(op)
      modifies executor.journal, executor.tool
      ensures Valid() && host.Contents() == old(host.Contents())
      ensures Leads(old(State(Some(Effect(id, row, E.Starting(op))))), evidence,
                    State(if finished then Some(ReconcileWrite(id, row)) else None))
    {
      hide Leads, E.Solo, Consistent;
      ghost var x := State(Some(Effect(id, row, E.Starting(op))));
      var reached := executor.Execute(op, 5);
      EffectFollowsExecutor(x, id, row, E.Starting(op), evidence, 5);
      return reached.Finished?;
    }

    /** The reads before the effect: the checks, and the write that makes the decision executing. */
    method CarryOut(id: string, row: Decision, evidence: Option<TerminalEvidence>) returns (finished: bool)
      requires Valid() && id in decisions && decisions[id] == row && row.state != Deciding
      modifies this`decisions, host`steps, host`events, executor.journal, executor.tool
      ensures Valid()
      ensures Leads(old(State(Some(ExecuteCheck(id, row)))), evidence, State(None))
      ensures finished ==> !(row.state.Done? && old(BlockedByPending(State(None), id, false)))
      ensures !finished ==>
              ReportOf(State(None), id, evidence).None?
                || (row.state.Done? && old(BlockedByPending(State(None), id, false)))
    {
      hide Leads, Consistent, Checked, BlockedByPending, HasEffect, ReportOf;
      ShownMeans(State(None), id, evidence);
      ghost var w := State(Some(ExecuteCheck(id, row)));
      OneStepLeads(w, ExecuteCheck(id, row), evidence);
      ChecksIgnoreActive(w, State(None), id, row, evidence);
      if !Checked(State(None), id, row, evidence) {
        return false;
      }
      ghost var x := State(Some(ExecutePending(id, row)));
      ChecksIgnoreActive(x, State(None), id, row, evidence);
      OneStepLeads(x, ExecutePending(id, row), evidence);
      if BlockedByPending(State(None), id, row.state == Executing) {
        LeadsOn(w, evidence, x, State(None));
        return false;
      }
      if row.state != Accepted && row.state != Executing {
        LeadsOn(w, evidence, x, State(None));
        return true;
      }
      if row.state == Executing {
        ghost var y := State(Some(OperationRead(id, row)));
        LeadsOn(w, evidence, x, y);
        finished := PerformEffect(id, row, evidence);
        ShownMeans(State(None), id, evidence);
        LeadsOn(w, evidence, y, State(None));
        return;
      }
      ghost var y := State(Some(ExecuteNoEffect(id, row)));
      LeadsOn(w, evidence, x, y);
      finished := StartExecuting(id, row, evidence);
      LeadsOn(w, evidence, y, State(None));
    }

    method StartExecuting(id: string, row: Decision, evidence: Option<TerminalEvidence>) returns (finished: bool)
      requires Valid() && id in decisions && decisions[id] == row && row.state == Accepted
      modifies this`decisions, host`steps, host`events, executor.journal, executor.tool
      ensures Valid()
      ensures Leads(old(State(Some(ExecuteNoEffect(id, row)))), evidence, State(None))
      ensures !finished ==> ReportOf(State(None), id, evidence).None?
    {
      hide Leads, Consistent, ReportOf, HasEffect;
      ShownMeans(State(None), id, evidence);
      ghost var y := State(Some(ExecuteNoEffect(id, row)));
      BlocksIgnoreActive(y, State(None), id);
      OneStepLeads(y, ExecuteNoEffect(id, row), evidence);
      if HasEffect(State(None), id) {
        return false;
      }
      ghost var z := State(Some(ExecutingWrite(id, row)));
      var executing := row.(state := Executing);
      OneStepLeads(z, ExecutingWrite(id, row), evidence);
      decisions := decisions[id := executing];
      ghost var v := State(Some(OperationRead(id, executing)));
      LeadsOn(y, evidence, z, v);
      finished := PerformEffect(id, executing, evidence);
      ShownMeans(State(None), id, evidence);
      LeadsOn(y, evidence, v, State(None));
    }

    /** `execute`. */
    method Execute(id: string, evidence: Option<TerminalEvidence>) returns (shown: Option<Report>)
      requires Valid()
      modifies this`decisions, host`steps, host`events, executor.journal, executor.tool
      ensures Valid()
      ensures Leads(old(State(Some(ExecuteRead(id)))), evidence, State(None))
      ensures shown == if old(DoneButBlocked(id)) then None else ReportOf(State(None), id, evidence)
    {
      hide Leads, Consistent, ReportOf, BlockedByPending;
      ShownMeans(State(None), id, evidence);
      ghost var w := State(Some(ExecuteRead(id)));
      OneStepLeads(w, ExecuteRead(id), evidence);
      if id !in decisions || decisions[id].state == Deciding {
        return None;
      }
      var row := decisions[id];
      ghost var x := State(Some(ExecuteCheck(id, row)));
      var finished := CarryOut(id, row, evidence);
      LeadsOn(w, evidence, x, State(None));
      if !finished {
        return None;
      }
      shown := Show(id, evidence);
    }

    /** `_proof`, then `_commit_decision`. */
    method Settle(id: string, row: Decision, evidence: Option<TerminalEvidence>) returns (finished: bool)
      requires Valid() && row.material.Offered?
      modifies this`decisions
      ensures Valid()
      ensures Leads(old(State(Some(ProofRead(id, row)))), evidence, State(None))
      ensures !finished ==> decisions == old(decisions)
    {
      hide Leads, Consistent, ProofOf;
      ghost var w := State(Some(ProofRead(id, row)));
      OneStepLeads(w, ProofRead(id, row), evidence);
      var proof := ProofOf(ledger, row.material);
      if proof.None? {
        return false;
      }
      ghost var x := State(Some(CommitWrite(id, row, proof.value)));
      OneStepLeads(x, CommitWrite(id, row, proof.value), evidence);
      decisions := decisions[id := Committed(row, proof.value)];
      LeadsOn(w, evidence, x, State(None));
      return true;
    }

    method Close(id: string, row: Decision, evidence: Option<TerminalEvidence>)
      requires Valid() && row.material.Unavailable?
      modifies this`decisions
      ensures Valid()
      ensures Leads(old(State(Some(CloseWrite(id, row)))), evidence, State(None))
    {
      hide Leads, Consistent;
      OneStepLeads(State(Some(CloseWrite(id, row))), CloseWrite(id, row), evidence);
      decisions := decisions[id := row.(state := Closed(row.material.state))];
    }

    /** `recover`. */
    method Recover(id: string, evidence: Option<TerminalEvidence>) returns (shown: Option<Report>)
      requires Valid()
      modifies this`decisions, host`steps, host`events, executor.journal, executor.tool
      ensures Valid()
      ensures Leads(old(State(Some(RecoverRead(id)))), evidence, State(None))
      ensures shown == ReportOf(State(None), id, evidence)
    {
      hide Leads, Consistent, Checked, ReportOf, BlockedByPending;
      ShownMeans(State(None), id, evidence);
      ghost var w := State(Some(RecoverRead(id)));
      OneStepLeads(w, RecoverRead(id), evidence);
      if id !in decisions {
        return None;
      }
      var row := decisions[id];
      ghost var x := State(Some(RecoverCheck(id, row)));
      ChecksIgnoreActive(x, State(None), id, row, evidence);
      OneStepLeads(x, RecoverCheck(id, row), evidence);
      if !Checked(State(None), id, row, evidence) {
        LeadsOn(w, evidence, x, State(None));
        return None;
      }
      if row.state != Deciding && row.state != Executing {
        LeadsOn(w, evidence, x, State(None));
        shown := Show(id, evidence);
        return;
      }
      if row.state == Executing {
        ghost var y := State(Some(ExecuteCheck(id, row)));
        LeadsOn(w, evidence, x, y);
        var finished := CarryOut(id, row, evidence);
        LeadsOn(w, evidence, y, State(None));
        shown := ShowIf(finished, id, evidence);
        return;
      }
      ghost var y := State(Some(RecoverPending(id, row)));
      LeadsOn(w, evidence, x, y);
      var finished := FinishDeciding(id, row, evidence);
      LeadsOn(w, evidence, y, State(None));
      ShownMeans(State(None), id, evidence);
      shown := ShowIf(finished, id, evidence);
    }

    method FinishDeciding(id: string, row: Decision, evidence: Option<TerminalEvidence>) returns (finished: bool)
      requires Valid()
      modifies this`decisions
      ensures Valid()
      ensures Leads(old(State(Some(RecoverPending(id, row)))), evidence, State(None))
      ensures !finished ==> decisions == old(decisions)
    {
      hide Leads, Consistent, BlockedByPending, HasEffect;
      ghost var w := State(Some(RecoverPending(id, row)));
      ChecksIgnoreActive(w, State(None), id, row, evidence);
      OneStepLeads(w, RecoverPending(id, row), evidence);
      if BlockedByPending(State(None), id, false) {
        return false;
      }
      ghost var x := State(Some(RecoverNoEffect(id, row)));
      ChecksIgnoreActive(x, State(None), id, row, evidence);
      OneStepLeads(x, RecoverNoEffect(id, row), evidence);
      if HasEffect(State(None), id) {
        LeadsOn(w, evidence, x, State(None));
        return false;
      }
      ghost var y := State(Some(if row.material.Unavailable? then CloseWrite(id, row) else ProofRead(id, row)));
      LeadsOn(w, evidence, x, y);
      if row.material.Unavailable? {
        Close(id, row, evidence);
        finished := true;
      } else {
        finished := Settle(id, row, evidence);
      }
      LeadsOn(w, evidence, y, State(None));
    }

    /** The controller's run on the material, four records long, and the proof of it. */
    method RunController(id: string, row: Decision, evidence: Option<TerminalEvidence>) returns (finished: bool)
      requires Valid() && row.material.Offered?
      modifies this`decisions, this`ledger
      ensures Valid()
      ensures Leads(old(State(Some(ControllerRun(id, row, |ledger|, 0)))), evidence, State(None))
      ensures !finished ==> decisions == old(decisions)
    {
      hide Leads, Consistent, MaterialOf, ControllerEvent;
      var run := |ledger|;
      ghost var w := State(Some(ControllerRun(id, row, run, 0)));
      StandingLeads(w, evidence);
      for written := 0 to 4
        invariant Valid() && decisions == old(decisions) && host.Contents() == old(host.Contents())
        invariant executor.Contents() == old(executor.Contents())
        invariant Leads(w, evidence,
                        State(Some(if written < 4 then ControllerRun(id, row, run, written) else ProofRead(id, row))))
      {
        ghost var x := State(Some(ControllerRun(id, row, run, written)));
        OneStepLeads(x, ControllerRun(id, row, run, written), evidence);
        if written == 1 && MaterialOf(host.Contents(), id, evidence) != Some(row.material) {
          LeadsOn(w, evidence, x, State(None));
          return false;
        }
        ledger := ledger + [RouteRecord(run, ControllerEvent(row.material, written))];
        LeadsOn(w, evidence, x,
                State(Some(if written < 3 then ControllerRun(id, row, run, written + 1) else ProofRead(id, row))));
      }
      ghost var y := State(Some(ProofRead(id, row)));
      finished := Settle(id, row, evidence);
      LeadsOn(w, evidence, y, State(None));
    }

    /** The new decision on verified material, through to its close or its proof. */
    method DecideOn(id: string, evidence: Option<TerminalEvidence>) returns (finished: bool)
      requires Valid() && id !in decisions
      modifies this`decisions, this`ledger
      ensures Valid()
      ensures Leads(old(State(Some(MaterialRead(id)))), evidence, State(None))
      ensures !finished ==> id !in decisions || decisions[id].state == Deciding
    {
      hide Leads, Consistent, MaterialOf;
      ghost var w := State(Some(MaterialRead(id)));
      OneStepLeads(w, MaterialRead(id), evidence);
      var material := MaterialOf(host.Contents(), id, evidence);
      if material.None? {
        return false;
      }
      ghost var x := State(Some(DecisionWrite(id, material.value)));
      OneStepLeads(x, DecisionWrite(id, material.value), evidence);
      var row := Decision(Deciding, material.value, None, None);
      decisions := decisions[id := row];
      ghost var y := State(Some(if row.material.Unavailable? then CloseWrite(id, row)
                                else ControllerRun(id, row, |ledger|, 0)));
      LeadsOn(w, evidence, x, y);
      if row.material.Unavailable? {
        Close(id, row, evidence);
        finished := true;
      } else {
        finished := RunController(id, row, evidence);
      }
      LeadsOn(w, evidence, y, State(None));
    }

    /** `record_terminal`, then the decision. */
    method TakeTerminal(id: string, evidence: Option<TerminalEvidence>) returns (finished: bool)
      requires Valid() && id !in decisions
      modifies this`decisions, this`ledger, host`steps, host`events
      ensures Valid()
      ensures Leads(old(State(Some(TerminalRead(id)))), evidence, State(None))
      ensures !finished ==> id !in decisions || decisions[id].state == Deciding
    {
      hide Leads, Consistent, StoreTerminal;
      ghost var w := State(Some(TerminalRead(id)));
      OneStepLeads(w, TerminalRead(id), evidence);
      if id !in host.steps || host.steps[id].state == Allocated {
        return false;
      }
      if host.steps[id].state == Requesting {
        var seen := host.steps[id];
        ghost var x := State(Some(TerminalStore(id, seen, evidence)));
        OneStepLeads(x, TerminalStore(id, seen, evidence), evidence);
        TerminalStaysConsistent(host.Contents(), host.journal.intents, seen, evidence);
        var stored := host.FillIn(seen, evidence);
        LeadsOn(w, evidence, x, State(if stored.Ok? then Some(MaterialRead(id)) else None));
        if stored.Err? {
          return false;
        }
      }
      ghost var y := State(Some(MaterialRead(id)));
      finished := DecideOn(id, evidence);
      LeadsOn(w, evidence, y, State(None));
    }

    /** `decide`. */
    method Decide(id: string, evidence: Option<TerminalEvidence>) returns (shown: Option<Report>)
      requires Valid()
      modifies this`decisions, this`ledger, host`steps, host`events
      ensures Valid()
      ensures Leads(old(State(Some(DecideRead(id)))), evidence, State(None))
      ensures shown == ReportOf(State(None), id, evidence)
    {
      hide Leads, Consistent, BlockedByPending, HasEffect, ReportOf;
      ShownMeans(State(None), id, evidence);
      ghost var w := State(Some(DecideRead(id)));
      OneStepLeads(w, DecideRead(id), evidence);
      if id in decisions {
        shown := Show(id, evidence);
        return;
      }
      ghost var x := State(Some(DecidePending(id)));
      BlocksIgnoreActive(x, State(None), id);
      OneStepLeads(x, DecidePending(id), evidence);
      if BlockedByPending(State(None), id, false) {
        LeadsOn(w, evidence, x, State(None));
        return None;
      }
      ghost var y := State(Some(DecideNoEffect(id)));
      LeadsOn(w, evidence, x, y);
      BlocksIgnoreActive(y, State(None), id);
      OneStepLeads(y, DecideNoEffect(id), evidence);
      if HasEffect(State(None), id) {
        LeadsOn(w, evidence, y, State(None));
        return None;
      }
      ghost var z := State(Some(TerminalRead(id)));
      LeadsOn(w, evidence, y, z);
      var finished := TakeTerminal(id, evidence);
      LeadsOn(w, evidence, z, State(None));
      ShownMeans(State(None), id, evidence);
      shown := ShowIf(finished, id, evidence);
    }
  }

  /** When there is certainly nothing to report. */
  lemma {:induction false} ShownMeans(w: World, id: string, evidence: Option<TerminalEvidence>)
    ensures id !in w.decisions || w.decisions[id].state in {Deciding, Executing} ==> ReportOf(w, id, evidence).None?
    ensures id in w.decisions && !Checked(w, id, w.decisions[id], evidence) ==> ReportOf(w, id, evidence).None?
    ensures id in w.decisions && !w.decisions[id].state.Done?
            && (BlockedByPending(w, id, false) || HasEffect(w, id)) ==>
              ReportOf(w, id, evidence).None?
  {
    hide Checked, ReceiptOf, BlockedByPending, HasEffect;
  }

  lemma {:induction false} BlocksIgnoreActive(v: World, w: World, id: string)
    requires v.host == w.host && v.db == w.db
    ensures forall own :: BlockedByPending(v, id, own) <==> BlockedByPending(w, id, own)
    ensures HasEffect(v, id) <==> HasEffect(w, id)
  {
    hide PendingOther;
  }

  lemma {:induction false} ChecksIgnoreActive(v: World, w: World, id: string, row: Decision,
                                              evidence: Option<TerminalEvidence>)
    requires v.host == w.host && v.db == w.db && v.ledger == w.ledger
    ensures Checked(v, id, row, evidence) <==> Checked(w, id, row, evidence)
    ensures forall own :: BlockedByPending(v, id, own) <==> BlockedByPending(w, id, own)
    ensures HasEffect(v, id) <==> HasEffect(w, id)
  {
    hide MaterialOf, ProofOf, PendingOther;
  }

  lemma {:induction false} ReceiptIgnoresActive(v: World, w: World, id: string, row: Decision)
    requires v.host == w.host && v.db == w.db
    ensures ReceiptOf(v, id, row) == ReceiptOf(w, id, row)
  {
  }

  lemma {:induction false} BoundIsValid(row: Row)
    requires BoundOperation(row).Some?
    ensures OperationOk(BoundOperation(row).value)
  {
    BoundStaysInScope(row.proposal.value, row.payload);
  }

  lemma {:induction false} ReconcileStaysConsistent(h: Store, j: JournalState, t: ToolState, id: string)
    requires Consistent(h)
    ensures Consistent(ReconcileEffect(h, j, t, id).0)
  {
    var (g, _) := ReconcileEffect(h, j, t, id);
    if g != h {
      ColumnsMatch(h, id);
      AuditedIsConsistent(h, g.steps[id]);
    }
  }

  lemma {:induction false} TerminalStaysConsistent(h: Store, j: JournalState, seen: Row,
                                                   evidence: Option<TerminalEvidence>)
    requires Consistent(h)
    ensures Consistent(StoreTerminal(h, j, seen, evidence).0)
  {
    hide WithTerminal;
    var (g, _) := StoreTerminal(h, j, seen, evidence);
    if g != h {
      ColumnsMatch(h, seen.operationId);
      AuditedIsConsistent(h, g.steps[seen.operationId]);
    }
  }
}
