/**
 What becomes of a decision: no reachable decision is denied, a decision whose `decide`
 vanished is settled by a later `recover` exactly when the controller's run is complete,
 and otherwise it stays as it is for good.
 */
module ToolDecisions {
  import opened Prelude
  import opened ControlledTools
  import opened ToolInvariants
  import opened ToolProposal
  import opened HostSteps
  import opened ToolWorkflow
  import opened ToolAuthority
  import opened ToolRecovery
  import E = ExactlyOnce

  // ------------------------------------------------------------- no decision is denied

  /** Every gate result the controller recorded is a pass. */
  predicate GatesPass(ledger: seq<RouteRecord>) {
    forall i :: 0 <= i < |ledger| && ledger[i].event.GatesEvaluated? ==>
      ledger[i].event.results == GateResults(true, true)
  }

  predicate NoneDenied(w: World) {
    GatesPass(w.ledger) && forall id :: id in w.decisions ==> !w.decisions[id].state.Denied?
  }

  lemma {:induction false} EventsComeFromTheLedger(ledger: seq<RouteRecord>, run: nat)
    requires GatesPass(ledger)
    ensures forall e :: e in EventsOf(ledger, run) && e.GatesEvaluated? ==> e.results == GateResults(true, true)
  {
    if ledger != [] {
      EventsComeFromTheLedger(ledger[..|ledger| - 1], run);
    }
  }

  lemma {:induction false} ProofsAccept(ledger: seq<RouteRecord>, m: Material)
    requires m.Offered? && GatesPass(ledger) && ProofOf(ledger, m).Some?
    ensures ProofOf(ledger, m).value.accepted
  {
    hide EventsOf, RunsFor, EvaluateGates, GatesPass;
    var run := RunsFor(ledger, m.contract)[0];
    EventsComeFromTheLedger(ledger, run);
    assert EventsOf(ledger, run)[2] in EventsOf(ledger, run);
  }

  lemma {:induction false} ControllerPasses(w: World, id: string, row: Decision, written: nat)
    requires StoresOk(w) && Held(w, id, row) && row.material.Offered?
    ensures var e := ControllerEvent(row.material, written);
            e.GatesEvaluated? ==> e.results == GateResults(true, true)
  {
    hide StoreOk, E.DatabasesOk, MaterialFits, Settled, EvaluateGates;
    DecisionAt(w, id);
    StoreAt(w);
    VerifiedMaterialIsAdmitted(w.host, id, row.material);
  }

  lemma {:induction false} StoreAt(w: World)
    requires StoresOk(w)
    ensures StoreOk(w.host)
  {
    hide StoreOk, E.DatabasesOk, DecisionOk, Authorized, Settled;
  }

  lemma {:induction false} SettleDeniesNothing(w: World, c: Call, evidence: Option<TerminalEvidence>)
    requires WorldOk(w) && w.active == Some(c) && IsSettleCall(c) && NoneDenied(w)
    ensures NoneDenied(SettleStep(w, c, evidence))
  {
    hide StoresOk, MaterialOf, HasEffect, BlockedByPending, Checked, ProofOf, ControllerEvent, EventsOf;
    match c
    case ControllerRun(id, row, run, written) =>
      if row.material.Offered? {
        ControllerPasses(w, id, row, written);
      }
    case CommitWrite(id, row, proof) => ProofsAccept(w.ledger, row.material);
    case _ =>
  }

  lemma {:induction false} DecideDeniesNothing(w: World, c: Call, evidence: Option<TerminalEvidence>)
    requires w.active == Some(c) && IsDecideCall(c) && NoneDenied(w)
    ensures NoneDenied(DecideStep(w, c, evidence))
  {
    hide MaterialOf, HasEffect, BlockedByPending, StoreTerminal;
  }

  lemma {:induction false} ExecuteDeniesNothing(w: World, c: Call, evidence: Option<TerminalEvidence>)
    requires w.active == Some(c) && !IsDecideCall(c) && !IsSettleCall(c) && NoneDenied(w)
    ensures NoneDenied(ExecuteStep(w, c, evidence))
  {
    hide HasEffect, BlockedByPending, Checked, ReceiptOf, ReconcileEffect, BoundOperation, E.Step;
  }

  lemma {:induction false} NextDeniesNothing(w: World, a: Action)
    requires WorldOk(w) && ActionOk(a) && NoneDenied(w)
    ensures NoneDenied(Next(w, a))
  {
    hide WorldOk, NoneDenied, DecideStep, SettleStep, ExecuteStep, Allocate, BeginRequest, StoreTerminal,
         ReconcileEffect, CallTool;
    if a.Advance? && w.active.Some? {
      var c := w.active.value;
      if IsDecideCall(c) {
        DecideDeniesNothing(w, c, a.evidence);
      } else if IsSettleCall(c) {
        SettleDeniesNothing(w, c, a.evidence);
      } else {
        ExecuteDeniesNothing(w, c, a.evidence);
      }
    } else {
      DenialIsRecorded(w, Next(w, a));
    }
  }

  lemma {:induction false} DenialIsRecorded(v: World, w: World)
    requires w.decisions == v.decisions && w.ledger == v.ledger
    ensures NoneDenied(w) <==> NoneDenied(v)
  {
  }

  /**
   Over every run the controller's gates pass on everything put to them, and no decision is
   denied: a denial can only come from a store changed from outside.
   */
  lemma {:induction false} NoDecisionIsDenied(actions: seq<Action>)
    requires ActionsOk(actions)
    ensures NoneDenied(Run(actions))
  {
    hide WorldOk, Next, ActionOk;
    if actions != [] {
      hide NoneDenied;
      NoDecisionIsDenied(actions[..|actions| - 1]);
      EveryRunIsOk(actions[..|actions| - 1]);
      NextDeniesNothing(Run(actions[..|actions| - 1]), actions[|actions| - 1]);
    }
  }

  // ------------------------------------------------------------- recovering a deciding decision

  predicate AnyPending(w: World, id: string) {
    id in w.host.steps && PendingOther(w.db.journal, w.host.steps[id].taskId, id, false)
  }

  /** What settling would write: the close of an unavailable proposal, or the proved admission. */
  function Settlement(w: World, row: Decision): Option<Decision> {
    if row.material.Unavailable? then Some(row.(state := Closed(row.material.state)))
    else
      var proof := ProofOf(w.ledger, row.material);
      if proof.Some? then Some(Committed(row, proof.value)) else None
  }

  lemma {:induction false} DecidingHasNoEffect(w: World, id: string)
    requires StoresOk(w) && id in w.decisions && w.decisions[id].state == Deciding
    ensures !HasEffect(w, id) && id in w.host.steps
  {
    hide StoreOk, E.DatabasesOk, Authorized, Settled;
    DecidingHasNoIntent(w, id, w.decisions[id]);
    if id in w.db.tool.receipts {
      ReceiptHasIntent(w, id);
    }
  }

  lemma {:induction false} ReceiptHasIntent(w: World, id: string)
    requires StoresOk(w) && id in w.db.tool.receipts
    ensures id in w.db.journal
  {
    hide StoreOk, E.DatabasesOk, DecisionOk, Authorized, Settled;
    E.EffectAt(w.db, id);
  }

  lemma {:induction false} SettleReaches(w: World, id: string, evidence: Option<TerminalEvidence>)
    requires WorldOk(w) && w.active.None? && id in w.decisions && w.decisions[id].state == Deciding
             && SameEvidence(w, id, evidence)
    ensures var v := LeftToRun(Next(w, Recover(id)), evidence, 4);
            v == if AnyPending(w, id) then w
                 else At(w, if w.decisions[id].material.Unavailable? then CloseWrite(id, w.decisions[id])
                         else ProofRead(id, w.decisions[id]))
  {
    hide StoresOk, Checked, PendingOther, HasEffect;
    var row := w.decisions[id];
    CheckPasses(w, id, evidence);
    DecidingHasNoEffect(w, id);
    var a := Next(w, Recover(id));
    assert a == At(w, RecoverRead(id));
    var b := Next(a, Advance(evidence));
    assert b == At(w, RecoverCheck(id, row));
    CheckIgnoresActive(w, b, id, row, evidence);
    var c := Next(b, Advance(evidence));
    assert c == At(w, RecoverPending(id, row));
    var d := Next(c, Advance(evidence));
    assert d == if AnyPending(w, id) then w else At(w, RecoverNoEffect(id, row));
    EffectIgnoresActive(w, d, id);
    var e := Next(d, Advance(evidence));
    assert LeftToRun(a, evidence, 4) == LeftToRun(b, evidence, 3) == LeftToRun(c, evidence, 2)
           == LeftToRun(d, evidence, 1) == LeftToRun(e, evidence, 0);
  }

  lemma {:induction false} EffectIgnoresActive(v: World, w: World, id: string)
    requires v.db == w.db
    ensures HasEffect(v, id) <==> HasEffect(w, id)
  {
  }

  lemma {:induction false} SettleEnds(w: World, id: string, row: Decision, evidence: Option<TerminalEvidence>)
    requires w.active.None?
    ensures var c := if row.material.Unavailable? then CloseWrite(id, row) else ProofRead(id, row);
            LeftToRun(At(w, c), evidence, 2) ==
              if Settlement(w, row).Some? then WriteDecision(w, id, Settlement(w, row).value) else w
  {
    hide ProofOf, EvaluateGates;
    var c := if row.material.Unavailable? then CloseWrite(id, row) else ProofRead(id, row);
    var a := At(w, c);
    var b := Next(a, Advance(evidence));
    var d := Next(b, Advance(evidence));
    assert LeftToRun(a, evidence, 2) == LeftToRun(b, evidence, 1) == LeftToRun(d, evidence, 0);
  }

  /**
   Over every reachable state in which a decision is still deciding and no call holds the
   lock: when nothing of the task is pending, `recover` writes exactly the settlement the
   ledger proves, and leaves the decision alone if it proves none; otherwise it changes nothing.
   */
  lemma {:induction false} DecidingSettlesExactlyWhen(actions: seq<Action>, id: string,
                                                      evidence: Option<TerminalEvidence>)
    requires ActionsOk(actions)
    requires var w := Run(actions);
             w.active.None? && id in w.decisions && w.decisions[id].state == Deciding && SameEvidence(w, id, evidence)
    ensures var w := Run(actions);
            var row := w.decisions[id];
            LeftToRun(Next(w, Recover(id)), evidence, 6) ==
              if !AnyPending(w, id) && Settlement(w, row).Some? then WriteDecision(w, id, Settlement(w, row).value)
                else w
  {
    hide StoresOk, Next, SameEvidence, AnyPending, Settlement;
    var w := Run(actions);
    EveryRunIsOk(actions);
    SettleReaches(w, id, evidence);
    RunSplits(Next(w, Recover(id)), evidence, 4, 2);
    if AnyPending(w, id) {
      IdleStays(w, evidence, 2);
    } else {
      SettleEnds(w, id, w.decisions[id], evidence);
    }
  }

  // ------------------------------------------------------------- and otherwise stays for good

  /** The contract has no completed run, and no call is adding to one. */
  predicate Stuck(w: World, id: string, row: Decision) {
    && Held(w, id, row) && row.state == Deciding && row.material.Offered? && ProofOf(w.ledger, row.material).None?
    && (w.active.Some? && w.active.value.ControllerRun? ==>
          w.active.value.id != id && w.active.value.run !in RunsFor(w.ledger, row.material.contract))
  }

  /** A record of another run and another contract leaves the answer as it was. */
  lemma {:induction false} ProofUnmoved(ledger: seq<RouteRecord>, record: RouteRecord, m: Material)
    requires m.Offered? && record.run !in RunsFor(ledger, m.contract) && record.event != RunReceived(m.contract)
    ensures ProofOf(ledger + [record], m) == ProofOf(ledger, m)
    ensures RunsFor(ledger + [record], m.contract) == RunsFor(ledger, m.contract)
  {
    hide EvaluateGates;
    RunsAppend(ledger, record, m.contract);
    var runs := RunsFor(ledger, m.contract);
    assert RunsFor(ledger + [record], m.contract) == runs;
    if |runs| == 1 {
      EventsAppend(ledger, record, runs[0]);
      assert EventsOf(ledger + [record], runs[0]) == EventsOf(ledger, runs[0]);
    }
  }

  lemma {:induction false} RunsAreEarlier(ledger: seq<RouteRecord>, contract: Contract)
    requires RunsOk(ledger)
    ensures forall r :: r in RunsFor(ledger, contract) ==> r < |ledger|
  {
    if ledger != [] {
      RunsAreEarlier(ledger[..|ledger| - 1], contract);
    }
  }

  lemma {:induction false} OtherContract(w: World, id: string, row: Decision, x: string, other: Decision)
    requires StoresOk(w) && Held(w, id, row) && Held(w, x, other) && x != id && row.material.Offered?
             && other.material.Offered?
    ensures other.material.contract != row.material.contract
  {
    hide StoreOk, E.DatabasesOk, Authorized, Settled, MaterialFits;
    DecisionAt(w, id);
    DecisionAt(w, x);
    StoreAt(w);
    ContractNamesItsStep(w.host, id, row.material);
    ContractNamesItsStep(w.host, x, other.material);
  }

  lemma {:induction false} SettleStaysStuck(w: World, c: Call, evidence: Option<TerminalEvidence>, id: string,
                                            row: Decision)
    requires WorldOk(w) && w.active == Some(c) && IsSettleCall(c) && Stuck(w, id, row)
    ensures Stuck(SettleStep(w, c, evidence), id, row)
  {
    hide StoresOk, MaterialOf, HasEffect, BlockedByPending, Checked, ProofOf, EvaluateGates, RunsFor, EventsOf;
    match c
    case ControllerRun(x, other, run, written) =>
      if other.material.Offered? {
        OtherContract(w, id, row, x, other);
        ProofUnmoved(w.ledger, RouteRecord(run, ControllerEvent(other.material, written)), row.material);
      }
    case _ =>
  }

  lemma {:induction false} DecideStaysStuck(w: World, c: Call, evidence: Option<TerminalEvidence>, id: string,
                                            row: Decision)
    requires WorldOk(w) && w.active == Some(c) && IsDecideCall(c) && Stuck(w, id, row)
    ensures Stuck(DecideStep(w, c, evidence), id, row)
  {
    hide StoresOk, MaterialOf, MaterialFits, HasEffect, BlockedByPending, StoreTerminal, ProofOf, RunsFor;
    LedgerOk(w);
    RunsAreEarlier(w.ledger, row.material.contract);
  }

  lemma {:induction false} ExecuteStaysStuck(w: World, c: Call, evidence: Option<TerminalEvidence>, id: string,
                                             row: Decision)
    requires WorldOk(w) && w.active == Some(c) && !IsDecideCall(c) && !IsSettleCall(c) && Stuck(w, id, row)
    ensures Stuck(ExecuteStep(w, c, evidence), id, row)
  {
    hide StoresOk, HasEffect, BlockedByPending, Checked, ReceiptOf, ReconcileEffect, BoundOperation, E.Step, ProofOf,
         RunsFor, FrameFits, Settled;
  }

  lemma {:induction false} NextStaysStuck(w: World, a: Action, id: string, row: Decision)
    requires WorldOk(w) && ActionOk(a) && Stuck(w, id, row)
    ensures Stuck(Next(w, a), id, row)
  {
    hide WorldOk, ProofOf, RunsFor, DecideStep, SettleStep, ExecuteStep, Allocate, BeginRequest, StoreTerminal,
         ReconcileEffect, CallTool;
    if a.Advance? && w.active.Some? {
      hide Stuck;
      var c := w.active.value;
      if IsDecideCall(c) {
        DecideStaysStuck(w, c, a.evidence, id, row);
      } else if IsSettleCall(c) {
        SettleStaysStuck(w, c, a.evidence, id, row);
      } else {
        ExecuteStaysStuck(w, c, a.evidence, id, row);
      }
    }
  }

  /**
   A deciding decision whose run the ledger does not prove complete is never settled: after
   any further calls, recoveries and host steps it is the same row, still unproved.
   */
  lemma {:induction false} UnprovedStaysDeciding(actions: seq<Action>, more: seq<Action>, id: string)
    requires ActionsOk(actions) && ActionsOk(more)
    requires var w := Run(actions);
             && w.active.None? && id in w.decisions && w.decisions[id].state == Deciding
             && w.decisions[id].material.Offered? && ProofOf(w.ledger, w.decisions[id].material).None?
    ensures Stuck(Run(actions + more), id, Run(actions).decisions[id])
    decreases |more|
  {
    hide Next, ActionOk, WorldOk, ProofOf;
    if more == [] {
      assert actions + more == actions;
    } else {
      var n := |more| - 1;
      UnprovedStaysDeciding(actions, more[..n], id);
      hide Stuck;
      assert (actions + more)[..|actions + more| - 1] == actions + more[..n];
      EveryRunIsOk(actions + more[..n]);
      NextStaysStuck(Run(actions + more[..n]), more[n], id, Run(actions).decisions[id]);
    }
  }

  // ------------------------------------------------------------- what is reported is true

  lemma {:induction false} ReportOfDone(w: World, id: string, evidence: Option<TerminalEvidence>)
    requires StoresOk(w) && ReportOf(w, id, evidence).Some? && w.decisions[id].state.Done?
    ensures var report := ReportOf(w, id, evidence).value;
            && id in w.db.tool.receipts && report.effectCode == Some(w.db.tool.receipts[id].receipt.code)
            && (report.effectApplied <==> E.WasApplied(w.db.tool, id))
            && (report.effectApplied <==> w.decisions[id].state == Done(StatusApplied))
  {
    hide Checked, StoreOk, E.DatabasesOk, DecisionOk, Authorized, Settled, BoundOperation;
    var receipt := ReceiptOf(w, id, w.decisions[id]).value;
    ReceiptIsSettled(w, id, w.decisions[id]);
    ReceiptIsConsistent(w, id, receipt);
  }

  lemma {:induction false} ReceiptIsConsistent(w: World, id: string, receipt: Receipt)
    requires StoresOk(w) && Settled(w, id, receipt)
    ensures id in w.db.tool.receipts && w.db.tool.receipts[id].receipt == receipt
    ensures receipt.status == StatusApplied <==> receipt.code == Applied
  {
    hide StoreOk, E.DatabasesOk, DecisionOk, Authorized, BoundOperation;
    E.EffectAt(w.db, id);
  }

  lemma {:induction false} ReportOfOthers(w: World, id: string, evidence: Option<TerminalEvidence>)
    requires ReportOf(w, id, evidence).Some? && !w.decisions[id].state.Done?
    ensures var report := ReportOf(w, id, evidence).value;
            id !in w.db.tool.receipts && report.effectCode.None? && !report.effectApplied
  {
    hide Checked, BlockedByPending;
  }

  /** Unless denied, an admission is a pass. */
  lemma {:induction false} AdmittedIsAccepted(w: World, id: string)
    requires StoresOk(w) && id in w.decisions && !w.decisions[id].state.Denied?
    ensures w.decisions[id].proof.Some? ==> w.decisions[id].proof.value.accepted
  {
    hide StoresOk, Settled, MaterialFits, ProofStands;
    DecisionAt(w, id);
  }

  lemma {:induction false} ReportNames(w: World, id: string, evidence: Option<TerminalEvidence>)
    requires ReportOf(w, id, evidence).Some?
    ensures id in w.decisions
    ensures var report, row := ReportOf(w, id, evidence).value, w.decisions[id];
            report.state == row.state && report.admitted == if row.proof.Some? then Some(row.proof.value.accepted)
              else None
  {
    hide Checked, ReceiptOf, BlockedByPending, HasEffect;
  }

  lemma {:induction false} ReportIsTrue(w: World, id: string, evidence: Option<TerminalEvidence>)
    requires StoresOk(w) && NoneDenied(w) && ReportOf(w, id, evidence).Some?
    ensures var report := ReportOf(w, id, evidence).value;
            && id in w.decisions && report.state == w.decisions[id].state
            && (report.effectApplied <==> E.WasApplied(w.db.tool, id))
            && (report.effectApplied <==> report.state == Done(StatusApplied))
            && report.effectCode
               == (if id in w.db.tool.receipts then Some(w.db.tool.receipts[id].receipt.code) else None)
            && (report.admitted.Some? ==> report.admitted.value)
  {
    ReportNames(w, id, evidence);
    hide StoresOk, GatesPass, ReportOf;
    AdmittedIsAccepted(w, id);
    if w.decisions[id].state.Done? {
      ReportOfDone(w, id, evidence);
    } else {
      ReportOfOthers(w, id, evidence);
    }
  }

  /**
   Over every run, whatever the route reports is true of the stores: the decision's own state
   and admission, an effect exactly if the tool's inventory was changed for this operation,
   once, and the code of the tool's receipt exactly if there is one.
   */
  lemma {:induction false} ReportsAreTrue(actions: seq<Action>, id: string, evidence: Option<TerminalEvidence>)
    requires ActionsOk(actions) && ReportOf(Run(actions), id, evidence).Some?
    ensures var w := Run(actions);
            var report := ReportOf(w, id, evidence).value;
            && id in w.decisions && report.state == w.decisions[id].state
            && (report.effectApplied <==> EffectCount(actions, id) == 1)
            && (report.effectApplied <==> report.state == Done(StatusApplied))
            && report.effectCode
               == (if id in w.db.tool.receipts then Some(w.db.tool.receipts[id].receipt.code) else None)
            && (report.admitted.Some? ==> report.admitted.value)
  {
    hide StoresOk, NoneDenied, ReportOf, Next, E.WasApplied;
    EveryRunIsOk(actions);
    NoDecisionIsDenied(actions);
    ExactlyOneEffect(actions, id);
    ReportIsTrue(Run(actions), id, evidence);
  }
}
