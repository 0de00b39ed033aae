/**
 The route makes progress: left to run, `decide` turns a quiet step with a verified terminal
 into an accepted, abstaining or closed decision, and `execute` carries an accepted one out,
 with a receipt the tool did not have before.
 */
module ToolProgress {
  import opened Prelude
  import opened ControlledTools
  import opened ToolInvariants
  import opened ToolProposal
  import opened HostSteps
  import opened ToolWorkflow
  import opened ToolAuthority
  import opened ToolRecovery
  import opened ToolDecisions
  import E = ExactlyOnce

  // ------------------------------------------------------------- carrying out an accepted decision

  /** An accepted decision has no intent and no receipt yet. */
  lemma {:induction false} AcceptedHasNoEffect(w: World, id: string)
    requires StoresOk(w) && id in w.decisions && w.decisions[id].state == Accepted
    ensures !HasEffect(w, id) && id in w.host.steps
  {
    hide StoreOk, E.DatabasesOk, Settled, BoundOperation, ProofStands;
    DecisionAt(w, id);
    if id in w.db.journal {
      IntentAuthorized(w, id);
    }
    if id in w.db.tool.receipts {
      ReceiptHasIntent(w, id);
      IntentAuthorized(w, id);
    }
  }

  function ExecutingRow(w: World, id: string): Decision
    requires id in w.decisions
  {
    w.decisions[id].(state := Executing)
  }

  /** The reads and the write between taking the lock and the executor. */
  lemma {:induction false} ExecuteReaches(w: World, id: string, evidence: Option<TerminalEvidence>)
    requires WorldOk(w) && w.active.None? && id in w.decisions && w.decisions[id].state == Accepted
             && SameEvidence(w, id, evidence)
    ensures var v := LeftToRun(Next(w, Execute(id)), evidence, 5);
            v == if AnyPending(w, id) then w
                 else At(WriteDecision(w, id, ExecutingRow(w, id)), OperationRead(id, ExecutingRow(w, id)))
    ensures !AnyPending(w, id) ==> WorldOk(LeftToRun(Next(w, Execute(id)), evidence, 5))
  {
    hide StoresOk, Checked, PendingOther, HasEffect;
    var row := w.decisions[id];
    CheckPasses(w, id, evidence);
    AcceptedHasNoEffect(w, id);
    var a := Next(w, Execute(id));
    assert a == At(w, ExecuteRead(id));
    var b := Next(a, Advance(evidence));
    assert b == At(w, ExecuteCheck(id, row));
    CheckIgnoresActive(w, b, id, row, evidence);
    var c := Next(b, Advance(evidence));
    assert c == At(w, ExecutePending(id, row));
    var d := Next(c, Advance(evidence));
    assert d == if AnyPending(w, id) then w else At(w, ExecuteNoEffect(id, row));
    EffectIgnoresActive(w, d, id);
    var e := Next(d, Advance(evidence));
    assert e == if AnyPending(w, id) then w else At(w, ExecutingWrite(id, row));
    var f := Next(e, Advance(evidence));
    FiveSteps(a, evidence, b, c, d, e, f);
    hide Next, WorldOk;
    NextKeeps(w, Execute(id));
    NextKeeps(a, Advance(evidence));
    NextKeeps(b, Advance(evidence));
    NextKeeps(c, Advance(evidence));
    NextKeeps(d, Advance(evidence));
    NextKeeps(e, Advance(evidence));
  }

  lemma {:induction false} FiveSteps(a: World, evidence: Option<TerminalEvidence>, b: World, c: World, d: World,
                                     e: World, f: World)
    requires b == Next(a, Advance(evidence)) && c == Next(b, Advance(evidence)) && d == Next(c, Advance(evidence))
    requires e == Next(d, Advance(evidence)) && f == Next(e, Advance(evidence))
    ensures LeftToRun(a, evidence, 5) == f
  {
    hide Next;
    assert LeftToRun(a, evidence, 5) == LeftToRun(b, evidence, 4) == LeftToRun(c, evidence, 3)
           == LeftToRun(d, evidence, 2)
        == LeftToRun(e, evidence, 1) == LeftToRun(f, evidence, 0);
  }

  /** Without an intent of its own, any pending operation of the task is another one. */
  lemma {:induction false} PendingIsOther(w: World, id: string)
    requires id !in w.db.journal
    ensures AnyPending(w, id) <==> OtherPending(w, id)
  {
  }

  /**
   Over every reachable state with an accepted decision and no call holding the lock: `execute`
   carries it out exactly when nothing of the task is pending, and otherwise changes nothing.
   Carried out, the decision is done with the tool's receipt for its operation, which the tool
   had not held before.
   */
  lemma {:induction false} AcceptedIsCarriedOut(actions: seq<Action>, id: string, evidence: Option<TerminalEvidence>)
    requires ActionsOk(actions)
    requires var w := Run(actions);
             w.active.None? && id in w.decisions && w.decisions[id].state == Accepted && SameEvidence(w, id, evidence)
    ensures var w := Run(actions);
            var v := LeftToRun(Next(w, Execute(id)), evidence, 14);
            && (AnyPending(w, id) ==> v == w)
            && (!AnyPending(w, id) ==> Recovered(v, id) && id !in w.db.tool.receipts && id in v.db.tool.receipts)
  {
    hide StoresOk, Next, Recovered, PendingOther, SameEvidence, ToolRecovery.Outcome, Settled;
    var w := Run(actions);
    EveryRunIsOk(actions);
    ExecuteReaches(w, id, evidence);
    AcceptedHasNoEffect(w, id);
    PendingIsOther(w, id);
    RunSplits(Next(w, Execute(id)), evidence, 5, 9);
    if AnyPending(w, id) {
      IdleStays(w, evidence, 9);
    } else {
      var v := WriteDecision(w, id, ExecutingRow(w, id));
      StoresOfWorld(At(v, OperationRead(id, ExecutingRow(w, id))), v);
      OperationStarts(v, id, evidence);
      RecoveredHasReceipt(LeftToRun(At(v, OperationRead(id, v.decisions[id])), evidence, 9), v, id);
    }
  }

  lemma {:induction false} StoresOfWorld(u: World, v: World)
    requires WorldOk(u) && v == Ended(u)
    ensures WorldOk(v)
  {
    hide StoresOk, CallFits;
    StoresIgnoreActive(u, None);
  }

  lemma {:induction false} RecoveredHasReceipt(v: World, w: World, id: string)
    requires ToolRecovery.Outcome(w, v, id)
    ensures Recovered(v, id) && id in v.db.tool.receipts
  {
    hide BoundOperation;
  }

  /** Executing a decision that is settled otherwise changes nothing. */
  lemma {:induction false} OthersAreNotCarriedOut(w: World, id: string, evidence: Option<TerminalEvidence>)
    requires w.active.None? && (id in w.decisions ==> w.decisions[id].state !in {Accepted, Executing})
    ensures LeftToRun(Next(w, Execute(id)), evidence, 3) == w
  {
    hide Checked, BlockedByPending, HasEffect, ReceiptOf, ReconcileEffect, BoundOperation, E.Step;
    var a := Next(w, Execute(id));
    assert a == At(w, ExecuteRead(id));
    var b := Next(a, Advance(evidence));
    assert b == w || b == At(w, ExecuteCheck(id, w.decisions[id]));
    var c := Next(b, Advance(evidence));
    assert c == w || c == At(w, ExecutePending(id, w.decisions[id]));
    var d := Next(c, Advance(evidence));
    assert d == w;
    hide Next;
    assert LeftToRun(a, evidence, 3) == LeftToRun(b, evidence, 2) == LeftToRun(c, evidence, 1)
           == LeftToRun(d, evidence, 0);
  }

  // ------------------------------------------------------------- what is done can be reported

  predicate IsObserved(w: World, id: string, receipt: Receipt) {
    id in w.host.steps && w.host.steps[id].effect == Some(receipt)
  }

  /** A decision's receipt, recorded or about to be, is the one its host row holds. */
  predicate EffectsObserved(w: World) {
    && (forall id :: id in w.decisions && w.decisions[id].effect.Some? ==>
        IsObserved(w, id, w.decisions[id].effect.value))
    && (w.active.Some? && w.active.value.FinalWrite? ==> IsObserved(w, w.active.value.id, w.active.value.receipt))
  }

  ghost predicate EffectsStay(v: World, w: World) {
    forall id, receipt :: IsObserved(v, id, receipt) ==> IsObserved(w, id, receipt)
  }

  lemma {:induction false} DriftsKeepEffects(v: World, w: World)
    requires Drifts(v, w)
    ensures EffectsStay(v, w)
  {
    hide StoreOk, E.DatabasesOk, Settled, Drifts;
    forall id, receipt | IsObserved(v, id, receipt)
      ensures IsObserved(w, id, receipt)
    {
      EffectStays(v, w, id);
    }
  }

  lemma {:induction false} HostKeepsEffects(w: World, a: Action)
    requires WorldOk(w) && ActionOk(a) && !a.Advance?
    ensures EffectsStay(w, Next(w, a))
    ensures Next(w, a).decisions == w.decisions
    ensures Next(w, a).active.Some? && Next(w, a).active.value.FinalWrite? ==> Next(w, a).active == w.active
  {
    hide StoresOk, Drifts, DecideStep, SettleStep, ExecuteStep, Allocate, BeginRequest, StoreTerminal, ReconcileEffect,
         CallTool, CallFits;
    match a
    case HostTerminal(seen, evidence) =>
      TerminalStored(w, seen, evidence, w.active);
      DriftsKeepEffects(w, w.(host := StoreTerminal(w.host, w.db.journal, seen, evidence).0));
    case HostTool(call) => HostToolDrifts(w, call);
    case HostAllocate(_) => HostStepDrifts(w, a); DriftsKeepEffects(w, HostStepOf(w, a));
    case HostRequest(_, _, _) => HostStepDrifts(w, a); DriftsKeepEffects(w, HostStepOf(w, a));
    case HostReconcile(_) => HostStepDrifts(w, a); DriftsKeepEffects(w, HostStepOf(w, a));
    case _ =>
  }

  lemma {:induction false} DecideObserves(w: World, c: Call, evidence: Option<TerminalEvidence>)
    requires WorldOk(w) && w.active == Some(c) && IsDecideCall(c) && EffectsObserved(w)
    ensures EffectsObserved(DecideStep(w, c, evidence))
  {
    hide StoresOk, MaterialOf, MaterialFits, HasEffect, BlockedByPending, StoreTerminal, IsObserved, Drifts;
    match c
    case TerminalStore(id, seen, noted) =>
      TerminalStored(w, seen, noted, w.active);
      var v := w.(host := StoreTerminal(w.host, w.db.journal, seen, noted).0);
      DriftsKeepEffects(w, v);
      ObservedIgnoresTheRest(v, DecideStep(w, c, evidence));
    case _ => ObservedIgnoresTheRest(w, DecideStep(w, c, evidence));
  }

  lemma {:induction false} ObservedIgnoresTheRest(v: World, w: World)
    requires w.host == v.host
    ensures EffectsStay(v, w)
  {
  }

  lemma {:induction false} SettleObserves(w: World, c: Call, evidence: Option<TerminalEvidence>)
    requires WorldOk(w) && w.active == Some(c) && IsSettleCall(c) && EffectsObserved(w)
    ensures EffectsObserved(SettleStep(w, c, evidence))
  {
    hide StoresOk, MaterialOf, HasEffect, BlockedByPending, Checked, ProofOf, ControllerEvent, EventsOf, IsObserved;
    ObservedIgnoresTheRest(w, SettleStep(w, c, evidence));
  }

  lemma {:induction false} ExecuteObserves(w: World, c: Call, evidence: Option<TerminalEvidence>)
    requires WorldOk(w) && w.active == Some(c) && !IsDecideCall(c) && !IsSettleCall(c) && EffectsObserved(w)
    ensures EffectsObserved(ExecuteStep(w, c, evidence))
  {
    hide StoresOk, HasEffect, BlockedByPending, Checked, ReconcileEffect, BoundOperation, E.Step, FrameFits, Settled,
         IsObserved, Drifts, ReceiptOf;
    match c
    case ReconcileWrite(id, row) =>
      ReconcileStored(w, id, w.active);
      var v := w.(host := ReconcileEffect(w.host, w.db.journal, w.db.tool, id).0);
      DriftsKeepEffects(w, v);
      ObservedIgnoresTheRest(v, ExecuteStep(w, c, evidence));
    case ReceiptRead(id, row) =>
      ReceiptIsObserved(w, id, row);
      ObservedIgnoresTheRest(w, ExecuteStep(w, c, evidence));
    case _ => ObservedIgnoresTheRest(w, ExecuteStep(w, c, evidence));
  }

  lemma {:induction false} ReceiptIsObserved(w: World, id: string, row: Decision)
    ensures ReceiptOf(w, id, row).Some? ==> IsObserved(w, id, ReceiptOf(w, id, row).value)
  {
    hide BoundOperation;
  }

  lemma {:induction false} NextObserves(w: World, a: Action)
    requires WorldOk(w) && ActionOk(a) && EffectsObserved(w)
    ensures EffectsObserved(Next(w, a))
  {
    hide WorldOk, DecideStep, SettleStep, ExecuteStep, IsObserved, HostStepOf;
    if a.Advance? {
      hide EffectsObserved;
      if w.active.Some? {
        var c := w.active.value;
        if IsDecideCall(c) {
          DecideObserves(w, c, a.evidence);
        } else if IsSettleCall(c) {
          SettleObserves(w, c, a.evidence);
        } else {
          ExecuteObserves(w, c, a.evidence);
        }
      }
    } else {
      HostKeepsEffects(w, a);
      hide Next;
    }
  }

  lemma {:induction false} EveryEffectIsObserved(actions: seq<Action>)
    requires ActionsOk(actions)
    ensures EffectsObserved(Run(actions))
  {
    hide WorldOk, Next, ActionOk;
    if actions != [] {
      hide EffectsObserved;
      EveryEffectIsObserved(actions[..|actions| - 1]);
      EveryRunIsOk(actions[..|actions| - 1]);
      NextObserves(Run(actions[..|actions| - 1]), actions[|actions| - 1]);
    }
  }

  lemma {:induction false} DoneHasReceipt(w: World, id: string)
    requires StoresOk(w) && EffectsObserved(w) && id in w.decisions && w.decisions[id].state.Done?
    ensures ReceiptOf(w, id, w.decisions[id]) == w.decisions[id].effect && w.decisions[id].effect.Some?
    ensures w.decisions[id].state == Done(w.decisions[id].effect.value.status)
  {
    hide StoreOk, E.DatabasesOk, BoundOperation, Authorized, StepOk, Bind, ProofStands, MaterialFits;
    DecisionAt(w, id);
    var r := w.decisions[id].effect.value;
    assert Settled(w, id, r) && IsObserved(w, id, r);
    StepAt(w.host, id);
    E.IntentAt(w.db, id);
    E.EffectAt(w.db, id);
    BoundIsOwn(w.host, id);
    IntentAuthorized(w, id);
  }

  /**
   Over every run, if the bridge still answers the recorded terminal: a decision can be reported
   exactly when it is neither deciding nor executing and is done or has nothing pending beside it.
   */
  lemma {:induction false} ReportsExactlyWhenSettled(actions: seq<Action>, id: string,
                                                     evidence: Option<TerminalEvidence>)
    requires ActionsOk(actions) && id in Run(actions).decisions && SameEvidence(Run(actions), id, evidence)
    ensures var w := Run(actions);
            ReportOf(w, id, evidence).Some? <==>
              && w.decisions[id].state !in {Deciding, Executing}
              && (w.decisions[id].state.Done? || !AnyPending(w, id))
  {
    hide StoresOk, Next, SameEvidence, Checked, HasEffect, PendingOther, ReceiptOf, EffectsObserved;
    var w := Run(actions);
    EveryRunIsOk(actions);
    EveryEffectIsObserved(actions);
    CheckPasses(w, id, evidence);
    SettledHasNoEffect(w, id);
    if w.decisions[id].state.Done? {
      DoneHasReceipt(w, id);
    }
    hide Run;
  }

  lemma {:induction false} SettledHasNoEffect(w: World, id: string)
    requires StoresOk(w) && id in w.decisions
    ensures id in w.host.steps
    ensures w.decisions[id].state != Executing && !w.decisions[id].state.Done? ==> !HasEffect(w, id)
  {
    hide StoreOk, E.DatabasesOk, Settled, BoundOperation, ProofStands;
    DecisionAt(w, id);
    if id in w.db.journal {
      IntentAuthorized(w, id);
    }
    if id in w.db.tool.receipts {
      ReceiptHasIntent(w, id);
      IntentAuthorized(w, id);
    }
  }

  // ------------------------------------------------------------- deciding

  /** A controller run on a contract is only ever started for a decision already recorded. */
  predicate RunsAreDecided(w: World) {
    forall i :: 0 <= i < |w.ledger| && w.ledger[i].event.RunReceived? ==>
      w.ledger[i].event.contract.core.operationId in w.decisions
  }

  lemma {:induction false} ContractIsDecided(w: World, id: string, row: Decision)
    requires StoresOk(w) && Held(w, id, row) && row.material.Offered?
    ensures row.material.contract.core.operationId == id
  {
    hide StoreOk, E.DatabasesOk, Authorized, Settled, MaterialFits;
    DecisionAt(w, id);
    StoreAt(w);
    ContractNamesItsStep(w.host, id, row.material);
  }

  lemma {:induction false} StepKeepsRunsDecided(w: World, c: Call, evidence: Option<TerminalEvidence>)
    requires WorldOk(w) && w.active == Some(c) && RunsAreDecided(w)
    ensures RunsAreDecided(CallStep(w, c, evidence))
  {
    hide StoresOk, MaterialOf, HasEffect, BlockedByPending, Checked, ProofOf, StoreTerminal, ReceiptOf, ReconcileEffect,
         BoundOperation, E.Step, EvaluateGates, FrameFits, EventsOf, Settled, MaterialFits;
    if c.ControllerRun? && c.row.material.Offered? {
      ContractIsDecided(w, c.id, c.row);
    }
  }

  lemma {:induction false} EveryRunIsDecided(actions: seq<Action>)
    requires ActionsOk(actions)
    ensures RunsAreDecided(Run(actions))
  {
    hide WorldOk, ActionOk, CallStep, HostStepOf;
    if actions != [] {
      var before, a := actions[..|actions| - 1], actions[|actions| - 1];
      EveryRunIsDecided(before);
      EveryRunIsOk(before);
      var w := Run(before);
      hide RunsAreDecided;
      if a.Advance? && w.active.Some? {
        StepKeepsRunsDecided(w, w.active.value, a.evidence);
      } else {
        LedgerAndDecisionsStay(w, a);
        SameRuns(w, Next(w, a));
      }
    }
  }

  lemma {:induction false} LedgerAndDecisionsStay(w: World, a: Action)
    requires !(a.Advance? && w.active.Some?)
    ensures Next(w, a).ledger == w.ledger && Next(w, a).decisions == w.decisions
  {
    hide Allocate, BeginRequest, StoreTerminal, ReconcileEffect, CallTool, CallStep;
  }

  lemma {:induction false} SameRuns(v: World, w: World)
    requires w.ledger == v.ledger && w.decisions == v.decisions
    ensures RunsAreDecided(w) <==> RunsAreDecided(v)
  {
  }

  lemma {:induction false} NoRunYet(ledger: seq<RouteRecord>, contract: Contract)
    requires forall i :: 0 <= i < |ledger| ==> ledger[i].event != RunReceived(contract)
    ensures RunsFor(ledger, contract) == []
  {
    if ledger != [] {
      NoRunYet(ledger[..|ledger| - 1], contract);
    }
  }

  /** The four records of a run on this material. */
  function RunRecords(m: Material, run: nat): seq<RouteRecord>
    requires m.Offered?
  {
    [RouteRecord(run, ControllerEvent(m, 0)), RouteRecord(run, ControllerEvent(m, 1)),
     RouteRecord(run, ControllerEvent(m, 2)), RouteRecord(run, ControllerEvent(m, 3))]
  }

  /** A first run whose gates pass is proved accepted once its four records are there. */
  lemma {:induction false} FirstRunIsProved(ledger: seq<RouteRecord>, m: Material, run: nat)
    requires m.Offered? && RunsFor(ledger, m.contract) == [] && EventsOf(ledger, run) == []
    requires EvaluateGates(m, m.contract, m.candidate) == GateResults(true, true)
    ensures ProofOf(ledger + RunRecords(m, run), m).Some? && ProofOf(ledger + RunRecords(m, run), m).value.accepted
  {
    hide EvaluateGates;
    var rs := RunRecords(m, run);
    var a := ledger + [rs[0]];
    var b := a + [rs[1]];
    var c := b + [rs[2]];
    var d := c + [rs[3]];
    assert d == ledger + rs;
    hide RunsFor, EventsOf;
    RunsAppend(ledger, rs[0], m.contract);
    RunsAppend(a, rs[1], m.contract);
    RunsAppend(b, rs[2], m.contract);
    RunsAppend(c, rs[3], m.contract);
    EventsAppend(ledger, rs[0], run);
    EventsAppend(a, rs[1], run);
    EventsAppend(b, rs[2], run);
    EventsAppend(c, rs[3], run);
    assert RunsFor(d, m.contract) == [run];
    assert EventsOf(d, run) == [rs[0].event, rs[1].event, rs[2].event, rs[3].event];
  }

  /** The state a settled decision on this material has. */
  function SettledState(m: Material): DecisionState {
    if m.Unavailable? then Closed(m.state) else if m.abstained then AbstentionAccepted else Accepted
  }

  /** One record of the controller's run. */
  lemma {:induction false} RecordIsWritten(w: World, id: string, row: Decision, run: nat, written: nat,
                                           evidence: Option<TerminalEvidence>)
    requires w.active == Some(ControllerRun(id, row, run, written)) && written <= 3 && row.material.Offered?
    requires MaterialOf(w.host, id, evidence) == Some(row.material)
    ensures Next(w, Advance(evidence))
            == At(w.(ledger := w.ledger + [RouteRecord(run, ControllerEvent(row.material, written))]),
                  if written < 3 then ControllerRun(id, row, run, written + 1) else ProofRead(id, row))
  {
    hide MaterialOf, ControllerEvent;
  }

  lemma {:induction false} FourRecordsAreWritten(w: World, id: string, row: Decision, run: nat,
                                                 evidence: Option<TerminalEvidence>)
    requires w.active == Some(ControllerRun(id, row, run, 0)) && row.material.Offered?
    requires MaterialOf(w.host, id, evidence) == Some(row.material)
    ensures LeftToRun(w, evidence, 4) == At(w.(ledger := w.ledger + RunRecords(row.material, run)), ProofRead(id, row))
  {
    hide MaterialOf, ControllerEvent, Next;
    var rs := RunRecords(row.material, run);
    RecordIsWritten(w, id, row, run, 0, evidence);
    var a := Next(w, Advance(evidence));
    RecordIsWritten(a, id, row, run, 1, evidence);
    var b := Next(a, Advance(evidence));
    RecordIsWritten(b, id, row, run, 2, evidence);
    var c := Next(b, Advance(evidence));
    RecordIsWritten(c, id, row, run, 3, evidence);
    var d := Next(c, Advance(evidence));
    assert w.ledger + [rs[0]] + [rs[1]] + [rs[2]] + [rs[3]] == w.ledger + rs;
    assert LeftToRun(w, evidence, 4) == LeftToRun(a, evidence, 3) == LeftToRun(b, evidence, 2)
           == LeftToRun(c, evidence, 1)
        == LeftToRun(d, evidence, 0);
  }

  /** From the recorded intent of a decision to its settlement. */
  predicate IsDecided(w: World, id: string, m: Material) {
    && w.active.None? && id in w.decisions && w.decisions[id].material == m && w.decisions[id].state == SettledState(m)
    && (m.Offered? ==> w.decisions[id].proof.Some? && w.decisions[id].proof.value.accepted)
  }

  lemma {:induction false} MaterialSettles(w: World, id: string, m: Material, evidence: Option<TerminalEvidence>)
    requires WorldOk(w) && RunsAreDecided(w) && w.active == Some(MaterialRead(id))
             && MaterialOf(w.host, id, evidence) == Some(m)
    ensures IsDecided(LeftToRun(w, evidence, 8), id, m) && LeftToRun(w, evidence, 8).host == w.host
  {
    hide StoresOk, MaterialOf, ProofOf, RunsFor, EventsOf, EvaluateGates, Checked, RunRecords;
    var row := Decision(Deciding, m, None, None);
    var a := Next(w, Advance(evidence));
    assert a == At(w, DecisionWrite(id, m));
    var b := Next(a, Advance(evidence));
    RunSplits(w, evidence, 2, 6);
    assert LeftToRun(w, evidence, 2) == LeftToRun(a, evidence, 1) == LeftToRun(b, evidence, 0);
    if m.Unavailable? {
      assert b == At(WriteDecision(w, id, row), CloseWrite(id, row));
      var c := Next(b, Advance(evidence));
      assert c == Ended(WriteDecision(w, id, row.(state := Closed(m.state))));
      hide Next;
      IdleStays(c, evidence, 5);
      assert LeftToRun(b, evidence, 6) == LeftToRun(c, evidence, 5);
    } else {
      assert b == At(WriteDecision(w, id, row), ControllerRun(id, row, |w.ledger|, 0));
      hide Next;
      RunSettles(w, b, id, row, evidence);
    }
  }

  lemma {:induction false} RunSettles(w: World, b: World, id: string, row: Decision, evidence: Option<TerminalEvidence>)
    requires WorldOk(w) && RunsAreDecided(w) && id !in w.decisions && row.state == Deciding && row.material.Offered?
    requires b == At(WriteDecision(w, id, row), ControllerRun(id, row, |w.ledger|, 0))
    requires MaterialOf(w.host, id, evidence) == Some(row.material)
    ensures IsDecided(LeftToRun(b, evidence, 6), id, row.material) && LeftToRun(b, evidence, 6).host == w.host
  {
    hide StoresOk, RunsFor, EventsOf, EvaluateGates, RunRecords, MaterialOf, CallFits;
    FourRecordsAreWritten(b, id, row, |w.ledger|, evidence);
    RunSplits(b, evidence, 4, 2);
    ReadyToProve(w, id, row.material, evidence);
    FirstRunIsProved(w.ledger, row.material, |w.ledger|);
    hide Next, ProofOf, WorldOk;
    ProofIsCommitted(LeftToRun(b, evidence, 4), id, row, evidence);
  }

  lemma {:induction false} ProofIsCommitted(c: World, id: string, row: Decision, evidence: Option<TerminalEvidence>)
    requires c.active == Some(ProofRead(id, row)) && row.material.Offered?
    requires ProofOf(c.ledger, row.material).Some? && ProofOf(c.ledger, row.material).value.accepted
    ensures IsDecided(LeftToRun(c, evidence, 2), id, row.material) && LeftToRun(c, evidence, 2).host == c.host
  {
    hide ProofOf, EvaluateGates;
    var proof := ProofOf(c.ledger, row.material);
    var d := Next(c, Advance(evidence));
    assert d == At(c, CommitWrite(id, row, proof.value));
    var e := Next(d, Advance(evidence));
    assert e == Ended(WriteDecision(c, id, Committed(row, proof.value)));
    hide Next;
    assert LeftToRun(c, evidence, 2) == LeftToRun(d, evidence, 1) == LeftToRun(e, evidence, 0);
  }

  lemma {:induction false} ReadyToProve(w: World, id: string, m: Material, evidence: Option<TerminalEvidence>)
    requires WorldOk(w) && RunsAreDecided(w) && id !in w.decisions
    requires MaterialOf(w.host, id, evidence) == Some(m) && m.Offered?
    ensures RunsFor(w.ledger, m.contract) == [] && EventsOf(w.ledger, |w.ledger|) == []
    ensures EvaluateGates(m, m.contract, m.candidate) == GateResults(true, true)
  {
    hide StoresOk, CallFits, EvaluateGates, RunsFor, EventsOf, MaterialFits, MaterialOf;
    StoreAt(w);
    MaterialReadFits(w.host, id, evidence);
    VerifiedMaterialIsAdmitted(w.host, id, m);
    ContractNamesItsStep(w.host, id, m);
    NoRunYet(w.ledger, m.contract);
    LedgerOk(w);
    FreshRunHasNoEvents(w.ledger, |w.ledger|);
  }

  lemma {:induction false} UndecidedHasNoEffect(w: World, id: string)
    requires StoresOk(w) && id !in w.decisions
    ensures !HasEffect(w, id) && (id in w.host.steps ==> w.host.steps[id].effect.None?)
  {
    hide StoreOk, E.DatabasesOk, DecisionOk, BoundOperation;
    if id in w.db.journal {
      IntentAuthorized(w, id);
    }
    if id in w.db.tool.receipts {
      ReceiptHasIntent(w, id);
      IntentAuthorized(w, id);
    }
  }

  /** The first reads of `decide`, on a quiet step without a decision. */
  lemma {:induction false} DecideReaches(w: World, id: string, evidence: Option<TerminalEvidence>)
    requires WorldOk(w) && w.active.None? && id !in w.decisions && id in w.host.steps && !AnyPending(w, id)
    ensures var v := LeftToRun(Next(w, Decide(id)), evidence, 3);
            v == At(w, TerminalRead(id)) && WorldOk(v)
  {
    hide StoresOk, PendingOther, HasEffect;
    UndecidedHasNoEffect(w, id);
    var a := Next(w, Decide(id));
    assert a == At(w, DecideRead(id));
    var b := Next(a, Advance(evidence));
    assert b == At(w, DecidePending(id));
    var c := Next(b, Advance(evidence));
    assert c == At(w, DecideNoEffect(id));
    EffectIgnoresActive(w, c, id);
    var d := Next(c, Advance(evidence));
    assert d == At(w, TerminalRead(id));
    hide Next, WorldOk;
    NextKeeps(w, Decide(id));
    NextKeeps(a, Advance(evidence));
    NextKeeps(b, Advance(evidence));
    NextKeeps(c, Advance(evidence));
    assert LeftToRun(a, evidence, 3) == LeftToRun(b, evidence, 2) == LeftToRun(c, evidence, 1)
           == LeftToRun(d, evidence, 0);
  }

  /** The bridge can verify a terminal for this step: the one recorded, or one that can be recorded now. */
  predicate Verified(h: Store, id: string, evidence: Option<TerminalEvidence>) {
    && id in h.steps && h.steps[id].state != Allocated
    && if h.steps[id].state == Requesting then WithTerminal(h.steps[id], evidence).Ok?
       else evidence.Some? && Some(evidence.value.terminal) == h.steps[id].terminal
  }

  /** The host's store once that terminal is recorded. */
  function Recorded(w: World, id: string, evidence: Option<TerminalEvidence>): Store
    requires id in w.host.steps
  {
    if w.host.steps[id].state == Requesting
    then StoreTerminal(w.host, w.db.journal, w.host.steps[id], evidence).0 else w.host
  }

  lemma {:induction false} TerminalIsStored(h: Store, j: JournalState, id: string, evidence: Option<TerminalEvidence>)
    requires StoreOk(h) && id in h.steps && h.steps[id].state == Requesting && WithTerminal(h.steps[id], evidence).Ok?
    requires !HasPending(j, h.steps[id].taskId)
    ensures var (g, done) := StoreTerminal(h, j, h.steps[id], evidence);
            && done.Ok? && evidence.Some? && id in g.steps && g.steps[id].terminal == Some(evidence.value.terminal)
            && g.steps[id].effect == h.steps[id].effect && g.steps[id].state !in {Allocated, Requesting}
  {
    hide StoreOk, Bind, HasPending;
    StepAt(h, id);
  }

  /** Reading or recording the terminal leads to the material, in one or two transactions. */
  lemma {:induction false} TerminalReaches(w: World, id: string, evidence: Option<TerminalEvidence>)
    requires WorldOk(w) && w.active == Some(TerminalRead(id)) && id in w.host.steps && !AnyPending(w, id)
    requires Verified(w.host, id, evidence)
    ensures var v := LeftToRun(w, evidence, if w.host.steps[id].state == Requesting then 2 else 1);
            v == At(w.(host := Recorded(w, id, evidence)), MaterialRead(id)) && WorldOk(v)
  {
    hide StoresOk, CallFits, StoreTerminal, WithTerminal, PendingOther, HasPending;
    var a := Next(w, Advance(evidence));
    if w.host.steps[id].state == Requesting {
      assert a == At(w, TerminalStore(id, w.host.steps[id], evidence));
      StoreAt(w);
      StepAt(w.host, id);
      NothingPending(w, id);
      TerminalIsStored(w.host, w.db.journal, id, evidence);
      var b := Next(a, Advance(evidence));
      assert b == At(w.(host := Recorded(w, id, evidence)), MaterialRead(id));
      hide Next, WorldOk;
      NextKeeps(w, Advance(evidence));
      NextKeeps(a, Advance(evidence));
      assert LeftToRun(w, evidence, 2) == LeftToRun(a, evidence, 1) == LeftToRun(b, evidence, 0);
    } else {
      assert a == At(w, MaterialRead(id));
      hide Next, WorldOk;
      NextKeeps(w, Advance(evidence));
      assert LeftToRun(w, evidence, 1) == LeftToRun(a, evidence, 0);
    }
  }

  lemma {:induction false} NothingPending(w: World, id: string)
    requires id in w.host.steps
    ensures AnyPending(w, id) <==> HasPending(w.db.journal, w.host.steps[id].taskId)
  {
  }

  /**
   The decision a step with a verified terminal comes to: closed without a proposal, else by whether it
   names an operation.
   */
  function DecisionFor(row: Row): DecisionState {
    if row.proposal.None? then Closed(row.state)
    else if BoundOperation(row).Some? then Accepted
    else AbstentionAccepted
  }

  lemma {:induction false} MaterialIsThere(h: Store, id: string, evidence: Option<TerminalEvidence>)
    requires StoreOk(h) && id in h.steps && evidence.Some? && h.steps[id].terminal == Some(evidence.value.terminal)
    requires h.steps[id].effect.None?
    ensures MaterialOf(h, id, evidence).Some?
            && SettledState(MaterialOf(h, id, evidence).value) == DecisionFor(h.steps[id])
  {
    hide StoreOk, Bind, StepOk, ReceiptOk;
    StepAt(h, id);
  }

  lemma {:induction false} TerminalIsThere(w: World, id: string, evidence: Option<TerminalEvidence>)
    requires StoresOk(w) && id !in w.decisions && Verified(w.host, id, evidence) && !AnyPending(w, id)
    ensures var h := Recorded(w, id, evidence);
            id in h.steps && evidence.Some? && h.steps[id].terminal == Some(evidence.value.terminal)
              && h.steps[id].effect.None?
  {
    hide StoresOk, StoreOk, E.DatabasesOk, StoreTerminal, WithTerminal, PendingOther, HasPending;
    UndecidedHasNoEffect(w, id);
    StoreAt(w);
    NothingPending(w, id);
    if w.host.steps[id].state == Requesting {
      TerminalIsStored(w.host, w.db.journal, id, evidence);
    }
  }

  /**
   Over every reachable state with no call holding the lock: `decide` on an undecided step whose
   terminal the bridge verifies and whose task is quiet ends with that terminal recorded and the
   decision settled: accepted if the proposal names an operation, an accepted abstention if it
   names none, closed if there is no proposal.
   */
  lemma {:induction false} QuietStepIsDecided(actions: seq<Action>, id: string, evidence: Option<TerminalEvidence>)
    requires ActionsOk(actions)
    requires var w := Run(actions);
             w.active.None? && id !in w.decisions && Verified(w.host, id, evidence) && !AnyPending(w, id)
    ensures var v := LeftToRun(Next(Run(actions), Decide(id)), evidence, 13);
            && v.active.None? && id in v.decisions && id in v.host.steps
            && v.host.steps[id].terminal == Some(evidence.value.terminal)
            && v.decisions[id].state == DecisionFor(v.host.steps[id])
            && (v.decisions[id].state == Accepted ==> IsAccepted(v.decisions[id]))
  {
    EveryRunIsOk(actions);
    EveryRunIsDecided(actions);
    hide StoresOk, CallFits, Next, StoreTerminal, WithTerminal, PendingOther, HasPending, BoundOperation, Recorded,
         RunsAreDecided;
    var w := Run(actions);
    DecideReaches(w, id, evidence);
    TerminalIsThere(w, id, evidence);
    FromTerminal(w, id, evidence);
    RunSplits(Next(w, Decide(id)), evidence, 3, 10);
  }

  lemma {:induction false} AcceptedMeans(v: World, id: string, m: Material)
    requires IsDecided(v, id, m)
    ensures v.decisions[id].state == Accepted ==> IsAccepted(v.decisions[id])
  {
  }

  lemma {:induction false} FromTerminal(w: World, id: string, evidence: Option<TerminalEvidence>)
    requires WorldOk(At(w, TerminalRead(id))) && WorldOk(w) && RunsAreDecided(w) && w.active.None?
    requires id !in w.decisions && Verified(w.host, id, evidence) && !AnyPending(w, id)
    ensures var v := LeftToRun(At(w, TerminalRead(id)), evidence, 10);
            && v.active.None? && id in v.decisions && id in v.host.steps
            && v.host.steps[id].terminal == Some(evidence.value.terminal)
            && v.decisions[id].state == DecisionFor(v.host.steps[id])
            && (v.decisions[id].state == Accepted ==> IsAccepted(v.decisions[id]))
  {
    hide StoresOk, CallFits, Next, StoreTerminal, WithTerminal, PendingOther, HasPending, BoundOperation,
         RunsAreDecided,
         MaterialOf, DecisionFor;
    var n := if w.host.steps[id].state == Requesting then 2 else 1;
    TerminalIsThere(w, id, evidence);
    var u := At(w, TerminalRead(id));
    assert Recorded(u, id, evidence) == Recorded(w, id, evidence);
    TerminalReaches(u, id, evidence);
    var v := LeftToRun(u, evidence, n);
    StoreAt(v);
    MaterialIsThere(v.host, id, evidence);
    SameRuns(w, v);
    var m := MaterialOf(v.host, id, evidence).value;
    MaterialSettles(v, id, m, evidence);
    RunSplits(u, evidence, n, 10 - n);
    RunSplits(v, evidence, 8, 2 - n);
    IdleStays(LeftToRun(v, evidence, 8), evidence, 2 - n);
    AcceptedMeans(LeftToRun(v, evidence, 8), id, m);
  }
}
