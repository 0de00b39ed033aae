/**
 Cross-database authority: whatever crashes and whatever the host does in between, nothing
 reaches the journal or the tool without an accepted decision on the operation that binding
 put inside the host step, and recovery returns the original receipt.
 */
module ToolAuthority {
  import opened Prelude
  import opened ControlledTools
  import opened ToolInvariants
  import opened ToolProposal
  import opened HostSteps
  import opened ToolWorkflow
  import E = ExactlyOnce

  // ------------------------------------------------------------- what every transaction keeps

  /** The proof a decision in this state must carry. */
  predicate ProofFits(row: Decision) {
    match row.state
    case Deciding => row.proof.None? && row.effect.None?
    case Accepted => IsAccepted(row) && row.effect.None?
    case Executing => IsAccepted(row) && row.effect.None?
    case Done(status) => IsAccepted(row) && row.effect.Some? && row.effect.value.status == status
    case AbstentionAccepted => row.proof.Some? && row.proof.value.accepted && row.material.Offered?
         && row.material.abstained
    case Denied => row.proof.Some? && !row.proof.value.accepted
    case Closed(_) => row.proof.None? && row.material.Unavailable?
  }

  predicate IsAccepted(row: Decision) {
    row.proof.Some? && row.proof.value.accepted && row.material.Offered? && !row.material.abstained
  }

  /** The intent is complete and the tool holds this receipt for the step's bound operation. */
  predicate Settled(w: World, id: string, receipt: Receipt) {
    && id in w.host.steps && id in w.db.journal && w.db.journal[id].complete
    && BoundOperation(w.host.steps[id]).Some?
    && E.ReceiptIs(w.db.tool, id, BoundOperation(w.host.steps[id]).value, receipt)
  }

  predicate MaterialFits(h: Store, id: string, m: Material) {
    id in h.steps && h.steps[id].terminal.Some? && MaterialFor(h.steps[id]) == Some(m)
  }

  /** The recorded proof is what the ledger still proves. */
  predicate ProofStands(ledger: seq<RouteRecord>, row: Decision) {
    row.proof.Some? ==> row.material.Offered? && ProofOf(ledger, row.material) == row.proof
  }

  /** A run is named by the position of its first record. */
  predicate RunsOk(ledger: seq<RouteRecord>) {
    forall i :: 0 <= i < |ledger| ==> ledger[i].run <= i
  }

  predicate DecisionOk(w: World, id: string)
    requires id in w.decisions
  {
    var row := w.decisions[id];
    && MaterialFits(w.host, id, row.material) && ProofFits(row) && ProofStands(w.ledger, row)
    && (row.state.Done? ==> Settled(w, id, row.effect.value))
  }

  /** An intent is the bound operation of a step whose decision is being or has been executed. */
  predicate Authorized(w: World, id: string)
    requires id in w.db.journal
  {
    && id in w.decisions && (w.decisions[id].state == Executing || w.decisions[id].state.Done?)
    && id in w.host.steps && BoundOperation(w.host.steps[id]) == Some(w.db.journal[id].payload)
  }

  predicate StoresOk(w: World) {
    && StoreOk(w.host) && E.DatabasesOk(w.db) && RunsOk(w.ledger)
    && (forall id :: id in w.decisions ==> DecisionOk(w, id))
    && (forall id :: id in w.db.journal ==> Authorized(w, id))
    && (forall id :: id in w.host.steps && w.host.steps[id].effect.Some? ==>
        Settled(w, id, w.host.steps[id].effect.value))
  }

  predicate Held(w: World, id: string, row: Decision) {
    id in w.decisions && w.decisions[id] == row
  }

  /** What a call may rely on at each of its transactions. */
  predicate CallFits(w: World, c: Call) {
    match c
    case DecideRead(_) => true
    case DecidePending(id) => id !in w.decisions
    case DecideNoEffect(id) => id !in w.decisions
    case TerminalRead(id) => id !in w.decisions
    case TerminalStore(id, seen, _) => id !in w.decisions
    case MaterialRead(id) => id !in w.decisions
    case DecisionWrite(id, m) => id !in w.decisions && MaterialFits(w.host, id, m)
    case CloseWrite(id, row) => Held(w, id, row) && row.state == Deciding
    case ControllerRun(id, row, run, written) =>
      Held(w, id, row) && row.state == Deciding && run <= |w.ledger| && written <= 3
        && |EventsOf(w.ledger, run)| == written
    case ProofRead(id, row) => Held(w, id, row) && row.state == Deciding
    case CommitWrite(id, row, proof) =>
      Held(w, id, row) && row.state == Deciding && row.material.Offered?
        && ProofOf(w.ledger, row.material) == Some(proof)
    case RecoverRead(_) => true
    case RecoverCheck(id, row) => Held(w, id, row)
    case RecoverPending(id, row) => Held(w, id, row) && row.state == Deciding
    case RecoverNoEffect(id, row) => Held(w, id, row) && row.state == Deciding
    case ExecuteRead(_) => true
    case ExecuteCheck(id, row) => Held(w, id, row)
    case ExecutePending(id, row) => Held(w, id, row)
    case ExecuteNoEffect(id, row) => Held(w, id, row) && row.state == Accepted
    case ExecutingWrite(id, row) => Held(w, id, row) && row.state == Accepted
    case OperationRead(id, row) => Held(w, id, row) && row.state == Executing
    case Effect(id, row, frame) => Held(w, id, row) && row.state == Executing && FrameFits(w, id, frame)
    case ReconcileWrite(id, row) => Held(w, id, row) && row.state == Executing
    case ReceiptRead(id, row) => Held(w, id, row) && row.state == Executing
    case FinalWrite(id, row, receipt) => Held(w, id, row) && row.state == Executing && Settled(w, id, receipt)
  }

  predicate FrameFits(w: World, id: string, f: E.Frame) {
    && (f.Starting? || E.Working(f)) && E.FrameOk(w.db, f)
    && id in w.host.steps && BoundOperation(w.host.steps[id]) == Some(f.op)
  }

  predicate WorldOk(w: World) {
    StoresOk(w) && (w.active.Some? ==> CallFits(w, w.active.value))
  }

  // ------------------------------------------------------------- reading one row

  lemma {:induction false} StepAt(h: Store, id: string)
    requires StoreOk(h) && id in h.steps
    ensures StepRowOk(h.steps[id]) && ColumnsOk(id, h.steps[id])
  {
    hide Consistent, KeysOk, StepRowOk;
  }

  /** The bound operation carries the step's own identity and stays in its scope. */
  lemma {:induction false} BoundIsOwn(h: Store, id: string)
    requires StoreOk(h) && id in h.steps && BoundOperation(h.steps[id]).Some?
    ensures var op := BoundOperation(h.steps[id]).value;
            InScope(op, h.steps[id].payload) && op.operationId == id && op.taskId == h.steps[id].taskId
  {
    hide StoreOk, StepRowOk, Bind;
    StepAt(h, id);
    BoundStaysInScope(h.steps[id].proposal.value, h.steps[id].payload);
  }

  /** Once a terminal is recorded, what a decision depends on never changes. */
  lemma {:induction false} MaterialIsFixed(a: Row, b: Row)
    requires StepRowOk(a) && StepRowOk(b) && Advances(a, b) && a.terminal.Some?
    ensures b.terminal == a.terminal && BoundOperation(b) == BoundOperation(a) && MaterialFor(b) == MaterialFor(a)
  {
    hide Bind, StepOk, ReceiptOk;
  }

  lemma {:induction false} BoundNeedsTerminal(row: Row)
    requires StepRowOk(row) && BoundOperation(row).Some?
    ensures row.terminal.Some?
  {
    hide Bind, StepOk, ReceiptOk;
  }

  // ------------------------------------------------------------- host steps and database growth

  /** The host's steps advance and the two databases grow, with no new intent. */
  predicate Drifts(v: World, w: World) {
    && StoreOk(w.host) && E.DatabasesOk(w.db) && StoreAdvances(v.host, w.host) && E.Grows(v.db, w.db)
    && w.db.journal.Keys == v.db.journal.Keys && w.decisions == v.decisions && w.ledger == v.ledger
    && (forall id :: id in w.host.steps && w.host.steps[id].effect.Some? ==>
          (id in v.host.steps && v.host.steps[id].effect.Some?) || Settled(w, id, w.host.steps[id].effect.value))
  }

  lemma {:induction false} StepDrifts(v: World, w: World, id: string)
    requires StoreOk(v.host) && Drifts(v, w) && id in v.host.steps && v.host.steps[id].terminal.Some?
    ensures id in w.host.steps && w.host.steps[id].terminal.Some?
    ensures BoundOperation(w.host.steps[id]) == BoundOperation(v.host.steps[id])
    ensures MaterialFor(w.host.steps[id]) == MaterialFor(v.host.steps[id])
  {
    hide StoreOk, StepRowOk, BoundOperation, MaterialFor, Settled;
    StepAt(v.host, id);
    StepAt(w.host, id);
    MaterialIsFixed(v.host.steps[id], w.host.steps[id]);
  }

  lemma {:induction false} BoundDrifts(v: World, w: World, id: string)
    requires StoreOk(v.host) && Drifts(v, w) && id in v.host.steps && BoundOperation(v.host.steps[id]).Some?
    ensures id in w.host.steps && BoundOperation(w.host.steps[id]) == BoundOperation(v.host.steps[id])
  {
    hide StoreOk, StepRowOk, BoundOperation, MaterialFor, Drifts;
    StepAt(v.host, id);
    BoundNeedsTerminal(v.host.steps[id]);
    StepDrifts(v, w, id);
  }

  lemma {:induction false} SettledDrifts(v: World, w: World, id: string, receipt: Receipt)
    requires StoreOk(v.host) && Drifts(v, w) && Settled(v, id, receipt)
    ensures Settled(w, id, receipt)
  {
    hide StoreOk, BoundOperation;
    BoundDrifts(v, w, id);
    assert E.RowGrows(v.db.journal[id], w.db.journal[id]);
  }

  lemma {:induction false} FrameDrifts(v: World, w: World, id: string, f: E.Frame)
    requires StoreOk(v.host) && Drifts(v, w) && FrameFits(v, id, f)
    ensures FrameFits(w, id, f)
  {
    hide StoreOk, BoundOperation, E.DatabasesOk, E.Grows;
    BoundDrifts(v, w, id);
    E.FramesSurvive(v.db, w.db, f);
  }

  lemma {:induction false} StoresDrift(v: World, w: World)
    requires StoresOk(v) && Drifts(v, w)
    ensures StoresOk(w)
  {
    hide StoreOk, E.DatabasesOk, BoundOperation, MaterialFor, StoreAdvances, Settled;
    forall id | id in w.decisions
      ensures DecisionOk(w, id)
    {
      assert DecisionOk(v, id);
      StepDrifts(v, w, id);
      if w.decisions[id].state.Done? {
        SettledDrifts(v, w, id, w.decisions[id].effect.value);
      }
    }
    forall id | id in w.db.journal
      ensures Authorized(w, id)
    {
      assert Authorized(v, id);
      BoundDrifts(v, w, id);
      assert E.RowGrows(v.db.journal[id], w.db.journal[id]);
    }
    forall id | id in w.host.steps && w.host.steps[id].effect.Some?
      ensures Settled(w, id, w.host.steps[id].effect.value)
    {
      if id in v.host.steps && v.host.steps[id].effect.Some? {
        SettledDrifts(v, w, id, v.host.steps[id].effect.value);
        EffectStays(v, w, id);
      }
    }
  }

  lemma {:induction false} EffectStays(v: World, w: World, id: string)
    requires Drifts(v, w) && id in v.host.steps && v.host.steps[id].effect.Some?
    ensures id in w.host.steps && w.host.steps[id].effect == v.host.steps[id].effect
  {
    hide StoreOk, E.DatabasesOk, Settled;
  }

  lemma {:induction false} CallDrifts(v: World, w: World, c: Call)
    requires StoreOk(v.host) && Drifts(v, w) && CallFits(v, c)
    ensures CallFits(w, c)
  {
    hide StoreOk, BoundOperation, MaterialFor, Drifts, FrameFits, Settled;
    assert w.decisions == v.decisions && w.ledger == v.ledger by { DecisionsDrift(v, w); }
    match c
    case DecisionWrite(id, m) => StepDrifts(v, w, id);
    case Effect(id, _, f) => FrameDrifts(v, w, id, f);
    case FinalWrite(id, _, receipt) => SettledDrifts(v, w, id, receipt);
    case _ =>
  }

  lemma {:induction false} DecisionsDrift(v: World, w: World)
    requires Drifts(v, w)
    ensures w.decisions == v.decisions && w.ledger == v.ledger
  {
    hide StoreOk, E.DatabasesOk;
  }

  lemma {:induction false} DriftKeeps(v: World, w: World)
    requires WorldOk(v) && Drifts(v, w) && w.active == v.active
    ensures WorldOk(w)
  {
    hide CallFits, Drifts, DecisionOk, Authorized, Settled;
    StoresDrift(v, w);
    if v.active.Some? {
      CallDrifts(v, w, v.active.value);
    }
  }

  /** The host's store changed, by a transaction that recorded no effect, and nothing else did. */
  lemma {:induction false} HostDrifts(v: World, w: World)
    requires StoresOk(v) && StoreOk(w.host) && StoreAdvances(v.host, w.host)
    requires w.db == v.db && w.decisions == v.decisions && w.ledger == v.ledger
    requires forall id :: id in w.host.steps && w.host.steps[id].effect.Some? ==>
               (id in v.host.steps && v.host.steps[id].effect.Some?) || Settled(w, id, w.host.steps[id].effect.value)
    ensures Drifts(v, w)
  {
    hide StoreOk, E.DatabasesOk, StoreAdvances, DecisionOk, Authorized, Settled;
    E.Unmoved(v.db);
  }

  /** `reconcile_effect` records only an effect whose intent and tool receipt agree. */
  lemma {:induction false} ReconcileIsSettled(w: World, id: string)
    requires StoresOk(w)
    ensures var (h, done) := ReconcileEffect(w.host, w.db.journal, w.db.tool, id);
            && StoreOk(h) && StoreAdvances(w.host, h)
            && (forall x :: x in h.steps && h.steps[x].effect.Some? ==>
                  (x in w.host.steps && w.host.steps[x].effect.Some?)
                    || Settled(w.(host := h), x, h.steps[x].effect.value))
            && (done.Ok? ==> id in h.steps && h.steps[id].effect.Some?)
  {
    hide StoreOk, E.DatabasesOk, DecisionOk, Authorized, Bind, ReceiptOk, StepRowOk;
    ReconcileKeeps(w.host, w.db.journal, w.db.tool, id);
    var (h, done) := ReconcileEffect(w.host, w.db.journal, w.db.tool, id);
    if id in w.host.steps {
      StepAt(w.host, id);
      if done.Ok? && w.host.steps[id].effect.Some? {
        assert Settled(w, id, w.host.steps[id].effect.value);
      }
      EffectFollowsState(w.host.steps[id]);
    }
    if h != w.host {
      E.EffectAt(w.db, id);
      var after := h.steps[id];
      assert BoundOperation(after) == BoundOperation(w.host.steps[id]);
      assert Settled(w.(host := h), id, after.effect.value);
    }
  }

  lemma {:induction false} EffectFollowsState(row: Row)
    requires StepRowOk(row)
    ensures row.effect.Some? <==> row.state in {EffectApplied, EffectRejected}
  {
    hide Bind, StepOk, ReceiptOk;
  }

  // ------------------------------------------------------------- decisions

  /** Writing a decision that fits its material and authorizes at least what the old one did. */
  lemma {:induction false} DecisionWritten(w: World, id: string, row: Decision, next: Option<Call>)
    requires StoresOk(w) && MaterialFits(w.host, id, row.material) && ProofFits(row) && ProofStands(w.ledger, row)
    requires row.state.Done? ==> Settled(w, id, row.effect.value)
    requires id in w.db.journal ==> row.state == Executing || row.state.Done?
    ensures StoresOk(WriteDecision(w, id, row).(active := next))
  {
    hide StoreOk, E.DatabasesOk, MaterialFits, Settled, BoundOperation;
    var v := WriteDecision(w, id, row).(active := next);
    SettledIgnoresDecisions(w, v);
    forall x | x in v.decisions
      ensures DecisionOk(v, x)
    {
      if x == id {
        assert v.decisions[x] == row && (row.state.Done? ==> Settled(v, id, row.effect.value));
      } else {
        assert DecisionOk(w, x);
      }
    }
    forall x | x in v.db.journal
      ensures Authorized(v, x)
    {
      assert Authorized(w, x);
    }
  }

  lemma {:induction false} SettledIgnoresDecisions(v: World, w: World)
    requires v.host == w.host && v.db == w.db
    ensures forall id, receipt :: Settled(v, id, receipt) ==> Settled(w, id, receipt)
  {
  }

  lemma {:induction false} DecisionAt(w: World, id: string)
    requires StoresOk(w) && id in w.decisions
    ensures DecisionOk(w, id)
  {
    hide StoreOk, E.DatabasesOk, DecisionOk, Authorized, Settled;
  }

  lemma {:induction false} LedgerOk(w: World)
    requires StoresOk(w)
    ensures RunsOk(w.ledger)
  {
    hide StoreOk, E.DatabasesOk, DecisionOk, Authorized, Settled;
  }

  lemma {:induction false} IntentAuthorized(w: World, id: string)
    requires StoresOk(w) && id in w.db.journal
    ensures Authorized(w, id)
  {
    hide StoreOk, E.DatabasesOk, DecisionOk, Authorized, Settled;
  }

  lemma {:induction false} MaterialReadFits(h: Store, id: string, evidence: Option<TerminalEvidence>)
    ensures MaterialOf(h, id, evidence).Some? ==> MaterialFits(h, id, MaterialOf(h, id, evidence).value)
  {
  }

  lemma {:induction false} DecideKeeps(w: World, c: Call, evidence: Option<TerminalEvidence>)
    requires WorldOk(w) && w.active == Some(c) && IsDecideCall(c)
    ensures WorldOk(DecideStep(w, c, evidence))
  {
    hide StoresOk, MaterialOf, MaterialFits, HasEffect, BlockedByPending;
    StoresIgnoreActive(w, DecideStep(w, c, evidence).active);
    match c
    case TerminalStore(id, seen, noted) => TerminalStored(w, seen, noted, DecideStep(w, c, evidence).active);
    case MaterialRead(id) => MaterialReadFits(w.host, id, evidence);
    case DecisionWrite(id, m) =>
      if id in w.db.journal {
        IntentAuthorized(w, id);
      }
      LedgerOk(w);
      FreshRunHasNoEvents(w.ledger, |w.ledger|);
      DecisionWritten(w, id, Decision(Deciding, m, None, None), DecideStep(w, c, evidence).active);
    case _ =>
  }

  lemma {:induction false} StoresIgnoreActive(w: World, active: Option<Call>)
    requires StoresOk(w)
    ensures StoresOk(w.(active := active))
  {
    hide StoreOk, E.DatabasesOk, BoundOperation, MaterialFits, ProofFits;
    var v := w.(active := active);
    SettledIgnoresDecisions(w, v);
    forall x | x in v.decisions
      ensures DecisionOk(v, x)
    {
      assert DecisionOk(w, x);
    }
    forall x | x in v.db.journal
      ensures Authorized(v, x)
    {
      assert Authorized(w, x);
    }
  }

  lemma {:induction false} TerminalStored(w: World, seen: Row, noted: Option<TerminalEvidence>, active: Option<Call>)
    requires StoresOk(w)
    ensures var v := w.(host := StoreTerminal(w.host, w.db.journal, seen, noted).0);
            StoresOk(v.(active := active)) && Drifts(w, v)
  {
    hide StoreOk, E.DatabasesOk, DecisionOk, Authorized, Settled, StoreTerminal, StoreAdvances, Drifts;
    StoreTerminalKeeps(w.host, w.db.journal, seen, noted);
    NoEffectStored(w.host, w.db.journal, seen, noted);
    var v := w.(host := StoreTerminal(w.host, w.db.journal, seen, noted).0);
    HostDrifts(w, v);
    StoresDrift(w, v);
    StoresIgnoreActive(v, active);
  }

  lemma {:induction false} NoEffectStored(h: Store, j: JournalState, seen: Row, noted: Option<TerminalEvidence>)
    requires StoreOk(h)
    ensures var g := StoreTerminal(h, j, seen, noted).0;
            forall x :: x in g.steps && g.steps[x].effect.Some? ==> x in h.steps && h.steps[x].effect.Some?
  {
    hide StoreOk, WithTerminal;
    if seen.operationId in h.steps {
      hide StepRowOk;
      StepAt(h, seen.operationId);
    }
  }

  lemma {:induction false} SettleKeeps(w: World, c: Call, evidence: Option<TerminalEvidence>)
    requires WorldOk(w) && w.active == Some(c) && IsSettleCall(c)
    ensures WorldOk(SettleStep(w, c, evidence))
  {
    hide StoresOk, MaterialOf, MaterialFits, HasEffect, BlockedByPending, Checked, ProofOf, ControllerEvent, EventsOf;
    var next := SettleStep(w, c, evidence).active;
    StoresIgnoreActive(w, next);
    match c
    case CloseWrite(id, row) => ClosedWritten(w, id, row);
    case CommitWrite(id, row, proof) => CommitWritten(w, id, row, proof);
    case ControllerRun(id, row, run, written) =>
      if row.material.Offered? {
        RunWritten(w, id, row, run, written, next);
      }
    case _ =>
  }

  lemma {:induction false} EventsAppend(ledger: seq<RouteRecord>, record: RouteRecord, run: nat)
    ensures EventsOf(ledger + [record], run)
            == EventsOf(ledger, run) + (if record.run == run then [record.event] else [])
  {
    assert (ledger + [record])[..|ledger|] == ledger;
  }

  lemma {:induction false} RunsAppend(ledger: seq<RouteRecord>, record: RouteRecord, contract: Contract)
    ensures RunsFor(ledger + [record], contract)
         == RunsFor(ledger, contract) + (if record.event == RunReceived(contract) then [record.run] else [])
  {
    assert (ledger + [record])[..|ledger|] == ledger;
  }

  lemma {:induction false} FreshRunHasNoEvents(ledger: seq<RouteRecord>, run: nat)
    requires RunsOk(ledger) && run >= |ledger|
    ensures EventsOf(ledger, run) == []
  {
    if ledger != [] {
      FreshRunHasNoEvents(ledger[..|ledger| - 1], run);
    }
  }

  /** A finished proof is untouched by a record of another contract's unfinished run. */
  lemma {:induction false} ProofIsPermanent(ledger: seq<RouteRecord>, record: RouteRecord, row: Decision)
    requires ProofStands(ledger, row)
    requires |EventsOf(ledger, record.run)| < 4
    requires row.material.Offered? ==> record.event != RunReceived(row.material.contract)
    ensures ProofStands(ledger + [record], row)
  {
    hide RunsFor, EventsOf, EvaluateGates;
    if row.proof.Some? {
      var run := RunsFor(ledger, row.material.contract)[0];
      RunsAppend(ledger, record, row.material.contract);
      EventsAppend(ledger, record, run);
      assert |EventsOf(ledger, run)| == 4 && run != record.run;
      assert RunsFor(ledger + [record], row.material.contract) == RunsFor(ledger, row.material.contract);
      assert EventsOf(ledger + [record], run) == EventsOf(ledger, run);
    }
  }

  lemma {:induction false} ContractNamesItsStep(h: Store, id: string, m: Material)
    requires StoreOk(h) && MaterialFits(h, id, m)
    ensures m.core.operationId == id && (m.Offered? ==> m.contract.core.operationId == id)
  {
    hide StoreOk, Bind;
    StepAt(h, id);
  }

  lemma {:induction false} RunWritten(w: World, id: string, row: Decision, run: nat, written: nat, next: Option<Call>)
    requires StoresOk(w) && Held(w, id, row) && row.state == Deciding && row.material.Offered?
    requires run <= |w.ledger| && written <= 3 && |EventsOf(w.ledger, run)| == written
    ensures var ledger := w.ledger + [RouteRecord(run, ControllerEvent(row.material, written))];
            StoresOk(w.(ledger := ledger, active := next)) && |EventsOf(ledger, run)| == written + 1
  {
    hide StoreOk, E.DatabasesOk, BoundOperation, MaterialFits, ProofFits, EventsOf, ProofStands, EvaluateGates;
    var record := RouteRecord(run, ControllerEvent(row.material, written));
    var v := w.(ledger := w.ledger + [record], active := next);
    EventsAppend(w.ledger, record, run);
    SettledIgnoresDecisions(w, v);
    assert DecisionOk(w, id);
    ContractNamesItsStep(w.host, id, row.material);
    forall x | x in v.decisions
      ensures DecisionOk(v, x)
    {
      assert DecisionOk(w, x);
      if x == id {
        NoProofYet(row, v.ledger);
      } else {
        ContractNamesItsStep(w.host, x, w.decisions[x].material);
        ProofIsPermanent(w.ledger, record, w.decisions[x]);
      }
    }
    forall x | x in v.db.journal
      ensures Authorized(v, x)
    {
      assert Authorized(w, x);
    }
  }

  lemma {:induction false} NoProofYet(row: Decision, ledger: seq<RouteRecord>)
    requires row.state == Deciding && ProofFits(row)
    ensures ProofStands(ledger, row)
  {
  }

  /** A deciding row has no intent yet. */
  lemma {:induction false} DecidingHasNoIntent(w: World, id: string, row: Decision)
    requires StoresOk(w) && Held(w, id, row) && row.state == Deciding
    ensures id !in w.db.journal && DecisionOk(w, id)
  {
    hide StoresOk, MaterialFits, Settled, StoreOk, E.DatabasesOk, DecisionOk;
    DecisionAt(w, id);
    if id in w.db.journal {
      IntentAuthorized(w, id);
    }
  }

  lemma {:induction false} ClosedWritten(w: World, id: string, row: Decision)
    requires StoresOk(w) && Held(w, id, row) && row.state == Deciding
    ensures row.material.Unavailable? ==>
            StoresOk(Ended(WriteDecision(w, id, row.(state := Closed(row.material.state)))))
  {
    hide StoresOk, MaterialFits, Settled, StoreOk, E.DatabasesOk;
    DecidingHasNoIntent(w, id, row);
    if row.material.Unavailable? {
      DecisionWritten(w, id, row.(state := Closed(row.material.state)), None);
    }
  }

  lemma {:induction false} CommitWritten(w: World, id: string, row: Decision, proof: Proof)
    requires StoresOk(w) && Held(w, id, row) && row.state == Deciding
    requires row.material.Offered? && ProofOf(w.ledger, row.material) == Some(proof)
    ensures StoresOk(Ended(WriteDecision(w, id, Committed(row, proof))))
  {
    hide StoresOk, MaterialFits, Settled, StoreOk, E.DatabasesOk, ProofOf;
    DecidingHasNoIntent(w, id, row);
    DecisionWritten(w, id, Committed(row, proof), None);
  }

  // ------------------------------------------------------------- execution

  lemma {:induction false} StepAddsOwnIntent(d: E.Databases, f: E.Frame)
    requires f.Starting? || E.Working(f)
    ensures var e := E.Step(d, f).0;
            forall id :: id in e.journal ==>
              id in d.journal || (id == f.op.operationId && e.journal[id].payload == f.op)
  {
    hide ApplyOp, LookupReceipt;
  }

  lemma {:induction false} StepKeepsOperation(d: E.Databases, f: E.Frame)
    requires E.DatabasesOk(d) && E.FrameOk(d, f) && (f.Starting? || E.Working(f))
    ensures var g := E.Step(d, f).1;
            (E.Working(g) || E.Ended(g)) && (E.Working(g) || g.Finished? ==> g.op == f.op)
  {
    hide E.DatabasesOk, ApplyOp, E.PendingRow, LookupReceipt;
    if f.Starting? {
      E.PrepareKeeps(d, f.op);
    } else {
      E.StepProgresses(d, f);
    }
  }

  lemma {:induction false} EffectKeeps(w: World, id: string, row: Decision, f: E.Frame)
    requires StoresOk(w) && Held(w, id, row) && row.state == Executing && FrameFits(w, id, f)
    ensures var v := w.(db := E.Step(w.db, f).0);
            StoresOk(v) && (var g := E.Step(w.db, f).1; E.Working(g) ==> FrameFits(v, id, g))
  {
    hide StoreOk, E.DatabasesOk, E.Step, BoundOperation, MaterialFits, ProofFits, E.Grows;
    var v := w.(db := E.Step(w.db, f).0);
    E.StepKeeps(w.db, f);
    StepAddsOwnIntent(w.db, f);
    StepKeepsOperation(w.db, f);
    BoundIsOwn(w.host, id);
    forall x, receipt | Settled(w, x, receipt)
      ensures Settled(v, x, receipt)
    {
      SettledGrows(w, v, x, receipt);
    }
    forall x | x in v.decisions
      ensures DecisionOk(v, x)
    {
      assert DecisionOk(w, x);
    }
    forall x | x in v.db.journal
      ensures Authorized(v, x)
    {
      if x in w.db.journal {
        assert Authorized(w, x);
        PayloadGrows(w.db, v.db, x);
      }
    }
  }

  lemma {:induction false} PayloadGrows(d: E.Databases, e: E.Databases, id: string)
    requires E.Grows(d, e) && id in d.journal
    ensures id in e.journal && e.journal[id].payload == d.journal[id].payload
            && (d.journal[id].complete ==> e.journal[id].complete)
  {
  }

  lemma {:induction false} SettledGrows(v: World, w: World, id: string, receipt: Receipt)
    requires w.host == v.host && E.Grows(v.db, w.db) && Settled(v, id, receipt)
    ensures Settled(w, id, receipt)
  {
    hide BoundOperation;
    PayloadGrows(v.db, w.db, id);
  }

  lemma {:induction false} ReceiptIsSettled(w: World, id: string, row: Decision)
    requires StoresOk(w) && ReceiptOf(w, id, row).Some?
    ensures Settled(w, id, ReceiptOf(w, id, row).value)
  {
    hide StoreOk, E.DatabasesOk, DecisionOk, Authorized, BoundOperation, Settled;
    E.EffectAt(w.db, id);
    var receipt := ReceiptOf(w, id, row).value;
    assert E.ReceiptIs(w.db.tool, id, BoundOperation(w.host.steps[id]).value, receipt);
    assert Settled(w, id, receipt);
  }

  lemma {:induction false} EffectStepKeeps(w: World, id: string, row: Decision, f: E.Frame,
                                           evidence: Option<TerminalEvidence>)
    requires WorldOk(w) && w.active == Some(Effect(id, row, f))
    ensures WorldOk(ExecuteStep(w, Effect(id, row, f), evidence))
  {
    hide StoresOk, E.Step, FrameFits, E.Ended, E.Working;
    var v := ExecuteStep(w, Effect(id, row, f), evidence);
    EffectKeeps(w, id, row, f);
    StoresIgnoreActive(w.(db := E.Step(w.db, f).0), v.active);
    StepKeepsOperationOf(w, id, f);
    FrameFitsIgnoresActive(w.(db := E.Step(w.db, f).0), v.active);
  }

  lemma {:induction false} FrameFitsIgnoresActive(w: World, active: Option<Call>)
    ensures forall id, f :: FrameFits(w, id, f) ==> FrameFits(w.(active := active), id, f)
  {
    hide E.FrameOk, BoundOperation;
  }

  lemma {:induction false} ReconcileStepKeeps(w: World, id: string, row: Decision, evidence: Option<TerminalEvidence>)
    requires WorldOk(w) && w.active == Some(ReconcileWrite(id, row))
    ensures WorldOk(ExecuteStep(w, ReconcileWrite(id, row), evidence))
  {
    hide StoresOk, ReconcileEffect, Settled, Drifts;
    ReconcileStored(w, id, ExecuteStep(w, ReconcileWrite(id, row), evidence).active);
  }

  lemma {:induction false} ReceiptStepKeeps(w: World, id: string, row: Decision, evidence: Option<TerminalEvidence>)
    requires WorldOk(w) && w.active == Some(ReceiptRead(id, row))
    ensures WorldOk(ExecuteStep(w, ReceiptRead(id, row), evidence))
  {
    hide StoresOk, ReceiptOf, Settled;
    var v := ExecuteStep(w, ReceiptRead(id, row), evidence);
    StoresIgnoreActive(w, v.active);
    if ReceiptOf(w, id, row).Some? {
      ReceiptIsSettled(w, id, row);
      SettledIgnoresDecisions(w, v);
    }
  }

  lemma {:induction false} FinalStepKeeps(w: World, id: string, row: Decision, receipt: Receipt,
                                          evidence: Option<TerminalEvidence>)
    requires WorldOk(w) && w.active == Some(FinalWrite(id, row, receipt))
    ensures WorldOk(ExecuteStep(w, FinalWrite(id, row, receipt), evidence))
  {
    hide StoresOk, MaterialFits, Settled, StoreOk, E.DatabasesOk;
    DecisionAt(w, id);
    DecisionWritten(w, id, row.(state := Done(receipt.status), effect := Some(receipt)), None);
  }

  lemma {:induction false} ExecuteKeeps(w: World, c: Call, evidence: Option<TerminalEvidence>)
    requires WorldOk(w) && w.active == Some(c) && !IsDecideCall(c) && !IsSettleCall(c)
    ensures WorldOk(ExecuteStep(w, c, evidence))
  {
    hide StoresOk, MaterialFits, HasEffect, BlockedByPending, Checked, BoundOperation, ExecuteStep;
    if c.Effect? {
      EffectStepKeeps(w, c.id, c.row, c.frame, evidence);
    } else if c.ReconcileWrite? {
      ReconcileStepKeeps(w, c.id, c.row, evidence);
    } else if c.ReceiptRead? {
      ReceiptStepKeeps(w, c.id, c.row, evidence);
    } else if c.FinalWrite? {
      FinalStepKeeps(w, c.id, c.row, c.receipt, evidence);
    } else {
      PrepareExecutionKeeps(w, c, evidence);
    }
  }

  lemma {:induction false} ExecutingWriteKeeps(w: World, id: string, row: Decision, evidence: Option<TerminalEvidence>)
    requires WorldOk(w) && w.active == Some(ExecutingWrite(id, row))
    ensures WorldOk(ExecuteStep(w, ExecutingWrite(id, row), evidence))
  {
    hide StoresOk, MaterialFits, StoreOk, E.DatabasesOk, Settled, ProofOf;
    DecisionAt(w, id);
    DecisionWritten(w, id, row.(state := Executing), ExecuteStep(w, ExecutingWrite(id, row), evidence).active);
  }

  lemma {:induction false} OperationReadKeeps(w: World, id: string, row: Decision, evidence: Option<TerminalEvidence>)
    requires WorldOk(w) && w.active == Some(OperationRead(id, row))
    ensures WorldOk(ExecuteStep(w, OperationRead(id, row), evidence))
  {
    hide StoresOk, BoundOperation, FrameFits;
    var v := ExecuteStep(w, OperationRead(id, row), evidence);
    StoresIgnoreActive(w, v.active);
    if id in w.host.steps && BoundOperation(w.host.steps[id]).Some? {
      BoundOk(w, id);
      FrameFitsIgnoresActive(w, v.active);
    }
  }

  lemma {:induction false} PrepareExecutionKeeps(w: World, c: Call, evidence: Option<TerminalEvidence>)
    requires WorldOk(w) && w.active == Some(c) && !IsDecideCall(c) && !IsSettleCall(c)
    requires !c.Effect? && !c.ReconcileWrite? && !c.ReceiptRead? && !c.FinalWrite?
    ensures WorldOk(ExecuteStep(w, c, evidence))
  {
    hide StoresOk, HasEffect, BlockedByPending, Checked;
    match c
    case ExecutingWrite(id, row) => ExecutingWriteKeeps(w, id, row, evidence);
    case OperationRead(id, row) => OperationReadKeeps(w, id, row, evidence);
    case _ => StoresIgnoreActive(w, ExecuteStep(w, c, evidence).active);
  }

  lemma {:induction false} StepKeepsOperationOf(w: World, id: string, f: E.Frame)
    requires StoresOk(w) && FrameFits(w, id, f)
    ensures var g := E.Step(w.db, f).1; E.Working(g) || E.Ended(g)
  {
    hide StoreOk, BoundOperation, DecisionOk, Authorized;
    StepKeepsOperation(w.db, f);
  }

  lemma {:induction false} BoundOk(w: World, id: string)
    requires StoresOk(w) && id in w.host.steps && BoundOperation(w.host.steps[id]).Some?
    ensures FrameFits(w, id, E.Starting(BoundOperation(w.host.steps[id]).value))
  {
    hide StoreOk, E.DatabasesOk, BoundOperation, DecisionOk, Authorized;
    BoundIsOwn(w.host, id);
  }

  lemma {:induction false} ReconcileStored(w: World, id: string, active: Option<Call>)
    requires StoresOk(w)
    ensures var v := w.(host := ReconcileEffect(w.host, w.db.journal, w.db.tool, id).0);
            StoresOk(v.(active := active)) && Drifts(w, v)
  {
    hide StoreOk, E.DatabasesOk, DecisionOk, Authorized, Settled, ReconcileEffect, StoreAdvances, Drifts;
    ReconcileIsSettled(w, id);
    var v := w.(host := ReconcileEffect(w.host, w.db.journal, w.db.tool, id).0);
    HostDrifts(w, v);
    StoresDrift(w, v);
    StoresIgnoreActive(v, active);
  }

  // ------------------------------------------------------------- every run

  lemma {:induction false} HostToolDrifts(w: World, call: ToolCall)
    requires StoresOk(w) && CallOk(call) && !call.ApplyCall?
    ensures Drifts(w, w.(db := w.db.(tool := CallTool(w.db.tool, call))))
  {
    hide StoreOk, E.DatabasesOk, DecisionOk, Authorized, Settled, CallTool, E.Grows;
    E.HostKeeps(w.db, call);
    StandsStill(w.host);
  }

  lemma {:induction false} HostStepDrifts(w: World, a: Action)
    requires StoresOk(w) && ActionOk(a) && (a.HostAllocate? || a.HostRequest? || a.HostReconcile?)
    ensures Drifts(w, HostStepOf(w, a))
  {
    hide StoreOk, StoreAdvances, E.DatabasesOk, DecisionOk, Authorized, Settled, Drifts, ReconcileEffect;
    var v := HostStepOf(w, a);
    match a
    case HostAllocate(step) =>
      AllocateKeeps(w.host, w.db.journal, step);
      HostDrifts(w, v);
    case HostRequest(id, request, policy) =>
      BeginRequestKeeps(w.host, w.db.journal, id, request, policy);
      NoEffectRequested(w.host, w.db.journal, id, request, policy);
      HostDrifts(w, v);
    case HostReconcile(id) =>
      ReconcileIsSettled(w, id);
      HostDrifts(w, v);
  }

  lemma {:induction false} NoEffectRequested(h: Store, j: JournalState, id: string, request: string, policy: string)
    requires StoreOk(h)
    ensures var g := BeginRequest(h, j, id, request, policy).0;
            forall x :: x in g.steps && g.steps[x].effect.Some? ==> x in h.steps && h.steps[x].effect.Some?
  {
    hide StoreOk;
    if id in h.steps {
      hide StepRowOk;
      StepAt(h, id);
    }
  }

  lemma {:induction false} NextKeeps(w: World, a: Action)
    requires WorldOk(w) && ActionOk(a)
    ensures WorldOk(Next(w, a))
  {
    hide StoresOk, Drifts, DecideStep, SettleStep, ExecuteStep, Allocate, BeginRequest, StoreTerminal, ReconcileEffect,
         CallTool;
    match a
    case Advance(evidence) =>
      if w.active.Some? {
        var c := w.active.value;
        if IsDecideCall(c) {
          DecideKeeps(w, c, evidence);
        } else if IsSettleCall(c) {
          SettleKeeps(w, c, evidence);
        } else {
          ExecuteKeeps(w, c, evidence);
        }
      }
    case HostTerminal(seen, evidence) =>
      TerminalStored(w, seen, evidence, w.active);
      DriftKeeps(w, Next(w, a));
    case HostTool(call) =>
      HostToolDrifts(w, call);
      DriftKeeps(w, Next(w, a));
    case HostAllocate(_) => HostStepDrifts(w, a); DriftKeeps(w, Next(w, a));
    case HostRequest(_, _, _) => HostStepDrifts(w, a); DriftKeeps(w, Next(w, a));
    case HostReconcile(_) => HostStepDrifts(w, a); DriftKeeps(w, Next(w, a));
    case _ => StoresIgnoreActive(w, Next(w, a).active);
  }

  predicate ActionsOk(actions: seq<Action>) {
    forall i :: 0 <= i < |actions| ==> ActionOk(actions[i])
  }

  lemma {:induction false} EveryRunIsOk(actions: seq<Action>)
    requires ActionsOk(actions)
    ensures WorldOk(Run(actions))
  {
    hide WorldOk, Next, ActionOk;
    if actions == [] {
      EmptyIsOk();
    } else {
      EveryRunIsOk(actions[..|actions| - 1]);
      NextKeeps(Run(actions[..|actions| - 1]), actions[|actions| - 1]);
    }
  }

  lemma {:induction false} EmptyIsOk()
    ensures WorldOk(EmptyWorld)
  {
  }

  /**
   Cross-database authority. Over every run, an intent or a tool receipt exists for an
   operation only if its decision is executing or done, with a proof that accepted it and a
   material that does not abstain; and the operation is the one binding put inside the host
   step's scope.
   */
  lemma {:induction false} NothingWithoutAuthority(actions: seq<Action>, id: string)
    requires ActionsOk(actions)
    requires id in Run(actions).db.journal || id in Run(actions).db.tool.receipts
    ensures var w := Run(actions);
            && id in w.db.journal && id in w.decisions
            && (w.decisions[id].state == Executing || w.decisions[id].state.Done?)
            && IsAccepted(w.decisions[id])
            && id in w.host.steps && MaterialFor(w.host.steps[id]) == Some(w.decisions[id].material)
            && InScope(w.db.journal[id].payload, w.host.steps[id].payload)
            && BoundOperation(w.host.steps[id]) == Some(w.db.journal[id].payload)
            && (id in w.db.tool.receipts ==> w.db.tool.receipts[id].payload == w.db.journal[id].payload)
  {
    hide StoreOk, E.DatabasesOk, BoundOperation, MaterialFor, Next, Settled, InScope;
    var w := Run(actions);
    EveryRunIsOk(actions);
    if id in w.db.tool.receipts {
      E.EffectAt(w.db, id);
    }
    IntentAuthorized(w, id);
    DecisionAt(w, id);
    BoundIsOwn(w.host, id);
  }

  // ------------------------------------------------------------- one effect

  /** This action is the route changing the inventory on behalf of operation `id`. */
  ghost predicate Affects(w: World, a: Action, id: string) {
    && a.Advance? && w.active.Some? && w.active.value.Effect? && w.active.value.frame.Absent?
    && w.active.value.frame.op.operationId == id
    && Next(w, a).db.tool.inventory != w.db.tool.inventory
  }

  ghost function EffectCount(actions: seq<Action>, id: string): nat {
    if actions == [] then 0
    else
      var before := actions[..|actions| - 1];
      EffectCount(before, id) + (if Affects(Run(before), actions[|actions| - 1], id) then 1 else 0)
  }

  lemma {:induction false} ActionAffects(w: World, a: Action, id: string)
    requires WorldOk(w) && ActionOk(a)
    ensures Affects(w, a, id) <==> !E.WasApplied(w.db.tool, id) && E.WasApplied(Next(w, a).db.tool, id)
    ensures E.WasApplied(w.db.tool, id) ==> E.WasApplied(Next(w, a).db.tool, id)
  {
    hide StoreOk, E.DatabasesOk, DecideStep, SettleStep, ApplyOp, Prepare, LookupReceipt, RecordReceipt, Complete,
         BoundOperation,
      ReconcileEffect, DecisionOk, Authorized, Settled, MaterialFor, E.PendingRow;
    if a.Advance? && w.active.Some? {
      var c := w.active.value;
      if IsDecideCall(c) || IsSettleCall(c) {
        DecidingTouchesNoDatabase(w, c, a.evidence);
      } else if c.Effect? && c.frame.Absent? {
        E.ApplyAffects(w.db, c.frame.op, id);
      } else {
        OthersTouchNoTool(w, c, a.evidence);
      }
    }
  }

  lemma {:induction false} DecidingTouchesNoDatabase(w: World, c: Call, evidence: Option<TerminalEvidence>)
    ensures DecideStep(w, c, evidence).db == w.db && SettleStep(w, c, evidence).db == w.db
  {
    hide MaterialOf, Checked, ProofOf, StoreTerminal, ControllerEvent, HasEffect, BlockedByPending;
  }

  lemma {:induction false} OthersTouchNoTool(w: World, c: Call, evidence: Option<TerminalEvidence>)
    requires !(c.Effect? && c.frame.Absent?)
    ensures ExecuteStep(w, c, evidence).db.tool == w.db.tool
  {
    hide Checked, HasEffect, BlockedByPending, ReceiptOf, ReconcileEffect, BoundOperation, Prepare, E.PendingRow,
         RecordReceipt, Complete;
  }

  /** Exactly once, across the five stores: one inventory change per applied receipt, and never another. */
  lemma {:induction false} ExactlyOneEffect(actions: seq<Action>, id: string)
    requires ActionsOk(actions)
    ensures EffectCount(actions, id) == if E.WasApplied(Run(actions).db.tool, id) then 1 else 0
  {
    hide WorldOk, Next, ActionOk, Affects, E.WasApplied;
    if actions == [] {
      EmptyHasNoReceipt(id);
    } else {
      var before := actions[..|actions| - 1];
      ExactlyOneEffect(before, id);
      EveryRunIsOk(before);
      ActionAffects(Run(before), actions[|actions| - 1], id);
    }
  }

  lemma {:induction false} EmptyHasNoReceipt(id: string)
    ensures !E.WasApplied(EmptyWorld.db.tool, id)
  {
  }

  /** A done decision reports the one receipt the tool stored for the bound operation. */
  lemma {:induction false} DoneIsTheToolsReceipt(actions: seq<Action>, id: string)
    requires ActionsOk(actions) && id in Run(actions).decisions && Run(actions).decisions[id].state.Done?
    ensures var w := Run(actions);
            && w.decisions[id].effect.Some? && Settled(w, id, w.decisions[id].effect.value)
            && w.decisions[id].state == Done(w.decisions[id].effect.value.status)
            && (EffectCount(actions, id) == 1 <==> w.decisions[id].state == Done(StatusApplied))
  {
    hide StoreOk, E.DatabasesOk, BoundOperation, MaterialFor, Next;
    var w := Run(actions);
    EveryRunIsOk(actions);
    DecisionAt(w, id);
    ExactlyOneEffect(actions, id);
    E.EffectAt(w.db, id);
  }

  /** The two gates admit the material of every recorded proposal. */
  lemma {:induction false} VerifiedMaterialIsAdmitted(h: Store, id: string, m: Material)
    requires StoreOk(h) && MaterialFits(h, id, m) && m.Offered?
    ensures EvaluateGates(m, m.contract, m.candidate) == GateResults(true, true)
  {
    hide StoreOk, Bind;
    StepAt(h, id);
    if BoundOperation(h.steps[id]).Some? {
      BoundIsOwn(h, id);
    }
  }
}
