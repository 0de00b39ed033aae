/**
 Human approval: a run stops at a checkpoint and a later `resume` may turn it into a success.

 Runs of several processes append to one hash-chained ledger. A run's own records are appended
 one at a time, each linked to the head that its process had read, which another process may
 have passed meanwhile. A checkpoint and the terminal record after it are one transaction, and
 so are the two records a resume writes; those always see the whole ledger.
 */
module Resume {
  import opened Prelude
  import opened HashChain
  import opened RepairScopes
  import opened RepairPolicy
  import opened Controller
  import RunMonotonicity

  datatype Checkpoint = Checkpoint(
    runId: string,
    contract: string,
    attempt: int,
    proposal: Proposal,
    gates: seq<GateResult>,
    controlPlane: string)

  /** `RunCheckpoint.__post_init__`, on values whose digests are the values themselves. */
  predicate CheckpointOk(cp: Checkpoint) {
    && NotBlank(cp.runId) && cp.attempt >= 1
    && cp.gates != [] && (forall g :: g in cp.gates ==> g.passed)
    && (forall i, j :: 0 <= i < j < |cp.gates| ==> cp.gates[i].gate != cp.gates[j].gate)
  }

  datatype RunEvent =
    | Noted(what: string)
    | Checkpointed(checkpoint: Checkpoint)
    | Finished(status: Status, attempts: int, reason: RunReason)
    | Resumed(checkpointSequence: int, contract: string, controlPlane: string)

  datatype Entry = Entry(runId: string, event: RunEvent)

  type Record = Link<Entry>

  datatype ResumeError =
    | NotFound
    | NotEligible
    | CheckpointInvalid
    | ControlPlaneMismatch
    | ContractMismatch
    | ApprovalMissing
    | ChainBroken

  /** The arguments of `resume`, and what the controller's own gates and control plane are now. */
  datatype ResumeCall = ResumeCall(
    runId: string,
    contract: string,
    gateNames: seq<string>,
    controlPlane: Option<string>,
    approved: bool)

  function RecordsOf(records: seq<Record>, runId: string): seq<Record> {
    if records == [] then []
    else
      var last := records[|records| - 1];
      RecordsOf(records[..|records| - 1], runId) + (if last.body.runId == runId then [last] else [])
  }

  function LastFinished(rs: seq<Record>): (last: Option<Record>)
    ensures last.Some? ==> last.value in rs && last.value.body.event.Finished?
  {
    if rs == [] then None
    else if rs[|rs| - 1].body.event.Finished? then Some(rs[|rs| - 1])
    else LastFinished(rs[..|rs| - 1])
  }

  function GateNames(gates: seq<GateResult>): (names: seq<string>)
    ensures |names| == |gates| && forall i :: 0 <= i < |gates| ==> names[i] == gates[i].gate
  {
    seq(|gates|, i requires 0 <= i < |gates| => gates[i].gate)
  }

  /** The checks of `_resume_locked`, in order; the checkpoint it accepts. */
  function ResumeChecks(records: seq<Record>, call: ResumeCall): Result<Checkpoint, ResumeError> {
    var rs := RecordsOf(records, call.runId);
    if !NotBlank(call.runId) then Err(NotFound)
    else if !ChainOk(records) then Err(ChainBroken)
    else if rs == [] then Err(NotFound)
    else
      var terminal := LastFinished(rs);
      if terminal.None? then Err(NotEligible)
      else if terminal.value.body.event.reason != HumanApprovalRequired then Err(NotEligible)
      else if terminal.value.body.event.status != Escalated then Err(CheckpointInvalid)
      else if terminal.value.sequence != rs[|rs| - 1].sequence then Err(CheckpointInvalid)
      else if |rs| < 2 || !rs[|rs| - 2].body.event.Checkpointed? then Err(CheckpointInvalid)
      else CheckpointChecks(rs[|rs| - 2].body.event.checkpoint, terminal.value.body.event.attempts, call)
  }

  function CheckpointChecks(cp: Checkpoint, attempts: int, call: ResumeCall): Result<Checkpoint, ResumeError> {
    if !CheckpointOk(cp) || cp.runId != call.runId || attempts != cp.attempt then Err(CheckpointInvalid)
    else if GateNames(cp.gates) != call.gateNames || call.controlPlane.None? then Err(CheckpointInvalid)
    else if call.controlPlane.value != cp.controlPlane then Err(ControlPlaneMismatch)
    else if cp.contract != call.contract then Err(ContractMismatch)
    else if !call.approved then Err(ApprovalMissing)
    else Ok(cp)
  }

  function Append(records: seq<Record>, runId: string, event: RunEvent): seq<Record> {
    records + [NextLink(records, Entry(runId, event))]
  }

  /** `resume`: the new ledger, and the run's result. */
  function DoResume(records: seq<Record>, call: ResumeCall): (seq<Record>, Result<RunResult, ResumeError>) {
    var checked := ResumeChecks(records, call);
    if checked.Err? then (records, Err(checked.error))
    else
      var cp := checked.value;
      var rs := RecordsOf(records, call.runId);
      var resumed := Append(records, call.runId,
                            Resumed(if |rs| >= 2 then rs[|rs| - 2].sequence else 0, cp.contract, cp.controlPlane));
      (Append(resumed, call.runId, Finished(Succeeded, cp.attempt, RunSucceeded)),
       Ok(RunResult(Succeeded, if cp.attempt >= 0 then cp.attempt else 0, Some(cp.proposal), cp.gates, RunSucceeded)))
  }

  // ------------------------------------------------------------- many runs over one ledger

  /** The record of an append that found `seen` records when it read the head; the ledger only grows. */
  function LinkSeeing(records: seq<Record>, seen: nat, runId: string, event: RunEvent): Record
    requires seen <= |records|
  {
    LinkAfter(records, records[..seen], Entry(runId, event))
  }

  datatype Runs = Runs(records: seq<Record>, active: set<string>)

  datatype Action =
    | Start(runId: string, seen: nat)
    | Note(runId: string, what: string, seen: nat)
    | Stop(runId: string, status: Status, attempts: int, reason: RunReason, seen: nat)
    | Pause(runId: string, setting: Setting, contract: string, controlPlane: string)
    | CallResume(call: ResumeCall)

  /**
   The record an action of a run appends by itself: identifiers are fresh, and a finished run appends
   nothing more.
   */
  function AppendedBy(s: Runs, a: Action): Option<Record> {
    match a
    case Start(id, seen) =>
      if RecordsOf(s.records, id) == [] && NotBlank(id) && seen <= |s.records|
      then Some(LinkSeeing(s.records, seen, id, Noted("run.received"))) else None
    case Note(id, what, seen) =>
      if id in s.active && seen <= |s.records| then Some(LinkSeeing(s.records, seen, id, Noted(what))) else None
    case Stop(id, status, attempts, reason, seen) =>
      if id in s.active && reason != HumanApprovalRequired && seen <= |s.records|
      then Some(LinkSeeing(s.records, seen, id, Finished(status, attempts, reason))) else None
    case Pause(_, _, _, _) => None
    case CallResume(_) => None
  }

  /** The controller's run on these inputs passed every gate and asks for human approval. */
  ghost predicate AsksForApproval(setting: Setting) {
    SettingOk(setting) && RunResultOf(setting).reason == HumanApprovalRequired
  }

  /** What such a run leaves behind: its proposal, with all gates passed on it. */
  lemma {:induction false} RunThatAsks(setting: Setting)
    requires AsksForApproval(setting)
    ensures var r := RunResultOf(setting);
            && r.proposal.Some? && r.results == Verdicts(setting.gates, r.proposal.value)
            && r.results != [] && AllPassed(r.results) && r.attempts >= 1 && r.status == Escalated
  {
    RunMonotonicity.RunOfSettingIsSound(setting);
    AttemptsAreCounted(EngineOf(setting), 1, InitialState);
    hide RunFrom, RunMonotonicity.Improvement, AllPassed, NextRepair, ScopedCandidateAccepted, DerivedScope;
  }

  lemma {:induction false} AttemptsAreCounted(e: Engine, attempt: nat, st: RunState)
    requires attempt >= 1 && e.maxAttempts >= 1
    ensures RunFrom(e, attempt, st).0.attempts >= 1
    decreases e.maxAttempts + 1 - attempt
  {
    hide RepairChain, AllPassed;
    if attempt <= e.maxAttempts {
      match Attempt(e, attempt, st)
      case Finish(_, _) =>
      case Continue(next) => AttemptsAreCounted(e, attempt + 1, next);
    }
  }

  predicate DistinctGates(gates: seq<GateResult>) {
    forall i, j :: 0 <= i < j < |gates| ==> gates[i].gate != gates[j].gate
  }

  /** The run can stop at a checkpoint; one with two gates of the same name raises before it writes. */
  ghost predicate Pauses(s: Runs, a: Action) {
    a.Pause? && a.runId in s.active && AsksForApproval(a.setting) && DistinctGates(RunResultOf(a.setting).results)
  }

  ghost function CheckpointOf(a: Action): Checkpoint
    requires a.Pause? && AsksForApproval(a.setting)
  {
    RunThatAsks(a.setting);
    var r := RunResultOf(a.setting);
    Checkpoint(a.runId, a.contract, r.attempts, r.proposal.value, r.results, a.controlPlane)
  }

  lemma {:induction false} CheckpointOfRunIsOk(s: Runs, a: Action)
    requires Pauses(s, a) && NotBlank(a.runId)
    ensures CheckpointOk(CheckpointOf(a)) && CheckpointOf(a).runId == a.runId
  {
    RunThatAsks(a.setting);
    hide AsksForApproval, RunResultOf;
  }

  function ActiveAfter(active: set<string>, a: Action): set<string> {
    match a
    case Start(id, _) => active + {id}
    case Stop(id, _, _, _, _) => active - {id}
    case _ => active
  }

  /** The one transaction that stops a run at its checkpoint. */
  function WithCheckpoint(records: seq<Record>, cp: Checkpoint): seq<Record> {
    Append(Append(records, cp.runId, Checkpointed(cp)), cp.runId,
           Finished(Escalated, cp.attempt, HumanApprovalRequired))
  }

  ghost function Next(s: Runs, a: Action): Runs {
    match a
    case Pause(id, _, _, _) =>
      if Pauses(s, a)
      then Runs(WithCheckpoint(s.records, CheckpointOf(a)), s.active - {id}) else s
    case CallResume(call) => s.(records := DoResume(s.records, call).0)
    case _ =>
      var link := AppendedBy(s, a);
      if link.None? then s
      else Runs(s.records + [link.value], ActiveAfter(s.active, a))
  }

  ghost function Run(actions: seq<Action>): Runs {
    if actions == [] then Runs([], {}) else Next(Run(actions[..|actions| - 1]), actions[|actions| - 1])
  }

  // ------------------------------------------------------------- the shapes a run's records can have

  predicate Plain(rs: seq<Record>) {
    forall i :: 0 <= i < |rs| ==> rs[i].body.event.Noted?
  }

  predicate Stopped(rs: seq<Record>) {
    && |rs| >= 1 && Plain(rs[..|rs| - 1]) && rs[|rs| - 1].body.event.Finished?
    && rs[|rs| - 1].body.event.reason != HumanApprovalRequired
  }

  /** Stopped at a checkpoint all of whose gates passed, waiting for approval. */
  predicate Waiting(rs: seq<Record>, cp: Checkpoint) {
    && |rs| >= 2 && Plain(rs[..|rs| - 2])
    && rs[|rs| - 2].body.event == Checkpointed(cp)
    && rs[|rs| - 1].body.event == Finished(Escalated, cp.attempt, HumanApprovalRequired)
    && CheckpointOk(cp)
  }

  /** Approved directly after such a checkpoint. */
  predicate Approved(rs: seq<Record>, cp: Checkpoint) {
    && |rs| >= 4 && Waiting(rs[..|rs| - 2], cp)
    && rs[|rs| - 2].body.event.Resumed?
    && rs[|rs| - 1].body.event == Finished(Succeeded, cp.attempt, RunSucceeded)
  }

  ghost predicate IsWaiting(rs: seq<Record>, id: string) {
    exists cp :: Waiting(rs, cp) && cp.runId == id
  }

  ghost predicate IsApproved(rs: seq<Record>, id: string) {
    exists cp :: Approved(rs, cp) && cp.runId == id
  }

  ghost predicate ShapeOk(s: Runs, id: string) {
    var rs := RecordsOf(s.records, id);
    && (id in s.active ==> Plain(rs) && NotBlank(id))
    && (Plain(rs) || Stopped(rs) || IsWaiting(rs, id) || IsApproved(rs, id))
  }

  /** `AUTOINCREMENT`: sequence numbers count the records, whatever the links between them. */
  predicate Numbered(records: seq<Record>) {
    forall i :: 0 <= i < |records| ==> records[i].sequence == i + 1
  }

  ghost predicate RunsOk(s: Runs) {
    Numbered(s.records) && forall id :: ShapeOk(s, id)
  }

  lemma {:induction false} RecordsAppend(records: seq<Record>, link: Record, id: string)
    ensures RecordsOf(records + [link], id) == RecordsOf(records, id) + (if link.body.runId == id then [link] else [])
  {
    assert (records + [link])[..|records|] == records;
  }

  predicate Ascending(rs: seq<Record>, bound: int) {
    && (forall i, j :: 0 <= i < j < |rs| ==> rs[i].sequence < rs[j].sequence)
    && (forall i :: 0 <= i < |rs| ==> rs[i].sequence <= bound)
  }

  /** Later records have later sequence numbers. */
  lemma {:induction false} RecordsAscend(records: seq<Record>, id: string)
    requires Numbered(records)
    ensures Ascending(RecordsOf(records, id), |records|)
  {
    if records != [] {
      var n := |records| - 1;
      RecordsAscend(records[..n], id);
      var before := RecordsOf(records[..n], id);
      assert Ascending(before, n);
    }
  }

  predicate LastFinishedAt(rs: seq<Record>, k: int) {
    0 <= k < |rs| && rs[k].body.event.Finished? && forall i :: k < i < |rs| ==> !rs[i].body.event.Finished?
  }

  lemma {:induction false} LastFinishedIsLast(rs: seq<Record>)
    ensures var t := LastFinished(rs);
            if t.None? then forall i :: 0 <= i < |rs| ==> !rs[i].body.event.Finished?
            else exists k :: LastFinishedAt(rs, k) && rs[k] == t.value
  {
    if rs != [] {
      if rs[|rs| - 1].body.event.Finished? {
        assert LastFinishedAt(rs, |rs| - 1);
      } else {
        var front := rs[..|rs| - 1];
        LastFinishedIsLast(front);
        if LastFinished(front).Some? {
          var k :| LastFinishedAt(front, k) && front[k] == LastFinished(front).value;
          assert LastFinishedAt(rs, k);
        }
      }
    }
  }

  /** The call names the checkpoint's run, gates, control plane and contract, and gives approval. */
  predicate Approves(call: ResumeCall, cp: Checkpoint) {
    && cp.runId == call.runId && GateNames(cp.gates) == call.gateNames && call.controlPlane == Some(cp.controlPlane)
    && cp.contract == call.contract && call.approved
  }

  /**
   A resume succeeds exactly when the ledger verifies, the run stands at a checkpoint waiting for approval and the
   caller's contract, gates and control plane are the checkpoint's and approval is given; it
   then returns the checkpoint's own proposal, every gate of which had passed.
   */
  lemma {:induction false} ResumesExactlyWhenWaiting(s: Runs, call: ResumeCall)
    requires RunsOk(s) && NotBlank(call.runId)
    ensures ResumeChecks(s.records, call).Ok? <==>
              && ChainOk(s.records)
              && exists cp :: Waiting(RecordsOf(s.records, call.runId), cp) && Approves(call, cp)
    ensures ResumeChecks(s.records, call).Ok? ==>
              && Waiting(RecordsOf(s.records, call.runId), ResumeChecks(s.records, call).value)
              && ResumeChecks(s.records, call).value.runId == call.runId
  {
    var rs := RecordsOf(s.records, call.runId);
    assert ShapeOk(s, call.runId);
    RecordsAscend(s.records, call.runId);
    LastFinishedIsLast(rs);
  }

  /** Why a call on a waiting run is refused, each reason by its own condition. */
  predicate RefusedFor(error: ResumeError, cp: Checkpoint, call: ResumeCall) {
    var known := GateNames(cp.gates) == call.gateNames && call.controlPlane.Some?;
    match error
    case CheckpointInvalid => !known
    case ControlPlaneMismatch => known && call.controlPlane.value != cp.controlPlane
    case ContractMismatch => known && call.controlPlane.value == cp.controlPlane && call.contract != cp.contract
    case ApprovalMissing =>
      known && call.controlPlane.value == cp.controlPlane && call.contract == cp.contract && !call.approved
    case _ => false
  }

  /** A refusal says why: no ledger to trust, no such run, a run not waiting, or what does not match its checkpoint. */
  lemma {:induction false} RefusalSaysWhy(s: Runs, call: ResumeCall, error: ResumeError)
    requires RunsOk(s) && NotBlank(call.runId)
    ensures var rs := RecordsOf(s.records, call.runId);
            && (ResumeChecks(s.records, call) == Err(ChainBroken) <==> !ChainOk(s.records))
            && (ResumeChecks(s.records, call) == Err(NotFound) <==> ChainOk(s.records) && rs == [])
            && (ResumeChecks(s.records, call) == Err(NotEligible) <==>
                  ChainOk(s.records) && rs != [] && !IsWaiting(rs, call.runId))
            && (forall cp :: ChainOk(s.records) && Waiting(rs, cp) && cp.runId == call.runId ==>
                  (ResumeChecks(s.records, call) == Err(error) <==> RefusedFor(error, cp, call)))
  {
    var rs := RecordsOf(s.records, call.runId);
    assert ShapeOk(s, call.runId);
    RecordsAscend(s.records, call.runId);
    LastFinishedIsLast(rs);
    hide LinkOk, ShapeOk, Ascending;
  }

  // ------------------------------------------------------------- every run
  // ------------------------------------------------------------- every run

  /** A run that is still going either stays so or stops without asking for approval. */
  predicate GoesOn(event: RunEvent) {
    event.Noted? || (event.Finished? && event.reason != HumanApprovalRequired)
  }

  lemma {:induction false} PlainGrows(rs: seq<Record>, added: seq<Record>, last: Record)
    requires Plain(rs) && added == rs + [last] && GoesOn(last.body.event)
    ensures if last.body.event.Noted? then Plain(added) else Stopped(added)
  {
    assert added[..|added| - 1] == rs;
  }

  lemma {:induction false} OneRecordAt(s: Runs, t: Runs, link: Record, id: string)
    requires ShapeOk(s, id) && Plain(RecordsOf(s.records, link.body.runId)) && GoesOn(link.body.event)
    requires t.records == s.records + [link]
    requires id != link.body.runId ==> (id in t.active <==> id in s.active)
    requires link.body.event.Finished? ==> link.body.runId !in t.active
    requires NotBlank(link.body.runId)
    ensures ShapeOk(t, id)
  {
    RecordsAppend(s.records, link, id);
    hide RecordsOf, Plain, Stopped, IsWaiting, IsApproved;
    var rs, added := RecordsOf(s.records, id), RecordsOf(t.records, id);
    if id == link.body.runId {
      PlainGrows(rs, added, link);
    } else {
      assert added == rs;
    }
  }

  /** What an appended record has to do with the run it is appended for. */
  lemma {:induction false} AppendedIsNext(s: Runs, a: Action)
    requires RunsOk(s) && AppendedBy(s, a).Some?
    ensures var link, t := AppendedBy(s, a).value, Next(s, a);
            && t.records == s.records + [link] && link.sequence == |s.records| + 1
            && Plain(RecordsOf(s.records, link.body.runId)) && GoesOn(link.body.event)
            && (forall id :: id != link.body.runId ==> (id in t.active <==> id in s.active))
            && (link.body.event.Finished? ==> link.body.runId !in t.active) && NotBlank(link.body.runId)
  {
    assert ShapeOk(s, a.runId);
  }

  lemma {:induction false} OneRecord(s: Runs, a: Action)
    requires RunsOk(s) && AppendedBy(s, a).Some?
    ensures RunsOk(Next(s, a))
  {
    AppendedIsNext(s, a);
    hide Next, AppendedBy, ShapeOk, Plain, RecordsOf;
    forall id
      ensures ShapeOk(Next(s, a), id)
    {
      OneRecordAt(s, Next(s, a), AppendedBy(s, a).value, id);
    }
  }

  lemma {:induction false} TwoRecords(records: seq<Record>, runId: string, first: RunEvent, second: RunEvent,
                                      id: string)
    requires Numbered(records)
    ensures var after := Append(Append(records, runId, first), runId, second);
            && Numbered(after)
            && (ChainOk(records) ==> ChainOk(after))
            && (id != runId ==> RecordsOf(after, id) == RecordsOf(records, id))
            && (id == runId ==> var rs := RecordsOf(after, id);
                                |rs| == |RecordsOf(records, id)| + 2 && rs[..|rs| - 2] == RecordsOf(records, id)
                                && rs[|rs| - 2].body.event == first && rs[|rs| - 1].body.event == second)
  {
    var middle := Append(records, runId, first);
    if ChainOk(records) {
      AppendOk(records, Entry(runId, first));
      AppendOk(middle, Entry(runId, second));
    }
    RecordsAppend(records, NextLink(records, Entry(runId, first)), id);
    RecordsAppend(middle, NextLink(middle, Entry(runId, second)), id);
    if id != runId {
      assert RecordsOf(middle, id) == RecordsOf(records, id);
      assert RecordsOf(Append(middle, runId, second), id) == RecordsOf(middle, id);
    }
  }

  lemma {:induction false} PauseKeeps(s: Runs, a: Action)
    requires RunsOk(s) && Pauses(s, a)
    ensures RunsOk(Next(s, a))
  {
    assert ShapeOk(s, a.runId);
    CheckpointOfRunIsOk(s, a);
    var cp := CheckpointOf(a);
    hide Pauses, CheckpointOf, CheckpointOk;
    CheckpointKeeps(s, cp);
  }

  lemma {:induction false} CheckpointKeeps(s: Runs, cp: Checkpoint)
    requires RunsOk(s) && cp.runId in s.active && CheckpointOk(cp)
    ensures RunsOk(Runs(WithCheckpoint(s.records, cp), s.active - {cp.runId}))
  {
    var t := Runs(WithCheckpoint(s.records, cp), s.active - {cp.runId});
    TwoRecords(s.records, cp.runId, Checkpointed(cp), Finished(Escalated, cp.attempt, HumanApprovalRequired), cp.runId);
    forall id
      ensures ShapeOk(t, id)
    {
      assert ShapeOk(s, id) && ShapeOk(s, cp.runId);
      TwoRecords(s.records, cp.runId, Checkpointed(cp), Finished(Escalated, cp.attempt, HumanApprovalRequired), id);
      if id == cp.runId {
        assert Waiting(RecordsOf(t.records, id), cp);
      }
    }
  }

  lemma {:induction false} ResumeKeeps(s: Runs, call: ResumeCall)
    requires RunsOk(s) && ResumeChecks(s.records, call).Ok?
    ensures RunsOk(Next(s, CallResume(call)))
    ensures IsApproved(RecordsOf(Next(s, CallResume(call)).records, call.runId), call.runId)
    ensures forall id :: id != call.runId ==>
            RecordsOf(Next(s, CallResume(call)).records, id) == RecordsOf(s.records, id)
  {
    hide ResumeChecks, Waiting, Approved;
    ResumeWrites(s, call, call.runId);
    var t := Next(s, CallResume(call));
    forall id
      ensures ShapeOk(t, id)
      ensures id != call.runId ==> RecordsOf(t.records, id) == RecordsOf(s.records, id)
    {
      assert ShapeOk(s, id);
      ResumeWrites(s, call, id);
    }
  }

  lemma {:induction false} ResumeWrites(s: Runs, call: ResumeCall, id: string)
    requires RunsOk(s) && ResumeChecks(s.records, call).Ok?
    ensures var t := Next(s, CallResume(call));
            && Numbered(t.records) && t.active == s.active && call.runId !in s.active
            && (id != call.runId ==> RecordsOf(t.records, id) == RecordsOf(s.records, id))
            && (id == call.runId ==> IsApproved(RecordsOf(t.records, id), id))
  {
    ResumesExactlyWhenWaiting(s, call);
    hide ResumeChecks, LinkOk, RecordsOf;
    assert ShapeOk(s, call.runId);
    var cp := ResumeChecks(s.records, call).value;
    var rs := RecordsOf(s.records, call.runId);
    TwoRecords(s.records, call.runId, Resumed(rs[|rs| - 2].sequence, cp.contract, cp.controlPlane),
               Finished(Succeeded, cp.attempt, RunSucceeded), id);
    if id == call.runId {
      assert Approved(RecordsOf(Next(s, CallResume(call)).records, id), cp);
    }
  }

  lemma {:induction false} NextKeeps(s: Runs, a: Action)
    requires RunsOk(s)
    ensures RunsOk(Next(s, a))
  {
    if AppendedBy(s, a).Some? {
      OneRecord(s, a);
    } else {
      match a
      case Pause(_, _, _, _) =>
        if Pauses(s, a) {
          PauseKeeps(s, a);
        }
      case CallResume(call) =>
        if ResumeChecks(s.records, call).Ok? {
          ResumeKeeps(s, call);
        }
      case _ =>
    }
  }

  /**
   Over every interleaving of runs and resumes, stale appends included, each run's records keep one of
   five shapes.
   */
  lemma {:induction false} EveryRunKeepsShape(actions: seq<Action>)
    ensures RunsOk(Run(actions))
  {
    if actions == [] {
      assert forall id :: ShapeOk(Run(actions), id);
    } else {
      EveryRunKeepsShape(actions[..|actions| - 1]);
      NextKeeps(Run(actions[..|actions| - 1]), actions[|actions| - 1]);
    }
  }

  // ------------------------------------------------------------- when the ledger verifies

  /** An append whose process had not seen the newest record. */
  predicate Overtaken(s: Runs, a: Action) {
    AppendedBy(s, a).Some? && a.seen != |s.records|
  }

  ghost predicate NeverOvertaken(actions: seq<Action>) {
    actions == []
      || (NeverOvertaken(actions[..|actions| - 1]) && !Overtaken(Run(actions[..|actions| - 1]), actions[|actions| - 1]))
  }

  lemma {:induction false} StepVerifies(s: Runs, a: Action)
    requires RunsOk(s)
    ensures ChainOk(Next(s, a).records) <==> ChainOk(s.records) && !Overtaken(s, a)
  {
    if AppendedBy(s, a).Some? {
      var link := AppendedBy(s, a).value;
      if ChainOk(s.records) {
        FitsExactlyWhenSeen(s.records, s.records[..a.seen], link.body);
      } else {
        BrokenStaysBroken(s.records, s.records + [link]);
      }
    } else {
      TransactionVerifies(s, a);
    }
  }

  lemma {:induction false} TransactionVerifies(s: Runs, a: Action)
    requires RunsOk(s) && AppendedBy(s, a).None?
    ensures ChainOk(Next(s, a).records) <==> ChainOk(s.records)
  {
    hide ResumeChecks, RecordsOf, LinkOk;
    match a
    case Pause(_, _, _, _) =>
      if Pauses(s, a) {
        var cp := CheckpointOf(a);
        TwoRecords(s.records, cp.runId, Checkpointed(cp), Finished(Escalated, cp.attempt, HumanApprovalRequired),
                   cp.runId);
        if !ChainOk(s.records) {
          BrokenStaysBroken(s.records, Next(s, a).records);
        }
      }
    case CallResume(call) =>
      if ResumeChecks(s.records, call).Ok? {
        ApprovalGiven(s.records, call);
        ResumesExactlyWhenWaiting(s, call);
        var cp, rs := ResumeChecks(s.records, call).value, RecordsOf(s.records, call.runId);
        TwoRecords(s.records, call.runId, Resumed(rs[|rs| - 2].sequence, cp.contract, cp.controlPlane),
                   Finished(Succeeded, cp.attempt, RunSucceeded), call.runId);
      }
    case _ =>
  }

  /**
   The ledger verifies after any runs and resumes exactly when every record appended outside
   a transaction was linked to the newest one.
   */
  lemma {:induction false} LedgerVerifiesExactlyWhen(actions: seq<Action>)
    ensures ChainOk(Run(actions).records) <==> NeverOvertaken(actions)
  {
    if actions != [] {
      var n := |actions| - 1;
      LedgerVerifiesExactlyWhen(actions[..n]);
      EveryRunKeepsShape(actions[..n]);
      StepVerifies(Run(actions[..n]), actions[n]);
      hide ChainOk, Overtaken, Next, RunsOk;
    }
  }

  // ------------------------------------------------------------- at most once

  predicate Resumes(s: Runs, a: Action, id: string) {
    a.CallResume? && a.call.runId == id && ResumeChecks(s.records, a.call).Ok?
  }

  ghost function ResumeCount(actions: seq<Action>, id: string): nat {
    if actions == [] then 0
    else
      var before := actions[..|actions| - 1];
      ResumeCount(before, id) + (if Resumes(Run(before), actions[|actions| - 1], id) then 1 else 0)
  }

  /** An approved run stays approved, and is no longer waiting. */
  lemma {:induction false} ApprovedStays(s: Runs, a: Action, id: string)
    requires RunsOk(s) && IsApproved(RecordsOf(s.records, id), id)
    ensures !Resumes(s, a, id) && IsApproved(RecordsOf(Next(s, a).records, id), id)
  {
    var rs := RecordsOf(s.records, id);
    assert ShapeOk(s, id) && !Plain(rs);
    OnlyResumeApproves(s, a, id);
    if a.CallResume? && a.call.runId == id && NotBlank(id) {
      ResumesExactlyWhenWaiting(s, a.call);
    }
  }

  /** Anything but its own successful resume leaves an unapproved run unapproved, and a run that has ended untouched. */
  lemma {:induction false} OnlyResumeApproves(s: Runs, a: Action, id: string)
    requires RunsOk(s) && !Resumes(s, a, id)
    ensures IsApproved(RecordsOf(Next(s, a).records, id), id) <==> IsApproved(RecordsOf(s.records, id), id)
  {
    hide ResumeChecks, LinkOk;
    assert ShapeOk(s, id);
    if AppendedBy(s, a).Some? {
      AppendedIsNext(s, a);
      OneRecordApprovesNothing(s.records, AppendedBy(s, a).value, id);
    } else {
      match a
      case Pause(_, _, _, _) =>
        if Pauses(s, a) {
          CheckpointApprovesNothing(s, CheckpointOf(a), id);
        }
      case CallResume(call) =>
        if ResumeChecks(s.records, call).Ok? {
          ResumeWrites(s, call, id);
        }
      case _ =>
    }
  }

  lemma {:induction false} OneRecordApprovesNothing(records: seq<Record>, link: Record, id: string)
    requires Plain(RecordsOf(records, link.body.runId)) || link.body.runId != id
    ensures IsApproved(RecordsOf(records + [link], id), id) <==> IsApproved(RecordsOf(records, id), id)
  {
    RecordsAppend(records, link, id);
    var before, after := RecordsOf(records, id), RecordsOf(records + [link], id);
    if link.body.runId == id {
      assert after[..|after| - 1] == before;
      assert |after| >= 2 ==> after[|after| - 2] == before[|before| - 1];
    } else {
      assert after == before;
    }
  }

  lemma {:induction false} CheckpointApprovesNothing(s: Runs, cp: Checkpoint, id: string)
    requires RunsOk(s) && cp.runId in s.active
    ensures IsApproved(RecordsOf(WithCheckpoint(s.records, cp), id), id) <==> IsApproved(RecordsOf(s.records, id), id)
  {
    hide LinkOk;
    assert ShapeOk(s, id) && ShapeOk(s, cp.runId);
    TwoRecords(s.records, cp.runId, Checkpointed(cp), Finished(Escalated, cp.attempt, HumanApprovalRequired), id);
  }

  /** A run resumes to success at most once: exactly once if its records end approved, never otherwise. */
  lemma {:induction false} ResumesAtMostOnce(actions: seq<Action>, id: string)
    ensures ResumeCount(actions, id) == if IsApproved(RecordsOf(Run(actions).records, id), id) then 1 else 0
  {
    if actions != [] {
      var before, a := actions[..|actions| - 1], actions[|actions| - 1];
      var s := Run(before);
      ResumesAtMostOnce(before, id);
      EveryRunKeepsShape(before);
      if IsApproved(RecordsOf(s.records, id), id) {
        ApprovedStays(s, a, id);
      } else if Resumes(s, a, id) {
        ResumeKeeps(s, a.call);
      } else {
        OnlyResumeApproves(s, a, id);
      }
    }
  }

  /** The result repeats the checkpoint of a waiting run, with every gate passed. */
  ghost predicate RepeatsCheckpoint(rs: seq<Record>, result: RunResult) {
    && result.status == Succeeded && (forall g :: g in result.results ==> g.passed)
    && exists cp ::
       Waiting(rs, cp) && result.proposal == Some(cp.proposal) && result.results == cp.gates
         && result.attempts == cp.attempt
  }

  /** What a successful resume returns: the proposal of the checkpoint directly before, approved by a human. */
  lemma {:induction false} ResumeReturnsTheCheckpoint(actions: seq<Action>, call: ResumeCall)
    ensures var records := Run(actions).records;
            var (_, result) := DoResume(records, call);
            result.Ok? ==> RepeatsCheckpoint(RecordsOf(records, call.runId), result.value) && call.approved
  {
    EveryRunKeepsShape(actions);
    ReturnsTheCheckpoint(Run(actions), call);
  }

  lemma {:induction false} ReturnsTheCheckpoint(s: Runs, call: ResumeCall)
    requires RunsOk(s)
    ensures var (_, result) := DoResume(s.records, call);
            result.Ok? ==> RepeatsCheckpoint(RecordsOf(s.records, call.runId), result.value) && call.approved
  {
    hide RecordsOf, ResumeChecks, ChainOk, ShapeOk, Plain;
    if ResumeChecks(s.records, call).Ok? {
      ApprovalGiven(s.records, call);
      ResumesExactlyWhenWaiting(s, call);
      var cp := ResumeChecks(s.records, call).value;
      assert Waiting(RecordsOf(s.records, call.runId), cp);
    }
  }

  lemma {:induction false} ApprovalGiven(records: seq<Record>, call: ResumeCall)
    requires ResumeChecks(records, call).Ok?
    ensures NotBlank(call.runId) && call.approved
    ensures var cp := ResumeChecks(records, call).value;
            && cp.runId == call.runId && cp.contract == call.contract && call.controlPlane == Some(cp.controlPlane)
  {
    hide ChainOk, RecordsOf, LastFinished, CheckpointOk;
  }

  // ------------------------------------------------------------- where a checkpoint comes from

  /** Some earlier action stopped a controller's run with this checkpoint. */
  ghost predicate FromARun(actions: seq<Action>, cp: Checkpoint) {
    exists i :: 0 <= i < |actions| && StoppedAt(actions[i], cp)
  }

  ghost predicate StoppedAt(a: Action, cp: Checkpoint) {
    a.Pause? && AsksForApproval(a.setting) && cp == CheckpointOf(a)
  }

  /** What one action may add. */
  ghost predicate AddsOnly(before: seq<Record>, after: seq<Record>, a: Action) {
    && before <= after
    && forall k :: |before| <= k < |after| && after[k].body.event.Checkpointed? ==>
         StoppedAt(a, after[k].body.event.checkpoint)
  }

  lemma {:induction false} NextAdds(s: Runs, a: Action)
    ensures AddsOnly(s.records, Next(s, a).records, a)
  {
    hide ResumeChecks, RecordsOf, CheckpointOf, AsksForApproval, CheckpointOk, LinkOk;
  }

  lemma {:induction false} CheckpointsComeFromRuns(actions: seq<Action>, k: nat)
    requires k < |Run(actions).records| && Run(actions).records[k].body.event.Checkpointed?
    ensures FromARun(actions, Run(actions).records[k].body.event.checkpoint)
  {
    hide Next, StoppedAt;
    if actions != [] {
      var n := |actions| - 1;
      var s := Run(actions[..n]);
      NextAdds(s, actions[n]);
      if k < |s.records| {
        CheckpointsComeFromRuns(actions[..n], k);
        var i :| 0 <= i < n && StoppedAt(actions[..n][i], s.records[k].body.event.checkpoint);
        assert StoppedAt(actions[i], s.records[k].body.event.checkpoint);
      }
    }
  }

  lemma {:induction false} RecordOfRun(records: seq<Record>, id: string, r: Record)
    requires r in RecordsOf(records, id)
    ensures exists k :: 0 <= k < |records| && records[k] == r
  {
    var n := |records| - 1;
    if r != records[n] {
      RecordOfRun(records[..n], id, r);
      var k :| 0 <= k < n && records[..n][k] == r;
      assert records[k] == r;
    }
  }

  /** The result is the one this controller's run had stopped with: its proposal, with every gate passed on it. */
  ghost predicate RepeatsRun(a: Action, call: ResumeCall, result: RunResult) {
    && a.Pause? && a.runId == call.runId && AsksForApproval(a.setting)
    && result.proposal == RunResultOf(a.setting).proposal && result.proposal.Some?
    && result.results == Verdicts(a.setting.gates, result.proposal.value) && AllPassed(result.results)
    && result.attempts == RunResultOf(a.setting).attempts
    && call.contract == a.contract && call.controlPlane == Some(a.controlPlane)
  }

  /**
   Over every interleaving: a successful resume returns the proposal that a controller's run of
   that identifier, for the same contract and control plane, had reached with every gate passed,
   under explicit approval.
   */
  lemma {:induction false} ResumeReturnsThePausedRun(actions: seq<Action>, call: ResumeCall)
    requires DoResume(Run(actions).records, call).1.Ok?
    ensures call.approved
    ensures exists i :: 0 <= i < |actions| && RepeatsRun(actions[i], call, DoResume(Run(actions).records, call).1.value)
  {
    var s := Run(actions);
    EveryRunKeepsShape(actions);
    ApprovalGiven(s.records, call);
    ResumesExactlyWhenWaiting(s, call);
    hide Run, Next, RunsOk, ResumeChecks;
    var cp, rs := ResumeChecks(s.records, call).value, RecordsOf(s.records, call.runId);
    RecordOfRun(s.records, call.runId, rs[|rs| - 2]);
    var k :| 0 <= k < |s.records| && s.records[k] == rs[|rs| - 2];
    CheckpointsComeFromRuns(actions, k);
    var i :| 0 <= i < |actions| && StoppedAt(actions[i], cp);
    ResultOfPaused(s.records, actions[i], call);
  }

  lemma {:induction false} ResultOfPaused(records: seq<Record>, a: Action, call: ResumeCall)
    requires ResumeChecks(records, call).Ok? && StoppedAt(a, ResumeChecks(records, call).value)
    ensures RepeatsRun(a, call, DoResume(records, call).1.value)
  {
    ApprovalGiven(records, call);
    RunThatAsks(a.setting);
    hide ResumeChecks, RecordsOf, AsksForApproval, RunResultOf, Verdicts, AllPassed, ChainOk;
  }
}
