/**
 Durable ownership of one exclusive model instance.

 The singleton row moves through its states one transaction at a time. A `start`,
 `begin_generation`, `record_terminal` or `finish` call is a frame whose constructor names
 its next step: a transaction, a catalog read, or an order to the server. Any number of
 calls interleave, any of them may vanish, and what the server answers is a parameter of
 each step.
 */
module ModelResidency {
  import opened Prelude

  const MAX_IDENTIFIER := 256
  const MAX_CONTEXT := 262144

  datatype State = New | Loading | Ready | LoadedInvalid | Generating | Unloading | Closed

  predicate IdentifierOk(s: string) {
    NotBlank(s) && |s| <= MAX_IDENTIFIER
  }

  /** A digest is the value it was computed from. */
  datatype LoadReceipt = LoadReceipt(instance: string, context: Option<int>, policy: string)

  datatype TerminalReceipt = TerminalReceipt(request: string, serverFinished: bool, wellFormed: bool, text: string)

  datatype TerminalRow = TerminalRow(
    request: string,
    terminal: TerminalReceipt,
    policy: string,
    model: string,
    context: Option<int>,
    instance: Option<string>,
    loadReceipt: Option<LoadReceipt>)

  datatype Journal = Journal(
    model: string,
    context: int,
    policy: string,
    state: State,
    instance: Option<string>,
    observed: Option<int>,
    request: Option<string>,
    loadReceipt: Option<LoadReceipt>,
    terminal: Option<TerminalReceipt>,
    terminals: map<string, TerminalRow>,
    events: seq<State>)

  function NewJournal(model: string, context: int, policy: string): Journal {
    Journal(model, context, policy, New, None, None, None, None, None, map[], [])
  }

  /** The transitions the four calls ask for, with the columns each one writes. */
  datatype Update =
    | ToLoading
    | ToLoaded(instance: string, observed: Option<int>)
    | ToGenerating(begun: string)
    | ToReady(finished: string, receipt: TerminalReceipt)
    | ToUnloading
    | ToClosed

  function Expected(u: Update): set<State> {
    match u
    case ToLoading => {New}
    case ToLoaded(_, _) => {Loading}
    case ToGenerating(_) => {Ready}
    case ToReady(_, _) => {Generating}
    case ToUnloading => {Ready, LoadedInvalid}
    case ToClosed => {Unloading}
  }

  function Target(j: Journal, u: Update): State {
    match u
    case ToLoading => Loading
    case ToLoaded(_, observed) => if observed == Some(j.context) then Ready else LoadedInvalid
    case ToGenerating(_) => Generating
    case ToReady(_, _) => Ready
    case ToUnloading => Unloading
    case ToClosed => Closed
  }

  datatype Refusal = UnresolvedOrNotReady | TerminalRequestChanged | RequestAlreadyCompleted

  function Refused(j: Journal, u: Update): Option<Refusal> {
    if j.state !in Expected(u) then Some(UnresolvedOrNotReady)
    else if u.ToReady? && j.request != Some(u.finished) then Some(TerminalRequestChanged)
    else if u.ToGenerating? && u.begun in j.terminals then Some(RequestAlreadyCompleted)
    else None
  }

  function Columns(j: Journal, u: Update): Journal {
    match u
    case ToLoaded(instance, observed) =>
      j.(instance := Some(instance), observed := observed,
         loadReceipt := Some(LoadReceipt(instance, observed, j.policy)))
    case ToGenerating(begun) => j.(request := Some(begun), terminal := None)
    case ToReady(finished, receipt) =>
      j.(request := None, terminal := Some(receipt),
         terminals := j.terminals[finished := TerminalRow(finished, receipt, j.policy, j.model, j.observed, j.instance,
                                                          j.loadReceipt)])
    case _ => j
  }

  /** `_transition`, when it does not raise. */
  function Moved(j: Journal, u: Update): Journal {
    Columns(j, u).(state := Target(j, u), events := j.events + [Target(j, u)])
  }

  class Residency {
    const model: string
    const context: int
    const policy: string
    var state: State
    var instance: Option<string>
    var observed: Option<int>
    var request: Option<string>
    var loadReceipt: Option<LoadReceipt>
    var terminal: Option<TerminalReceipt>
    var terminals: map<string, TerminalRow>
    var events: seq<State>

    function Contents(): Journal
      reads this
    {
      Journal(model, context, policy, state, instance, observed, request, loadReceipt, terminal, terminals, events)
    }

    constructor (model: string, context: int, policy: string)
      ensures Contents() == NewJournal(model, context, policy)
    {
      this.model, this.context, this.policy := model, context, policy;
      state, instance, observed, request, loadReceipt, terminal := New, None, None, None, None, None;
      terminals, events := map[], [];
    }

    /** `_transition`: one transaction, which leaves the row alone when it raises. */
    method Transition(u: Update) returns (refused: Option<Refusal>)
      modifies this
      ensures refused == Refused(old(Contents()), u)
      ensures Contents() == if refused.Some? then old(Contents()) else Moved(old(Contents()), u)
    {
      if state !in Expected(u) {
        return Some(UnresolvedOrNotReady);
      }
      var next := Target(Contents(), u);
      match u {
        case ToLoaded(identifier, context) =>
          instance, observed, loadReceipt := Some(identifier), context, Some(LoadReceipt(identifier, context, policy));
        case ToGenerating(begun) =>
          if begun in terminals {
            return Some(RequestAlreadyCompleted);
          }
          request, terminal := Some(begun), None;
        case ToReady(finished, receipt) =>
          if request != Some(finished) {
            return Some(TerminalRequestChanged);
          }
          var row := TerminalRow(finished, receipt, policy, model, observed, instance, loadReceipt);
          terminals := terminals[finished := row];
          request, terminal := None, Some(receipt);
        case _ =>
      }
      state, events := next, events + [next];
      return None;
    }

    /** `terminal_evidence`: the recorded binding, if every check on it passes. */
    method Evidence(finished: string) returns (row: Option<TerminalRow>)
      ensures row == EvidenceOf(Contents(), finished)
    {
      if finished !in terminals {
        return None;
      }
      var item := terminals[finished];
      if item.request != finished || item.policy != policy || item.model != model || item.context != Some(context) {
        return None;
      }
      if item.instance.None? || !IdentifierOk(item.instance.value) {
        return None;
      }
      if item.loadReceipt != Some(LoadReceipt(item.instance.value, item.context, item.policy)) {
        return None;
      }
      return Some(item);
    }
  }

  predicate EvidenceOk(j: Journal, finished: string, item: TerminalRow) {
    && item.request == finished && item.policy == j.policy && item.model == j.model && item.context == Some(j.context)
    && item.instance.Some? && IdentifierOk(item.instance.value)
    && item.loadReceipt == Some(LoadReceipt(item.instance.value, item.context, item.policy))
  }

  function EvidenceOf(j: Journal, finished: string): Option<TerminalRow> {
    if finished in j.terminals && EvidenceOk(j, finished, j.terminals[finished])
    then Some(j.terminals[finished]) else None
  }

  // ------------------------------------------------------------- interleaved calls

  /** `_catalog`: the loaded instances with their model and context, or nothing if the answer is invalid. */
  type Catalog = Option<map<string, (string, int)>>

  /** The server's answer to `load`: the instance and its reported context if they can be read. */
  datatype LoadAnswer = NotLoaded | Loaded(instance: string, reported: Option<int>)

  datatype Call =
    | StartRead
    | StartCatalog
    | LoadIntent
    | LoadOrder
    | LoadWrite(instance: string, observed: Option<int>)
    | StartCheck
    | BeginRead(request: string)
    | BeginCatalog(request: string, seen: Journal)
    | BeginIntent(request: string)
    | Sending(request: string)
    | TerminalRead(request: string, receipt: TerminalReceipt)
    | TerminalWrite(request: string, receipt: TerminalReceipt)
    | FinishRead
    | FinishCatalog(seen: Journal)
    | UnloadIntent(seen: Journal)
    | UnloadOrder(seen: Journal)
    | ClosingCatalog
    | CloseWrite
    | Ended

  /**
   How often the server was told to load, which instances it was told to unload, and what generation
   requests have begun.
   */
  datatype System = System(j: Journal, calls: seq<Call>, loads: nat, unloads: seq<string>, begun: multiset<string>)

  datatype Action =
    | Start
    | Begin(request: string)
    | RecordTerminal(request: string, receipt: TerminalReceipt)
    | Finish
    | Advance(i: nat, catalog: Catalog, answer: LoadAnswer)
    | Crash(i: nat)

  predicate SameInstance(j: Journal, seen: Journal, catalog: Catalog) {
    && catalog.Some? && seen.instance.Some? && seen.observed.Some?
    && catalog.value == map[seen.instance.value := (j.model, seen.observed.value)]
  }

  predicate TerminalFits(j: Journal, request: string, receipt: TerminalReceipt) {
    && j.state == Generating && j.request == Some(request)
    && receipt.request == request && receipt.serverFinished && receipt.wellFormed
  }

  /** A reported context outside the limits is recorded as unknown. */
  function Observed(reported: Option<int>): Option<int> {
    if reported.Some? && 1 <= reported.value <= MAX_CONTEXT then reported else None
  }

  /** The transition a call asks for at its next step, if that step is one. */
  function Asks(c: Call): Option<Update> {
    match c
    case LoadIntent => Some(ToLoading)
    case LoadWrite(instance, observed) => Some(ToLoaded(instance, observed))
    case BeginIntent(request) => Some(ToGenerating(request))
    case TerminalWrite(request, receipt) => Some(ToReady(request, receipt))
    case UnloadIntent(_) => Some(ToUnloading)
    case CloseWrite => Some(ToClosed)
    case _ => None
  }

  function AfterUpdate(c: Call): Call {
    match c
    case LoadIntent => LoadOrder
    case LoadWrite(_, _) => StartCheck
    case BeginIntent(request) => Sending(request)
    case UnloadIntent(seen) => UnloadOrder(seen)
    case _ => Ended
  }

  /** A step that only reads, or the receipt of an answer. */
  function AfterReading(j: Journal, c: Call, catalog: Catalog, answer: LoadAnswer): Call {
    match c
    case StartRead => if j.state == New then StartCatalog else Ended
    case StartCatalog => if catalog == Some(map[]) then LoadIntent else Ended
    case LoadOrder =>
      if answer.Loaded? && IdentifierOk(answer.instance)
      then LoadWrite(answer.instance, Observed(answer.reported)) else Ended
    case StartCheck => Ended
    case BeginRead(request) => if j.state == Ready then BeginCatalog(request, j) else Ended
    case BeginCatalog(request, seen) => if SameInstance(j, seen, catalog) then BeginIntent(request) else Ended
    case TerminalRead(request, receipt) =>
      if TerminalFits(j, request, receipt) then TerminalWrite(request, receipt) else Ended
    case FinishRead => if j.state in {Ready, LoadedInvalid} then FinishCatalog(j) else Ended
    case FinishCatalog(seen) => if SameInstance(j, seen, catalog) then UnloadIntent(seen) else Ended
    case UnloadOrder(_) => ClosingCatalog
    case ClosingCatalog => if catalog == Some(map[]) then CloseWrite else Ended
    case _ => Ended
  }

  /** The instance an unload order names. */
  function Ordered(seen: Journal): seq<string> {
    [if seen.instance.Some? then seen.instance.value else ""]
  }

  function Step(s: System, i: nat, catalog: Catalog, answer: LoadAnswer): (t: System)
    requires i < |s.calls|
    ensures |t.calls| == |s.calls|
  {
    var c := s.calls[i];
    var u := Asks(c);
    if u.None? then
      System(s.j, s.calls[i := AfterReading(s.j, c, catalog, answer)],
             if c.LoadOrder? then s.loads + 1 else s.loads,
             if c.UnloadOrder? then s.unloads + Ordered(c.seen) else s.unloads,
             s.begun)
    else if Refused(s.j, u.value).Some? then s.(calls := s.calls[i := Ended])
    else
      System(Moved(s.j, u.value), s.calls[i := AfterUpdate(c)], s.loads, s.unloads,
             if u.value.ToGenerating? then s.begun + multiset{u.value.begun} else s.begun)
  }

  function Next(s: System, a: Action): System {
    match a
    case Start => s.(calls := s.calls + [StartRead])
    case Begin(request) => s.(calls := s.calls + [BeginRead(request)])
    case RecordTerminal(request, receipt) => s.(calls := s.calls + [TerminalRead(request, receipt)])
    case Finish => s.(calls := s.calls + [FinishRead])
    case Advance(i, catalog, answer) => if i < |s.calls| then Step(s, i, catalog, answer) else s
    case Crash(i) => if i < |s.calls| then s.(calls := s.calls[i := Ended]) else s
  }

  function Run(model: string, context: int, policy: string, actions: seq<Action>): System {
    if actions == [] then System(NewJournal(model, context, policy), [], 0, [], multiset{})
    else Next(Run(model, context, policy, actions[..|actions| - 1]), actions[|actions| - 1])
  }

  // ------------------------------------------------------------- what every step keeps

  predicate OwnsLoad(c: Call) {
    c.LoadOrder? || c.LoadWrite?
  }

  predicate OwnsUnload(c: Call) {
    c.UnloadOrder? || c.ClosingCatalog? || c.CloseWrite?
  }

  /** One call at a time is between asking for the load and recording it, and only while the row says so. */
  predicate LoadOk(s: System) {
    && s.loads <= 1 && (s.j.state == New ==> s.loads == 0)
    && (forall i :: 0 <= i < |s.calls| && OwnsLoad(s.calls[i]) ==> s.j.state == Loading)
    && (forall i, k :: 0 <= i < k < |s.calls| && OwnsLoad(s.calls[i]) ==> !OwnsLoad(s.calls[k]))
    && (forall i :: 0 <= i < |s.calls| && s.calls[i].LoadOrder? ==> s.loads == 0)
    && (forall i :: 0 <= i < |s.calls| && s.calls[i].LoadWrite? ==> IdentifierOk(s.calls[i].instance))
  }

  predicate UnloadOk(s: System) {
    && |s.unloads| <= 1 && (s.j.state !in {Unloading, Closed} ==> s.unloads == [])
    && (forall i :: 0 <= i < |s.calls| && OwnsUnload(s.calls[i]) ==> s.j.state == Unloading)
    && (forall i, k :: 0 <= i < k < |s.calls| && OwnsUnload(s.calls[i]) ==> !OwnsUnload(s.calls[k]))
    && (forall i :: 0 <= i < |s.calls| && s.calls[i].UnloadOrder? ==> s.unloads == [])
  }

  /** Every request begun is either recorded or the one generating now, and none twice. */
  predicate RequestsOk(s: System) {
    && (s.j.request.Some? <==> s.j.state == Generating)
    && (s.j.request.Some? ==> s.j.request.value !in s.j.terminals)
    && s.begun == multiset(s.j.terminals.Keys + (if s.j.request.Some? then {s.j.request.value} else {}))
  }

  predicate RowOk(j: Journal) {
    && (j.state in {Ready, Generating} ==> Owned(j) && j.observed == Some(j.context))
    && (forall r :: r in j.terminals ==> EvidenceOk(j, r, j.terminals[r]))
  }

  /** The instance this journal loaded, with the receipt of that load. */
  predicate Owned(j: Journal) {
    && j.instance.Some? && IdentifierOk(j.instance.value)
    && j.loadReceipt == Some(LoadReceipt(j.instance.value, j.observed, j.policy))
  }

  /**
   A row read earlier names the instance and context the journal still has; before generating, the
   intended context.
   */
  predicate SeenOk(j: Journal, c: Call) {
    match c
    case BeginCatalog(_, seen) => SeenInstance(j, seen) && j.observed == Some(j.context)
    case FinishCatalog(seen) => SeenInstance(j, seen)
    case UnloadIntent(seen) => SeenInstance(j, seen)
    case UnloadOrder(seen) => SeenInstance(j, seen)
    case _ => true
  }

  predicate SeenInstance(j: Journal, seen: Journal) {
    j.state !in {New, Loading} && seen.instance == j.instance && seen.observed == j.observed && j.instance.Some?
  }

  predicate CallsSeeOwn(s: System) {
    && (s.j.state !in {New, Loading} ==> s.j.instance.Some?)
    && forall i :: 0 <= i < |s.calls| ==> SeenOk(s.j, s.calls[i])
  }

  predicate SystemOk(s: System) {
    LoadOk(s) && UnloadOk(s) && RequestsOk(s) && RowOk(s.j) && CallsSeeOwn(s)
  }

  lemma {:induction false} ColumnsKeepState(j: Journal, u: Update)
    ensures Moved(j, u).state == Target(j, u) && Moved(j, u).context == j.context && Moved(j, u).policy == j.policy
    ensures Moved(j, u).model == j.model
  {
  }

  lemma {:induction false} LoadStepKeeps(s: System, i: nat, catalog: Catalog, answer: LoadAnswer)
    requires LoadOk(s) && i < |s.calls|
    ensures LoadOk(Step(s, i, catalog, answer))
  {
    hide Moved, SameInstance, TerminalFits, IdentifierOk;
    var u := Asks(s.calls[i]);
    if u.Some? {
      ColumnsKeepState(s.j, u.value);
    }
  }

  lemma {:induction false} UnloadStepKeeps(s: System, i: nat, catalog: Catalog, answer: LoadAnswer)
    requires UnloadOk(s) && i < |s.calls|
    ensures UnloadOk(Step(s, i, catalog, answer))
  {
    hide Moved, SameInstance, TerminalFits, IdentifierOk;
    var u := Asks(s.calls[i]);
    if u.Some? {
      ColumnsKeepState(s.j, u.value);
    }
  }

  lemma {:induction false} OneMore(all: set<string>, r: string)
    requires r !in all
    ensures multiset(all + {r}) == multiset(all) + multiset{r}
  {
  }

  lemma {:induction false} RequestsMove(j: Journal, begun: multiset<string>, u: Update)
    requires Refused(j, u).None?
    requires (j.request.Some? <==> j.state == Generating) && (j.request.Some? ==> j.request.value !in j.terminals)
    requires begun == multiset(j.terminals.Keys + (if j.request.Some? then {j.request.value} else {}))
    ensures var k := Moved(j, u);
            && (k.request.Some? <==> k.state == Generating) && (k.request.Some? ==> k.request.value !in k.terminals)
            && (if u.ToGenerating? then begun + multiset{u.begun} else begun)
               == multiset(k.terminals.Keys + (if k.request.Some? then {k.request.value} else {}))
  {
    var k := Moved(j, u);
    if u.ToGenerating? {
      assert j.terminals.Keys + {} == j.terminals.Keys;
      OneMore(j.terminals.Keys, u.begun);
    } else if u.ToReady? {
      assert k.terminals.Keys + {} == j.terminals.Keys + {u.finished};
    } else {
      assert k.terminals == j.terminals;
    }
  }

  lemma {:induction false} RequestsStepKeep(s: System, i: nat, catalog: Catalog, answer: LoadAnswer)
    requires RequestsOk(s) && i < |s.calls|
    ensures RequestsOk(Step(s, i, catalog, answer))
  {
    hide SameInstance, TerminalFits, IdentifierOk, Refused, Moved;
    var u := Asks(s.calls[i]);
    if u.Some? && Refused(s.j, u.value).None? {
      RequestsMove(s.j, s.begun, u.value);
    }
  }

  lemma {:induction false} RowStepKeeps(s: System, i: nat, catalog: Catalog, answer: LoadAnswer)
    requires LoadOk(s) && RowOk(s.j) && i < |s.calls|
    ensures RowOk(Step(s, i, catalog, answer).j)
  {
    hide SameInstance, TerminalFits, IdentifierOk;
  }

  /** The instance is written once, when the load is recorded. */
  lemma {:induction false} SeenStepKeeps(s: System, i: nat, catalog: Catalog, answer: LoadAnswer)
    requires CallsSeeOwn(s) && RowOk(s.j) && i < |s.calls|
    ensures CallsSeeOwn(Step(s, i, catalog, answer))
  {
    hide SameInstance, TerminalFits, IdentifierOk;
  }

  /** A call that starts, ends or vanishes owns nothing it did not own before. */
  lemma {:induction false} LoadersMove(s: System, a: Action)
    requires LoadOk(s) && !a.Advance?
    ensures LoadOk(Next(s, a))
  {
    hide Step;
  }

  lemma {:induction false} UnloadersMove(s: System, a: Action)
    requires UnloadOk(s) && !a.Advance?
    ensures UnloadOk(Next(s, a))
  {
    hide Step;
  }

  lemma {:induction false} CallsMove(s: System, a: Action)
    requires SystemOk(s) && !a.Advance?
    ensures SystemOk(Next(s, a))
  {
    hide RowOk, Step, RequestsOk, LoadOk, UnloadOk, CallsSeeOwn;
    LoadersMove(s, a);
    UnloadersMove(s, a);
    SeenMove(s, a);
    RequestsIgnoreCalls(s, Next(s, a).calls);
  }

  lemma {:induction false} SeenMove(s: System, a: Action)
    requires CallsSeeOwn(s) && !a.Advance?
    ensures CallsSeeOwn(Next(s, a))
  {
    hide Step;
  }

  lemma {:induction false} RequestsIgnoreCalls(s: System, calls: seq<Call>)
    requires RequestsOk(s)
    ensures RequestsOk(s.(calls := calls))
  {
  }

  lemma {:induction false} NextKeeps(s: System, a: Action)
    requires SystemOk(s)
    ensures SystemOk(Next(s, a))
  {
    hide RowOk, RequestsOk, LoadOk, UnloadOk, CallsSeeOwn, Step;
    if !a.Advance? {
      CallsMove(s, a);
    } else if a.i < |s.calls| {
      LoadStepKeeps(s, a.i, a.catalog, a.answer);
      UnloadStepKeeps(s, a.i, a.catalog, a.answer);
      RequestsStepKeep(s, a.i, a.catalog, a.answer);
      RowStepKeeps(s, a.i, a.catalog, a.answer);
      SeenStepKeeps(s, a.i, a.catalog, a.answer);
    }
  }

  lemma {:induction false} EveryRunIsOk(model: string, context: int, policy: string, actions: seq<Action>)
    ensures SystemOk(Run(model, context, policy, actions))
  {
    hide Next;
    if actions != [] {
      hide SystemOk;
      EveryRunIsOk(model, context, policy, actions[..|actions| - 1]);
      NextKeeps(Run(model, context, policy, actions[..|actions| - 1]), actions[|actions| - 1]);
    }
  }

  /**
   Exclusive residency, over every interleaving and every pattern of crashes: load and unload
   are each ordered at most once, no request begins generation twice, and the requests begun
   are the terminals recorded plus one exactly while generating.
   */
  lemma {:induction false} OrderedAtMostOnce(model: string, context: int, policy: string, actions: seq<Action>)
    ensures var s := Run(model, context, policy, actions);
            && s.loads <= 1 && |s.unloads| <= 1
            && (forall r :: s.begun[r] <= 1)
            && |s.begun| == |s.j.terminals| + (if s.j.state == Generating then 1 else 0)
            && (forall r :: r in s.j.terminals ==> s.begun[r] == 1 && EvidenceOf(s.j, r) == Some(s.j.terminals[r]))
  {
    EveryRunIsOk(model, context, policy, actions);
    hide Run;
    var s := Run(model, context, policy, actions);
    var all := s.j.terminals.Keys + (if s.j.request.Some? then {s.j.request.value} else {});
    assert |all| == |s.j.terminals| + (if s.j.state == Generating then 1 else 0);
    SetHasNoRepeats(all);
  }

  lemma {:induction false} SetHasNoRepeats(all: set<string>)
    ensures |multiset(all)| == |all| && forall r :: multiset(all)[r] == if r in all then 1 else 0
  {
  }

  /**
   The server is told to load only while the row says loading, and to unload only while it says
   unloading, never while generating.
   */
  lemma {:induction false} OrdersMatchTheRow(model: string, context: int, policy: string, actions: seq<Action>, i: nat,
                                             catalog: Catalog,
                          answer: LoadAnswer)
    requires var s := Run(model, context, policy, actions); i < |s.calls|
    ensures var s := Run(model, context, policy, actions);
            var t := Next(s, Advance(i, catalog, answer));
            && (t.loads != s.loads ==> s.j.state == Loading && s.loads == 0 && s.unloads == [])
            && (t.unloads != s.unloads ==>
                s.j.state == Unloading && s.unloads == [] && s.j.request.None? && Some(t.unloads[0]) == s.j.instance)
  {
    EveryRunIsOk(model, context, policy, actions);
    hide Run, RowOk, Refused, Moved, SameInstance, TerminalFits, IdentifierOk;
    var s := Run(model, context, policy, actions);
    assert SeenOk(s.j, s.calls[i]);
  }

  /** The catalog shows one loaded instance: the journal's own, at the context recorded for it. */
  predicate ShowsOwn(j: Journal, catalog: Catalog) {
    && j.instance.Some? && j.observed.Some?
    && catalog == Some(map[j.instance.value := (j.model, j.observed.value)])
  }

  /**
   The catalog justifies what follows it, in every reachable system: loading starts, and
   closing is recorded, only when it showed nothing loaded; generating and unloading start
   only when it showed exactly the instance the journal owns, and generating only at the
   context the journal was made for.
   */
  lemma {:induction false} CatalogJustifiesTheIntent(model: string, context: int, policy: string, actions: seq<Action>,
                                                     i: nat,
                                  catalog: Catalog, answer: LoadAnswer)
    requires var s := Run(model, context, policy, actions);
             i < |s.calls| && Step(s, i, catalog, answer).calls[i] != s.calls[i]
    ensures var s := Run(model, context, policy, actions);
            var c := Step(s, i, catalog, answer).calls[i];
            && (c.LoadIntent? || c.CloseWrite? ==> catalog == Some(map[]))
            && (c.UnloadIntent? ==> ShowsOwn(s.j, catalog))
            && (c.BeginIntent? ==> ShowsOwn(s.j, catalog) && s.j.observed == Some(s.j.context))
  {
    EveryRunIsOk(model, context, policy, actions);
    hide Run, LoadOk, UnloadOk, RequestsOk, RowOk, Moved, Refused;
    var s := Run(model, context, policy, actions);
    assert SeenOk(s.j, s.calls[i]);
  }

  // ------------------------------------------------------------- what each call comes to

  /** The call in place `i` left to run, step after step, with what the server answers at each. */
  function Left(s: System, i: nat, answers: seq<(Catalog, LoadAnswer)>): System
    requires i < |s.calls|
    decreases |answers|
  {
    if answers == [] then s else Left(Step(s, i, answers[0].0, answers[0].1), i, answers[1..])
  }

  /** Six steps: enough for any call. The second sees the first catalog, the fifth the last. */
  function Answers(first: Catalog, answer: LoadAnswer, last: Catalog): seq<(Catalog, LoadAnswer)> {
    [(first, answer), (first, answer), (first, answer), (first, answer), (last, answer), (last, answer)]
  }

  lemma {:induction false} SixSteps(s: System, i: nat, first: Catalog, answer: LoadAnswer, last: Catalog)
    requires i < |s.calls|
    ensures Left(s, i, Answers(first, answer, last))
         == Step(Step(Step(Step(Step(Step(s, i, first, answer), i, first, answer), i, first, answer), i, first, answer),
                      i, last, answer), i, last, answer)
  {
    hide Step;
    var all := Answers(first, answer, last);
    var a := Step(s, i, first, answer);
    var b := Step(a, i, first, answer);
    var c := Step(b, i, first, answer);
    var d := Step(c, i, first, answer);
    var e := Step(d, i, last, answer);
    var f := Step(e, i, last, answer);
    assert Left(f, i, []) == f;
    assert all[1..][1..] == all[2..] && all[2..][1..] == all[3..] && all[3..][1..] == all[4..]
           && all[4..][1..] == all[5..]
        && all[5..][1..] == [];
    assert Left(s, i, all) == Left(a, i, all[1..]) == Left(b, i, all[2..]) == Left(c, i, all[3..])
           == Left(d, i, all[4..])
        == Left(e, i, all[5..]) == Left(f, i, []);
  }

  function At(s: System, c: Call): System {
    s.(calls := s.calls + [c])
  }

  lemma {:induction false} StepsOn(s: System, c: Call, catalog: Catalog, answer: LoadAnswer)
    requires Asks(c).None? && !c.LoadOrder? && !c.UnloadOrder?
    ensures Step(At(s, c), |s.calls|, catalog, answer) == At(s, AfterReading(s.j, c, catalog, answer))
  {
    assert At(s, c).calls[|s.calls| := AfterReading(s.j, c, catalog, answer)]
        == s.calls + [AfterReading(s.j, c, catalog, answer)];
  }

  /** A call that has ended does nothing more. */
  lemma {:induction false} EndedOn(s: System, c: Call)
    requires c.Ended? || c.Sending? || c.StartCheck?
    ensures forall catalog, answer :: Step(At(s, c), |s.calls|, catalog, answer) == At(s, Ended)
  {
    forall catalog, answer
      ensures Step(At(s, c), |s.calls|, catalog, answer) == At(s, Ended)
    {
      StepsOn(s, c, catalog, answer);
    }
  }

  lemma {:induction false} AsksOn(s: System, c: Call, u: Update, catalog: Catalog, answer: LoadAnswer)
    requires Asks(c) == Some(u)
    ensures Step(At(s, c), |s.calls|, catalog, answer) ==
              if Refused(s.j, u).Some? then At(s, Ended)
              else At(s.(j := Moved(s.j, u), begun := if u.ToGenerating? then s.begun + multiset{u.begun} else s.begun),
                      AfterUpdate(c))
  {
    var next := if Refused(s.j, u).Some? then Ended else AfterUpdate(c);
    assert At(s, c).calls[|s.calls| := next] == s.calls + [next];
  }

  lemma {:induction false} OrdersOn(s: System, c: Call, catalog: Catalog, answer: LoadAnswer)
    requires c.LoadOrder? || c.UnloadOrder?
    ensures Step(At(s, c), |s.calls|, catalog, answer) ==
              At(s.(loads := if c.LoadOrder? then s.loads + 1 else s.loads,
                    unloads := if c.UnloadOrder? then s.unloads + Ordered(c.seen) else s.unloads),
                 AfterReading(s.j, c, catalog, answer))
  {
    assert At(s, c).calls[|s.calls| := AfterReading(s.j, c, catalog, answer)]
        == s.calls + [AfterReading(s.j, c, catalog, answer)];
  }

  /** Where `start` leads when left to run: how far it gets is decided by the first catalog and the load's answer. */
  function Started(s: System, catalog: Catalog, answer: LoadAnswer): System {
    if s.j.state != New || catalog != Some(map[]) then s
    else
      var ordered := s.(j := s.j.(state := Loading, events := s.j.events + [Loading]), loads := s.loads + 1);
      if answer.NotLoaded? || !IdentifierOk(answer.instance) then ordered
      else
        var seen := Observed(answer.reported);
        var state := if seen == Some(s.j.context) then Ready else LoadedInvalid;
        ordered.(j := s.j.(state := state, events := s.j.events + [Loading] + [state],
                           instance := Some(answer.instance),
                           observed := seen, loadReceipt := Some(LoadReceipt(answer.instance, seen, s.j.policy))))
  }

  /**
   `start` left to run, whatever other calls stand where: a new journal becomes ready exactly if
   nothing was loaded and the server answers a named instance at the intended context.
   */
  lemma {:induction false} StartLeadsTo(s: System, first: Catalog, answer: LoadAnswer, last: Catalog)
    ensures Left(Next(s, Start), |s.calls|, Answers(first, answer, last)) == At(Started(s, first, answer), Ended)
  {
    hide Step, SameInstance, TerminalFits, IdentifierOk, Left;
    var i := |s.calls|;
    SixSteps(At(s, StartRead), i, first, answer, last);
    StepsOn(s, StartRead, first, answer);
    if s.j.state == New {
      StepsOn(s, StartCatalog, first, answer);
      if first == Some(map[]) {
        AsksOn(s, LoadIntent, ToLoading, first, answer);
        var a := s.(j := Moved(s.j, ToLoading));
        OrdersOn(a, LoadOrder, first, answer);
        var b := a.(loads := a.loads + 1);
        if answer.Loaded? && IdentifierOk(answer.instance) {
          var u := ToLoaded(answer.instance, Observed(answer.reported));
          AsksOn(b, LoadWrite(answer.instance, Observed(answer.reported)), u, last, answer);
          EndedOn(b.(j := Moved(b.j, u)), StartCheck);
        } else {
          EndedOn(b, Ended);
        }
      } else {
        EndedOn(s, Ended);
      }
    } else {
      EndedOn(s, Ended);
    }
  }

  /** Where `begin` leads: generating, if ready, alone in the catalog, and the request is new. */
  function Begun(s: System, request: string, catalog: Catalog): System {
    if s.j.state == Ready && ShowsOwn(s.j, catalog) && request !in s.j.terminals then
      s.(j := s.j.(state := Generating, events := s.j.events + [Generating], request := Some(request),
                   terminal := None),
         begun := s.begun + multiset{request})
    else s
  }

  lemma {:induction false} BeginLeadsTo(s: System, request: string, first: Catalog, answer: LoadAnswer, last: Catalog)
    ensures Left(Next(s, Begin(request)), |s.calls|, Answers(first, answer, last))
            == At(Begun(s, request, first), Ended)
  {
    hide Step, TerminalFits, IdentifierOk, Left;
    var i := |s.calls|;
    SixSteps(At(s, BeginRead(request)), i, first, answer, last);
    StepsOn(s, BeginRead(request), first, answer);
    if s.j.state == Ready {
      StepsOn(s, BeginCatalog(request, s.j), first, answer);
      if ShowsOwn(s.j, first) {
        AsksOn(s, BeginIntent(request), ToGenerating(request), first, answer);
        if request !in s.j.terminals {
          var a := Begun(s, request, first);
          EndedOn(a, Sending(request));
          EndedOn(a, Ended);
        } else {
          EndedOn(s, Ended);
        }
      } else {
        EndedOn(s, Ended);
      }
    } else {
      EndedOn(s, Ended);
    }
  }

  /**
   Where `record_terminal` leads: ready again with the terminal recorded, if it is the finished
   terminal of the current request.
   */
  function Terminated(s: System, request: string, receipt: TerminalReceipt): System {
    if s.j.state == Generating && s.j.request == Some(request)
       && receipt.request == request && receipt.serverFinished && receipt.wellFormed then
      s.(j := s.j.(state := Ready, events := s.j.events + [Ready], request := None, terminal := Some(receipt),
                   terminals := s.j.terminals[request := TerminalRow(request, receipt, s.j.policy, s.j.model,
                                                                     s.j.observed,
                                                                     s.j.instance, s.j.loadReceipt)]))
    else s
  }

  lemma {:induction false} TerminalLeadsTo(s: System, request: string, receipt: TerminalReceipt, first: Catalog,
                                           answer: LoadAnswer, last: Catalog)
    ensures Left(Next(s, RecordTerminal(request, receipt)), |s.calls|, Answers(first, answer, last))
         == At(Terminated(s, request, receipt), Ended)
  {
    hide Step, SameInstance, IdentifierOk, Left;
    var i := |s.calls|;
    SixSteps(At(s, TerminalRead(request, receipt)), i, first, answer, last);
    StepsOn(s, TerminalRead(request, receipt), first, answer);
    if TerminalFits(s.j, request, receipt) {
      AsksOn(s, TerminalWrite(request, receipt), ToReady(request, receipt), first, answer);
      var a := Terminated(s, request, receipt);
      EndedOn(a, Ended);
    } else {
      EndedOn(s, Ended);
    }
  }

  /** Where `finish` leads: the own instance is ordered unloaded once, and closed if the last catalog is empty. */
  function FinishedBy(s: System, first: Catalog, last: Catalog): System {
    if s.j.state in {Ready, LoadedInvalid} && ShowsOwn(s.j, first) then
      var unloading := s.j.(state := Unloading, events := s.j.events + [Unloading]);
      s.(j := if last == Some(map[]) then unloading.(state := Closed, events := unloading.events + [Closed])
         else unloading,
         unloads := s.unloads + [s.j.instance.value])
    else s
  }

  lemma {:induction false} UnloadLeadsTo(s: System, first: Catalog, answer: LoadAnswer, last: Catalog)
    requires s.j.state in {Ready, LoadedInvalid} && ShowsOwn(s.j, first)
    ensures var i := |s.calls|;
            Step(Step(Step(Step(At(s, UnloadIntent(s.j)), i, first, answer), i, first, answer), i, last, answer), i,
                 last, answer)
            == At(FinishedBy(s, first, last), Ended)
  {
    assert s.j.instance.Some?;
    hide Step, TerminalFits, IdentifierOk, ShowsOwn, SameInstance;
    AsksOn(s, UnloadIntent(s.j), ToUnloading, first, answer);
    var a := s.(j := Moved(s.j, ToUnloading));
    OrdersOn(a, UnloadOrder(s.j), first, answer);
    var b := a.(unloads := a.unloads + Ordered(s.j));
    StepsOn(b, ClosingCatalog, last, answer);
    if last == Some(map[]) {
      AsksOn(b, CloseWrite, ToClosed, last, answer);
    } else {
      EndedOn(b, Ended);
    }
  }

  lemma {:induction false} FinishLeadsTo(s: System, first: Catalog, answer: LoadAnswer, last: Catalog)
    ensures Left(Next(s, Finish), |s.calls|, Answers(first, answer, last)) == At(FinishedBy(s, first, last), Ended)
  {
    hide Step, TerminalFits, IdentifierOk, Left;
    var i := |s.calls|;
    SixSteps(At(s, FinishRead), i, first, answer, last);
    StepsOn(s, FinishRead, first, answer);
    if s.j.state in {Ready, LoadedInvalid} {
      StepsOn(s, FinishCatalog(s.j), first, answer);
      if ShowsOwn(s.j, first) {
        UnloadLeadsTo(s, first, answer, last);
      } else {
        EndedOn(s, Ended);
      }
    } else {
      EndedOn(s, Ended);
    }
  }

  /**
   Accepted evidence names its request and binds the terminal to this journal's model, context and
   policy, and to one load.
   */
  lemma {:induction false} EvidenceBindsTheLoad(j: Journal, finished: string)
    ensures EvidenceOf(j, finished).Some? <==>
              && finished in j.terminals
              && var item := j.terminals[finished];
                 && item.request == finished && item.model == j.model && item.policy == j.policy
                 && item.context == Some(j.context)
                 && exists instance :: item.instance == Some(instance) && IdentifierOk(instance)
                                       && item.loadReceipt == Some(LoadReceipt(instance, Some(j.context), j.policy))
    ensures EvidenceOf(j, finished).Some? ==> EvidenceOf(j, finished).value == j.terminals[finished]
  {
    hide IdentifierOk;
  }
}
