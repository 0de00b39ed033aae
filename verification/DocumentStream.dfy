/**
 The delivery log of a document stream and the temporal reducer over it.

 A delivery is recorded once, whole batches at a time; the latest delivered revision of a
 source decides whether the source is active.
 */
module DocumentStream {
  import opened Prelude

  const MAX_BATCH := 256
  const MAX_DELIVERIES := 10000
  const MAX_INTEGER := 0x1f_ffff_ffff_ffff
  const MAX_TEXT := 65536

  datatype Event = Event(
    eventId: string,
    sourceId: string,
    revision: int,
    arrivedAt: int,
    text: string,
    expiresAt: Option<int>,
    retracted: bool)

  predicate IdentifierStart(c: char) {
    'A' <= c <= 'Z' || 'a' <= c <= 'z' || '0' <= c <= '9'
  }

  predicate IdentifierPart(c: char) {
    IdentifierStart(c) || c == '_' || c == '.' || c == '-'
  }

  predicate IsIdentifier(s: string) {
    1 <= |s| <= 64 && IdentifierStart(s[0]) && forall i :: 0 <= i < |s| ==> IdentifierPart(s[i])
  }

  predicate IsTick(n: int) {
    0 <= n <= MAX_INTEGER
  }

  /** Bytes of a character in UTF-8. */
  function CharBytes(c: char): nat {
    if c as int < 0x80 then 1 else if c as int < 0x800 then 2 else if c as int < 0x10000 then 3 else 4
  }

  function TextBytes(s: string): nat {
    if s == "" then 0 else TextBytes(s[..|s| - 1]) + CharBytes(s[|s| - 1])
  }

  /** `DocumentEvent.__post_init__`. */
  predicate EventOk(e: Event) {
    && IsIdentifier(e.eventId) && IsIdentifier(e.sourceId)
    && IsTick(e.revision) && e.revision != 0 && IsTick(e.arrivedAt)
    && (e.expiresAt.Some? ==> IsTick(e.expiresAt.value))
    && TextBytes(e.text) <= MAX_TEXT
    && if e.retracted then e.text == "" && e.expiresAt.None? else NotBlank(e.text)
  }

  /** `revision_content`: what two deliveries of one revision must share. */
  function RevisionContent(e: Event): (string, int, string, Option<int>, bool) {
    (e.sourceId, e.revision, e.text, e.expiresAt, e.retracted)
  }

  // ------------------------------------------------------------- the log

  datatype AppendError = BatchTooLarge | ConflictingIdentity | CapacityOrOrder | ConflictingRevision

  function LatestArrival(log: seq<Event>): int {
    if log == [] then 0
    else
      var before := LatestArrival(log[..|log| - 1]);
      if log[|log| - 1].arrivedAt > before then log[|log| - 1].arrivedAt else before
  }

  predicate Delivered(log: seq<Event>, eventId: string) {
    exists i :: 0 <= i < |log| && log[i].eventId == eventId
  }

  predicate Contradicts(log: seq<Event>, e: Event) {
    exists i :: 0 <= i < |log| && log[i].sourceId == e.sourceId && log[i].revision == e.revision
                && RevisionContent(log[i]) != RevisionContent(e)
  }

  /** One event of a batch. */
  function AppendOne(log: seq<Event>, e: Event): Result<seq<Event>, AppendError> {
    if Delivered(log, e.eventId) then if e in log then Ok(log) else Err(ConflictingIdentity)
    else if |log| >= MAX_DELIVERIES || e.arrivedAt < LatestArrival(log) then Err(CapacityOrOrder)
    else if Contradicts(log, e) then Err(ConflictingRevision)
    else Ok(log + [e])
  }

  /** `append`, from the given position of the batch on. */
  function AppendFrom(log: seq<Event>, batch: seq<Event>, position: nat): Result<seq<Event>, AppendError>
    requires position <= |batch|
    decreases |batch| - position
  {
    if position == |batch| then Ok(log)
    else if position >= MAX_BATCH then Err(BatchTooLarge)
    else
      var next := AppendOne(log, batch[position]);
      if next.Err? then next else AppendFrom(next.value, batch, position + 1)
  }

  function Append(log: seq<Event>, batch: seq<Event>): Result<seq<Event>, AppendError> {
    AppendFrom(log, batch, 0)
  }

  /** Identities are unique, arrivals never go back, and one revision has one content. */
  predicate LogOk(log: seq<Event>) {
    && |log| <= MAX_DELIVERIES
    && (forall i :: 0 <= i < |log| ==> EventOk(log[i]))
    && Consistent(log)
  }

  predicate Consistent(log: seq<Event>) {
    && (forall i, j :: 0 <= i < j < |log| ==> log[i].eventId != log[j].eventId && log[i].arrivedAt <= log[j].arrivedAt)
    && (forall i, j ::
        0 <= i < j < |log| && log[i].sourceId == log[j].sourceId && log[i].revision == log[j].revision ==>
          RevisionContent(log[i]) == RevisionContent(log[j]))
  }

  class StreamStore {
    var deliveries: seq<Event>

    constructor ()
      ensures deliveries == [] && LogOk(deliveries)
    {
      deliveries := [];
    }

    /** `append`: the whole batch or nothing. */
    method AppendBatch(batch: seq<Event>) returns (inserted: Result<nat, AppendError>)
      requires LogOk(deliveries) && forall i :: 0 <= i < |batch| ==> EventOk(batch[i])
      modifies this
      ensures LogOk(deliveries)
      ensures var spec := Append(old(deliveries), batch);
              if spec.Ok? then deliveries == spec.value && inserted == Ok(|deliveries| - |old(deliveries)|)
              else deliveries == old(deliveries) && inserted == Err(spec.error)
    {
      hide EventOk;
      var saved, count := deliveries, |deliveries|;
      var lastTick := LatestArrival(deliveries);
      var added := 0;
      for position := 0 to |batch|
        invariant LogOk(deliveries) && saved == old(deliveries) && |deliveries| == count + added
        invariant lastTick == LatestArrival(deliveries)
        invariant Append(saved, batch) == AppendFrom(deliveries, batch, position)
      {
        if position >= MAX_BATCH {
          deliveries := saved;
          return Err(BatchTooLarge);
        }
        var e := batch[position];
        if prior :| 0 <= prior < |deliveries| && deliveries[prior].eventId == e.eventId {
          SoleDelivery(deliveries, prior, e);
          if deliveries[prior] != e {
            deliveries := saved;
            return Err(ConflictingIdentity);
          }
          continue;
        }
        if count + added >= MAX_DELIVERIES || e.arrivedAt < lastTick {
          deliveries := saved;
          return Err(CapacityOrOrder);
        }
        if same :|
          0 <= same < |deliveries| && deliveries[same].sourceId == e.sourceId && deliveries[same].revision == e.revision
        {
          SoleContent(deliveries, same, e);
          if RevisionContent(deliveries[same]) != RevisionContent(e) {
            deliveries := saved;
            return Err(ConflictingRevision);
          }
        }
        AppendOneKeeps(deliveries, e);
        deliveries, added, lastTick := deliveries + [e], added + 1, e.arrivedAt;
      }
      return Ok(added);
    }
  }

  /** With unique identities, any row with the event's identity decides whether it was delivered as is. */
  lemma {:induction false} SoleDelivery(log: seq<Event>, prior: nat, e: Event)
    requires Consistent(log) && prior < |log| && log[prior].eventId == e.eventId
    ensures log[prior] == e <==> e in log
  {
  }

  /** All deliveries of a revision agree, so any one of them decides. */
  lemma {:induction false} SoleContent(log: seq<Event>, same: nat, e: Event)
    requires Consistent(log) && same < |log| && log[same].sourceId == e.sourceId && log[same].revision == e.revision
    ensures RevisionContent(log[same]) != RevisionContent(e) <==> Contradicts(log, e)
  {
  }

  lemma {:induction false} ArrivalBounds(log: seq<Event>)
    ensures forall i :: 0 <= i < |log| ==> log[i].arrivedAt <= LatestArrival(log)
  {
    if log != [] {
      ArrivalBounds(log[..|log| - 1]);
    }
  }

  lemma {:induction false} AppendOneKeeps(log: seq<Event>, e: Event)
    requires LogOk(log) && EventOk(e) && AppendOne(log, e).Ok?
    ensures LogOk(AppendOne(log, e).value) && log <= AppendOne(log, e).value && e in AppendOne(log, e).value
    ensures !Delivered(log, e.eventId) ==> LatestArrival(log + [e]) == e.arrivedAt
  {
    hide EventOk;
    ArrivalBounds(log);
    assert (log + [e])[..|log|] == log;
  }

  // ------------------------------------------------------------- what appending keeps

  lemma {:induction false} AppendFromKeeps(log: seq<Event>, batch: seq<Event>, position: nat)
    requires LogOk(log) && position <= |batch| && AppendFrom(log, batch, position).Ok?
    requires forall i :: 0 <= i < |batch| ==> EventOk(batch[i])
    ensures var after := AppendFrom(log, batch, position).value;
            && LogOk(after) && log <= after
            && (forall i :: position <= i < |batch| ==> batch[i] in after)
    decreases |batch| - position
  {
    hide EventOk, LogOk, Delivered, Contradicts;
    if position < |batch| {
      AppendOneKeeps(log, batch[position]);
      var next := AppendOne(log, batch[position]).value;
      AppendFromKeeps(next, batch, position + 1);
    }
  }

  /** An accepted batch only extends the log, leaves it consistent, and everything in it has been delivered. */
  lemma {:induction false} AppendKeeps(log: seq<Event>, batch: seq<Event>)
    requires LogOk(log) && Append(log, batch).Ok? && forall i :: 0 <= i < |batch| ==> EventOk(batch[i])
    ensures var after := Append(log, batch).value;
            LogOk(after) && log <= after && forall i :: 0 <= i < |batch| ==> batch[i] in after
  {
    hide EventOk, LogOk;
    AppendFromKeeps(log, batch, 0);
  }

  lemma {:induction false} DeliveredIsNoOp(log: seq<Event>, batch: seq<Event>, position: nat)
    requires position <= |batch| <= MAX_BATCH && forall i :: 0 <= i < |batch| ==> batch[i] in log
    ensures AppendFrom(log, batch, position) == Ok(log)
    decreases |batch| - position
  {
    if position < |batch| {
      assert Delivered(log, batch[position].eventId);
      DeliveredIsNoOp(log, batch, position + 1);
    }
  }

  lemma {:induction false} LargeBatchFails(log: seq<Event>, batch: seq<Event>, position: nat)
    requires position <= MAX_BATCH < |batch|
    ensures AppendFrom(log, batch, position).Err?
    decreases MAX_BATCH - position
  {
    hide AppendOne;
    if position < MAX_BATCH && AppendOne(log, batch[position]).Ok? {
      LargeBatchFails(AppendOne(log, batch[position]).value, batch, position + 1);
    }
  }

  /** The log after a history of batches, each whole or not at all. */
  function History(batches: seq<seq<Event>>): seq<Event> {
    if batches == [] then []
    else
      var before := History(batches[..|batches| - 1]);
      var after := Append(before, batches[|batches| - 1]);
      if after.Ok? then after.value else before
  }

  predicate BatchesOk(batches: seq<seq<Event>>) {
    forall i, k :: 0 <= i < |batches| && 0 <= k < |batches[i]| ==> EventOk(batches[i][k])
  }

  lemma {:induction false} HistoryIsOk(batches: seq<seq<Event>>)
    requires BatchesOk(batches)
    ensures LogOk(History(batches))
  {
    hide LogOk, EventOk, Append;
    if batches == [] {
      EmptyLogOk();
    } else {
      HistoryIsOk(batches[..|batches| - 1]);
      var before := History(batches[..|batches| - 1]);
      if Append(before, batches[|batches| - 1]).Ok? {
        AppendKeeps(before, batches[|batches| - 1]);
      }
    }
  }

  lemma {:induction false} EmptyLogOk()
    ensures LogOk([])
  {
  }

  lemma {:induction false} HistoryGrows(batches: seq<seq<Event>>, more: seq<seq<Event>>)
    requires BatchesOk(batches + more)
    ensures BatchesOk(batches) && History(batches) <= History(batches + more)
    decreases |more|
  {
    hide LogOk, EventOk, Append;
    assert forall i :: 0 <= i < |batches| ==> (batches + more)[i] == batches[i];
    if more == [] {
      assert batches + more == batches;
    } else {
      var n := |more| - 1;
      var front := batches + more[..n];
      assert (batches + more)[..|batches + more| - 1] == front;
      assert forall i :: 0 <= i < |front| ==> (batches + more)[i] == front[i];
      HistoryGrows(batches, more[..n]);
      HistoryIsOk(front);
      assert (batches + more)[|front|] == more[n];
      if Append(History(front), more[n]).Ok? {
        AppendKeeps(History(front), more[n]);
      }
    }
  }

  /** Delivering an accepted batch again, whatever has arrived since, is accepted and changes nothing. */
  lemma {:induction false} RedeliveryIsNoOp(batches: seq<seq<Event>>, batch: seq<Event>, more: seq<seq<Event>>)
    requires BatchesOk(batches + [batch] + more) && Append(History(batches), batch).Ok?
    ensures var log := History(batches + [batch] + more); Append(log, batch) == Ok(log)
  {
    hide LogOk, EventOk;
    HistoryGrows(batches + [batch], more);
    HistoryGrows(batches, [batch]);
    HistoryIsOk(batches);
    assert (batches + [batch])[..|batches|] == batches;
    if |batch| > MAX_BATCH {
      LargeBatchFails(History(batches), batch, 0);
      assert false;
    }
    BatchIsOk(batches, batch, more);
    AppendKeeps(History(batches), batch);
    DeliveredIsNoOp(History(batches + [batch] + more), batch, 0);
  }

  lemma {:induction false} BatchIsOk(batches: seq<seq<Event>>, batch: seq<Event>, more: seq<seq<Event>>)
    requires BatchesOk(batches + [batch] + more)
    ensures forall k :: 0 <= k < |batch| ==> EventOk(batch[k])
  {
    assert (batches + [batch] + more)[|batches|] == batch;
  }

  // ------------------------------------------------------------- the temporal reducer

  /** `observation`: what has arrived by a tick, in delivery order. */
  function Observation(log: seq<Event>, at: int): seq<Event> {
    if log == [] then []
    else
      var last := log[|log| - 1];
      Observation(log[..|log| - 1], at) + (if last.arrivedAt <= at then [last] else [])
  }

  /** The first delivery of the highest revision of each source. */
  function LatestOf(events: seq<Event>): map<string, Event> {
    if events == [] then map[]
    else
      var before := LatestOf(events[..|events| - 1]);
      var e := events[|events| - 1];
      if e.sourceId !in before || e.revision > before[e.sourceId].revision then before[e.sourceId := e] else before
  }

  predicate IsActive(e: Event, at: int) {
    !e.retracted && (e.expiresAt.Some? ==> at < e.expiresAt.value)
  }

  function ActiveOf(events: seq<Event>, at: int): map<string, Event> {
    var latest := LatestOf(events);
    map s | s in latest && IsActive(latest[s], at) :: latest[s]
  }

  method LatestEvents(events: seq<Event>) returns (latest: map<string, Event>)
    ensures latest == LatestOf(events)
  {
    latest := map[];
    for i := 0 to |events|
      invariant latest == LatestOf(events[..i])
    {
      assert events[..i + 1][..i] == events[..i];
      var e := events[i];
      if e.sourceId !in latest || e.revision > latest[e.sourceId].revision {
        latest := latest[e.sourceId := e];
      }
    }
    assert events[..|events|] == events;
  }

  /** `active_sources`. */
  method ActiveSources(log: seq<Event>, at: int) returns (active: map<string, Event>)
    ensures active == ActiveOf(Observation(log, at), at)
  {
    var latest := LatestEvents(Observation(log, at));
    active := map s | s in latest && IsActive(latest[s], at) :: latest[s];
  }

  /** No delivery of the source has a higher revision, and none before it has the same. */
  predicate IsFirstLatest(events: seq<Event>, i: nat)
    requires i < |events|
  {
    forall k :: 0 <= k < |events| && events[k].sourceId == events[i].sourceId ==>
      events[k].revision <= events[i].revision && (k < i ==> events[k].revision < events[i].revision)
  }

  lemma {:induction false} SourcesAreSeen(events: seq<Event>, i: nat)
    requires i < |events|
    ensures events[i].sourceId in LatestOf(events)
  {
    var n := |events| - 1;
    if i < n {
      SourcesAreSeen(events[..n], i);
    }
  }

  /** The reducer's map, independently: a source's entry is its first delivery of the highest revision. */
  lemma {:induction false} LatestIsFirstLatest(events: seq<Event>, source: string) returns (i: nat)
    requires source in LatestOf(events)
    ensures i < |events| && events[i] == LatestOf(events)[source] && events[i].sourceId == source
            && IsFirstLatest(events, i)
  {
    var n := |events| - 1;
    var front, e := events[..n], events[n];
    if source in LatestOf(front) {
      i := LatestIsFirstLatest(front, source);
      if e.sourceId == source && e.revision > front[i].revision {
        i := n;
      }
    } else {
      i := n;
      forall k | 0 <= k < n
        ensures events[k].sourceId != source
      {
        SourcesAreSeen(front, k);
      }
    }
  }

  /** Only one delivery of a source can be its first latest. */
  lemma {:induction false} FirstLatestIsUnique(events: seq<Event>, i: nat, k: nat)
    requires i < |events| && k < |events| && events[i].sourceId == events[k].sourceId
    requires IsFirstLatest(events, i) && IsFirstLatest(events, k)
    ensures i == k
  {
  }

  /**
   Conversely, a first delivery of the highest revision is its source's entry: the map is determined by
   that alone.
   */
  lemma {:induction false} FirstLatestIsTheEntry(events: seq<Event>, i: nat)
    requires i < |events| && IsFirstLatest(events, i)
    ensures events[i].sourceId in LatestOf(events) && LatestOf(events)[events[i].sourceId] == events[i]
  {
    SourcesAreSeen(events, i);
    var k := LatestIsFirstLatest(events, events[i].sourceId);
    FirstLatestIsUnique(events, i, k);
  }

  lemma {:induction false} ConsistentIsAccepted(log: seq<Event>, e: Event)
    requires LogOk(log + [e])
    ensures AppendOne(log, e) == Ok(log + [e])
  {
    var longer := log + [e];
    forall i | 0 <= i < |log|
      ensures log[i].eventId != e.eventId && log[i].arrivedAt <= e.arrivedAt
      ensures log[i].sourceId == e.sourceId && log[i].revision == e.revision ==>
              RevisionContent(log[i]) == RevisionContent(e)
    {
      assert longer[i] == log[i] && longer[|log|] == e;
    }
    LatestArrivalIsReached(log);
    assert EventOk(longer[|log|]);
  }

  /** One event is accepted exactly when it is already there or the log stays consistent with it. */
  lemma {:induction false} AcceptedExactlyWhenConsistent(log: seq<Event>, e: Event)
    requires LogOk(log) && EventOk(e)
    ensures AppendOne(log, e).Ok? <==> e in log || LogOk(log + [e])
    ensures AppendOne(log, e).Ok? ==> AppendOne(log, e).value == if e in log then log else log + [e]
  {
    hide EventOk;
    if LogOk(log + [e]) {
      ConsistentIsAccepted(log, e);
    }
    if AppendOne(log, e).Ok? {
      AppendOneKeeps(log, e);
    }
  }

  lemma {:induction false} LatestArrivalIsReached(log: seq<Event>)
    ensures LatestArrival(log) == 0 || exists i :: 0 <= i < |log| && log[i].arrivedAt == LatestArrival(log)
  {
    if log != [] {
      LatestArrivalIsReached(log[..|log| - 1]);
    }
  }

  // ------------------------------------------------------------- why a delivery is refused

  /** Each refusal by its own condition on the log and the event. */
  predicate RefusedFor(error: AppendError, log: seq<Event>, e: Event) {
    match error
    case BatchTooLarge => false
    case ConflictingIdentity => e !in log && exists i :: 0 <= i < |log| && log[i].eventId == e.eventId
    case CapacityOrOrder => IsUnknown(log, e) && !HasRoom(log, e)
    case ConflictingRevision =>
      && IsUnknown(log, e) && HasRoom(log, e)
      && exists i :: 0 <= i < |log| && log[i].sourceId == e.sourceId && log[i].revision == e.revision
                     && RevisionContent(log[i]) != RevisionContent(e)
  }

  predicate IsUnknown(log: seq<Event>, e: Event) {
    forall i :: 0 <= i < |log| ==> log[i].eventId != e.eventId
  }

  /** The log is not full, and nothing in it arrived later. */
  predicate HasRoom(log: seq<Event>, e: Event) {
    |log| < MAX_DELIVERIES && forall i :: 0 <= i < |log| ==> log[i].arrivedAt <= e.arrivedAt
  }

  lemma {:induction false} RefusalSaysWhy(log: seq<Event>, e: Event, error: AppendError)
    requires LogOk(log) && EventOk(e)
    ensures AppendOne(log, e) == Err(error) <==> RefusedFor(error, log, e)
  {
    LatestArrivalIsReached(log);
    ArrivalBounds(log);
    assert e.arrivedAt >= 0;
    hide EventOk, RevisionContent;
    assert e.arrivedAt >= LatestArrival(log) <==> forall i :: 0 <= i < |log| ==> log[i].arrivedAt <= e.arrivedAt;
    assert e in log ==> !IsUnknown(log, e);
    assert Delivered(log, e.eventId) <==> !IsUnknown(log, e);
  }

  /** A batch is refused at its first event that is, with that event's refusal, or for being too long. */
  lemma {:induction false} BatchStopsAtTheFirstRefusal(log: seq<Event>, batch: seq<Event>, position: nat)
    requires position <= |batch| && AppendFrom(log, batch, position).Err?
    ensures exists k ::
            position <= k < |batch| && StopsAt(log, batch, position, k, AppendFrom(log, batch, position).error)
    decreases |batch| - position
  {
    hide AppendOne;
    assert batch[..position] == batch[..position];
    if position < MAX_BATCH && AppendOne(log, batch[position]).Ok? {
      var next := AppendOne(log, batch[position]).value;
      BatchStopsAtTheFirstRefusal(next, batch, position + 1);
      var error := AppendFrom(log, batch, position).error;
      var k :| position + 1 <= k < |batch| && StopsAt(next, batch, position + 1, k, error);
      assert StopsAt(log, batch, position, k, error);
    } else {
      assert StopsAt(log, batch, position, position, AppendFrom(log, batch, position).error);
    }
  }

  /** The events from `position` up to `k` go in, and event `k` is refused. */
  predicate StopsAt(log: seq<Event>, batch: seq<Event>, position: nat, k: nat, error: AppendError)
    requires position <= k < |batch|
    decreases k - position
  {
    if position == k then if k >= MAX_BATCH then error == BatchTooLarge else AppendOne(log, batch[k]) == Err(error)
    else position < MAX_BATCH && AppendOne(log, batch[position]).Ok?
         && StopsAt(AppendOne(log, batch[position]).value, batch, position + 1, k, error)
  }

  /** An accepted batch adds nothing but its own events. */
  lemma {:induction false} OnlyTheBatchIsAdded(log: seq<Event>, batch: seq<Event>, position: nat)
    requires position <= |batch| && AppendFrom(log, batch, position).Ok?
    ensures forall e :: e in AppendFrom(log, batch, position).value ==> e in log || e in batch
    decreases |batch| - position
  {
    if position < |batch| {
      OnlyTheBatchIsAdded(AppendOne(log, batch[position]).value, batch, position + 1);
    }
  }
}
