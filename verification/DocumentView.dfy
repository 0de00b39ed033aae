/**
 Document requests, the current-source view of a request, and the citation gate.

 A request's canonical length is a header, which also covers the empty event array, plus
 the encoded events and the separators between them; how long the header and one event
 are is left open.
 */
module DocumentView {
  import opened Prelude
  import opened Json
  import opened DocumentStream
  import opened RepairScopes

  const MAX_EVENTS := 256
  const MAX_REQUEST := 65536

  datatype Task = Task(taskId: string, instruction: string, factKeys: seq<string>)

  datatype Request = Request(runId: string, at: int, events: seq<Event>, task: Task)

  datatype Encoding = Encoding(event: Event -> nat, header: (string, int, Task) -> nat)

  function ArrayBytes(enc: Encoding, events: seq<Event>): nat {
    if events == [] then 0
    else ArrayBytes(enc, events[..|events| - 1]) + (if |events| > 1 then 1 else 0) + enc.event(events[|events| - 1])
  }

  function RequestBytes(enc: Encoding, r: Request): nat {
    enc.header(r.runId, r.at, r.task) + ArrayBytes(enc, r.events)
  }

  /** `1 <= len(instruction.strip()) <= 2048`, the length counted without surrounding space. */
  function StripLeft(s: string): string {
    if s != "" && IsSpace(s[0]) then StripLeft(s[1..]) else s
  }

  function Strip(s: string): string {
    StripRight(StripLeft(s))
  }

  function StripRight(s: string): string {
    if s != "" && IsSpace(s[|s| - 1]) then StripRight(s[..|s| - 1]) else s
  }

  predicate TaskOk(task: Task) {
    && IsIdentifier(task.taskId) && 1 <= |Strip(task.instruction)| <= 2048
    && 1 <= |task.factKeys| <= 32 && (forall k :: k in task.factKeys ==> IsIdentifier(k))
    && (forall i, j :: 0 <= i < j < |task.factKeys| ==> task.factKeys[i] != task.factKeys[j])
  }

  predicate EventsOk(events: seq<Event>, at: int) {
    && (forall i :: 0 <= i < |events| ==> EventOk(events[i]) && events[i].arrivedAt <= at)
    && Consistent(events)
  }

  /** `make_request` accepts. */
  predicate RequestOk(enc: Encoding, r: Request) {
    && IsIdentifier(r.runId) && IsTick(r.at) && TaskOk(r.task)
    && |r.events| <= MAX_EVENTS && EventsOk(r.events, r.at)
    && RequestBytes(enc, r) <= MAX_REQUEST
  }

  type Revisions = map<(string, int), (string, int, string, Option<int>, bool)>

  function RevisionKey(e: Event): (string, int) {
    (e.sourceId, e.revision)
  }

  /** The identities of the first `i` events. */
  function Seen(events: seq<Event>, i: nat): set<string>
    requires i <= |events|
  {
    if i == 0 then {} else Seen(events, i - 1) + {events[i - 1].eventId}
  }

  /** The content last recorded for each revision among them. */
  function Recorded(events: seq<Event>, i: nat): Revisions
    requires i <= |events|
  {
    if i == 0 then map[] else Recorded(events, i - 1)[RevisionKey(events[i - 1]) := RevisionContent(events[i - 1])]
  }

  lemma {:induction false} Remembered(events: seq<Event>, i: nat, k: nat)
    requires k < i <= |events|
    ensures events[k].eventId in Seen(events, i) && RevisionKey(events[k]) in Recorded(events, i)
  {
    if k < i - 1 {
      Remembered(events, i - 1, k);
    }
  }

  lemma {:induction false} SeenBefore(events: seq<Event>, i: nat, id: string) returns (k: nat)
    requires i <= |events| && id in Seen(events, i)
    ensures k < i && events[k].eventId == id
  {
    if id == events[i - 1].eventId {
      k := i - 1;
    } else {
      k := SeenBefore(events, i - 1, id);
    }
  }

  lemma {:induction false} RecordedBefore(events: seq<Event>, i: nat, key: (string, int)) returns (k: nat)
    requires i <= |events| && key in Recorded(events, i)
    ensures k < i && RevisionKey(events[k]) == key && Recorded(events, i)[key] == RevisionContent(events[k])
  {
    if key == RevisionKey(events[i - 1]) {
      k := i - 1;
    } else {
      k := RecordedBefore(events, i - 1, key);
    }
  }

  /** Nothing remembered, and no earlier tick, speaks against this event. */
  predicate Admits(seen: set<string>, revisions: Revisions, lastTick: int, e: Event, at: int) {
    && e.eventId !in seen && lastTick <= e.arrivedAt <= at
    && (RevisionKey(e) in revisions ==> revisions[RevisionKey(e)] == RevisionContent(e))
  }

  function LastTick(events: seq<Event>, i: nat): int
    requires i <= |events|
  {
    if i == 0 then 0 else events[i - 1].arrivedAt
  }

  lemma {:induction false} AdmittedExtends(events: seq<Event>, at: int, i: nat)
    requires i < |events| && EventsOk(events[..i], at) && EventOk(events[i])
    requires Admits(Seen(events, i), Recorded(events, i), LastTick(events, i), events[i], at)
    ensures EventsOk(events[..i + 1], at)
  {
    forall k | 0 <= k < i
      ensures events[k].eventId != events[i].eventId
      ensures RevisionKey(events[k]) == RevisionKey(events[i]) ==>
              RevisionContent(events[k]) == RevisionContent(events[i])
    {
      Remembered(events, i, k);
      if RevisionKey(events[k]) == RevisionKey(events[i]) {
        var l := RecordedBefore(events, i, RevisionKey(events[i]));
        SameRevisionSameContent(events[..i], at, k, l);
      }
    }
    hide EventOk, RevisionContent;
    ExtendEvents(events, at, i);
  }

  lemma {:induction false} SameRevisionSameContent(events: seq<Event>, at: int, k: nat, l: nat)
    requires EventsOk(events, at) && k < |events| && l < |events| && RevisionKey(events[k]) == RevisionKey(events[l])
    ensures RevisionContent(events[k]) == RevisionContent(events[l])
  {
    hide EventOk;
  }

  lemma {:induction false} GoodEventsAdmit(events: seq<Event>, at: int, i: nat)
    requires i < |events| && EventsOk(events, at)
    ensures Admits(Seen(events, i), Recorded(events, i), LastTick(events, i), events[i], at)
  {
    ArrivesAfterZero(events[i]);
    if events[i].eventId in Seen(events, i) {
      var k := SeenBefore(events, i, events[i].eventId);
    }
    if RevisionKey(events[i]) in Recorded(events, i) {
      var k := RecordedBefore(events, i, RevisionKey(events[i]));
      SameRevisionSameContent(events, at, k, i);
    }
  }

  /** The event loop of `make_request`. */
  method CheckEvents(events: seq<Event>, at: int) returns (ok: bool)
    ensures ok <==> EventsOk(events, at)
  {
    var seen: set<string>, revisions: Revisions, lastTick := {}, map[], 0;
    assert EventsOk(events[..0], at);
    for i := 0 to |events|
      invariant EventsOk(events[..i], at)
      invariant seen == Seen(events, i) && revisions == Recorded(events, i) && lastTick == LastTick(events, i)
    {
      hide EventsOk, EventOk;
      var e := events[i];
      if EventsOk(events, at) {
        GoodEventsAdmit(events, at, i);
        EventAt(events, at, i);
      }
      if !EventOk(e) || e.eventId in seen || !(lastTick <= e.arrivedAt <= at) {
        return false;
      }
      if RevisionKey(e) in revisions && revisions[RevisionKey(e)] != RevisionContent(e) {
        return false;
      }
      AdmittedExtends(events, at, i);
      seen, lastTick := seen + {e.eventId}, e.arrivedAt;
      revisions := revisions[RevisionKey(e) := RevisionContent(e)];
    }
    assert events[..|events|] == events;
    return true;
  }

  lemma {:induction false} EventAt(events: seq<Event>, at: int, i: nat)
    requires EventsOk(events, at) && i < |events|
    ensures EventOk(events[i])
  {
    hide EventOk;
  }

  lemma {:induction false} ArrivesAfterZero(e: Event)
    requires EventOk(e)
    ensures 0 <= e.arrivedAt
  {
  }

  lemma {:induction false} ExtendEvents(events: seq<Event>, at: int, i: nat)
    requires i < |events| && EventsOk(events[..i], at) && EventOk(events[i]) && events[i].arrivedAt <= at
    requires forall k :: 0 <= k < i ==> events[k].eventId != events[i].eventId
    requires i > 0 ==> events[i - 1].arrivedAt <= events[i].arrivedAt
    requires forall k ::
             0 <= k < i && events[k].sourceId == events[i].sourceId && events[k].revision == events[i].revision ==>
               RevisionContent(events[k]) == RevisionContent(events[i])
    ensures EventsOk(events[..i + 1], at)
  {
    hide EventOk;
    assert forall k :: 0 <= k < i ==> events[..i][k] == events[k];
    assert forall k :: 0 <= k < i ==> events[k].arrivedAt <= events[i - 1].arrivedAt;
  }

  // ------------------------------------------------------------- the current view

  datatype Fate = Superseded | DuplicateLatest | Retracted | Expired | Retained

  function FateOf(latest: map<string, Event>, at: int, e: Event): Fate
    requires e.sourceId in latest
  {
    var current := latest[e.sourceId];
    if e.revision < current.revision then Superseded
    else if e.eventId != current.eventId then DuplicateLatest
    else if e.retracted then Retracted
    else if e.expiresAt.Some? && at >= e.expiresAt.value then Expired
    else Retained
  }

  predicate Covers(latest: map<string, Event>, events: seq<Event>) {
    forall i :: 0 <= i < |events| ==> events[i].sourceId in latest
  }

  function Kept(events: seq<Event>, latest: map<string, Event>, at: int): seq<Event>
    requires Covers(latest, events)
  {
    if events == [] then []
    else
      var last := events[|events| - 1];
      Kept(events[..|events| - 1], latest, at) + (if FateOf(latest, at, last) == Retained then [last] else [])
  }

  function CountOf(events: seq<Event>, latest: map<string, Event>, at: int, fate: Fate): nat
    requires Covers(latest, events)
  {
    if events == [] then 0
    else
      CountOf(events[..|events| - 1], latest, at, fate)
      + (if FateOf(latest, at, events[|events| - 1]) == fate then 1 else 0)
  }

  lemma {:induction false} LatestCovers(events: seq<Event>)
    ensures Covers(LatestOf(events), events)
  {
    forall i | 0 <= i < |events|
      ensures events[i].sourceId in LatestOf(events)
    {
      SourcesAreSeen(events, i);
    }
  }

  ghost function Projected(r: Request): Request {
    LatestCovers(r.events);
    r.(events := Kept(r.events, LatestOf(r.events), r.at))
  }

  ghost function RemovedFrom(r: Request): Removed {
    LatestCovers(r.events);
    var latest := LatestOf(r.events);
    Removed(CountOf(r.events, latest, r.at, Superseded), CountOf(r.events, latest, r.at, DuplicateLatest),
            CountOf(r.events, latest, r.at, Retracted), CountOf(r.events, latest, r.at, Expired))
  }

  datatype Removed = Removed(superseded: nat, duplicateLatest: nat, retracted: nat, expired: nat)

  /** The loops of `current_document_view`. */
  method CurrentView(r: Request) returns (projected: Request, removed: Removed)
    ensures projected == Projected(r)
    ensures removed == RemovedFrom(r)
  {
    var latest := LatestEvents(r.events);
    LatestCovers(r.events);
    var retained: seq<Event> := [];
    removed := Removed(0, 0, 0, 0);
    for i := 0 to |r.events|
      invariant Covers(latest, r.events[..i]) && retained == Kept(r.events[..i], latest, r.at)
      invariant removed == Removed(CountOf(r.events[..i], latest, r.at, Superseded),
                                   CountOf(r.events[..i], latest, r.at, DuplicateLatest),
                                   CountOf(r.events[..i], latest, r.at, Retracted),
                                   CountOf(r.events[..i], latest, r.at, Expired))
    {
      assert r.events[..i + 1][..i] == r.events[..i];
      var e := r.events[i];
      var current := latest[e.sourceId];
      if e.revision < current.revision {
        removed := removed.(superseded := removed.superseded + 1);
      } else if e.eventId != current.eventId {
        removed := removed.(duplicateLatest := removed.duplicateLatest + 1);
      } else if e.retracted {
        removed := removed.(retracted := removed.retracted + 1);
      } else if e.expiresAt.Some? && r.at >= e.expiresAt.value {
        removed := removed.(expired := removed.expired + 1);
      } else {
        retained := retained + [e];
      }
    }
    assert r.events[..|r.events|] == r.events;
    projected := r.(events := retained);
  }

  /** Why an event is out of the view, or in it, told by the deliveries themselves. */
  predicate HasFate(events: seq<Event>, at: int, i: nat, fate: Fate)
    requires i < |events|
  {
    match fate
    case Superseded =>
      exists k ::
        0 <= k < |events| && events[k].sourceId == events[i].sourceId && events[k].revision > events[i].revision
    case DuplicateLatest =>
      && (forall k :: 0 <= k < |events| && events[k].sourceId == events[i].sourceId ==>
          events[k].revision <= events[i].revision)
      && exists k :: 0 <= k < i && events[k].sourceId == events[i].sourceId && events[k].revision == events[i].revision
    case Retracted => IsFirstLatest(events, i) && events[i].retracted
    case Expired => IsFirstLatest(events, i) && !events[i].retracted && IsExpired(events[i], at)
    case Retained => IsFirstLatest(events, i) && !events[i].retracted && !IsExpired(events[i], at)
  }

  predicate IsExpired(e: Event, at: int) {
    e.expiresAt.Some? && at >= e.expiresAt.value
  }

  /** An event is removed as superseded, duplicate, retracted or expired exactly when it is that. */
  lemma {:induction false} FateIsTheReason(events: seq<Event>, at: int, i: nat, fate: Fate)
    requires Consistent(events) && i < |events|
    ensures events[i].sourceId in LatestOf(events)
    ensures FateOf(LatestOf(events), at, events[i]) == fate <==> HasFate(events, at, i, fate)
  {
    SourcesAreSeen(events, i);
    var k := LatestIsFirstLatest(events, events[i].sourceId);
    assert k != i ==> events[k].eventId != events[i].eventId;
    hide LatestOf, RevisionContent;
    if IsFirstLatest(events, i) {
      FirstLatestIsUnique(events, i, k);
    }
  }

  /** The places of the events with this fate. */
  function Having(events: seq<Event>, latest: map<string, Event>, at: int, fate: Fate): set<nat>
    requires Covers(latest, events)
  {
    set i: nat | i < |events| && FateOf(latest, at, events[i]) == fate
  }

  lemma {:induction false} HavingGrows(front: seq<Event>, last: Event, latest: map<string, Event>, at: int, fate: Fate)
    requires Covers(latest, front + [last])
    ensures Covers(latest, front) && last.sourceId in latest
    ensures Having(front + [last], latest, at, fate)
         == Having(front, latest, at, fate) + (if FateOf(latest, at, last) == fate then {|front|} else {})
  {
    hide FateOf;
    var longer := front + [last];
    assert longer[|front|] == last;
    assert forall i: nat :: i < |front| ==> longer[i] == front[i];
  }

  lemma {:induction false} CountIsSize(events: seq<Event>, latest: map<string, Event>, at: int, fate: Fate)
    requires Covers(latest, events)
    ensures CountOf(events, latest, at, fate) == |Having(events, latest, at, fate)|
  {
    hide FateOf;
    if events != [] {
      var n := |events| - 1;
      assert events == events[..n] + [events[n]];
      HavingGrows(events[..n], events[n], latest, at, fate);
      CountIsSize(events[..n], latest, at, fate);
      assert n !in Having(events[..n], latest, at, fate);
      hide Having;
    }
  }

  /** Each removal count is the number of events removed for that reason. */
  lemma {:induction false} CountsAreTheirs(events: seq<Event>, at: int, fate: Fate)
    requires Consistent(events) && Covers(LatestOf(events), events)
    ensures CountOf(events, LatestOf(events), at, fate) == |set i: nat | i < |events| && HasFate(events, at, i, fate)|
  {
    CountIsSize(events, LatestOf(events), at, fate);
    forall i: nat | i < |events|
      ensures FateOf(LatestOf(events), at, events[i]) == fate <==> HasFate(events, at, i, fate)
    {
      FateIsTheReason(events, at, i, fate);
    }
    hide FateOf, HasFate, Consistent;
    assert (set i: nat | i < |events| && HasFate(events, at, i, fate))
        == Having(events, LatestOf(events), at, fate);
  }

  /** The removal counts and the retained events partition the input. */
  /** The removal counts and the retained events partition the input. */
  lemma {:induction false} RemovalsPartition(events: seq<Event>, latest: map<string, Event>, at: int)
    requires Covers(latest, events)
    ensures CountOf(events, latest, at, Superseded) + CountOf(events, latest, at, DuplicateLatest)
            + CountOf(events, latest, at, Retracted) + CountOf(events, latest, at, Expired)
            + |Kept(events, latest, at)| == |events|
  {
    if events != [] {
      RemovalsPartition(events[..|events| - 1], latest, at);
    }
  }

  // ------------------------------------------------------------- what the view keeps

  lemma {:induction false} KeptMembers(events: seq<Event>, latest: map<string, Event>, at: int, e: Event)
    requires Covers(latest, events)
    ensures e in Kept(events, latest, at) <==> e in events && FateOf(latest, at, e) == Retained
  {
    if events != [] {
      var n := |events| - 1;
      KeptMembers(events[..n], latest, at, e);
      assert events == events[..n] + [events[n]];
    }
  }

  lemma {:induction false} KeptIsConsistent(events: seq<Event>, latest: map<string, Event>, at: int)
    requires Covers(latest, events) && Consistent(events)
    ensures Consistent(Kept(events, latest, at)) && |Kept(events, latest, at)| <= |events|
  {
    hide RevisionContent, FateOf;
    if events != [] {
      var n := |events| - 1;
      var front, last := Kept(events[..n], latest, at), events[n];
      KeptIsConsistent(events[..n], latest, at);
      hide Kept;
      forall i | 0 <= i < |front|
        ensures front[i].eventId != last.eventId && front[i].arrivedAt <= last.arrivedAt
        ensures front[i].sourceId == last.sourceId && front[i].revision == last.revision ==>
                RevisionContent(front[i]) == RevisionContent(last)
      {
        KeptMembers(events[..n], latest, at, front[i]);
        var k :| 0 <= k < n && events[..n][k] == front[i];
        assert events[k] == front[i];
      }
      ConsistentAppend(front, last);
      KeptStep(events, latest, at);
    }
  }

  lemma {:induction false} KeptStep(events: seq<Event>, latest: map<string, Event>, at: int)
    requires events != [] && Covers(latest, events)
    ensures var front := Kept(events[..|events| - 1], latest, at);
            Kept(events, latest, at) == front || Kept(events, latest, at) == front + [events[|events| - 1]]
  {
  }

  lemma {:induction false} ConsistentAppend(front: seq<Event>, last: Event)
    requires Consistent(front)
    requires forall i :: 0 <= i < |front| ==> front[i].eventId != last.eventId && front[i].arrivedAt <= last.arrivedAt
    requires forall i ::
             0 <= i < |front| && front[i].sourceId == last.sourceId && front[i].revision == last.revision ==>
               RevisionContent(front[i]) == RevisionContent(last)
    ensures Consistent(front + [last])
  {
  }

  /** An event is retained exactly when it is its source's latest delivery and that is active. */
  lemma {:induction false} RetainedIsActiveLatest(events: seq<Event>, at: int, e: Event)
    requires Consistent(events) && e in events
    ensures e.sourceId in LatestOf(events)
    ensures FateOf(LatestOf(events), at, e) == Retained <==> LatestOf(events)[e.sourceId] == e && IsActive(e, at)
  {
    LatestCovers(events);
    var k :| 0 <= k < |events| && events[k] == e;
    var i := LatestIsFirstLatest(events, e.sourceId);
    assert events[i].eventId == e.eventId ==> i == k;
  }

  predicate DistinctSources(events: seq<Event>) {
    forall i, j :: 0 <= i < j < |events| ==> events[i].sourceId != events[j].sourceId
  }

  lemma {:induction false} KeptSourcesAreDistinct(events: seq<Event>, at: int)
    requires Consistent(events) && Covers(LatestOf(events), events)
    ensures DistinctSources(Kept(events, LatestOf(events), at))
  {
    var latest := LatestOf(events);
    var kept := Kept(events, latest, at);
    KeptIsConsistent(events, latest, at);
    forall i, j | 0 <= i < j < |kept|
      ensures kept[i].sourceId != kept[j].sourceId
    {
      KeptMembers(events, latest, at, kept[i]);
      KeptMembers(events, latest, at, kept[j]);
      RetainedIsActiveLatest(events, at, kept[i]);
      RetainedIsActiveLatest(events, at, kept[j]);
      assert kept[i].eventId != kept[j].eventId;
    }
  }

  lemma {:induction false} LatestOfDistinct(events: seq<Event>)
    requires DistinctSources(events)
    ensures forall i :: 0 <= i < |events| ==>
            events[i].sourceId in LatestOf(events) && LatestOf(events)[events[i].sourceId] == events[i]
    ensures forall s :: s in LatestOf(events) ==> LatestOf(events)[s] in events && LatestOf(events)[s].sourceId == s
  {
    if events != [] {
      var n := |events| - 1;
      LatestOfDistinct(events[..n]);
      assert events == events[..n] + [events[n]];
    }
  }

  /** The view holds exactly one delivery per active source: the reducer's own map, written as a list. */
  lemma {:induction false} ViewIsTheActiveSources(r: Request)
    requires Consistent(r.events)
    ensures LatestOf(Projected(r).events) == ActiveOf(r.events, r.at) == ActiveOf(Projected(r).events, r.at)
    ensures DistinctSources(Projected(r).events)
  {
    LatestCovers(r.events);
    var latest, kept := LatestOf(r.events), Projected(r).events;
    KeptSourcesAreDistinct(r.events, r.at);
    LatestOfDistinct(kept);
    forall s | s in ActiveOf(r.events, r.at)
      ensures s in LatestOf(kept) && LatestOf(kept)[s] == latest[s]
    {
      var i := LatestIsFirstLatest(r.events, s);
      RetainedIsActiveLatest(r.events, r.at, r.events[i]);
      KeptMembers(r.events, latest, r.at, r.events[i]);
    }
    forall s | s in LatestOf(kept)
      ensures s in ActiveOf(r.events, r.at) && IsActive(LatestOf(kept)[s], r.at)
    {
      var e := LatestOf(kept)[s];
      KeptMembers(r.events, latest, r.at, e);
      RetainedIsActiveLatest(r.events, r.at, e);
    }
  }

  lemma {:induction false} KeepingAll(events: seq<Event>, latest: map<string, Event>, at: int)
    requires Covers(latest, events) && forall i :: 0 <= i < |events| ==> FateOf(latest, at, events[i]) == Retained
    ensures Kept(events, latest, at) == events
  {
    if events != [] {
      KeepingAll(events[..|events| - 1], latest, at);
      assert events == events[..|events| - 1] + [events[|events| - 1]];
    }
  }

  /** A view of a view is the view. */
  lemma {:induction false} ViewIsIdempotent(r: Request)
    requires Consistent(r.events)
    ensures Projected(Projected(r)) == Projected(r)
  {
    LatestCovers(r.events);
    var kept := Projected(r).events;
    ViewIsTheActiveSources(r);
    LatestCovers(kept);
    LatestOfDistinct(kept);
    forall i | 0 <= i < |kept|
      ensures FateOf(LatestOf(kept), r.at, kept[i]) == Retained
    {
      KeptMembers(r.events, LatestOf(r.events), r.at, kept[i]);
    }
    KeepingAll(kept, LatestOf(kept), r.at);
  }

  lemma {:induction false} KeptIsShorter(enc: Encoding, events: seq<Event>, latest: map<string, Event>, at: int)
    requires Covers(latest, events)
    ensures ArrayBytes(enc, Kept(events, latest, at)) <= ArrayBytes(enc, events)
    ensures |Kept(events, latest, at)| <= |events|
  {
    if events != [] {
      var n := |events| - 1;
      KeptIsShorter(enc, events[..n], latest, at);
      var front := Kept(events[..n], latest, at);
      assert (front + [events[n]])[..|front|] == front;
      assert front + [] == front;
    }
  }

  /** A valid request has a valid view, never longer than itself. */
  lemma {:induction false} ViewIsValid(enc: Encoding, r: Request)
    requires RequestOk(enc, r)
    ensures RequestOk(enc, Projected(r)) && RequestBytes(enc, Projected(r)) <= RequestBytes(enc, r)
  {
    hide EventOk, TaskOk;
    LatestCovers(r.events);
    var latest, kept := LatestOf(r.events), Projected(r).events;
    KeptIsConsistent(r.events, latest, r.at);
    KeptIsShorter(enc, r.events, latest, r.at);
    forall i | 0 <= i < |kept|
      ensures EventOk(kept[i]) && kept[i].arrivedAt <= r.at
    {
      KeptMembers(r.events, latest, r.at, kept[i]);
    }
  }

  lemma {:induction false} AllObserved(log: seq<Event>, at: int)
    requires forall i :: 0 <= i < |log| ==> log[i].arrivedAt <= at
    ensures Observation(log, at) == log
  {
    if log != [] {
      AllObserved(log[..|log| - 1], at);
      assert log == log[..|log| - 1] + [log[|log| - 1]];
    }
  }

  predicate ArrivalsInOrder(log: seq<Event>) {
    forall i, j :: 0 <= i < j < |log| ==> log[i].arrivedAt <= log[j].arrivedAt
  }

  lemma {:induction false} LaterIsDropped(log: seq<Event>, at: int)
    requires log != [] && log[|log| - 1].arrivedAt > at
    ensures Observation(log, at) == Observation(log[..|log| - 1], at)
  {
  }

  /** Arrivals never go back, so what has arrived by a tick is the front of the log. */
  lemma {:induction false} ObservationIsPrefix(log: seq<Event>, at: int)
    requires ArrivalsInOrder(log)
    ensures Observation(log, at) <= log && forall i :: 0 <= i < |Observation(log, at)| ==> log[i].arrivedAt <= at
  {
    hide Observation;
    if log != [] && log[|log| - 1].arrivedAt > at {
      LaterIsDropped(log, at);
      ObservationIsPrefix(log[..|log| - 1], at);
    } else {
      AllObserved(log, at);
    }
  }

  /** Any log built by `append` observes consistently at any tick, and its view lists its active sources. */
  lemma {:induction false} StoreViewIsTheActiveSources(batches: seq<seq<Event>>, runId: string, at: int, task: Task)
    requires BatchesOk(batches)
    ensures var r := Request(runId, at, Observation(History(batches), at), task);
            EventsOk(r.events, at) && LatestOf(Projected(r).events) == ActiveOf(Observation(History(batches), at), at)
  {
    hide EventOk;
    HistoryIsOk(batches);
    ObservationIsPrefix(History(batches), at);
    ViewIsTheActiveSources(Request(runId, at, Observation(History(batches), at), task));
  }

  // ------------------------------------------------------------- the citation gate

  datatype Fact = Fact(key: string, citations: seq<(string, int)>)

  function CitationOf(j: Json): Option<(string, int)> {
    if j.Obj? && j.fields.Keys == {"source_id", "revision"} && j.fields["source_id"].Str?
       && IsIdentifier(j.fields["source_id"].s)
       && j.fields["revision"].Int? && IsTick(j.fields["revision"].i) && j.fields["revision"].i != 0
    then Some((j.fields["source_id"].s, j.fields["revision"].i))
    else None
  }

  function CitationsOf(items: seq<Json>): Option<seq<(string, int)>> {
    if items == [] then Some([])
    else
      var front, last := CitationsOf(items[..|items| - 1]), CitationOf(items[|items| - 1]);
      if front.None? || last.None? || last.value in front.value then None else Some(front.value + [last.value])
  }

  function FactOf(j: Json): Option<Fact> {
    if j.Obj? && j.fields.Keys == {"key", "value", "evidence"} && j.fields["key"].Str?
       && IsIdentifier(j.fields["key"].s)
       && j.fields["value"].Str? && 1 <= |j.fields["value"].s| <= 512
       && j.fields["evidence"].Arr? && 1 <= |j.fields["evidence"].items| <= 16
    then
      var citations := CitationsOf(j.fields["evidence"].items);
      if citations.Some? then Some(Fact(j.fields["key"].s, citations.value)) else None
    else None
  }

  function FactsOf(items: seq<Json>): Option<seq<Fact>> {
    if items == [] then Some([])
    else
      var front, last := FactsOf(items[..|items| - 1]), FactOf(items[|items| - 1]);
      if front.None? || last.None? || (exists f :: f in front.value && f.key == last.value.key) then None
      else Some(front.value + [last.value])
  }

  /** `validate_report`. */
  function ReportOf(result: Json): Option<seq<Fact>> {
    if result.Obj? && result.fields.Keys == {"facts"} && result.fields["facts"].Arr?
       && |result.fields["facts"].items| <= 128
    then FactsOf(result.fields["facts"].items) else None
  }

  function CurrentCitations(r: Request): set<(string, int)> {
    var active := ActiveOf(r.events, r.at);
    set s | s in active :: (s, active[s].revision)
  }

  predicate FactSupported(r: Request, fact: Fact) {
    fact.key in r.task.factKeys && forall c :: c in fact.citations ==> c in CurrentCitations(r)
  }

  /** `StreamCitationGate.evaluate`. */
  predicate GatePasses(enc: Encoding, r: Request, p: Proposal) {
    && RequestOk(enc, r)
    && p.claims == Arr([]) && p.evidence == Arr([]) && p.requestedActions == Arr([])
    && var report := ReportOf(p.result);
       report.Some? && forall f :: f in report.value ==> FactSupported(r, f)
  }

  /** A delivery no other delivery of its source supersedes, neither retracted nor expired. */
  predicate IsCurrent(r: Request, i: nat)
    requires i < |r.events|
  {
    && IsActive(r.events[i], r.at)
    && forall k :: 0 <= k < |r.events| && r.events[k].sourceId == r.events[i].sourceId ==>
       r.events[k].revision <= r.events[i].revision
  }

  predicate CitesCurrent(r: Request, citation: (string, int)) {
    exists i :: 0 <= i < |r.events| && (r.events[i].sourceId, r.events[i].revision) == citation && IsCurrent(r, i)
  }

  lemma {:induction false} CurrentCitationsAreCurrent(r: Request, citation: (string, int))
    requires Consistent(r.events)
    ensures citation in CurrentCitations(r) <==> CitesCurrent(r, citation)
  {
    var latest := LatestOf(r.events);
    if citation in CurrentCitations(r) {
      var k := LatestIsFirstLatest(r.events, citation.0);
      assert IsCurrent(r, k);
    }
    if CitesCurrent(r, citation) {
      var i :| 0 <= i < |r.events| && (r.events[i].sourceId, r.events[i].revision) == citation && IsCurrent(r, i);
      SourcesAreSeen(r.events, i);
      var k := LatestIsFirstLatest(r.events, citation.0);
      assert RevisionContent(r.events[k]) == RevisionContent(r.events[i]);
      assert citation.0 in ActiveOf(r.events, r.at);
    }
  }

  /** The gate passes exactly the well-formed reports whose every fact was asked for and every citation is current. */
  lemma {:induction false} GateMeansCurrent(enc: Encoding, r: Request, p: Proposal)
    requires RequestOk(enc, r)
    ensures GatePasses(enc, r, p) <==>
              && p.claims == p.evidence == p.requestedActions == Arr([])
              && ReportOf(p.result).Some?
              && forall f :: f in ReportOf(p.result).value ==> f.key in r.task.factKeys && forall c ::
                 c in f.citations ==> CitesCurrent(r, c)
  {
    RequestIsConsistent(enc, r);
    forall c
      ensures c in CurrentCitations(r) <==> CitesCurrent(r, c)
    {
      CurrentCitationsAreCurrent(r, c);
    }
    hide RequestOk, ReportOf, CurrentCitations, CitesCurrent;
  }

  /** The gate cannot tell a valid request from its view. */
  lemma {:induction false} GateIgnoresProjection(enc: Encoding, r: Request, p: Proposal)
    requires RequestOk(enc, r)
    ensures GatePasses(enc, Projected(r), p) <==> GatePasses(enc, r, p)
  {
    hide ReportOf, RequestOk;
    ViewIsValid(enc, r);
    RequestIsConsistent(enc, r);
    ViewIsTheActiveSources(r);
    assert CurrentCitations(Projected(r)) == CurrentCitations(r);
  }

  lemma {:induction false} RequestIsConsistent(enc: Encoding, r: Request)
    requires RequestOk(enc, r)
    ensures Consistent(r.events)
  {
  }
}
