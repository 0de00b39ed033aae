/**
 Packing whole sources under a byte budget without changing an answer.

 A resolved query needs its root sources and everything its groups rest on. One policy
 enumerates every subset of the needed sources; the other adds whole queries, newest first.
 After either, every query is resolved again from the selected sources alone.
 */
module EvidenceSelection {
  import opened Prelude
  import opened Order
  import opened EvidenceRecords
  import D = DocumentStream
  import V = DocumentView

  // ------------------------------------------------------------- what a query needs

  function GroupSources(groups: set<(string, Group)>): set<string> {
    set c, x | c in groups && x in Sources(c.1) :: x
  }

  /** Every nominated root, and every source any candidate rests on. */
  function Needed(g: Graph, roots: set<string>, key: string): set<string> {
    roots + GroupSources(RowOf(g, roots, key).groups)
  }

  lemma {:induction false} CandidateRestricted(g: Graph, kept: set<string>, n: Node)
    ensures CandidateAt(Restrict(g, kept), n).Ok?
            <==> CandidateAt(g, n).Ok? && Sources(CandidateAt(g, n).value.1) <= kept
    ensures CandidateAt(Restrict(g, kept), n).Ok? ==> CandidateAt(Restrict(g, kept), n) == CandidateAt(g, n)
  {
    RestrictionOnlyLoses(g, kept, n, {}, 0);
    hide Resolve, Restrict;
  }

  lemma {:induction false} SameNodes(g: Graph, kept: set<string>, roots: set<string>, key: string)
    requires roots <= kept
    ensures NodesOf(Restrict(g, kept), roots, key) == NodesOf(g, roots, key)
    ensures Inactive(Restrict(g, kept), roots) == Inactive(g, roots)
  {
    forall n
      ensures n in NodesOf(Restrict(g, kept), roots, key) <==> n in NodesOf(g, roots, key)
    {
      IsNode(g, roots, key, n);
      IsNode(Restrict(g, kept), roots, key, n);
    }
  }

  lemma {:induction false} IsNode(g: Graph, roots: set<string>, key: string, n: Node)
    ensures n in NodesOf(g, roots, key) <==>
              && n.source in roots && n.source in g.documents && n.revision == g.documents[n.source].revision
              && n.record in g.documents[n.source].records && g.documents[n.source].records[n.record].key == key
  {
  }

  lemma {:induction false} AllCandidates(g: Graph, nodes: set<Node>)
    ensures FailuresAt(g, nodes) == {} <==> forall n :: n in nodes ==> CandidateAt(g, n).Ok?
  {
    hide CandidateAt;
    if n :| n in nodes && CandidateAt(g, n).Err? {
      assert CandidateAt(g, n).error in FailuresAt(g, nodes);
    }
  }

  lemma {:induction false} SameGroups(g: Graph, h: Graph, nodes: set<Node>)
    requires forall n :: n in nodes ==> CandidateAt(h, n) == CandidateAt(g, n)
    ensures GroupsAt(h, nodes) == GroupsAt(g, nodes) && FailuresAt(h, nodes) == FailuresAt(g, nodes)
  {
    hide CandidateAt;
  }

  lemma {:induction false} ResolvedShape(g: Graph, roots: set<string>, key: string)
    ensures RowOf(g, roots, key).groups == GroupsAt(g, NodesOf(g, roots, key))
    ensures RowOf(g, roots, key).status == Resolved ==>
              && Inactive(g, roots) == {} && NodesOf(g, roots, key) != {} && FailuresAt(g, NodesOf(g, roots, key)) == {}
  {
    hide NodesOf, Inactive, FailuresAt, GroupsAt, Conflicting;
  }

  lemma {:induction false} NeededCovers(g: Graph, roots: set<string>, key: string, n: Node)
    requires n in NodesOf(g, roots, key) && CandidateAt(g, n).Ok?
    ensures Sources(CandidateAt(g, n).value.1) <= Needed(g, roots, key)
  {
    hide CandidateAt, Sources, NodesOf;
    ResolvedShape(g, roots, key);
    assert CandidateAt(g, n).value in GroupsAt(g, NodesOf(g, roots, key));
  }

  /** A resolved query all of whose needs are kept has exactly the row it had. */
  lemma {:induction false} NeedsKeptRowKept(g: Graph, kept: set<string>, roots: set<string>, key: string)
    requires RowOf(g, roots, key).status == Resolved && Needed(g, roots, key) <= kept
    ensures RowOf(Restrict(g, kept), roots, key) == RowOf(g, roots, key)
  {
    var h, nodes := Restrict(g, kept), NodesOf(g, roots, key);
    ResolvedShape(g, roots, key);
    SameNodes(g, kept, roots, key);
    AllCandidates(g, nodes);
    hide CandidateAt, NodesOf, Inactive, FailuresAt, GroupsAt, Restrict, Sources;
    forall n | n in nodes
      ensures CandidateAt(h, n) == CandidateAt(g, n)
    {
      NeededCovers(g, roots, key, n);
      CandidateRestricted(g, kept, n);
    }
    SameGroups(g, h, nodes);
  }

  /** Nothing is promoted: a query resolved from fewer sources was resolved before, and all its needs were kept. */
  lemma {:induction false} NothingIsPromoted(g: Graph, kept: set<string>, roots: set<string>, key: string)
    requires RowOf(Restrict(g, kept), roots, key).status == Resolved
    ensures RowOf(g, roots, key).status == Resolved && Needed(g, roots, key) <= kept
  {
    var h := Restrict(g, kept);
    ResolvedShape(h, roots, key);
    RootsWereKept(g, kept, roots);
    SameNodes(g, kept, roots, key);
    var nodes := NodesOf(g, roots, key);
    AllCandidates(h, nodes);
    hide CandidateAt, NodesOf, Inactive, FailuresAt, GroupsAt, Restrict, Sources;
    forall n | n in nodes
      ensures CandidateAt(h, n) == CandidateAt(g, n) && Sources(CandidateAt(g, n).value.1) <= kept
    {
      CandidateRestricted(g, kept, n);
    }
    SameGroups(g, h, nodes);
    GroupsStayInside(g, nodes, kept);
  }

  lemma {:induction false} RootsWereKept(g: Graph, kept: set<string>, roots: set<string>)
    requires Inactive(Restrict(g, kept), roots) == {}
    ensures roots <= kept
  {
  }

  lemma {:induction false} GroupsStayInside(g: Graph, nodes: set<Node>, kept: set<string>)
    requires forall n :: n in nodes ==> CandidateAt(g, n).Ok? && Sources(CandidateAt(g, n).value.1) <= kept
    ensures GroupSources(GroupsAt(g, nodes)) <= kept
  {
    hide CandidateAt, Sources;
  }

  // ------------------------------------------------------------- the check after selection

  /** Which keys have facts: the resolved ones, in order. */
  function FactKeys(g: Graph, keys: seq<string>, roots: map<string, set<string>>): seq<string>
    requires QueriesOk(keys, roots)
  {
    if keys == [] then []
    else
      var last := keys[|keys| - 1];
      FactKeys(g, keys[..|keys| - 1], roots) + (if RowOf(g, roots[last], last).status == Resolved then [last] else [])
  }

  predicate IsCovered(g: Graph, roots: map<string, set<string>>, kept: set<string>, key: string)
    requires key in roots
  {
    RowOf(g, roots[key], key).status == Resolved && Needed(g, roots[key], key) <= kept
  }

  function CoveredKeys(g: Graph, keys: seq<string>, roots: map<string, set<string>>, kept: set<string>): seq<string>
    requires QueriesOk(keys, roots)
  {
    if keys == [] then []
    else
      var last := keys[|keys| - 1];
      CoveredKeys(g, keys[..|keys| - 1], roots, kept) + (if IsCovered(g, roots, kept, last) then [last] else [])
  }

  /**
   Selection preserves meaning, for any set of kept sources: the queries resolved afterwards
   are exactly the covered ones, in order, and each covered query has the row it had.
   */
  lemma {:induction false} SelectionPreservesMeaning(g: Graph, keys: seq<string>, roots: map<string, set<string>>,
                                                     kept: set<string>)
    requires QueriesOk(keys, roots)
    ensures FactKeys(Restrict(g, kept), keys, roots) == CoveredKeys(g, keys, roots, kept)
    ensures forall i :: 0 <= i < |keys| && IsCovered(g, roots, kept, keys[i]) ==>
              RowOf(Restrict(g, kept), roots[keys[i]], keys[i]) == RowOf(g, roots[keys[i]], keys[i])
  {
    hide RowOf, Needed, Restrict;
    if keys != [] {
      var n := |keys| - 1;
      SelectionPreservesMeaning(g, keys[..n], roots, kept);
      if IsCovered(g, roots, kept, keys[n]) {
        NeedsKeptRowKept(g, kept, roots[keys[n]], keys[n]);
      } else if RowOf(Restrict(g, kept), roots[keys[n]], keys[n]).status == Resolved {
        NothingIsPromoted(g, kept, roots[keys[n]], keys[n]);
      }
    }
  }

  // ------------------------------------------------------------- ranking subsets

  datatype Rank = Rank(covered: nat, bytes: nat, names: seq<string>)

  /** Python's order on tuples of strings. */
  predicate NamesLess(a: seq<string>, b: seq<string>) {
    b != [] && (a == [] || Less(a[0], b[0]) || (a[0] == b[0] && NamesLess(a[1..], b[1..])))
  }

  /** `(-covered, bytes, names)` compared as tuples. */
  predicate RankLess(a: Rank, b: Rank) {
    if a.covered != b.covered then a.covered > b.covered
    else if a.bytes != b.bytes then a.bytes < b.bytes
    else NamesLess(a.names, b.names)
  }

  lemma {:induction false} NamesLessIsTransitive(a: seq<string>, b: seq<string>, c: seq<string>)
    requires NamesLess(a, b) && NamesLess(b, c)
    ensures NamesLess(a, c)
  {
    if a != [] {
      if Less(a[0], b[0]) && Less(b[0], c[0]) {
        LessIsTransitive(a[0], b[0], c[0]);
      } else if a[0] == b[0] == c[0] {
        NamesLessIsTransitive(a[1..], b[1..], c[1..]);
      }
    }
  }

  lemma {:induction false} RankLessIsTransitive(a: Rank, b: Rank, c: Rank)
    requires RankLess(a, b) && RankLess(b, c)
    ensures RankLess(a, c)
  {
    if a.covered == b.covered == c.covered && a.bytes == b.bytes == c.bytes {
      NamesLessIsTransitive(a.names, b.names, c.names);
    }
  }

  lemma {:induction false} NamesAreIrreflexive(a: seq<string>)
    ensures !NamesLess(a, a)
  {
    if a != [] {
      LessIsTotal(a[0], a[0]);
      NamesAreIrreflexive(a[1..]);
    }
  }

  lemma {:induction false} RankIsIrreflexive(a: Rank)
    ensures !RankLess(a, a)
  {
    NamesAreIrreflexive(a.names);
  }

  lemma {:induction false} OldLosersStillLose(a: Rank, b: Rank, c: Rank)
    requires !RankLess(a, c) && RankLess(b, c)
    ensures !RankLess(a, b)
  {
    if RankLess(a, b) {
      RankLessIsTransitive(a, b, c);
      assert false;
    }
  }

  // ------------------------------------------------------------- subsets by mask

  function Pow2(n: nat): (p: nat)
    ensures p >= 1
  {
    if n == 0 then 1 else 2 * Pow2(n - 1)
  }

  /** `mask & (1 << index)`. */
  predicate Bit(mask: nat, index: nat) {
    if index == 0 then mask % 2 == 1 else Bit(mask / 2, index - 1)
  }

  function Subset(sources: seq<string>, mask: nat): set<string> {
    set i | 0 <= i < |sources| && Bit(mask, i) :: sources[i]
  }

  function MaskOf(sources: seq<string>, kept: set<string>): nat {
    if sources == [] then 0 else 2 * MaskOf(sources[1..], kept) + (if sources[0] in kept then 1 else 0)
  }

  lemma {:induction false} MaskHasTheBits(sources: seq<string>, kept: set<string>, i: nat)
    requires i < |sources|
    ensures Bit(MaskOf(sources, kept), i) <==> sources[i] in kept
  {
    if i > 0 {
      MaskHasTheBits(sources[1..], kept, i - 1);
    }
  }

  lemma {:induction false} MaskIsSmall(sources: seq<string>, kept: set<string>)
    ensures MaskOf(sources, kept) < Pow2(|sources|)
  {
    if sources != [] {
      MaskIsSmall(sources[1..], kept);
    }
  }

  /** The mask loop enumerates every subset. */
  lemma {:induction false} EverySubsetHasAMask(sources: seq<string>, kept: set<string>)
    requires forall s :: s in kept ==> s in sources
    ensures MaskOf(sources, kept) < Pow2(|sources|) && Subset(sources, MaskOf(sources, kept)) == kept
  {
    MaskIsSmall(sources, kept);
    forall i | 0 <= i < |sources|
      ensures Bit(MaskOf(sources, kept), i) <==> sources[i] in kept
    {
      MaskHasTheBits(sources, kept, i);
    }
    forall s | s in kept
      ensures s in Subset(sources, MaskOf(sources, kept))
    {
      var i :| 0 <= i < |sources| && sources[i] == s;
    }
  }

  lemma {:induction false} NoBits(index: nat)
    ensures !Bit(0, index)
  {
    if index > 0 {
      NoBits(index - 1);
    }
  }

  lemma {:induction false} EmptyMask(sources: seq<string>)
    ensures Subset(sources, 0) == {}
  {
    forall i | 0 <= i < |sources|
      ensures !Bit(0, i)
    {
      NoBits(i);
    }
  }

  // ------------------------------------------------------------- from requests to graphs

  /** The active permitted documents of a request, if all of them parse. */
  function GraphOf(active: map<string, D.Event>, allowed: set<string>, maxDepth: nat,
                   parse: string -> Option<map<string, Record>>): Option<Graph> {
    if exists s :: s in active && s in allowed && parse(active[s].text).None? then None
    else
      Some(Graph(allowed,
                 map s | s in active && s in allowed && parse(active[s].text).Some? ::
                   Document(active[s].revision, parse(active[s].text).value),
                 maxDepth))
  }

  /** The payload's events: those of the kept sources, in delivery order. */
  function KeptEvents(events: seq<D.Event>, kept: set<string>): seq<D.Event> {
    if events == [] then []
    else
      KeptEvents(events[..|events| - 1], kept)
      + (if events[|events| - 1].sourceId in kept then [events[|events| - 1]] else [])
  }

  lemma {:induction false} KeptEventsMembers(events: seq<D.Event>, kept: set<string>)
    ensures forall e :: e in KeptEvents(events, kept) <==> e in events && e.sourceId in kept
  {
    if events != [] {
      KeptEventsMembers(events[..|events| - 1], kept);
      assert events == events[..|events| - 1] + [events[|events| - 1]];
    }
  }

  lemma {:induction false} KeptEventsDistinct(events: seq<D.Event>, kept: set<string>)
    requires V.DistinctSources(events)
    ensures V.DistinctSources(KeptEvents(events, kept))
  {
    if events != [] {
      var n := |events| - 1;
      KeptEventsDistinct(events[..n], kept);
      KeptEventsMembers(events[..n], kept);
      var front := KeptEvents(events[..n], kept);
      forall i | 0 <= i < |front|
        ensures front[i].sourceId != events[n].sourceId
      {
        assert front[i] in events[..n];
        var k :| 0 <= k < n && events[..n][k] == front[i];
        assert events[k].sourceId != events[n].sourceId;
      }
    }
  }

  /** In a view, the active sources after keeping some are the kept ones of the active sources before. */
  lemma {:induction false} KeptViewIsRestricted(events: seq<D.Event>, at: int, kept: set<string>)
    requires V.DistinctSources(events)
    ensures D.ActiveOf(KeptEvents(events, kept), at) == map s | s in D.ActiveOf(events, at) && s in kept ::
            D.ActiveOf(events, at)[s]
  {
    var part := KeptEvents(events, kept);
    KeptEventsMembers(events, kept);
    KeptEventsDistinct(events, kept);
    V.LatestOfDistinct(events);
    V.LatestOfDistinct(part);
    var whole, some := D.LatestOf(events), D.LatestOf(part);
    forall s | s in some
      ensures s in whole && whole[s] == some[s] && s in kept
    {
      assert some[s] in part && some[s] in events;
      var i :| 0 <= i < |events| && events[i] == some[s];
    }
    forall s | s in whole && s in kept
      ensures s in some
    {
      assert whole[s] in events && whole[s] in part;
      var i :| 0 <= i < |part| && part[i] == whole[s];
    }
  }

  /** So re-resolving the selected payload works on exactly the restricted graph. */
  lemma {:induction false} PayloadGraphIsRestricted(r: V.Request, kept: set<string>, allowed: set<string>,
                                                    maxDepth: nat,
                                 parse: string -> Option<map<string, Record>>)
    requires D.Consistent(r.events) && GraphOf(D.ActiveOf(r.events, r.at), allowed, maxDepth, parse).Some?
    ensures var whole := GraphOf(D.ActiveOf(r.events, r.at), allowed, maxDepth, parse).value;
            GraphOf(D.ActiveOf(KeptEvents(V.Projected(r).events, kept), r.at), allowed, maxDepth, parse)
              == Some(Restrict(whole, kept))
  {
    V.ViewIsTheActiveSources(r);
    KeptViewIsRestricted(V.Projected(r).events, r.at, kept);
    var active := D.ActiveOf(r.events, r.at);
    var part := D.ActiveOf(KeptEvents(V.Projected(r).events, kept), r.at);
    assert part == map s | s in active && s in kept :: active[s];
    hide D.ActiveOf;
    assert GraphOf(part, allowed, maxDepth, parse).value.documents
           == Restrict(GraphOf(active, allowed, maxDepth, parse).value, kept).documents;
  }

  // ------------------------------------------------------------- the envelope's length

  /** The payload's request: only the events of the kept sources. */
  function KeptRequest(view: V.Request, kept: set<string>): V.Request {
    view.(events := KeptEvents(view.events, kept))
  }

  function ActiveNames(events: seq<D.Event>): set<string> {
    set i | 0 <= i < |events| :: events[i].sourceId
  }

  /** An encoded event is never empty. */
  ghost predicate EventsTakeSpace(enc: V.Encoding) {
    forall e :: enc.event(e) >= 1
  }

  /** Keeping more sources never shortens the event array, and keeping another active one lengthens it. */
  lemma {:induction false} KeptBytesGrow(enc: V.Encoding, events: seq<D.Event>, a: set<string>, b: set<string>)
    requires a <= b && EventsTakeSpace(enc)
    ensures |KeptEvents(events, a)| <= |KeptEvents(events, b)|
    ensures V.ArrayBytes(enc, KeptEvents(events, a)) <= V.ArrayBytes(enc, KeptEvents(events, b))
    ensures (exists i :: 0 <= i < |events| && events[i].sourceId in b && events[i].sourceId !in a) ==>
              V.ArrayBytes(enc, KeptEvents(events, a)) < V.ArrayBytes(enc, KeptEvents(events, b))
  {
    if events != [] {
      var front, last := events[..|events| - 1], events[|events| - 1];
      KeptBytesGrow(enc, front, a, b);
      KeptStep(enc, events, a);
      KeptStep(enc, events, b);
    }
  }

  /** Keeping every active source keeps every event. */
  lemma {:induction false} KeepingEvery(events: seq<D.Event>, kept: set<string>)
    requires ActiveNames(events) <= kept
    ensures KeptEvents(events, kept) == events
  {
    if events != [] {
      var front, last := events[..|events| - 1], events[|events| - 1];
      forall s | s in ActiveNames(front)
        ensures s in kept
      {
        var i :| 0 <= i < |front| && front[i].sourceId == s;
        assert events[i].sourceId in ActiveNames(events);
      }
      KeepingEvery(front, kept);
      assert last.sourceId in ActiveNames(events);
      assert events == front + [last];
    }
  }

  lemma {:induction false} KeptEventsConsistent(events: seq<D.Event>, kept: set<string>)
    requires D.Consistent(events)
    ensures D.Consistent(KeptEvents(events, kept))
  {
    hide D.RevisionContent;
    if events != [] {
      var n := |events| - 1;
      var front, last := KeptEvents(events[..n], kept), events[n];
      KeptEventsConsistent(events[..n], kept);
      KeptEventsMembers(events[..n], kept);
      hide KeptEvents;
      forall i | 0 <= i < |front|
        ensures front[i].eventId != last.eventId && front[i].arrivedAt <= last.arrivedAt
        ensures front[i].sourceId == last.sourceId && front[i].revision == last.revision ==>
                D.RevisionContent(front[i]) == D.RevisionContent(last)
      {
        assert front[i] in events[..n];
        var k :| 0 <= k < n && events[..n][k] == front[i];
        assert events[k] == front[i];
      }
      V.ConsistentAppend(front, last);
      KeptLast(events, kept);
    }
  }

  lemma {:induction false} KeptLast(events: seq<D.Event>, kept: set<string>)
    requires events != []
    ensures var front, last := KeptEvents(events[..|events| - 1], kept), events[|events| - 1];
            KeptEvents(events, kept) == front || KeptEvents(events, kept) == front + [last]
  {
  }

  /** Any part of a valid request is valid: the payload passes the checks the whole request passed. */
  lemma {:induction false} KeptRequestIsOk(enc: V.Encoding, r: V.Request, kept: set<string>)
    requires V.RequestOk(enc, r) && EventsTakeSpace(enc)
    ensures V.RequestOk(enc, KeptRequest(r, kept))
  {
    hide D.EventOk, V.TaskOk, D.Consistent, V.ArrayBytes;
    var all := ActiveNames(r.events) + kept;
    KeepingEvery(r.events, all);
    KeptBytesGrow(enc, r.events, kept, all);
    KeptEventsMembers(r.events, kept);
    KeptEventsConsistent(r.events, kept);
    var part := KeptEvents(r.events, kept);
    forall i | 0 <= i < |part|
      ensures D.EventOk(part[i]) && part[i].arrivedAt <= r.at
    {
      assert part[i] in r.events;
      var k :| 0 <= k < |r.events| && r.events[k] == part[i];
    }
  }

  lemma {:induction false} KeptStep(enc: V.Encoding, events: seq<D.Event>, kept: set<string>)
    requires events != []
    ensures var before, last := KeptEvents(events[..|events| - 1], kept), events[|events| - 1];
            var after := KeptEvents(events, kept);
            if last.sourceId in kept then
              && |after| == |before| + 1
              && V.ArrayBytes(enc, after)
                 == V.ArrayBytes(enc, before) + (if before == [] then 0 else 1) + enc.event(last)
            else after == before
  {
    var before, last := KeptEvents(events[..|events| - 1], kept), events[|events| - 1];
    assert (before + [last])[..|before|] == before;
  }

  // ------------------------------------------------------------- the two policies

  /** The needs of the resolved queries, the view they are cut from, and the budget for the whole envelope. */
  datatype Packing = Packing(
    required: map<string, set<string>>,
    view: V.Request,
    enc: V.Encoding,
    contractBytes: nat,
    maxBytes: nat)

  /** `byte_cost`: the kept request and the query contract, serialized together. */
  function Cost(p: Packing, kept: set<string>): nat {
    V.RequestBytes(p.enc, KeptRequest(p.view, kept)) + p.contractBytes
  }

  function NeededSources(required: map<string, set<string>>): set<string> {
    set k, s | k in required && s in required[k] :: s
  }

  function Covered(p: Packing, kept: set<string>): set<string> {
    set k | k in p.required && p.required[k] <= kept
  }

  function RankOf(p: Packing, kept: set<string>): Rank {
    Rank(|Covered(p, kept)|, Cost(p, kept), Sorted(kept))
  }

  ghost predicate PackingOk(p: Packing) {
    && (forall k :: k in p.required ==> p.required[k] != {})
    && NeededSources(p.required) <= ActiveNames(p.view.events)
    && EventsTakeSpace(p.enc) && Cost(p, {}) <= p.maxBytes
  }

  /** Inside the budget, and no affordable set of needed sources ranks before it. */
  ghost predicate IsOptimal(p: Packing, kept: set<string>) {
    && kept <= NeededSources(p.required) && Cost(p, kept) <= p.maxBytes
    && forall other :: other <= NeededSources(p.required) && Cost(p, other) <= p.maxBytes ==>
         !RankLess(RankOf(p, other), RankOf(p, kept))
  }

  lemma {:induction false} RankOfNothing(p: Packing)
    requires PackingOk(p)
    ensures RankOf(p, {}) == Rank(0, Cost(p, {}), [])
  {
    assert Covered(p, {}) == {};
  }

  /** No affordable subset with a smaller mask ranks before `best`. */
  ghost predicate BestSoFar(p: Packing, sources: seq<string>, mask: nat, best: Rank) {
    forall m: nat :: m < mask && Cost(p, Subset(sources, m)) <= p.maxBytes ==>
      !RankLess(RankOf(p, Subset(sources, m)), best)
  }

  /** What the mask loop has chosen among the masks below `mask`. */
  ghost predicate ChosenSoFar(p: Packing, sources: seq<string>, mask: nat, kept: set<string>, best: Rank) {
    && kept <= NeededSources(p.required) && Cost(p, kept) <= p.maxBytes && best == RankOf(p, kept)
    && BestSoFar(p, sources, mask, best)
  }

  lemma {:induction false} ChosenAtStart(p: Packing, sources: seq<string>)
    requires PackingOk(p)
    ensures ChosenSoFar(p, sources, 1, {}, Rank(0, Cost(p, {}), []))
  {
    var best := Rank(0, Cost(p, {}), []);
    RankOfNothing(p);
    EmptyMask(sources);
    RankIsIrreflexive(best);
    hide RankLess, RankOf, Cost, Subset, NeededSources, EventsTakeSpace;
    forall m: nat | m < 1 && Cost(p, Subset(sources, m)) <= p.maxBytes
      ensures !RankLess(RankOf(p, Subset(sources, m)), best)
    {
      assert m == 0;
    }
  }

  lemma {:induction false} ChosenNext(p: Packing, sources: seq<string>, mask: nat, kept: set<string>, best: Rank)
    requires sources == Sorted(NeededSources(p.required))
    requires ChosenSoFar(p, sources, mask, kept, best)
    ensures var candidate := Subset(sources, mask);
            if Cost(p, candidate) <= p.maxBytes && RankLess(RankOf(p, candidate), best)
            then ChosenSoFar(p, sources, mask + 1, candidate, RankOf(p, candidate))
            else ChosenSoFar(p, sources, mask + 1, kept, best)
  {
    var candidate := Subset(sources, mask);
    SubsetIsFromSources(sources, mask);
    hide RankLess, Subset, Cost, RankOf, NeededSources;
    var rank := RankOf(p, candidate);
    RankIsIrreflexive(rank);
    if Cost(p, candidate) <= p.maxBytes && RankLess(rank, best) {
      forall m: nat | m < mask + 1 && Cost(p, Subset(sources, m)) <= p.maxBytes
        ensures !RankLess(RankOf(p, Subset(sources, m)), rank)
      {
        if m < mask {
          OldLosersStillLose(RankOf(p, Subset(sources, m)), rank, best);
        }
      }
    }
  }

  lemma {:induction false} ChosenAtEnd(p: Packing, sources: seq<string>, kept: set<string>, best: Rank)
    requires sources == Sorted(NeededSources(p.required)) && ChosenSoFar(p, sources, Pow2(|sources|), kept, best)
    ensures IsOptimal(p, kept)
  {
    hide RankLess, Subset, Cost, RankOf, Pow2, NeededSources;
    forall other | other <= NeededSources(p.required) && Cost(p, other) <= p.maxBytes
      ensures !RankLess(RankOf(p, other), RankOf(p, kept))
    {
      EverySubsetHasAMask(sources, other);
    }
  }

  /** The loop of `complete_coverage`. */
  method CoverExactly(p: Packing) returns (selected: set<string>)
    requires PackingOk(p)
    ensures IsOptimal(p, selected)
  {
    hide *;
    var sources := Sorted(NeededSources(p.required));
    selected := {};
    var best := Rank(0, Cost(p, {}), []);
    ChosenAtStart(p, sources);
    for mask := 1 to Pow2(|sources|)
      invariant ChosenSoFar(p, sources, mask, selected, best)
    {
      ChosenNext(p, sources, mask, selected, best);
      var candidate := Subset(sources, mask);
      var cost := Cost(p, candidate);
      if cost > p.maxBytes {
        continue;
      }
      var rank := RankOf(p, candidate);
      if RankLess(rank, best) {
        selected, best := candidate, rank;
      }
    }
    ChosenAtEnd(p, sources, selected, best);
  }

  lemma {:induction false} SubsetIsFromSources(sources: seq<string>, mask: nat)
    ensures forall s :: s in Subset(sources, mask) ==> s in sources
  {
  }

  /** Dropping what no query needs covers the same queries, and costs strictly less if anything active is dropped. */
  lemma {:induction false} NeededPartIsNoWorse(p: Packing, other: set<string>)
    requires PackingOk(p) && other <= ActiveNames(p.view.events)
    ensures var part := other * NeededSources(p.required);
            && Covered(p, part) == Covered(p, other)
            && (part == other || Cost(p, part) < Cost(p, other))
  {
    var part := other * NeededSources(p.required);
    forall k | k in p.required && p.required[k] <= other
      ensures p.required[k] <= part
    {
      forall s | s in p.required[k]
        ensures s in NeededSources(p.required)
      {
      }
    }
    assert Covered(p, part) == Covered(p, other);
    KeptBytesGrow(p.enc, p.view.events, part, other);
    if part != other {
      var s :| s in other && s !in part;
      var i :| 0 <= i < |p.view.events| && p.view.events[i].sourceId == s;
      assert p.view.events[i].sourceId in other && p.view.events[i].sourceId !in part;
    }
  }

  /**
   An optimal selection ranks first among all affordable sets of active sources, needed or
   not: it covers the most queries, with the fewest bytes for that many, and then comes first
   by name. So it never covers fewer than packing whole queries in any order.
   */
  lemma {:induction false} OptimalCoversTheMost(p: Packing, kept: set<string>, other: set<string>)
    requires PackingOk(p) && IsOptimal(p, kept)
    requires other <= ActiveNames(p.view.events) && Cost(p, other) <= p.maxBytes
    ensures !RankLess(RankOf(p, other), RankOf(p, kept))
    ensures |Covered(p, other)| <= |Covered(p, kept)|
    ensures |Covered(p, other)| == |Covered(p, kept)| ==> Cost(p, kept) <= Cost(p, other)
    ensures |Covered(p, other)| == |Covered(p, kept)| && Cost(p, kept) == Cost(p, other) ==>
              !NamesLess(Sorted(other), Sorted(kept))
  {
    NeededPartIsNoWorse(p, other);
    hide Covered, Cost, PackingOk, NamesLess, NeededSources;
    var part := other * NeededSources(p.required);
    assert !RankLess(RankOf(p, part), RankOf(p, kept));
  }

  predicate OrdersQueries(p: Packing, order: seq<string>) {
    forall i :: 0 <= i < |order| ==> order[i] in p.required
  }

  function PackNewest(p: Packing, order: seq<string>): (kept: set<string>)
    requires OrdersQueries(p, order)
  {
    if order == [] then {}
    else
      var before, last := PackNewest(p, order[..|order| - 1]), order[|order| - 1];
      var candidate := before + p.required[last];
      if Cost(p, candidate) <= p.maxBytes then candidate else before
  }

  lemma {:induction false} NewestIsAffordable(p: Packing, order: seq<string>)
    requires PackingOk(p) && OrdersQueries(p, order)
    ensures PackNewest(p, order) <= NeededSources(p.required) && Cost(p, PackNewest(p, order)) <= p.maxBytes
  {
    hide Cost;
    if order != [] {
      NewestIsAffordable(p, order[..|order| - 1]);
      forall s | s in p.required[order[|order| - 1]]
        ensures s in NeededSources(p.required)
      {
      }
    }
  }

  /** The loop of `complete_recency`, over the keys in its order. */
  method CoverNewest(p: Packing, order: seq<string>) returns (selected: set<string>)
    requires OrdersQueries(p, order)
    ensures selected == PackNewest(p, order)
  {
    hide Cost;
    selected := {};
    for i := 0 to |order|
      invariant selected == PackNewest(p, order[..i])
    {
      assert order[..i + 1][..i] == order[..i];
      var candidate := selected + p.required[order[i]];
      if Cost(p, candidate) <= p.maxBytes {
        selected := candidate;
      }
    }
    assert order[..|order|] == order;
  }

  lemma {:induction false} NeverFewerThanNewest(p: Packing, kept: set<string>, order: seq<string>)
    requires PackingOk(p) && IsOptimal(p, kept) && OrdersQueries(p, order)
    ensures |Covered(p, PackNewest(p, order))| <= |Covered(p, kept)|
  {
    NewestIsAffordable(p, order);
    OptimalCoversTheMost(p, kept, PackNewest(p, order));
  }

  lemma {:induction false} PackingGrows(p: Packing, order: seq<string>, i: nat)
    requires OrdersQueries(p, order) && i <= |order|
    ensures PackNewest(p, order[..i]) <= PackNewest(p, order)
    decreases |order| - i
  {
    hide Cost;
    if i < |order| {
      assert order[..i + 1][..i] == order[..i];
      PackingGrows(p, order, i + 1);
    } else {
      assert order[..i] == order;
    }
  }

  /** What is packed lies inside any set that covers every query it covers. */
  lemma {:induction false} PackedInside(p: Packing, order: seq<string>, other: set<string>)
    requires OrdersQueries(p, order)
    requires forall j :: 0 <= j < |order| && p.required[order[j]] <= PackNewest(p, order) ==>
             p.required[order[j]] <= other
    ensures PackNewest(p, order) <= other
  {
    hide Cost;
    if order != [] {
      var n := |order| - 1;
      PackingGrows(p, order, n);
      PackedInside(p, order[..n], other);
    }
  }

  lemma {:induction false} CostGrows(p: Packing, a: set<string>, b: set<string>)
    requires EventsTakeSpace(p.enc) && a <= b
    ensures Cost(p, a) <= Cost(p, b)
  {
    KeptBytesGrow(p.enc, p.view.events, a, b);
  }

  /**
   Packing by recency keeps the order's priorities: any affordable set that agrees with it on the
   queries before one, and covers that one, shows that it is covered here too.
   */
  lemma {:induction false} NewestComesFirst(p: Packing, order: seq<string>, other: set<string>, i: nat)
    requires PackingOk(p) && OrdersQueries(p, order) && i < |order| && Cost(p, other) <= p.maxBytes
    requires forall j :: 0 <= j < i ==>
             (p.required[order[j]] <= other <==> p.required[order[j]] <= PackNewest(p, order))
    requires p.required[order[i]] <= other
    ensures p.required[order[i]] <= PackNewest(p, order)
  {
    PackingGrows(p, order, i);
    PackingGrows(p, order, i + 1);
    var before := PackNewest(p, order[..i]);
    forall j | 0 <= j < |order[..i]| && p.required[order[..i][j]] <= before
      ensures p.required[order[..i][j]] <= other
    {
      assert order[..i][j] == order[j];
    }
    PackedInside(p, order[..i], other);
    CostGrows(p, before + p.required[order[i]], other);
    hide Cost;
    assert order[..i + 1][..i] == order[..i];
  }

  // ------------------------------------------------------------- the whole selection
  // ------------------------------------------------------------- the whole selection

  datatype Policy = CompleteCoverage | CompleteRecency

  const MAX_SOURCES := 12
  const MAX_BUDGET := 131072

  /** A request, a query contract over it, and a budget. */
  datatype Problem = Problem(
    request: V.Request,
    enc: V.Encoding,
    contractBytes: nat,
    allowed: set<string>,
    roots: map<string, set<string>>,
    maxDepth: nat,
    parse: string -> Option<map<string, Record>>,
    maxBytes: nat)

  datatype Outcome =
    | BudgetInvalid
    | RequestInvalid
    | ContractInvalid
    | OutOfScope
    | BudgetExceeded
    | SourceLimitPassed
    | RequirementsChanged
    | AccountingMismatch
    | Selected(kept: set<string>, coveredKeys: seq<string>)

  function Keys(q: Problem): seq<string> {
    q.request.task.factKeys
  }

  /** `_contract`: one query per requested key, each with permitted roots. */
  predicate ContractOk(q: Problem) {
    && 1 <= |q.allowed| <= MAX_SOURCES && (forall s :: s in q.allowed ==> D.IsIdentifier(s))
    && (forall i :: 0 <= i < |Keys(q)| ==> Keys(q)[i] in q.roots)
    && (forall k :: k in q.roots ==> k in Keys(q) && q.roots[k] != {} && q.roots[k] <= q.allowed)
  }

  ghost function ViewOf(q: Problem): V.Request {
    V.Projected(q.request)
  }

  function GraphFor(q: Problem, view: V.Request): Option<Graph> {
    GraphOf(D.ActiveOf(view.events, view.at), q.allowed, q.maxDepth, q.parse)
  }

  function RequiredOf(g: Graph, keys: seq<string>, roots: map<string, set<string>>): map<string, set<string>>
    requires QueriesOk(keys, roots)
  {
    map k | k in keys && RowOf(g, roots[k], k).status == Resolved :: Needed(g, roots[k], k)
  }

  function PackingOf(q: Problem, view: V.Request, g: Graph): Packing
    requires QueriesOk(Keys(q), q.roots)
  {
    Packing(RequiredOf(g, Keys(q), q.roots), view, q.enc, q.contractBytes, q.maxBytes)
  }

  /** The decision groups as `select_evidence` collects them, row by row. */
  method CollectRequired(g: Graph, keys: seq<string>, roots: map<string, set<string>>, rows: seq<Row>)
    returns (required: map<string, set<string>>)
    requires QueriesOk(keys, roots) && |rows| == |keys|
    requires forall i :: 0 <= i < |keys| ==> rows[i] == RowOf(g, roots[keys[i]], keys[i])
    ensures required == RequiredOf(g, keys, roots)
  {
    hide RowOf;
    required := map[];
    for i := 0 to |keys|
      invariant required == map k | k in keys[..i] && RowOf(g, roots[k], k).status == Resolved :: Needed(g, roots[k], k)
    {
      assert keys[..i + 1] == keys[..i] + [keys[i]];
      if rows[i].status == Resolved {
        required := required[keys[i] := roots[keys[i]] + GroupSources(rows[i].groups)];
      }
    }
    assert keys[..|keys|] == keys;
  }

  /** Everything a resolved query needs is one of the graph's documents. */
  lemma {:induction false} NeedsAreDocuments(g: Graph, roots: set<string>, key: string)
    requires RowOf(g, roots, key).status == Resolved
    ensures Needed(g, roots, key) <= g.documents.Keys
  {
    assert Restrict(g, g.documents.Keys) == g;
    NothingIsPromoted(g, g.documents.Keys, roots, key);
  }

  /** What `select_evidence` is entitled to assume once the request, the contract and the documents have passed. */
  ghost predicate Admitted(q: Problem) {
    V.RequestOk(q.enc, q.request) && ContractOk(q) && EventsTakeSpace(q.enc) && GraphFor(q, ViewOf(q)).Some?
  }

  ghost function PackingFor(q: Problem): Packing
    requires Admitted(q)
  {
    PackingOf(q, ViewOf(q), GraphFor(q, ViewOf(q)).value)
  }

  lemma {:induction false} DocumentsAreActive(q: Problem)
    requires Admitted(q)
    ensures GraphFor(q, ViewOf(q)).value.documents.Keys <= ActiveNames(ViewOf(q).events) * q.allowed
  {
    var view := ViewOf(q);
    ViewIsDistinct(q);
    hide V.RequestOk, V.Projected, ContractOk, EventsTakeSpace;
    forall s | s in GraphFor(q, view).value.documents
      ensures s in ActiveNames(view.events)
    {
      V.LatestOfDistinct(view.events);
      var i :| 0 <= i < |view.events| && view.events[i] == D.LatestOf(view.events)[s];
    }
  }

  lemma {:induction false} NeedIsActive(q: Problem, k: string)
    requires Admitted(q) && k in PackingFor(q).required
    ensures PackingFor(q).required[k] <= ActiveNames(ViewOf(q).events) * q.allowed && PackingFor(q).required[k] != {}
  {
    DocumentsAreActive(q);
    hide V.RequestOk, RowOf, GroupSources, ViewOf, GraphFor, ActiveNames, EventsTakeSpace;
    NeedsAreDocuments(GraphFor(q, ViewOf(q)).value, q.roots[k], k);
  }

  lemma {:induction false} ViewIsDistinct(q: Problem)
    requires V.RequestOk(q.enc, q.request)
    ensures V.DistinctSources(ViewOf(q).events)
  {
    V.RequestIsConsistent(q.enc, q.request);
    hide V.RequestOk;
    V.ViewIsTheActiveSources(q.request);
  }

  lemma {:induction false} NeedsAreActive(q: Problem)
    requires Admitted(q)
    ensures forall k :: k in PackingFor(q).required ==> PackingFor(q).required[k] != {}
    ensures NeededSources(PackingFor(q).required) <= ActiveNames(ViewOf(q).events) * q.allowed
    ensures |NeededSources(PackingFor(q).required)| <= MAX_SOURCES
  {
    var required := PackingFor(q).required;
    forall k | k in required
      ensures required[k] <= ActiveNames(ViewOf(q).events) * q.allowed && required[k] != {}
    {
      NeedIsActive(q, k);
    }
    hide V.RequestOk, PackingFor, ViewOf, GraphFor;
    SubsetSize(NeededSources(required), q.allowed);
  }

  /** The newest and the oldest arrival among the events of some sources. */
  function NewestTick(events: seq<D.Event>, sources: set<string>): Option<int> {
    if events == [] then None
    else
      var before, last := NewestTick(events[..|events| - 1], sources), events[|events| - 1];
      if last.sourceId !in sources then before
      else if before.None? || last.arrivedAt > before.value then Some(last.arrivedAt) else before
  }

  function OldestTick(events: seq<D.Event>, sources: set<string>): Option<int> {
    if events == [] then None
    else
      var before, last := OldestTick(events[..|events| - 1], sources), events[|events| - 1];
      if last.sourceId !in sources then before
      else if before.None? || last.arrivedAt < before.value then Some(last.arrivedAt) else before
  }

  function Tick(t: Option<int>): int {
    if t.Some? then t.value else 0
  }

  /** A tick of these sources: attained by one of their events, and not passed by any. */
  predicate IsExtreme(events: seq<D.Event>, sources: set<string>, tick: int, newest: bool) {
    && (exists i :: 0 <= i < |events| && events[i].sourceId in sources && events[i].arrivedAt == tick)
    && (forall i :: 0 <= i < |events| && events[i].sourceId in sources ==>
          if newest then events[i].arrivedAt <= tick else events[i].arrivedAt >= tick)
  }

  lemma {:induction false} TicksAreExtremes(events: seq<D.Event>, sources: set<string>)
    ensures NewestTick(events, sources).Some? <==> exists i :: 0 <= i < |events| && events[i].sourceId in sources
    ensures OldestTick(events, sources).Some? <==> NewestTick(events, sources).Some?
    ensures NewestTick(events, sources).Some? ==>
              && IsExtreme(events, sources, NewestTick(events, sources).value, true)
              && IsExtreme(events, sources, OldestTick(events, sources).value, false)
  {
    if events != [] {
      var n := |events| - 1;
      var front := events[..n];
      TicksAreExtremes(front, sources);
      assert forall i :: 0 <= i < n ==> front[i] == events[i];
      if events[n].sourceId in sources {
        assert 0 <= n < |events|;
      }
      if NewestTick(front, sources).Some? {
        var i :| 0 <= i < n && front[i].sourceId in sources && front[i].arrivedAt == NewestTick(front, sources).value;
        assert events[i].sourceId in sources && events[i].arrivedAt == NewestTick(front, sources).value;
        var k :| 0 <= k < n && front[k].sourceId in sources && front[k].arrivedAt == OldestTick(front, sources).value;
        assert events[k].sourceId in sources && events[k].arrivedAt == OldestTick(front, sources).value;
      }
    }
  }

  /** `recency`: latest completing delivery first, then latest oldest component, then the key. */
  predicate ComesBefore(p: Packing, a: string, b: string)
    requires a in p.required && b in p.required
  {
    var newA, newB := Tick(NewestTick(p.view.events, p.required[a])), Tick(NewestTick(p.view.events, p.required[b]));
    var oldA, oldB := Tick(OldestTick(p.view.events, p.required[a])), Tick(OldestTick(p.view.events, p.required[b]));
    if newA != newB then newA > newB else if oldA != oldB then oldA > oldB else Less(a, b)
  }

  /** `sorted(required, key=recency)`. */
  predicate IsRecencyOrder(p: Packing, order: seq<string>) {
    && OrdersQueries(p, order) && (forall k :: k in p.required ==> k in order)
    && (forall i, j :: 0 <= i < j < |order| ==> ComesBefore(p, order[i], order[j]))
  }

  /** What a finished selection promises: the policy's choice, and the covered queries of the original resolution. */
  ghost predicate Meets(q: Problem, policy: Policy, order: seq<string>, kept: set<string>, coveredKeys: seq<string>)
    requires Admitted(q) && IsRecencyOrder(PackingFor(q), order)
  {
    var p := PackingFor(q);
    && kept <= NeededSources(p.required) && Cost(p, kept) <= q.maxBytes
    && V.RequestOk(q.enc, KeptRequest(ViewOf(q), kept))
    && coveredKeys == CoveredKeys(GraphFor(q, ViewOf(q)).value, Keys(q), q.roots, kept)
    && (policy == CompleteRecency ==> kept == PackNewest(p, order))
    && (policy == CompleteCoverage ==>
          forall other :: other <= ActiveNames(ViewOf(q).events) && Cost(p, other) <= q.maxBytes ==>
            !RankLess(RankOf(p, other), RankOf(p, kept)))
  }

  /**
   `select_evidence`: resolve the whole view, choose sources, then resolve again from the
   payload's own events and compare. The exact policy's choice ranks first among all
   affordable sets of active sources, its payload is a valid request, and none of the three
   late errors can occur.
   */
  method SelectEvidence(q: Problem, policy: Policy, order: seq<string>) returns (outcome: Outcome)
    requires EventsTakeSpace(q.enc)
    requires Admitted(q) ==> IsRecencyOrder(PackingFor(q), order)
    ensures outcome.BudgetInvalid? <==> q.maxBytes > MAX_BUDGET
    ensures outcome.RequestInvalid? <==> q.maxBytes <= MAX_BUDGET && !V.RequestOk(q.enc, q.request)
    ensures outcome.ContractInvalid? <==> q.maxBytes <= MAX_BUDGET && V.RequestOk(q.enc, q.request) && !ContractOk(q)
    ensures outcome.OutOfScope? <==>
              q.maxBytes <= MAX_BUDGET && V.RequestOk(q.enc, q.request) && ContractOk(q) && GraphFor(q, ViewOf(q)).None?
    ensures outcome.BudgetExceeded? <==> q.maxBytes <= MAX_BUDGET && Admitted(q) && Cost(PackingFor(q), {}) > q.maxBytes
    ensures !outcome.SourceLimitPassed? && !outcome.RequirementsChanged? && !outcome.AccountingMismatch?
    ensures outcome.Selected? ==> Meets(q, policy, order, outcome.kept, outcome.coveredKeys)
  {
    if q.maxBytes > MAX_BUDGET {
      return BudgetInvalid;
    }
    if !V.RequestOk(q.enc, q.request) {
      return RequestInvalid;
    }
    if !ContractOk(q) {
      return ContractInvalid;
    }
    var view, _ := V.CurrentView(q.request);
    hide V.RequestOk, GraphFor;
    var graph := GraphFor(q, view);
    if graph.None? {
      return OutOfScope;
    }
    outcome := SelectFrom(q, view, graph.value, policy, order);
  }

  method SelectFrom(q: Problem, view: V.Request, g: Graph, policy: Policy, order: seq<string>)
      returns (outcome: Outcome)
    requires Admitted(q) && view == ViewOf(q) && GraphFor(q, view) == Some(g)
    requires IsRecencyOrder(PackingFor(q), order)
    ensures outcome.BudgetExceeded? <==> Cost(PackingFor(q), {}) > q.maxBytes
    ensures outcome.BudgetExceeded? || outcome.Selected?
    ensures outcome.Selected? ==> Meets(q, policy, order, outcome.kept, outcome.coveredKeys)
  {
    hide RowOf, Needed, Restrict, Covered, GraphFor, V.RequestOk, Cost, ComesBefore;
    var rows := ResolveQueries(g, Keys(q), q.roots);
    var required := CollectRequired(g, Keys(q), q.roots, rows);
    var packing := Packing(required, view, q.enc, q.contractBytes, q.maxBytes);
    assert packing == PackingFor(q);
    NeedsAreActive(q);
    if |NeededSources(required)| > MAX_SOURCES {
      return SourceLimitPassed;
    }
    if Cost(packing, {}) > q.maxBytes {
      return BudgetExceeded;
    }
    var kept := ChooseSources(packing, policy, order);
    PayloadIsOk(q, kept);
    var coveredKeys := CoveredKeys(g, Keys(q), q.roots, kept);
    var same := AnswersStand(q, view, g, rows, kept, coveredKeys);
    if !same {
      return RequirementsChanged;
    }
    if Cost(packing, kept) > q.maxBytes {
      return AccountingMismatch;
    }
    return Selected(kept, coveredKeys);
  }

  method ChooseSources(p: Packing, policy: Policy, order: seq<string>) returns (kept: set<string>)
    requires PackingOk(p) && OrdersQueries(p, order)
    ensures kept <= NeededSources(p.required) && Cost(p, kept) <= p.maxBytes
    ensures policy == CompleteRecency ==> kept == PackNewest(p, order)
    ensures policy == CompleteCoverage ==>
              forall other :: other <= ActiveNames(p.view.events) && Cost(p, other) <= p.maxBytes ==>
                !RankLess(RankOf(p, other), RankOf(p, kept))
  {
    hide Cost, RankLess, Covered;
    if policy == CompleteRecency {
      kept := CoverNewest(p, order);
      NewestIsAffordable(p, order);
      return;
    }
    kept := CoverExactly(p);
    forall other | other <= ActiveNames(p.view.events) && Cost(p, other) <= p.maxBytes
      ensures !RankLess(RankOf(p, other), RankOf(p, kept))
    {
      OptimalCoversTheMost(p, kept, other);
    }
  }

  /** The check after selection, resolving the payload as a request of its own; it always succeeds. */
  method AnswersStand(q: Problem, view: V.Request, g: Graph, rows: seq<Row>, kept: set<string>,
                      coveredKeys: seq<string>)
    returns (same: bool)
    requires Admitted(q) && view == ViewOf(q) && GraphFor(q, view) == Some(g)
    requires |rows| == |Keys(q)| && forall i :: 0 <= i < |rows| ==> rows[i] == RowOf(g, q.roots[Keys(q)[i]], Keys(q)[i])
    requires coveredKeys == CoveredKeys(g, Keys(q), q.roots, kept)
    ensures same
  {
    PayloadGraphFor(q, kept);
    PayloadIsOk(q, kept);
    hide RowOf, Needed, Restrict, GraphFor, V.RequestOk, IsCovered;
    if !V.RequestOk(q.enc, KeptRequest(view, kept)) {
      return false;
    }
    var active, _ := V.CurrentView(KeptRequest(view, kept));
    var payload := GraphFor(q, active);
    if payload.None? {
      return false;
    }
    var after := ResolveQueries(payload.value, Keys(q), q.roots);
    SelectionPreservesMeaning(g, Keys(q), q.roots, kept);
    FactsOfRows(payload.value, Keys(q), q.roots, after);
    CoveredMeans(g, Keys(q), q.roots, kept);
    return FactKeysOf(Keys(q), after) == coveredKeys
        && forall i :: 0 <= i < |Keys(q)| && Keys(q)[i] in coveredKeys ==> after[i] == rows[i];
  }

  lemma {:induction false} PayloadGraphFor(q: Problem, kept: set<string>)
    requires Admitted(q)
    ensures GraphFor(q, V.Projected(KeptRequest(ViewOf(q), kept))) == Some(Restrict(GraphFor(q, ViewOf(q)).value, kept))
  {
    V.RequestIsConsistent(q.enc, q.request);
    V.ViewIsTheActiveSources(q.request);
    PayloadGraphIsRestricted(q.request, kept, q.allowed, q.maxDepth, q.parse);
    PayloadIsOk(q, kept);
    hide V.RequestOk;
    V.RequestIsConsistent(q.enc, KeptRequest(ViewOf(q), kept));
    V.ViewIsTheActiveSources(KeptRequest(ViewOf(q), kept));
  }

  /** Resolving the payload validates it as a request again, limits included; it always passes. */
  lemma {:induction false} PayloadIsOk(q: Problem, kept: set<string>)
    requires V.RequestOk(q.enc, q.request) && EventsTakeSpace(q.enc)
    ensures V.RequestOk(q.enc, KeptRequest(ViewOf(q), kept))
  {
    V.ViewIsValid(q.enc, q.request);
    hide V.RequestOk, V.Projected;
    KeptRequestIsOk(q.enc, ViewOf(q), kept);
  }

  function FactKeysOf(keys: seq<string>, rows: seq<Row>): seq<string>
    requires |rows| == |keys|
  {
    if keys == [] then []
    else
      FactKeysOf(keys[..|keys| - 1], rows[..|rows| - 1])
      + (if rows[|rows| - 1].status == Resolved then [keys[|keys| - 1]] else [])
  }

  lemma {:induction false} FactsOfRows(g: Graph, keys: seq<string>, roots: map<string, set<string>>, rows: seq<Row>)
    requires QueriesOk(keys, roots) && |rows| == |keys|
    requires forall i :: 0 <= i < |keys| ==> rows[i] == RowOf(g, roots[keys[i]], keys[i])
    ensures FactKeysOf(keys, rows) == FactKeys(g, keys, roots)
  {
    hide RowOf;
    if keys != [] {
      FactsOfRows(g, keys[..|keys| - 1], roots, rows[..|rows| - 1]);
    }
  }

  lemma {:induction false} CoveredMeans(g: Graph, keys: seq<string>, roots: map<string, set<string>>, kept: set<string>)
    requires QueriesOk(keys, roots)
    ensures forall k :: k in CoveredKeys(g, keys, roots, kept) ==> k in keys && IsCovered(g, roots, kept, k)
  {
    hide RowOf, Needed;
    if keys != [] {
      CoveredMeans(g, keys[..|keys| - 1], roots, kept);
    }
  }
}
