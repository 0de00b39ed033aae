/**
 Resolving structured evidence records: literals, tables, links and lookups, followed
 across sources with a depth limit, cycle detection and a cache shared by every query.

 `Resolve` is the resolver without its cache. `Resolver.Lookup` is the recursive method
 with the cache, proved to answer exactly as `Resolve` whatever was cached before. How a
 document's text parses into records is a parameter.
 */
module EvidenceRecords {
  import opened Prelude

  datatype Node = Node(source: string, revision: int, record: string)

  datatype RecordStatus = Asserted | Example | Negated

  datatype Body =
    | Literal(text: string)
    | Table(entries: map<string, string>)
    | Link(target: Node)
    | Mapping(input: Node, table: Node)

  datatype Record = Record(key: string, status: RecordStatus, body: Body)

  datatype Value = Text(s: string) | Entries(m: map<string, string>)

  /** A resolved record: its value, every source revision it rests on, and its height. */
  datatype Entry = Entry(value: Value, group: set<(string, int)>, height: nat)

  datatype Reason =
    | DepthLimit
    | Cycle
    | SourceNotPermitted
    | SourceInactive
    | WrongRevision
    | MissingRecord
    | NotAsserted
    | WrongOperandType
    | MissingMapping
    | ConflictingValues

  /** An active source: its current revision and the records its text holds. */
  datatype Document = Document(revision: int, records: map<string, Record>)

  /** The permitted sources, the active documents and the depth limit. */
  datatype Graph = Graph(allowed: set<string>, documents: map<string, Document>, maxDepth: nat)

  /** The record a node names, or why there is none to use. */
  function Fetch(g: Graph, n: Node): Result<Record, Reason> {
    if n.source !in g.allowed then Err(SourceNotPermitted)
    else if n.source !in g.documents then Err(SourceInactive)
    else if g.documents[n.source].revision != n.revision then Err(WrongRevision)
    else if n.record !in g.documents[n.source].records then Err(MissingRecord)
    else if g.documents[n.source].records[n.record].status != Asserted then Err(NotAsserted)
    else Ok(g.documents[n.source].records[n.record])
  }

  function Own(n: Node): set<(string, int)> {
    {(n.source, n.revision)}
  }

  function Linked(n: Node, target: Entry): Entry {
    Entry(target.value, Own(n) + target.group, target.height + 1)
  }

  /** A lookup of one resolved record in another. */
  function Mapped(n: Node, input: Entry, table: Entry): Result<Entry, Reason> {
    if !input.value.Text? || !table.value.Entries? then Err(WrongOperandType)
    else if input.value.s !in table.value.m then Err(MissingMapping)
    else Ok(Entry(Text(table.value.m[input.value.s]), Own(n) + input.group + table.group,
                  1 + if input.height > table.height then input.height else table.height))
  }

  /** The nested `resolve` without its cache; the last depth check is the one made after a record is built. */
  function Resolve(g: Graph, n: Node, visiting: set<Node>, depth: nat): Result<Entry, Reason>
    decreases g.maxDepth + 1 - depth
  {
    if depth > g.maxDepth then Err(DepthLimit)
    else if n in visiting then Err(Cycle)
    else
      var record := Fetch(g, n);
      if record.Err? then Err(record.error)
      else
        var built := Build(g, n, record.value.body, visiting + {n}, depth);
        if built.Ok? && depth + built.value.height > g.maxDepth then Err(DepthLimit) else built
  }

  function Build(g: Graph, n: Node, body: Body, path: set<Node>, depth: nat): Result<Entry, Reason>
    requires depth <= g.maxDepth
    decreases g.maxDepth + 1 - depth, 0
  {
    match body
    case Literal(text) => Ok(Entry(Text(text), Own(n), 0))
    case Table(entries) => Ok(Entry(Entries(entries), Own(n), 0))
    case Link(target) =>
      var found := Resolve(g, target, path, depth + 1);
      if found.Err? then found else Ok(Linked(n, found.value))
    case Mapping(input, table) =>
      var left := Resolve(g, input, path, depth + 1);
      if left.Err? then left
      else
        var right := Resolve(g, table, path, depth + 1);
        if right.Err? then right else Mapped(n, left.value, right.value)
  }

  // ------------------------------------------------------------- what a cache may hold

  type Cache = map<Node, Entry>

  /** A cached node's entry is built from its record and the cached entries of what it refers to. */
  predicate EntryOk(g: Graph, cache: Cache, n: Node)
    requires n in cache
  {
    && Fetch(g, n).Ok?
    && match Fetch(g, n).value.body
       case Literal(text) => cache[n] == Entry(Text(text), Own(n), 0)
       case Table(entries) => cache[n] == Entry(Entries(entries), Own(n), 0)
       case Link(target) => target in cache && cache[n] == Linked(n, cache[target])
       case Mapping(input, table) =>
         input in cache && table in cache && Mapped(n, cache[input], cache[table]) == Ok(cache[n])
  }

  /** Every entry is built from others in the cache: it is closed under reference. */
  predicate CacheOk(g: Graph, cache: Cache) {
    forall n :: n in cache ==> EntryOk(g, cache, n)
  }

  /** No node being visited is cached at this height or below. */
  predicate ClearOf(cache: Cache, visiting: set<Node>, height: nat) {
    forall n :: n in visiting && n in cache ==> cache[n].height > height
  }

  lemma {:induction false} ClearBelow(cache: Cache, visiting: set<Node>, n: Node, m: Node)
    requires n in cache && m in cache && cache[m].height < cache[n].height && ClearOf(cache, visiting, cache[n].height)
    ensures ClearOf(cache, visiting + {n}, cache[m].height) && n !in visiting
  {
  }

  /** What a cached entry is worth from a given depth. */
  function FromCache(g: Graph, e: Entry, depth: nat): Result<Entry, Reason> {
    if depth + e.height <= g.maxDepth then Ok(e) else Err(DepthLimit)
  }

  lemma {:induction false} BuiltFromCache(g: Graph, cache: Cache, n: Node, path: set<Node>, depth: nat)
    requires n in cache && EntryOk(g, cache, n) && depth <= g.maxDepth
    requires forall m :: m in Uses(Fetch(g, n).value.body) && m in cache ==>
               Resolve(g, m, path, depth + 1) == FromCache(g, cache[m], depth + 1)
    ensures Build(g, n, Fetch(g, n).value.body, path, depth) == FromCache(g, cache[n], depth)
  {
    hide Resolve;
    match Fetch(g, n).value.body
    case Link(target) =>
      assert target in Uses(Fetch(g, n).value.body);
    case Mapping(input, table) =>
      assert input in Uses(Fetch(g, n).value.body) && table in Uses(Fetch(g, n).value.body);
    case _ =>
  }

  function Uses(body: Body): set<Node> {
    match body
    case Link(target) => {target}
    case Mapping(input, table) => {input, table}
    case _ => {}
  }

  lemma {:induction false} UsesAreLower(g: Graph, cache: Cache, n: Node, m: Node)
    requires n in cache && EntryOk(g, cache, n) && m in Uses(Fetch(g, n).value.body)
    ensures m in cache && cache[m].height < cache[n].height
  {
  }

  /**
   A cached node resolves, without the cache, to its entry when that fits under the depth
   limit, and otherwise fails for no reason but the depth.
   */
  lemma {:induction false} CachedIsResolved(g: Graph, cache: Cache, n: Node, visiting: set<Node>, depth: nat)
    requires CacheOk(g, cache) && n in cache && ClearOf(cache, visiting, cache[n].height)
    ensures Resolve(g, n, visiting, depth) == FromCache(g, cache[n], depth)
    decreases cache[n].height
  {
    if depth > g.maxDepth {
      TooDeep(g, n, visiting, depth);
    } else {
      CachedIsFetched(g, cache, n, visiting);
      hide *;
      forall m | m in Uses(Fetch(g, n).value.body)
        ensures m in cache && Resolve(g, m, visiting + {n}, depth + 1) == FromCache(g, cache[m], depth + 1)
      {
        UsesAreLower(g, cache, n, m);
        ClearBelow(cache, visiting, n, m);
        CachedIsResolved(g, cache, m, visiting + {n}, depth + 1);
      }
      BuiltFromCache(g, cache, n, visiting + {n}, depth);
      FetchedIsBuilt(g, n, visiting, depth);
      FromCacheFits(g, cache[n], depth);
    }
  }

  lemma {:induction false} CachedIsFetched(g: Graph, cache: Cache, n: Node, visiting: set<Node>)
    requires CacheOk(g, cache) && n in cache && ClearOf(cache, visiting, cache[n].height)
    ensures EntryOk(g, cache, n) && Fetch(g, n).Ok? && n !in visiting
  {
  }

  lemma {:induction false} FromCacheFits(g: Graph, e: Entry, depth: nat)
    ensures FromCache(g, e, depth).Ok? ==> depth + FromCache(g, e, depth).value.height <= g.maxDepth
  {
  }

  lemma {:induction false} TooDeep(g: Graph, n: Node, visiting: set<Node>, depth: nat)
    requires depth > g.maxDepth
    ensures Resolve(g, n, visiting, depth) == Err(DepthLimit)
  {
  }

  lemma {:induction false} FetchedIsBuilt(g: Graph, n: Node, visiting: set<Node>, depth: nat)
    requires depth <= g.maxDepth && n !in visiting && Fetch(g, n).Ok?
    ensures var built := Build(g, n, Fetch(g, n).value.body, visiting + {n}, depth);
            Resolve(g, n, visiting, depth) == if built.Ok? && depth + built.value.height > g.maxDepth
              then Err(DepthLimit) else built
  {
  }

  /**
   A record that resolves at all fits under the limit from where it started: the check made after
   it is built never fires.
   */
  lemma {:induction false} HeightFits(g: Graph, n: Node, visiting: set<Node>, depth: nat)
    ensures depth <= g.maxDepth && n !in visiting && Fetch(g, n).Ok? ==>
              Resolve(g, n, visiting, depth) == Build(g, n, Fetch(g, n).value.body, visiting + {n}, depth)
    ensures Resolve(g, n, visiting, depth).Ok? ==> depth + Resolve(g, n, visiting, depth).value.height <= g.maxDepth
    decreases g.maxDepth + 1 - depth
  {
    if depth <= g.maxDepth && Fetch(g, n).Ok? {
      match Fetch(g, n).value.body
      case Link(target) => HeightFits(g, target, visiting + {n}, depth + 1);
      case Mapping(input, table) =>
        HeightFits(g, input, visiting + {n}, depth + 1);
        HeightFits(g, table, visiting + {n}, depth + 1);
      case _ =>
    }
  }

  predicate Extends(cache: Cache, after: Cache) {
    forall n :: n in cache ==> n in after && after[n] == cache[n]
  }

  lemma {:induction false} CacheGrows(g: Graph, cache: Cache, n: Node, e: Entry)
    requires CacheOk(g, cache) && n !in cache && EntryOk(g, cache[n := e], n)
    ensures CacheOk(g, cache[n := e]) && Extends(cache, cache[n := e])
  {
    forall x | x in cache
      ensures EntryOk(g, cache[n := e], x)
    {
      assert EntryOk(g, cache, x);
    }
  }

  class Resolver {
    const graph: Graph
    var cache: Cache

    constructor (graph: Graph)
      ensures this.graph == graph && cache == map[] && CacheOk(graph, cache)
    {
      this.graph, cache := graph, map[];
    }

    /**
     The memoised `resolve`. Whatever earlier calls left in the cache, and whether they
     failed or not, the answer is the uncached one, and the cache stays closed under
     reference and clear of every node being visited.
     */
    method Lookup(n: Node, visiting: set<Node>, depth: nat) returns (found: Result<Entry, Reason>)
      requires CacheOk(graph, cache) && cache.Keys !! visiting
      modifies this`cache
      ensures found == Resolve(graph, n, visiting, depth)
      ensures CacheOk(graph, cache) && cache.Keys !! visiting && Extends(old(cache), cache)
      ensures found.Ok? ==> n in cache && cache[n] == found.value
      decreases graph.maxDepth + 1 - depth, 1
    {
      if depth > graph.maxDepth {
        return Err(DepthLimit);
      }
      if n in visiting {
        return Err(Cycle);
      }
      if n in cache {
        CachedIsResolved(graph, cache, n, visiting, depth);
        if depth + cache[n].height > graph.maxDepth {
          return Err(DepthLimit);
        }
        return Ok(cache[n]);
      }
      var record := Fetch(graph, n);
      if record.Err? {
        return Err(record.error);
      }
      found := Construct(n, record.value.body, visiting + {n}, depth);
      if found.Err? {
        return;
      }
      HeightFits(graph, n, visiting, depth);
      CacheGrows(graph, cache, n, found.value);
      cache := cache[n := found.value];
    }

    method Construct(n: Node, body: Body, path: set<Node>, depth: nat) returns (built: Result<Entry, Reason>)
      requires CacheOk(graph, cache) && cache.Keys !! path && depth <= graph.maxDepth
      requires n in path && Fetch(graph, n).Ok? && Fetch(graph, n).value.body == body
      modifies this`cache
      ensures built == Build(graph, n, body, path, depth)
      ensures CacheOk(graph, cache) && cache.Keys !! path && Extends(old(cache), cache)
      ensures built.Ok? ==> EntryOk(graph, cache[n := built.value], n)
      decreases graph.maxDepth + 1 - depth, 0
    {
      match body {
        case Literal(text) => built := Ok(Entry(Text(text), Own(n), 0));
        case Table(entries) => built := Ok(Entry(Entries(entries), Own(n), 0));
        case Link(target) =>
          var found := Lookup(target, path, depth + 1);
          built := if found.Err? then found else Ok(Linked(n, found.value));
        case Mapping(input, table) =>
          var left := Lookup(input, path, depth + 1);
          if left.Err? {
            return left;
          }
          var right := Lookup(table, path, depth + 1);
          built := if right.Err? then right else Mapped(n, left.value, right.value);
      }
    }
  }

  // ------------------------------------------------------------- queries

  type Group = set<(string, int)>

  datatype RowStatus = Resolved | Unresolved | Conflict

  datatype Row = Row(key: string, status: RowStatus, reasons: set<Reason>, groups: set<(string, Group)>)

  /** The records under this key in the active root sources. */
  function NodesOf(g: Graph, roots: set<string>, key: string): set<Node> {
    set s, r | s in roots && s in g.documents && r in g.documents[s].records && g.documents[s].records[r].key == key ::
      Node(s, g.documents[s].revision, r)
  }

  /** What one root record contributes: a text with its evidence, or a reason. */
  function Candidate(found: Result<Entry, Reason>): Result<(string, Group), Reason> {
    if found.Err? then Err(found.error)
    else if !found.value.value.Text? then Err(WrongOperandType)
    else Ok((found.value.value.s, found.value.group))
  }

  function CandidateAt(g: Graph, n: Node): Result<(string, Group), Reason> {
    Candidate(Resolve(g, n, {}, 0))
  }

  function Inactive(g: Graph, roots: set<string>): set<Reason> {
    if exists s :: s in roots && s !in g.documents then {SourceInactive} else {}
  }

  function GroupsAt(g: Graph, nodes: set<Node>): set<(string, Group)> {
    set n | n in nodes && CandidateAt(g, n).Ok? :: CandidateAt(g, n).value
  }

  function FailuresAt(g: Graph, nodes: set<Node>): set<Reason> {
    set n | n in nodes && CandidateAt(g, n).Err? :: CandidateAt(g, n).error
  }

  predicate Conflicting(groups: set<(string, Group)>) {
    exists a, b :: a in groups && b in groups && a.0 != b.0
  }

  function RowFrom(key: string, reasons: set<Reason>, groups: set<(string, Group)>): Row {
    if Conflicting(groups) then Row(key, Conflict, reasons + {ConflictingValues}, groups)
    else Row(key, if reasons == {} then Resolved else Unresolved, reasons, groups)
  }

  /** One query's row, each of its root records resolved afresh. */
  function RowOf(g: Graph, roots: set<string>, key: string): Row {
    var nodes := NodesOf(g, roots, key);
    RowFrom(key, Inactive(g, roots) + (if nodes == {} then {MissingRecord} else {}) + FailuresAt(g, nodes),
            GroupsAt(g, nodes))
  }

  predicate QueriesOk(keys: seq<string>, roots: map<string, set<string>>) {
    forall i :: 0 <= i < |keys| ==> keys[i] in roots
  }

  /**
   The query loop of `resolve_records`, with one cache for all queries: every row is the one
   the uncached resolver gives, in whatever order the root records are taken.
   */
  method ResolveQueries(g: Graph, keys: seq<string>, roots: map<string, set<string>>) returns (rows: seq<Row>)
    requires QueriesOk(keys, roots)
    ensures |rows| == |keys| && forall i :: 0 <= i < |keys| ==> rows[i] == RowOf(g, roots[keys[i]], keys[i])
  {
    var resolver := new Resolver(g);
    rows := [];
    for i := 0 to |keys|
      invariant resolver.graph == g && CacheOk(g, resolver.cache)
      invariant |rows| == i && forall k :: 0 <= k < i ==> rows[k] == RowOf(g, roots[keys[k]], keys[k])
      invariant fresh(resolver)
    {
      var row := ResolveQuery(resolver, roots[keys[i]], keys[i]);
      rows := rows + [row];
    }
  }

  method ResolveQuery(resolver: Resolver, roots: set<string>, key: string) returns (row: Row)
    requires CacheOk(resolver.graph, resolver.cache)
    modifies resolver
    ensures CacheOk(resolver.graph, resolver.cache)
    ensures row == RowOf(resolver.graph, roots, key)
  {
    var g := resolver.graph;
    var nodes := NodesOf(g, roots, key);
    var initial := Inactive(g, roots) + (if nodes == {} then {MissingRecord} else {});
    var failures: set<Reason>, groups: set<(string, Group)>, seen: set<Node> := {}, {}, {};
    NoNodes(g);
    hide *;
    while nodes - seen != {}
      invariant CacheOk(g, resolver.cache) && seen <= nodes
      invariant groups == GroupsAt(g, seen) && failures == FailuresAt(g, seen)
      decreases nodes - seen
    {
      var n :| n in nodes - seen;
      var found := resolver.Lookup(n, {}, 0);
      var candidate := Candidate(found);
      OneMoreNode(g, seen, n, found);
      if candidate.Ok? {
        groups := groups + {candidate.value};
      } else {
        failures := failures + {candidate.error};
      }
      seen := seen + {n};
    }
    NothingLeft(nodes, seen);
    RowOfParts(g, roots, key);
    row := RowFrom(key, initial + failures, groups);
  }

  lemma {:induction false} NothingLeft(all: set<Node>, seen: set<Node>)
    requires seen <= all && all - seen == {}
    ensures seen == all
  {
    forall n | n in all
      ensures n in seen
    {
      assert n !in all - seen;
    }
  }

  lemma {:induction false} RowOfParts(g: Graph, roots: set<string>, key: string)
    ensures var nodes := NodesOf(g, roots, key);
            RowOf(g, roots, key)
              == RowFrom(key, Inactive(g, roots) + (if nodes == {} then {MissingRecord} else {}) + FailuresAt(g, nodes),
                                            GroupsAt(g, nodes))
  {
  }

  lemma {:induction false} NoNodes(g: Graph)
    ensures GroupsAt(g, {}) == {} && FailuresAt(g, {}) == {}
  {
  }

  lemma {:induction false} OneMoreNode(g: Graph, seen: set<Node>, n: Node, found: Result<Entry, Reason>)
    requires found == Resolve(g, n, {}, 0)
    ensures GroupsAt(g, seen + {n})
            == GroupsAt(g, seen) + (if Candidate(found).Ok? then {Candidate(found).value} else {})
    ensures FailuresAt(g, seen + {n})
            == FailuresAt(g, seen) + (if Candidate(found).Err? then {Candidate(found).error} else {})
  {
    assert Candidate(found) == CandidateAt(g, n);
    hide CandidateAt, Candidate, Resolve;
  }

  // ------------------------------------------------------------- fewer sources

  /** The graph with only some of its documents. */
  function Restrict(g: Graph, kept: set<string>): Graph {
    g.(documents := map s | s in g.documents && s in kept :: g.documents[s])
  }

  function Sources(group: Group): set<string> {
    set c | c in group :: c.0
  }

  lemma {:induction false} SourcesJoin(a: Group, b: Group)
    ensures Sources(a + b) == Sources(a) + Sources(b)
  {
    forall s | s in Sources(a) + Sources(b)
      ensures s in Sources(a + b)
    {
      var c :| c in a + b && c.0 == s;
    }
  }

  lemma {:induction false} SourcesOfOwn(n: Node)
    ensures Sources(Own(n)) == {n.source}
  {
    assert (n.source, n.revision) in Own(n);
  }

  lemma {:induction false} FetchRestricted(g: Graph, kept: set<string>, n: Node)
    ensures Fetch(Restrict(g, kept), n).Ok? <==> Fetch(g, n).Ok? && n.source in kept
    ensures Fetch(Restrict(g, kept), n).Ok? ==> Fetch(Restrict(g, kept), n) == Fetch(g, n)
  {
  }

  /**
   A node resolves among fewer sources exactly when it resolved and everything it rests on was kept,
   and to the same entry.
   */
  lemma {:induction false} RestrictionOnlyLoses(g: Graph, kept: set<string>, n: Node, visiting: set<Node>, depth: nat)
    ensures var whole, part := Resolve(g, n, visiting, depth), Resolve(Restrict(g, kept), n, visiting, depth);
            part == whole || part.Err?
    ensures var whole, part := Resolve(g, n, visiting, depth), Resolve(Restrict(g, kept), n, visiting, depth);
            part.Ok? <==> whole.Ok? && Sources(whole.value.group) <= kept
    decreases g.maxDepth + 1 - depth
  {
    var h := Restrict(g, kept);
    if depth > g.maxDepth {
      TooDeep(g, n, visiting, depth);
      TooDeep(h, n, visiting, depth);
    } else if n !in visiting {
      FetchRestricted(g, kept, n);
      SourcesOfOwn(n);
      if Fetch(g, n).Ok? {
        var body := Fetch(g, n).value.body;
        forall m | m in Uses(body)
          ensures Loses(g, kept, m, visiting + {n}, depth + 1)
        {
          RestrictionOnlyLoses(g, kept, m, visiting + {n}, depth + 1);
        }
        BuildRestricted(g, kept, n, body, visiting + {n}, depth);
        FetchedIsBuilt(g, n, visiting, depth);
        HeightFits(g, n, visiting, depth);
        if n.source in kept {
          FetchedIsBuilt(h, n, visiting, depth);
        }
      }
    }
  }

  predicate Loses(g: Graph, kept: set<string>, n: Node, visiting: set<Node>, depth: nat) {
    var whole, part := Resolve(g, n, visiting, depth), Resolve(Restrict(g, kept), n, visiting, depth);
    (part == whole || part.Err?) && (part.Ok? <==> whole.Ok? && Sources(whole.value.group) <= kept)
  }

  lemma {:induction false} BuildRestricted(g: Graph, kept: set<string>, n: Node, body: Body, path: set<Node>,
                                           depth: nat)
    requires depth <= g.maxDepth
    requires forall m :: m in Uses(body) ==> Loses(g, kept, m, path, depth + 1)
    ensures var whole, part := Build(g, n, body, path, depth), Build(Restrict(g, kept), n, body, path, depth);
            && (part == whole || part.Err?)
            && (part.Ok? && n.source in kept <==> whole.Ok? && Sources(whole.value.group) <= kept)
  {
    SourcesOfOwn(n);
    match body
    case Link(target) =>
      assert target in Uses(body);
      var found := Resolve(g, target, path, depth + 1);
      if found.Ok? {
        SourcesJoin(Own(n), found.value.group);
      }
    case Mapping(input, table) =>
      assert input in Uses(body) && table in Uses(body);
      var left, right := Resolve(g, input, path, depth + 1), Resolve(g, table, path, depth + 1);
      if left.Ok? && right.Ok? {
        SourcesJoin(Own(n), left.value.group);
        SourcesJoin(Own(n) + left.value.group, right.value.group);
      }
    case _ =>
  }
}
