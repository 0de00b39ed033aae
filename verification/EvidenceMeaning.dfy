/**
 What resolving a record means, told without the resolver: a record derives a value through
 finitely many links and lookups, and a failure has a cause at the end of a path of references.
 The resolver finds exactly the derivations that fit its depth limit.
 */
module EvidenceMeaning {
  import opened Prelude
  import opened EvidenceRecords

  // ------------------------------------------------------------- derivations

  /** The node's source is permitted and active at its revision, and the record is there and asserted. */
  predicate Usable(g: Graph, n: Node) {
    && n.source in g.allowed && n.source in g.documents && g.documents[n.source].revision == n.revision
    && n.record in g.documents[n.source].records && g.documents[n.source].records[n.record].status == Asserted
  }

  function BodyAt(g: Graph, n: Node): Body
    requires Usable(g, n)
  {
    g.documents[n.source].records[n.record].body
  }

  function Max(a: nat, b: nat): nat {
    if a > b then a else b
  }

  /** The node derives `e.value` in `e.height` steps, resting on exactly the source revisions of `e.group`. */
  ghost predicate Derives(g: Graph, n: Node, e: Entry)
    decreases e.height
  {
    && Usable(g, n)
    && match BodyAt(g, n)
       case Literal(text) => e == Entry(Text(text), {(n.source, n.revision)}, 0)
       case Table(entries) => e == Entry(Entries(entries), {(n.source, n.revision)}, 0)
       case Link(target) => exists t: Entry :: t.height < e.height && Derives(g, target, t) && FollowsLink(n, e, t)
       case Mapping(input, table) =>
         exists i: Entry, t: Entry ::
           i.height < e.height && t.height < e.height && Derives(g, input, i) && Derives(g, table, t)
             && LooksUp(n, e, i, t)
  }

  /** A link has its target's value. */
  predicate FollowsLink(n: Node, e: Entry, target: Entry) {
    e.value == target.value && e.height == target.height + 1 && e.group == target.group + {(n.source, n.revision)}
  }

  /** A lookup has the entry that the table holds at the input's text. */
  predicate LooksUp(n: Node, e: Entry, input: Entry, table: Entry) {
    && input.value.Text? && table.value.Entries? && input.value.s in table.value.m
    && e.value == Text(table.value.m[input.value.s])
    && e.height == Max(input.height, table.height) + 1
    && e.group == input.group + table.group + {(n.source, n.revision)}
  }

  lemma {:induction false} UsableIsFetched(g: Graph, n: Node)
    ensures Usable(g, n) <==> Fetch(g, n).Ok?
    ensures Usable(g, n) ==> Fetch(g, n).value.body == BodyAt(g, n)
  {
  }

  /** A node derives at most one entry. */
  lemma {:induction false} DerivationIsUnique(g: Graph, n: Node, d: Entry, e: Entry)
    requires Derives(g, n, d) && Derives(g, n, e)
    ensures d == e
    decreases d.height
  {
    match BodyAt(g, n)
    case Link(target) =>
      var s: Entry :| s.height < d.height && Derives(g, target, s) && FollowsLink(n, d, s);
      var t: Entry :| t.height < e.height && Derives(g, target, t) && FollowsLink(n, e, t);
      DerivationIsUnique(g, target, s, t);
    case Mapping(input, table) =>
      var i: Entry, t: Entry :|
        i.height < d.height && t.height < d.height && Derives(g, input, i) && Derives(g, table, t)
          && LooksUp(n, d, i, t);
      var j: Entry, u: Entry :|
        j.height < e.height && u.height < e.height && Derives(g, input, j) && Derives(g, table, u)
          && LooksUp(n, e, j, u);
      DerivationIsUnique(g, input, i, j);
      DerivationIsUnique(g, table, t, u);
    case _ =>
  }

  // ------------------------------------------------------------- the resolver finds them

  lemma {:induction false} ResolvedIsDerived(g: Graph, n: Node, visiting: set<Node>, depth: nat)
    requires Resolve(g, n, visiting, depth).Ok?
    ensures Derives(g, n, Resolve(g, n, visiting, depth).value)
    decreases g.maxDepth + 1 - depth
  {
    UsableIsFetched(g, n);
    var e := Resolve(g, n, visiting, depth).value;
    match BodyAt(g, n)
    case Link(target) =>
      ResolvedIsDerived(g, target, visiting + {n}, depth + 1);
      var t := Resolve(g, target, visiting + {n}, depth + 1).value;
      hide Resolve;
      assert FollowsLink(n, e, t);
    case Mapping(input, table) =>
      ResolvedIsDerived(g, input, visiting + {n}, depth + 1);
      ResolvedIsDerived(g, table, visiting + {n}, depth + 1);
      var i, t := Resolve(g, input, visiting + {n}, depth + 1).value,
          Resolve(g, table, visiting + {n}, depth + 1).value;
      hide Resolve;
      assert LooksUp(n, e, i, t);
    case _ =>
  }

  /** Whatever is being visited takes more steps to derive than this. */
  ghost predicate AllHigher(g: Graph, visiting: set<Node>, height: nat) {
    forall m, x :: m in visiting && Derives(g, m, x) ==> x.height > height
  }

  lemma {:induction false} HigherStill(g: Graph, visiting: set<Node>, n: Node, e: Entry, height: nat)
    requires AllHigher(g, visiting, e.height) && Derives(g, n, e) && height < e.height
    ensures AllHigher(g, visiting + {n}, height) && n !in visiting
  {
    forall m, x | m in visiting + {n} && Derives(g, m, x)
      ensures x.height > height
    {
      if m == n {
        DerivationIsUnique(g, n, x, e);
      }
    }
  }

  lemma {:induction false} LinkResolves(g: Graph, n: Node, e: Entry, t: Entry, visiting: set<Node>, depth: nat)
    requires Usable(g, n) && BodyAt(g, n).Link? && n !in visiting && depth + e.height <= g.maxDepth
    requires FollowsLink(n, e, t) && Resolve(g, BodyAt(g, n).target, visiting + {n}, depth + 1) == Ok(t)
    ensures Resolve(g, n, visiting, depth) == Ok(e)
  {
    UsableIsFetched(g, n);
    FetchedIsBuilt(g, n, visiting, depth);
    hide Resolve;
    assert e.group == Linked(n, t).group;
    assert e == Linked(n, t);
  }

  lemma {:induction false} LookupResolves(g: Graph, n: Node, e: Entry, i: Entry, t: Entry, visiting: set<Node>,
                                          depth: nat)
    requires Usable(g, n) && BodyAt(g, n).Mapping? && n !in visiting && depth + e.height <= g.maxDepth
    requires LooksUp(n, e, i, t)
    requires Resolve(g, BodyAt(g, n).input, visiting + {n}, depth + 1) == Ok(i)
    requires Resolve(g, BodyAt(g, n).table, visiting + {n}, depth + 1) == Ok(t)
    ensures Resolve(g, n, visiting, depth) == Ok(e)
  {
    UsableIsFetched(g, n);
    FetchedIsBuilt(g, n, visiting, depth);
    hide Resolve;
    assert e.group == Mapped(n, i, t).value.group;
    assert Ok(e) == Mapped(n, i, t);
  }

  lemma {:induction false} DerivedIsResolved(g: Graph, n: Node, e: Entry, visiting: set<Node>, depth: nat)
    requires Derives(g, n, e) && depth + e.height <= g.maxDepth && AllHigher(g, visiting, e.height)
    ensures Resolve(g, n, visiting, depth) == Ok(e)
    decreases e.height
  {
    hide Resolve;
    assert n !in visiting;
    match BodyAt(g, n)
    case Link(target) =>
      var t: Entry :| t.height < e.height && Derives(g, target, t) && FollowsLink(n, e, t);
      HigherStill(g, visiting, n, e, t.height);
      hide Derives, AllHigher;
      DerivedIsResolved(g, target, t, visiting + {n}, depth + 1);
      LinkResolves(g, n, e, t, visiting, depth);
    case Mapping(input, table) =>
      var i: Entry, t: Entry :|
        i.height < e.height && t.height < e.height && Derives(g, input, i) && Derives(g, table, t)
          && LooksUp(n, e, i, t);
      HigherStill(g, visiting, n, e, i.height);
      HigherStill(g, visiting, n, e, t.height);
      hide Derives, AllHigher;
      DerivedIsResolved(g, input, i, visiting + {n}, depth + 1);
      DerivedIsResolved(g, table, t, visiting + {n}, depth + 1);
      LookupResolves(g, n, e, i, t, visiting, depth);
    case _ =>
      UsableIsFetched(g, n);
      FetchedIsBuilt(g, n, visiting, depth);
  }

  /** The resolver answers an entry exactly when the node derives it within the depth limit. */
  lemma {:induction false} ResolvesExactlyWhenDerived(g: Graph, n: Node, e: Entry)
    ensures Resolve(g, n, {}, 0) == Ok(e) <==> Derives(g, n, e) && e.height <= g.maxDepth
  {
    if Resolve(g, n, {}, 0) == Ok(e) {
      ResolvedIsDerived(g, n, {}, 0);
      HeightFits(g, n, {}, 0);
    }
    if Derives(g, n, e) && e.height <= g.maxDepth {
      DerivedIsResolved(g, n, e, {}, 0);
    }
  }

  // ------------------------------------------------------------- rows

  /** The node derives this text within the limit. */
  ghost predicate DerivesText(g: Graph, n: Node, text: string) {
    exists e: Entry :: Derives(g, n, e) && e.height <= g.maxDepth && e.value == Text(text)
  }

  /** A record of an active root source, under the queried key. */
  predicate Matches(g: Graph, roots: set<string>, key: string, n: Node) {
    && n.source in roots && n.source in g.documents && n.revision == g.documents[n.source].revision
    && n.record in g.documents[n.source].records && g.documents[n.source].records[n.record].key == key
  }

  lemma {:induction false} MatchesAreNodes(g: Graph, roots: set<string>, key: string, n: Node)
    ensures Matches(g, roots, key, n) <==> n in NodesOf(g, roots, key)
  {
  }

  lemma {:induction false} CandidateIsDerived(g: Graph, n: Node)
    ensures CandidateAt(g, n).Ok? ==> DerivesText(g, n, CandidateAt(g, n).value.0)
    ensures forall text :: DerivesText(g, n, text) ==> CandidateAt(g, n).Ok? && CandidateAt(g, n).value.0 == text
  {
    hide Derives, Resolve;
    if CandidateAt(g, n).Ok? {
      ResolvesExactlyWhenDerived(g, n, Resolve(g, n, {}, 0).value);
    }
    forall text | DerivesText(g, n, text)
      ensures CandidateAt(g, n).Ok? && CandidateAt(g, n).value.0 == text
    {
      var e: Entry :| Derives(g, n, e) && e.height <= g.maxDepth && e.value == Text(text);
      ResolvesExactlyWhenDerived(g, n, e);
    }
  }

  /** Two records under the key derive different texts. */
  ghost predicate Disagree(g: Graph, roots: set<string>, key: string) {
    exists m, n, s, t :: Matches(g, roots, key, m) && Matches(g, roots, key, n) && DerivesText(g, m, s)
                         && DerivesText(g, n, t) && s != t
  }

  /** Every root is active, some record has the key, and each such record derives a text. */
  ghost predicate AllDerive(g: Graph, roots: set<string>, key: string) {
    && (forall s :: s in roots ==> s in g.documents)
    && (exists n :: Matches(g, roots, key, n))
    && (forall n :: Matches(g, roots, key, n) ==> exists text :: DerivesText(g, n, text))
  }

  lemma {:induction false} ConflictsWhenDisagreeing(g: Graph, roots: set<string>, key: string)
    ensures Conflicting(GroupsAt(g, NodesOf(g, roots, key))) <==> Disagree(g, roots, key)
  {
    hide CandidateAt, DerivesText;
    var nodes := NodesOf(g, roots, key);
    var groups := GroupsAt(g, nodes);
    if Conflicting(groups) {
      var a, b :| a in groups && b in groups && a.0 != b.0;
      var m :| m in nodes && CandidateAt(g, m).Ok? && CandidateAt(g, m).value == a;
      var n :| n in nodes && CandidateAt(g, n).Ok? && CandidateAt(g, n).value == b;
      MatchesAreNodes(g, roots, key, m);
      MatchesAreNodes(g, roots, key, n);
      CandidateIsDerived(g, m);
      CandidateIsDerived(g, n);
      assert DerivesText(g, m, a.0) && DerivesText(g, n, b.0);
    }
    if Disagree(g, roots, key) {
      var m, n, s, t :| Matches(g, roots, key, m) && Matches(g, roots, key, n) && DerivesText(g, m, s)
                        && DerivesText(g, n, t) && s != t;
      MatchesAreNodes(g, roots, key, m);
      MatchesAreNodes(g, roots, key, n);
      CandidateIsDerived(g, m);
      CandidateIsDerived(g, n);
      assert CandidateAt(g, m).value in groups && CandidateAt(g, n).value in groups;
    }
  }

  lemma {:induction false} NoReasonsWhenAllDerive(g: Graph, roots: set<string>, key: string)
    ensures var nodes := NodesOf(g, roots, key);
            Inactive(g, roots) + (if nodes == {} then {MissingRecord} else {}) + FailuresAt(g, nodes) == {}
            <==> AllDerive(g, roots, key)
  {
    hide CandidateAt, DerivesText, Matches, NodesOf;
    var nodes := NodesOf(g, roots, key);
    forall n
      ensures n in nodes <==> Matches(g, roots, key, n)
      ensures CandidateAt(g, n).Ok? <==> exists text :: DerivesText(g, n, text)
    {
      MatchesAreNodes(g, roots, key, n);
      CandidateIsDerived(g, n);
    }
    if n :| n in nodes && CandidateAt(g, n).Err? {
      assert CandidateAt(g, n).error in FailuresAt(g, nodes);
    }
    assert nodes != {} <==> exists n :: n in nodes;
  }

  /**
   A query is resolved exactly when every root is active, some record has its key, all such
   records derive a text and no two a different one; it is in conflict exactly when two derive
   different texts; and its groups are the texts with the source revisions they rest on.
   */
  lemma {:induction false} RowSaysWhatIsDerived(g: Graph, roots: set<string>, key: string)
    ensures RowOf(g, roots, key).key == key
    ensures RowOf(g, roots, key).status == Resolved <==> AllDerive(g, roots, key) && !Disagree(g, roots, key)
    ensures RowOf(g, roots, key).status == Conflict <==> Disagree(g, roots, key)
  {
    ConflictsWhenDisagreeing(g, roots, key);
    NoReasonsWhenAllDerive(g, roots, key);
    hide GroupsAt, FailuresAt, NodesOf, Inactive, Conflicting, AllDerive, Disagree;
  }

  lemma {:induction false} GroupsAreDerived(g: Graph, roots: set<string>, key: string, text: string, group: Group)
    ensures (text, group) in RowOf(g, roots, key).groups <==>
              exists n, e: Entry :: Matches(g, roots, key, n) && Derives(g, n, e) && e.height <= g.maxDepth
                                    && e.value == Text(text) && e.group == group
  {
    var nodes := NodesOf(g, roots, key);
    assert RowOf(g, roots, key).groups == GroupsAt(g, nodes);
    hide Derives, Resolve, NodesOf, Matches, RowOf;
    if (text, group) in GroupsAt(g, nodes) {
      var n :| n in nodes && CandidateAt(g, n).Ok? && CandidateAt(g, n).value == (text, group);
      MatchesAreNodes(g, roots, key, n);
      ResolvesExactlyWhenDerived(g, n, Resolve(g, n, {}, 0).value);
    }
    if n, e: Entry :| Matches(g, roots, key, n) && Derives(g, n, e) && e.height <= g.maxDepth
                      && e.value == Text(text) && e.group == group {
      MatchesAreNodes(g, roots, key, n);
      ResolvesExactlyWhenDerived(g, n, e);
      assert CandidateAt(g, n).value == (text, group);
    }
  }

  /** A record under the key cannot answer the query: it does not resolve, or it derives a table. */
  ghost predicate CannotAnswer(g: Graph, n: Node, reason: Reason) {
    || Resolve(g, n, {}, 0) == Err(reason)
    || (reason == WrongOperandType
        && exists e: Entry :: Derives(g, n, e) && e.height <= g.maxDepth && e.value.Entries?)
  }

  lemma {:induction false} CandidateFailsFor(g: Graph, n: Node, reason: Reason)
    ensures CandidateAt(g, n) == Err(reason) <==> CannotAnswer(g, n, reason)
  {
    hide Derives;
    if Resolve(g, n, {}, 0).Ok? {
      ResolvesExactlyWhenDerived(g, n, Resolve(g, n, {}, 0).value);
    }
    if e: Entry :| Derives(g, n, e) && e.height <= g.maxDepth && e.value.Entries? {
      ResolvesExactlyWhenDerived(g, n, e);
    }
    hide Resolve;
  }

  /** A row's reasons are exactly those that hold of its query. */
  lemma {:induction false} ReasonsHold(g: Graph, roots: set<string>, key: string, reason: Reason)
    ensures reason in RowOf(g, roots, key).reasons <==>
              || (reason == SourceInactive && exists s :: s in roots && s !in g.documents)
              || (reason == MissingRecord && forall n :: !Matches(g, roots, key, n))
              || (reason == ConflictingValues && Disagree(g, roots, key))
              || (exists n :: Matches(g, roots, key, n) && CannotAnswer(g, n, reason))
  {
    ConflictsWhenDisagreeing(g, roots, key);
    hide CandidateAt, CannotAnswer, Conflicting, Disagree, GroupsAt, Matches, NodesOf;
    var nodes := NodesOf(g, roots, key);
    forall n
      ensures n in nodes <==> Matches(g, roots, key, n)
      ensures CandidateAt(g, n) == Err(reason) <==> CannotAnswer(g, n, reason)
    {
      MatchesAreNodes(g, roots, key, n);
      CandidateFailsFor(g, n, reason);
    }
    assert reason in FailuresAt(g, nodes) <==> exists n :: n in nodes && CandidateAt(g, n) == Err(reason);
    assert nodes == {} <==> forall n :: n !in nodes;
  }

  // ------------------------------------------------------------- why a record does not resolve
  // ------------------------------------------------------------- why a record does not resolve

  /** Each reason's own condition, at the node where resolving stopped: reached by `path`, which ends there. */
  ghost predicate Explains(g: Graph, path: seq<Node>, reason: Reason)
    requires path != []
  {
    var n := path[|path| - 1];
    match reason
    case DepthLimit => |path| == g.maxDepth + 2
    case Cycle => n in path[..|path| - 1]
    case SourceNotPermitted => n.source !in g.allowed
    case SourceInactive => n.source in g.allowed && n.source !in g.documents
    case WrongRevision =>
      n.source in g.allowed && n.source in g.documents && g.documents[n.source].revision != n.revision
    case MissingRecord =>
      && n.source in g.allowed && n.source in g.documents && g.documents[n.source].revision == n.revision
      && n.record !in g.documents[n.source].records
    case NotAsserted =>
      && n.source in g.allowed && n.source in g.documents && g.documents[n.source].revision == n.revision
      && n.record in g.documents[n.source].records && g.documents[n.source].records[n.record].status != Asserted
    case WrongOperandType =>
      && Usable(g, n) && BodyAt(g, n).Mapping?
      && exists i: Entry, t: Entry ::
           Derives(g, BodyAt(g, n).input, i) && Derives(g, BodyAt(g, n).table, t) && (i.value.Entries? || t.value.Text?)
    case MissingMapping =>
      && Usable(g, n) && BodyAt(g, n).Mapping?
      && exists i: Entry, t: Entry ::
           && Derives(g, BodyAt(g, n).input, i) && Derives(g, BodyAt(g, n).table, t)
           && i.value.Text? && t.value.Entries? && i.value.s !in t.value.m
    case ConflictingValues => false
  }

  /** Each node of the path refers to the next, directly. */
  predicate IsPath(g: Graph, path: seq<Node>) {
    forall i :: 0 <= i < |path| - 1 ==> Usable(g, path[i]) && path[i + 1] in Uses(BodyAt(g, path[i]))
  }

  /** This path continues that one, and its end explains the reason. */
  ghost predicate Cause(g: Graph, before: seq<Node>, path: seq<Node>, reason: Reason) {
    path != [] && before <= path && IsPath(g, path) && Explains(g, path, reason)
  }

  lemma {:induction false} FailureHasItsCause(g: Graph, before: seq<Node>, n: Node) returns (path: seq<Node>)
    requires IsPath(g, before + [n]) && |before| <= g.maxDepth + 1
    requires Resolve(g, n, Elems(before), |before|).Err?
    ensures Cause(g, before + [n], path, Resolve(g, n, Elems(before), |before|).error)
    decreases g.maxDepth + 1 - |before|
  {
    path := before + [n];
    assert path[..|path| - 1] == before;
    UsableIsFetched(g, n);
    if |before| <= g.maxDepth && n !in before && Usable(g, n) {
      FetchedIsBuilt(g, n, Elems(before), |before|);
      HeightFits(g, n, Elems(before), |before|);
      assert Elems(before) + {n} == Elems(path);
      hide Resolve, Derives;
      match BodyAt(g, n)
      case Link(target) =>
        PathGoesOn(g, path, target);
        path := FailureHasItsCause(g, path, target);
      case Mapping(input, table) =>
        PathGoesOn(g, path, input);
        PathGoesOn(g, path, table);
        if Resolve(g, input, Elems(path), |path|).Err? {
          path := FailureHasItsCause(g, path, input);
        } else if Resolve(g, table, Elems(path), |path|).Err? {
          path := FailureHasItsCause(g, path, table);
        } else {
          ResolvedIsDerived(g, input, Elems(path), |path|);
          ResolvedIsDerived(g, table, Elems(path), |path|);
        }
      case _ =>
    }
  }

  function Elems(path: seq<Node>): set<Node> {
    set n | n in path
  }

  lemma {:induction false} PathGoesOn(g: Graph, path: seq<Node>, n: Node)
    requires path != [] && IsPath(g, path) && Usable(g, path[|path| - 1]) && n in Uses(BodyAt(g, path[|path| - 1]))
    ensures IsPath(g, path + [n])
  {
  }

  /** A record fails for a reason that holds, in so many words, at the end of a path of references from it. */
  lemma {:induction false} EveryFailureIsExplained(g: Graph, n: Node)
    requires Resolve(g, n, {}, 0).Err?
    ensures exists path :: Cause(g, [n], path, Resolve(g, n, {}, 0).error)
  {
    assert Elems([]) == {} && [] + [n] == [n];
    var path := FailureHasItsCause(g, [], n);
  }
}
