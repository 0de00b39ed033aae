/**
 Selecting whole document revisions into a byte budget.

 Both strategies keep an exact running length of the serialized request. How a text is cut
 into tokens and how long an encoded event is are left open; an encoded event is never
 empty.
 */
module QueryMemory {
  import opened Prelude
  import opened Order
  import opened DocumentStream
  import opened DocumentView

  datatype Strategy = CoveragePerByte | PerKeyRecency

  /** The active request, its budget, and the newest-first order of its events. */
  datatype Memory = Memory(request: Request, enc: Encoding, tokens: string -> set<string>, maxBytes: nat,
                           order: seq<nat>)

  datatype Selection = Selection(selected: set<nat>, covered: set<string>, usedBytes: nat)

  function Header(m: Memory): nat {
    m.enc.header(m.request.runId, m.request.at, m.request.task)
  }

  function Size(m: Memory, i: nat): nat
    requires i < |m.request.events|
  {
    m.enc.event(m.request.events[i])
  }

  /** The requested keys all of whose tokens occur in the event's text. */
  function Matches(m: Memory, i: nat): set<string>
    requires i < |m.request.events|
  {
    set k | k in m.request.task.factKeys && m.tokens(k) != {} && m.tokens(k) <= m.tokens(m.request.events[i].text)
  }

  /** `recency`: later arrival, then higher revision, then source and event names. */
  predicate Newer(a: Event, b: Event) {
    if a.arrivedAt != b.arrivedAt then a.arrivedAt > b.arrivedAt
    else if a.revision != b.revision then a.revision > b.revision
    else if a.sourceId != b.sourceId then Less(a.sourceId, b.sourceId)
    else Less(a.eventId, b.eventId)
  }

  /** The order lists every event once, newest first. */
  predicate OrderOk(m: Memory) {
    && (forall k :: 0 <= k < |m.order| ==> m.order[k] < |m.request.events|)
    && (forall i :: 0 <= i < |m.request.events| ==> i in m.order)
    && (forall k, l :: 0 <= k < l < |m.order| ==> NewerAt(m, m.order[k], m.order[l]))
  }

  predicate NewerAt(m: Memory, i: nat, j: nat) {
    i < |m.request.events| && j < |m.request.events| && i != j && Newer(m.request.events[i], m.request.events[j])
  }

  function Cost(m: Memory, s: Selection, i: nat): nat
    requires i < |m.request.events|
  {
    Size(m, i) + (if s.selected != {} then 1 else 0)
  }

  predicate Fits(m: Memory, s: Selection, i: nat)
    requires i < |m.request.events|
  {
    i !in s.selected && s.usedBytes + Cost(m, s, i) <= m.maxBytes
  }

  function Add(m: Memory, s: Selection, i: nat): Selection
    requires i < |m.request.events|
  {
    Selection(s.selected + {i}, s.covered + Matches(m, i), s.usedBytes + Cost(m, s, i))
  }

  // ------------------------------------------------------------- the exact length

  function SelectedBytes(m: Memory, selected: set<nat>, n: nat): nat
    requires n <= |m.request.events|
  {
    if n == 0 then 0 else SelectedBytes(m, selected, n - 1) + (if n - 1 in selected then Size(m, n - 1) else 0)
  }

  function Separators(selected: set<nat>): nat {
    if selected == {} then 0 else |selected| - 1
  }

  /** What the selection covers: the union of its events' matches. */
  predicate CoversExactly(m: Memory, s: Selection)
    requires forall i :: i in s.selected ==> i < |m.request.events|
  {
    && (forall i :: i in s.selected ==> Matches(m, i) <= s.covered)
    && (forall k :: k in s.covered ==> exists i :: i in s.selected && k in Matches(m, i))
  }

  /** The running length is the exact serialized length, within the budget. */
  predicate Accounted(m: Memory, s: Selection) {
    && (forall i :: i in s.selected ==> i < |m.request.events|)
    && s.usedBytes == Header(m) + SelectedBytes(m, s.selected, |m.request.events|) + Separators(s.selected)
    && s.usedBytes <= m.maxBytes
    && CoversExactly(m, s)
  }

  lemma {:induction false} OneMoreEvent(m: Memory, selected: set<nat>, i: nat, n: nat)
    requires n <= |m.request.events| && i < |m.request.events| && i !in selected
    ensures SelectedBytes(m, selected + {i}, n) == SelectedBytes(m, selected, n) + (if i < n then Size(m, i) else 0)
  {
    if n > 0 {
      OneMoreEvent(m, selected, i, n - 1);
    }
  }

  lemma {:induction false} AddKeepsAccount(m: Memory, s: Selection, i: nat)
    requires Accounted(m, s) && i < |m.request.events| && Fits(m, s, i)
    ensures Accounted(m, Add(m, s, i))
  {
    OneMoreEvent(m, s.selected, i, |m.request.events|);
    assert |s.selected + {i}| == |s.selected| + 1;
    var t := Add(m, s, i);
    forall k | k in t.covered
      ensures exists x :: x in t.selected && k in Matches(m, x)
    {
      if k !in s.covered {
        assert i in t.selected;
      }
    }
  }

  function Start(m: Memory): Selection {
    Selection({}, {}, Header(m))
  }

  lemma {:induction false} NothingSelected(m: Memory, n: nat)
    requires n <= |m.request.events|
    ensures SelectedBytes(m, {}, n) == 0
  {
    if n > 0 {
      NothingSelected(m, n - 1);
    }
  }

  lemma {:induction false} StartIsAccounted(m: Memory)
    requires Header(m) <= m.maxBytes
    ensures Accounted(m, Start(m))
  {
    NothingSelected(m, |m.request.events|);
  }

  function Unselected(m: Memory, s: Selection): set<nat> {
    set i | 0 <= i < |m.request.events| && i !in s.selected
  }

  // ------------------------------------------------------------- coverage per byte

  function Gain(m: Memory, s: Selection, i: nat): nat
    requires i < |m.request.events|
  {
    |Matches(m, i) - s.covered|
  }

  predicate Choice(m: Memory, s: Selection, i: nat)
    requires i < |m.request.events|
  {
    Fits(m, s, i) && Matches(m, i) - s.covered != {}
  }

  /** The order of `priority`: more new keys per byte, then more new keys, then newer. */
  predicate Better(m: Memory, s: Selection, i: nat, j: nat)
    requires i < |m.request.events| && j < |m.request.events|
  {
    var left, right := Gain(m, s, i) * Cost(m, s, j), Gain(m, s, j) * Cost(m, s, i);
    left > right || (left == right && (Gain(m, s, i) > Gain(m, s, j)
                                       || (Gain(m, s, i) == Gain(m, s, j)
                                           && Newer(m.request.events[i], m.request.events[j]))))
  }

  /** The best choice among the first `k` of the order. */
  function BestOf(m: Memory, s: Selection, k: nat): (best: Option<nat>)
    requires OrderOk(m) && k <= |m.order|
    ensures best.Some? ==> best.value < |m.request.events| && Choice(m, s, best.value)
  {
    if k == 0 then None
    else
      var best, i := BestOf(m, s, k - 1), m.order[k - 1];
      if Choice(m, s, i) && (best.None? || Better(m, s, i, best.value)) then Some(i) else best
  }

  function Cover(m: Memory, s: Selection): Selection
    requires OrderOk(m) && Accounted(m, s)
    decreases Unselected(m, s)
  {
    var best := BestOf(m, s, |m.order|);
    if best.None? then s
    else
      AddKeepsAccount(m, s, best.value);
      assert best.value in Unselected(m, s) && best.value !in Unselected(m, Add(m, s, best.value));
      Cover(m, Add(m, s, best.value))
  }

  // ------------------------------------------------------------- one fitting newest match per key

  function FirstMatch(m: Memory, s: Selection, key: string, k: nat): (found: Option<nat>)
    requires OrderOk(m) && k <= |m.order|
    ensures found.Some? ==>
            found.value < |m.request.events| && Fits(m, s, found.value) && key in Matches(m, found.value)
    decreases |m.order| - k
  {
    if k == |m.order| then None
    else if key in Matches(m, m.order[k]) && Fits(m, s, m.order[k]) then Some(m.order[k])
    else FirstMatch(m, s, key, k + 1)
  }

  function AddMatch(m: Memory, s: Selection, key: string): (t: Selection)
    requires OrderOk(m) && Accounted(m, s)
    ensures Accounted(m, t) && s.selected <= t.selected
  {
    var found := FirstMatch(m, s, key, 0);
    if found.None? then s
    else
      AddKeepsAccount(m, s, found.value);
      Add(m, s, found.value)
  }

  /** One round over the requested keys, from the given position on. */
  function Round(m: Memory, s: Selection, position: nat): (t: Selection)
    requires OrderOk(m) && Accounted(m, s) && position <= |m.request.task.factKeys|
    ensures Accounted(m, t) && s.selected <= t.selected
    decreases |m.request.task.factKeys| - position
  {
    if position == |m.request.task.factKeys| then s
    else Round(m, AddMatch(m, s, m.request.task.factKeys[position]), position + 1)
  }

  function Rounds(m: Memory, s: Selection): (t: Selection)
    requires OrderOk(m) && Accounted(m, s)
    ensures Accounted(m, t)
    decreases Unselected(m, s)
  {
    var next := Round(m, s, 0);
    if next.selected == s.selected then s
    else
      assert Unselected(m, next) < Unselected(m, s) by { FewerLeft(m, s, next); }
      Rounds(m, next)
  }

  lemma {:induction false} FewerLeft(m: Memory, s: Selection, t: Selection)
    requires Accounted(m, t) && s.selected < t.selected
    ensures Unselected(m, t) < Unselected(m, s)
  {
    var i :| i in t.selected && i !in s.selected;
    assert i in Unselected(m, s) && i !in Unselected(m, t);
  }

  // ------------------------------------------------------------- the remaining space

  function FillRest(m: Memory, s: Selection, k: nat): (t: Selection)
    requires OrderOk(m) && Accounted(m, s) && k <= |m.order|
    ensures Accounted(m, t)
    decreases |m.order| - k
  {
    if k == |m.order| then s
    else if Fits(m, s, m.order[k]) then
      AddKeepsAccount(m, s, m.order[k]);
      FillRest(m, Add(m, s, m.order[k]), k + 1)
    else FillRest(m, s, k + 1)
  }

  lemma {:induction false} CoverIsAccounted(m: Memory, s: Selection)
    requires OrderOk(m) && Accounted(m, s)
    ensures Accounted(m, Cover(m, s))
    decreases Unselected(m, s)
  {
    hide Accounted;
    var best := BestOf(m, s, |m.order|);
    if best.Some? {
      AddKeepsAccount(m, s, best.value);
      assert best.value in Unselected(m, s) && best.value !in Unselected(m, Add(m, s, best.value));
      CoverIsAccounted(m, Add(m, s, best.value));
    }
  }

  /** `select_memory`, as the choice it makes. */
  function Selected(m: Memory, strategy: Strategy): Selection
    requires OrderOk(m) && Header(m) <= m.maxBytes
  {
    StartIsAccounted(m);
    CoverIsAccounted(m, Start(m));
    FillRest(m, Rounds(m, if strategy == CoveragePerByte then Cover(m, Start(m)) else Start(m)), 0)
  }

  // ------------------------------------------------------------- the loops

  /** The three loops of `select_memory`. */
  method SelectMemory(m: Memory, strategy: Strategy) returns (s: Selection)
    requires OrderOk(m) && Header(m) <= m.maxBytes
    ensures s == Selected(m, strategy)
  {
    s := Start(m);
    StartIsAccounted(m);
    CoverIsAccounted(m, s);
    hide Accounted;
    if strategy == CoveragePerByte {
      s := CoverLoop(m, s);
    }
    s := RoundsLoop(m, s);
    ghost var filled := FillRest(m, s, 0);
    for k := 0 to |m.order|
      invariant Accounted(m, s) && FillRest(m, s, k) == filled
    {
      if Fits(m, s, m.order[k]) {
        AddKeepsAccount(m, s, m.order[k]);
        s := Add(m, s, m.order[k]);
      }
    }
  }

  method CoverLoop(m: Memory, start: Selection) returns (s: Selection)
    requires OrderOk(m) && Accounted(m, start)
    ensures s == Cover(m, start) && Accounted(m, s)
  {
    hide Accounted;
    s := start;
    while true
      invariant Accounted(m, s) && Cover(m, s) == Cover(m, start)
      decreases Unselected(m, s)
    {
      var best: Option<nat> := None;
      for k := 0 to |m.order|
        invariant best == BestOf(m, s, k)
      {
        var i := m.order[k];
        if Choice(m, s, i) && (best.None? || Better(m, s, i, best.value)) {
          best := Some(i);
        }
      }
      if best.None? {
        return;
      }
      AddKeepsAccount(m, s, best.value);
      assert best.value in Unselected(m, s) && best.value !in Unselected(m, Add(m, s, best.value));
      s := Add(m, s, best.value);
    }
  }

  method RoundsLoop(m: Memory, start: Selection) returns (s: Selection)
    requires OrderOk(m) && Accounted(m, start)
    ensures s == Rounds(m, start) && Accounted(m, s)
  {
    hide Accounted, FirstMatch;
    s := start;
    while true
      invariant Accounted(m, s) && Rounds(m, s) == Rounds(m, start)
      decreases Unselected(m, s)
    {
      var before, changed := s, false;
      for position := 0 to |m.request.task.factKeys|
        invariant Accounted(m, s) && Round(m, s, position) == Round(m, before, 0)
        invariant before.selected <= s.selected && (changed <==> s.selected != before.selected)
                  && (!changed ==> s == before)
      {
        var found := FirstMatch(m, s, m.request.task.factKeys[position], 0);
        if found.Some? {
          AddKeepsAccount(m, s, found.value);
          s, changed := Add(m, s, found.value), true;
        }
      }
      if !changed {
        return;
      }
      FewerLeft(m, before, s);
    }
  }

  // ------------------------------------------------------------- what is selected

  lemma {:induction false} FitsOnlyShrinks(m: Memory, s: Selection, i: nat, j: nat)
    requires i < |m.request.events| && j < |m.request.events| && !Fits(m, s, i)
    ensures !Fits(m, Add(m, s, j), i)
  {
  }

  lemma {:induction false} RestIsFull(m: Memory, s: Selection, k: nat)
    requires OrderOk(m) && Accounted(m, s) && k <= |m.order|
    requires forall l :: 0 <= l < k ==> !Fits(m, s, m.order[l])
    ensures forall i :: 0 <= i < |m.request.events| ==> !Fits(m, FillRest(m, s, k), i)
    decreases |m.order| - k
  {
    hide Accounted, Fits;
    if k == |m.order| {
      forall i | 0 <= i < |m.request.events|
        ensures !Fits(m, s, i)
      {
        assert i in m.order;
        var l :| 0 <= l < |m.order| && m.order[l] == i;
      }
    } else if Fits(m, s, m.order[k]) {
      AddKeepsAccount(m, s, m.order[k]);
      var t := Add(m, s, m.order[k]);
      forall l | 0 <= l <= k
        ensures !Fits(m, t, m.order[l])
      {
        if l == k {
          AddedNoLongerFits(m, s, m.order[k]);
        } else {
          FitsOnlyShrinks(m, s, m.order[l], m.order[k]);
        }
      }
      RestIsFull(m, t, k + 1);
    } else {
      RestIsFull(m, s, k + 1);
    }
  }

  lemma {:induction false} AddedNoLongerFits(m: Memory, s: Selection, i: nat)
    requires i < |m.request.events|
    ensures !Fits(m, Add(m, s, i), i)
  {
  }

  /** The events selected, in delivery order. */
  function Chosen(m: Memory, selected: set<nat>, n: nat): seq<Event>
    requires n <= |m.request.events|
  {
    if n == 0 then []
    else Chosen(m, selected, n - 1) + (if n - 1 in selected then [m.request.events[n - 1]] else [])
  }

  function View(m: Memory, s: Selection): Request {
    m.request.(events := Chosen(m, s.selected, |m.request.events|))
  }

  lemma {:induction false} ChosenBytes(m: Memory, selected: set<nat>, n: nat)
    requires n <= |m.request.events|
    ensures ArrayBytes(m.enc, Chosen(m, selected, n))
         == SelectedBytes(m, selected, n) + (if Chosen(m, selected, n) == [] then 0 else |Chosen(m, selected, n)| - 1)
  {
    if n > 0 {
      ChosenBytes(m, selected, n - 1);
      var front := Chosen(m, selected, n - 1);
      assert front + [] == front;
      assert (front + [m.request.events[n - 1]])[..|front|] == front;
    }
  }

  lemma {:induction false} ChosenCount(m: Memory, selected: set<nat>, n: nat)
    requires n <= |m.request.events|
    ensures |Chosen(m, selected, n)| == |set i | i in selected && i < n|
  {
    var now := set i | i in selected && i < n;
    if n == 0 {
      assert now == {};
    } else {
      var before := set i | i in selected && i < n - 1;
      ChosenCount(m, selected, n - 1);
      assert now == before + (if n - 1 in selected then {n - 1} else {});
    }
  }

  /** The length kept while selecting is the length of the request it selects: the final comparison cannot fail. */
  lemma {:induction false} LengthIsExact(m: Memory, s: Selection)
    requires Accounted(m, s)
    ensures RequestBytes(m.enc, View(m, s)) == s.usedBytes <= m.maxBytes
  {
    var n := |m.request.events|;
    ChosenBytes(m, s.selected, n);
    ChosenCount(m, s.selected, n);
    assert (set i | i in s.selected && i < n) == s.selected;
  }

  /**
   Either strategy ends with an exactly accounted request inside the budget, covering exactly
   its events' keys, and maximal: no event left out still fits.
   */
  lemma {:induction false} SelectionIsExactAndMaximal(m: Memory, strategy: Strategy)
    requires OrderOk(m) && Header(m) <= m.maxBytes
    ensures var s := Selected(m, strategy);
            && Accounted(m, s) && RequestBytes(m.enc, View(m, s)) == s.usedBytes <= m.maxBytes
            && forall i :: 0 <= i < |m.request.events| && i !in s.selected ==> s.usedBytes + Cost(m, s, i) > m.maxBytes
  {
    StartIsAccounted(m);
    CoverIsAccounted(m, Start(m));
    hide Accounted;
    var s := Rounds(m, if strategy == CoveragePerByte then Cover(m, Start(m)) else Start(m));
    RestIsFull(m, s, 0);
    LengthIsExact(m, Selected(m, strategy));
    assert Selected(m, strategy) == FillRest(m, s, 0);
    forall i | 0 <= i < |m.request.events| && i !in Selected(m, strategy).selected
      ensures Selected(m, strategy).usedBytes + Cost(m, Selected(m, strategy), i) > m.maxBytes
    {
      assert !Fits(m, FillRest(m, s, 0), i);
    }
  }

  lemma {:induction false} ChosenMembers(m: Memory, selected: set<nat>, n: nat)
    requires n <= |m.request.events|
    ensures forall e :: e in Chosen(m, selected, n) ==> exists i :: 0 <= i < n && m.request.events[i] == e
  {
    if n > 0 {
      ChosenMembers(m, selected, n - 1);
    }
  }

  lemma {:induction false} ChosenIsConsistent(m: Memory, selected: set<nat>, n: nat)
    requires n <= |m.request.events| && Consistent(m.request.events)
    ensures Consistent(Chosen(m, selected, n))
  {
    hide RevisionContent;
    if n > 0 {
      ChosenIsConsistent(m, selected, n - 1);
      ChosenMembers(m, selected, n - 1);
      if n - 1 in selected {
        var front, last := Chosen(m, selected, n - 1), m.request.events[n - 1];
        hide Chosen;
        forall i | 0 <= i < |front|
          ensures front[i].eventId != last.eventId && front[i].arrivedAt <= last.arrivedAt
          ensures front[i].sourceId == last.sourceId && front[i].revision == last.revision ==>
                  RevisionContent(front[i]) == RevisionContent(last)
        {
          assert front[i] in front;
          var k :| 0 <= k < n - 1 && m.request.events[k] == front[i];
        }
        ConsistentAppend(front, last);
        ChosenStep(m, selected, n);
      } else {
        assert Chosen(m, selected, n) == Chosen(m, selected, n - 1);
      }
    }
  }

  lemma {:induction false} ChosenStep(m: Memory, selected: set<nat>, n: nat)
    requires 0 < n <= |m.request.events| && n - 1 in selected
    ensures Chosen(m, selected, n) == Chosen(m, selected, n - 1) + [m.request.events[n - 1]]
  {
  }

  /** The selected view of a valid active request is itself a valid request. */
  lemma {:induction false} ViewOfSelectionIsValid(m: Memory, s: Selection)
    requires RequestOk(m.enc, m.request) && Accounted(m, s) && m.maxBytes <= MAX_REQUEST
    ensures RequestOk(m.enc, View(m, s))
  {
    hide EventOk, TaskOk, Accounted, SelectedBytes;
    var n := |m.request.events|;
    LengthIsExact(m, s);
    ChosenIsConsistent(m, s.selected, n);
    ChosenMembers(m, s.selected, n);
    ChosenIsShorter(m, s.selected, n);
    forall i | 0 <= i < |View(m, s).events|
      ensures EventOk(View(m, s).events[i]) && View(m, s).events[i].arrivedAt <= m.request.at
    {
      assert View(m, s).events[i] in Chosen(m, s.selected, n);
    }
  }

  lemma {:induction false} ChosenIsShorter(m: Memory, selected: set<nat>, n: nat)
    requires n <= |m.request.events|
    ensures |Chosen(m, selected, n)| <= n
  {
    if n > 0 {
      ChosenIsShorter(m, selected, n - 1);
    }
  }

  // ------------------------------------------------------------- the greedy step

  lemma {:induction false} ScaleUp(x: nat, y: nat, c: nat)
    requires c > 0 && x < y
    ensures x * c < y * c
    decreases c
  {
    if c > 1 {
      ScaleUp(x, y, c - 1);
      assert x * c == x * (c - 1) + x && y * c == y * (c - 1) + y;
    }
  }

  lemma {:induction false} Scale(x: nat, y: nat, c: nat)
    requires c > 0
    ensures x > y <==> x * c > y * c
    ensures x >= y <==> x * c >= y * c
  {
    if x < y {
      ScaleUp(x, y, c);
    } else if x > y {
      ScaleUp(y, x, c);
    }
  }

  lemma {:induction false} Rearrange(x: nat, y: nat, z: nat)
    ensures (x * y) * z == (x * z) * y
  {
  }

  /** `a/ca >= b/cb` and `b/cb >= c/cc` over positive denominators, without dividing. */
  lemma {:induction false} RatiosChain(a: nat, ca: nat, b: nat, cb: nat, c: nat, cc: nat)
    requires ca > 0 && cb > 0 && cc > 0 && a * cb >= b * ca && b * cc >= c * cb
    ensures a * cc >= c * ca
    ensures a * cb > b * ca || b * cc > c * cb ==> a * cc > c * ca
  {
    Scale(a * cb, b * ca, cc);
    Scale(b * cc, c * cb, ca);
    Rearrange(a, cb, cc);
    Rearrange(b, ca, cc);
    Rearrange(c, cb, ca);
    Scale(a * cc, c * ca, cb);
  }

  lemma {:induction false} BetterChains(m: Memory, s: Selection, j: nat, b: nat, x: nat)
    requires j < |m.request.events| && b < |m.request.events| && x < |m.request.events|
    requires Cost(m, s, j) > 0 && Cost(m, s, b) > 0 && Cost(m, s, x) > 0
    requires Better(m, s, j, b) && (x == b || Better(m, s, b, x)) && Newer(m.request.events[b], m.request.events[j])
    ensures Better(m, s, j, x)
  {
    NewerIsAsymmetric(m.request.events[b], m.request.events[j]);
    if x != b {
      RatiosChain(Gain(m, s, j), Cost(m, s, j), Gain(m, s, b), Cost(m, s, b), Gain(m, s, x), Cost(m, s, x));
      if Gain(m, s, j) * Cost(m, s, b) == Gain(m, s, b) * Cost(m, s, j) {
        assert Gain(m, s, j) > Gain(m, s, b);
      }
    }
  }

  lemma {:induction false} NewerIsAsymmetric(a: Event, b: Event)
    requires Newer(a, b)
    ensures !Newer(b, a)
  {
    LessIsTotal(a.sourceId, b.sourceId);
    LessIsTotal(a.eventId, b.eventId);
  }

  /** Each step of the coverage strategy takes the one choice that beats every other. */
  lemma {:induction false} BestBeatsTheRest(m: Memory, s: Selection, k: nat)
    requires OrderOk(m) && k <= |m.order| && forall i :: 0 <= i < |m.request.events| ==> Size(m, i) > 0
    ensures var best := BestOf(m, s, k);
            forall l :: 0 <= l < k && Choice(m, s, m.order[l]) ==>
              best.Some? && (m.order[l] == best.value || Better(m, s, best.value, m.order[l]))
    ensures BestOf(m, s, k).Some? ==> exists l :: 0 <= l < k && m.order[l] == BestOf(m, s, k).value
  {
    if k > 0 {
      BestBeatsTheRest(m, s, k - 1);
      var before, i := BestOf(m, s, k - 1), m.order[k - 1];
      hide Choice, Better;
      if Choice(m, s, i) && before.Some? {
        var l :| 0 <= l < k - 1 && m.order[l] == before.value;
        assert NewerAt(m, before.value, i);
        OldBestStands(m, s, before.value, i);
        forall x | 0 <= x < k - 1 && Choice(m, s, m.order[x]) && Better(m, s, i, before.value)
          ensures Better(m, s, i, m.order[x])
        {
          BetterChains(m, s, i, before.value, m.order[x]);
        }
      }
      if BestOf(m, s, k) == before && before.Some? {
        var l :| 0 <= l < k - 1 && m.order[l] == before.value;
        assert 0 <= l < k && m.order[l] == before.value;
      } else if BestOf(m, s, k).Some? {
        assert m.order[k - 1] == BestOf(m, s, k).value;
      }
    }
  }

  lemma {:induction false} OldBestStands(m: Memory, s: Selection, b: nat, i: nat)
    requires NewerAt(m, b, i)
    ensures Better(m, s, b, i) || Better(m, s, i, b)
  {
  }

  // ------------------------------------------------------------- the rounds

  predicate NoMatchFits(m: Memory, s: Selection, key: string) {
    forall i :: 0 <= i < |m.request.events| && key in Matches(m, i) ==> !Fits(m, s, i)
  }

  lemma {:induction false} NoFirstMatch(m: Memory, s: Selection, key: string, k: nat)
    requires OrderOk(m) && k <= |m.order| && FirstMatch(m, s, key, k).None?
    ensures forall l :: k <= l < |m.order| ==> !(key in Matches(m, m.order[l]) && Fits(m, s, m.order[l]))
    decreases |m.order| - k
  {
    hide Matches, Fits;
    if k < |m.order| {
      NoFirstMatch(m, s, key, k + 1);
    }
  }

  lemma {:induction false} QuietRound(m: Memory, s: Selection, position: nat)
    requires OrderOk(m) && Accounted(m, s) && position <= |m.request.task.factKeys|
    requires Round(m, s, position).selected == s.selected
    ensures forall p :: position <= p < |m.request.task.factKeys| ==> NoMatchFits(m, s, m.request.task.factKeys[p])
    decreases |m.request.task.factKeys| - position
  {
    hide Accounted, Matches, Fits;
    if position < |m.request.task.factKeys| {
      var key := m.request.task.factKeys[position];
      var t := AddMatch(m, s, key);
      AddMatchIsStrict(m, s, key);
      NoFirstMatch(m, s, key, 0);
      forall i | 0 <= i < |m.request.events| && key in Matches(m, i)
        ensures !Fits(m, s, i)
      {
        assert i in m.order;
        var l :| 0 <= l < |m.order| && m.order[l] == i;
      }
      QuietRound(m, s, position + 1);
    }
  }

  lemma {:induction false} AddMatchIsStrict(m: Memory, s: Selection, key: string)
    requires OrderOk(m) && Accounted(m, s)
    ensures FirstMatch(m, s, key, 0).Some? ==> s.selected < AddMatch(m, s, key).selected
    ensures FirstMatch(m, s, key, 0).None? ==> AddMatch(m, s, key) == s
  {
    hide Accounted, FirstMatch;
    if FirstMatch(m, s, key, 0).Some? {
      var i := FirstMatch(m, s, key, 0).value;
      assert i !in s.selected && i in AddMatch(m, s, key).selected;
    }
  }

  /** The rounds stop only when no requested key has a matching event that still fits. */
  lemma {:induction false} RoundsLeaveNoMatch(m: Memory, s: Selection, key: string)
    requires OrderOk(m) && Accounted(m, s) && key in m.request.task.factKeys
    ensures NoMatchFits(m, Rounds(m, s), key)
    decreases Unselected(m, s)
  {
    hide Accounted, NoMatchFits;
    var next := Round(m, s, 0);
    if next.selected == s.selected {
      QuietRound(m, s, 0);
      var p :| 0 <= p < |m.request.task.factKeys| && m.request.task.factKeys[p] == key;
    } else {
      FewerLeft(m, s, next);
      RoundsLeaveNoMatch(m, next, key);
    }
  }

  // ------------------------------------------------------------- how a selection comes about

  /** The selection after these events are added, in this order. */
  function AfterPicks(m: Memory, s: Selection, picks: seq<nat>): Selection
    requires PicksOk(m, picks)
    decreases |picks|
  {
    if picks == [] then s else AfterPicks(m, Add(m, s, picks[0]), picks[1..])
  }

  predicate PicksOk(m: Memory, picks: seq<nat>) {
    forall k :: 0 <= k < |picks| ==> picks[k] < |m.request.events|
  }

  /** Each pick is the one fitting event with a new key that beats every other, until there is none. */
  ghost predicate GreedyPicks(m: Memory, s: Selection, picks: seq<nat>)
    requires PicksOk(m, picks)
    decreases |picks|
  {
    if picks == [] then forall i :: 0 <= i < |m.request.events| ==> !Choice(m, s, i)
    else
      && Choice(m, s, picks[0])
      && (forall i: nat :: i < |m.request.events| && Choice(m, s, i) && i != picks[0] ==> Better(m, s, picks[0], i))
      && GreedyPicks(m, Add(m, s, picks[0]), picks[1..])
  }

  /** The newest event that matches the key and still fits. */
  ghost predicate NewestMatch(m: Memory, s: Selection, key: string, i: nat)
    requires i < |m.request.events|
  {
    && key in Matches(m, i) && Fits(m, s, i)
    && forall j: nat :: j < |m.request.events| && key in Matches(m, j) && Fits(m, s, j) && j != i ==> NewerAt(m, i, j)
  }

  /** Key after key, round after round, each pick is the newest fitting match, until a round adds nothing. */
  ghost predicate RoundPicks(m: Memory, s: Selection, position: nat, changed: bool, picks: seq<nat>)
    requires PicksOk(m, picks) && position <= |m.request.task.factKeys|
    decreases |picks|, changed, |m.request.task.factKeys| - position
  {
    if position == |m.request.task.factKeys| then
      if changed then RoundPicks(m, s, 0, false, picks) else picks == []
    else
      var key := m.request.task.factKeys[position];
      || (NoMatchFits(m, s, key) && RoundPicks(m, s, position + 1, changed, picks))
      || (picks != [] && NewestMatch(m, s, key, picks[0])
          && RoundPicks(m, Add(m, s, picks[0]), position + 1, true, picks[1..]))
  }

  /** Each pick is the newest event that still fits, until none does. */
  ghost predicate FillPicks(m: Memory, s: Selection, picks: seq<nat>)
    requires PicksOk(m, picks)
    decreases |picks|
  {
    if picks == [] then forall i :: 0 <= i < |m.request.events| ==> !Fits(m, s, i)
    else
      && Fits(m, s, picks[0])
      && (forall i: nat :: i < |m.request.events| && Fits(m, s, i) && i != picks[0] ==> NewerAt(m, picks[0], i))
      && FillPicks(m, Add(m, s, picks[0]), picks[1..])
  }

  lemma {:induction false} CoverHistory(m: Memory, s: Selection) returns (picks: seq<nat>)
    requires OrderOk(m) && Accounted(m, s) && forall i :: 0 <= i < |m.request.events| ==> Size(m, i) > 0
    ensures PicksOk(m, picks) && GreedyPicks(m, s, picks) && AfterPicks(m, s, picks) == Cover(m, s)
    decreases Unselected(m, s)
  {
    hide Accounted, Choice, Better;
    BestBeatsTheRest(m, s, |m.order|);
    var best := BestOf(m, s, |m.order|);
    if best.None? {
      picks := [];
      forall i | 0 <= i < |m.request.events|
        ensures !Choice(m, s, i)
      {
        assert i in m.order;
        var l :| 0 <= l < |m.order| && m.order[l] == i;
      }
    } else {
      ChoiceFits(m, s, best.value);
      AddKeepsAccount(m, s, best.value);
      assert best.value in Unselected(m, s) && best.value !in Unselected(m, Add(m, s, best.value));
      var rest := CoverHistory(m, Add(m, s, best.value));
      picks := [best.value] + rest;
      assert picks[1..] == rest;
      forall i: nat | i < |m.request.events| && Choice(m, s, i) && i != best.value
        ensures Better(m, s, best.value, i)
      {
        assert i in m.order;
        var l :| 0 <= l < |m.order| && m.order[l] == i;
      }
    }
  }

  lemma {:induction false} ChoiceFits(m: Memory, s: Selection, i: nat)
    requires i < |m.request.events| && Choice(m, s, i)
    ensures Fits(m, s, i) && i !in s.selected
  {
  }

  lemma {:induction false} FirstMatchIsNewest(m: Memory, s: Selection, key: string, k: nat)
    requires OrderOk(m) && k <= |m.order|
    ensures FirstMatch(m, s, key, k).Some? ==>
              exists l :: k <= l < |m.order| && m.order[l] == FirstMatch(m, s, key, k).value
                          && forall x :: k <= x < l ==> !(key in Matches(m, m.order[x]) && Fits(m, s, m.order[x]))
    decreases |m.order| - k
  {
    hide Matches, Fits;
    if k < |m.order| && FirstMatch(m, s, key, k).Some? && !(key in Matches(m, m.order[k]) && Fits(m, s, m.order[k])) {
      FirstMatchIsNewest(m, s, key, k + 1);
    }
  }

  /** One key's turn: nothing, if no match fits, and otherwise the newest fitting match. */
  lemma {:induction false} TurnTakesTheNewest(m: Memory, s: Selection, key: string)
    requires OrderOk(m) && Accounted(m, s)
    ensures FirstMatch(m, s, key, 0).None? ==> NoMatchFits(m, s, key) && AddMatch(m, s, key) == s
    ensures FirstMatch(m, s, key, 0).Some? ==>
              var i := FirstMatch(m, s, key, 0).value;
              NewestMatch(m, s, key, i) && AddMatch(m, s, key) == Add(m, s, i)
  {
    hide Accounted, Matches, Fits;
    var found := FirstMatch(m, s, key, 0);
    if found.None? {
      NoFirstMatch(m, s, key, 0);
      forall i | 0 <= i < |m.request.events| && key in Matches(m, i)
        ensures !Fits(m, s, i)
      {
        assert i in m.order;
        var l :| 0 <= l < |m.order| && m.order[l] == i;
      }
    } else {
      FirstMatchIsNewest(m, s, key, 0);
      var l :| 0 <= l < |m.order| && m.order[l] == found.value
               && forall x :: 0 <= x < l ==> !(key in Matches(m, m.order[x]) && Fits(m, s, m.order[x]));
      forall j: nat | j < |m.request.events| && key in Matches(m, j) && Fits(m, s, j) && j != found.value
        ensures NewerAt(m, found.value, j)
      {
        assert j in m.order;
        var x :| 0 <= x < |m.order| && m.order[x] == j;
        assert l < x;
      }
    }
  }

  lemma {:induction false} RoundHistory(m: Memory, s: Selection, position: nat, changed: bool, rest: seq<nat>)
    returns (picks: seq<nat>)
    requires OrderOk(m) && Accounted(m, s) && position <= |m.request.task.factKeys| && PicksOk(m, rest)
    requires RoundPicks(m, Round(m, s, position), |m.request.task.factKeys|,
                        changed || Round(m, s, position).selected != s.selected, rest)
    ensures PicksOk(m, picks) && RoundPicks(m, s, position, changed, picks)
    ensures AfterPicks(m, s, picks) == AfterPicks(m, Round(m, s, position), rest)
    decreases |m.request.task.factKeys| - position
  {
    hide Accounted, NoMatchFits, NewestMatch, FirstMatch;
    if position == |m.request.task.factKeys| {
      picks := rest;
    } else {
      var key := m.request.task.factKeys[position];
      TurnTakesTheNewest(m, s, key);
      AddMatchIsStrict(m, s, key);
      var t := AddMatch(m, s, key);
      if FirstMatch(m, s, key, 0).None? {
        picks := RoundHistory(m, s, position + 1, changed, rest);
      } else {
        var i := FirstMatch(m, s, key, 0).value;
        var more := RoundHistory(m, t, position + 1, true, rest);
        picks := [i] + more;
        assert picks[1..] == more;
      }
    }
  }

  lemma {:induction false} RoundsHistory(m: Memory, s: Selection) returns (picks: seq<nat>)
    requires OrderOk(m) && Accounted(m, s)
    ensures PicksOk(m, picks) && RoundPicks(m, s, 0, false, picks) && AfterPicks(m, s, picks) == Rounds(m, s)
    decreases Unselected(m, s)
  {
    hide Accounted, NoMatchFits, NewestMatch;
    var next := Round(m, s, 0);
    if next.selected == s.selected {
      QuietRoundIsIdle(m, s, 0);
      picks := RoundHistory(m, s, 0, false, []);
    } else {
      FewerLeft(m, s, next);
      var rest := RoundsHistory(m, next);
      picks := RoundHistory(m, s, 0, false, rest);
    }
  }

  lemma {:induction false} QuietRoundIsIdle(m: Memory, s: Selection, position: nat)
    requires OrderOk(m) && Accounted(m, s) && position <= |m.request.task.factKeys|
    requires Round(m, s, position).selected == s.selected
    ensures Round(m, s, position) == s
    decreases |m.request.task.factKeys| - position
  {
    hide Accounted, FirstMatch;
    if position < |m.request.task.factKeys| {
      AddMatchIsStrict(m, s, m.request.task.factKeys[position]);
      QuietRoundIsIdle(m, s, position + 1);
    }
  }

  lemma {:induction false} FillHistory(m: Memory, s: Selection, k: nat) returns (picks: seq<nat>)
    requires OrderOk(m) && Accounted(m, s) && k <= |m.order|
    requires forall l :: 0 <= l < k ==> !Fits(m, s, m.order[l])
    ensures PicksOk(m, picks) && FillPicks(m, s, picks) && AfterPicks(m, s, picks) == FillRest(m, s, k)
    decreases |m.order| - k
  {
    hide Accounted, Fits;
    if k == |m.order| {
      picks := [];
      forall i | 0 <= i < |m.request.events|
        ensures !Fits(m, s, i)
      {
        assert i in m.order;
        var l :| 0 <= l < |m.order| && m.order[l] == i;
      }
    } else if Fits(m, s, m.order[k]) {
      AddKeepsAccount(m, s, m.order[k]);
      var t := Add(m, s, m.order[k]);
      forall l | 0 <= l <= k
        ensures !Fits(m, t, m.order[l])
      {
        if l == k {
          AddedNoLongerFits(m, s, m.order[k]);
        } else {
          FitsOnlyShrinks(m, s, m.order[l], m.order[k]);
        }
      }
      var rest := FillHistory(m, t, k + 1);
      picks := [m.order[k]] + rest;
      assert picks[1..] == rest;
      forall i: nat | i < |m.request.events| && Fits(m, s, i) && i != picks[0]
        ensures NewerAt(m, picks[0], i)
      {
        assert i in m.order;
        var l :| 0 <= l < |m.order| && m.order[l] == i;
        assert k < l;
      }
    } else {
      picks := FillHistory(m, s, k + 1);
    }
  }

  /** The picks of the three phases, and the selection they lead to. */
  ghost predicate History(m: Memory, strategy: Strategy, greedy: seq<nat>, rounds: seq<nat>, fill: seq<nat>,
                          s: Selection) {
    && PicksOk(m, greedy) && PicksOk(m, rounds) && PicksOk(m, fill)
    && var covered := AfterPicks(m, Start(m), greedy);
       var matched := AfterPicks(m, covered, rounds);
       && (if strategy == CoveragePerByte then GreedyPicks(m, Start(m), greedy) else greedy == [])
       && RoundPicks(m, covered, 0, false, rounds) && FillPicks(m, matched, fill) && s == AfterPicks(m, matched, fill)
  }

  /**
   How a selection comes about. By coverage, events are first picked for the most new keys per
   byte, ties to more keys and then to the newer; the other strategy skips that. Then both pick,
   key by key and round by round, the newest fitting match, and last the newest event that fits.
   */
  lemma {:induction false} SelectionHasItsHistory(m: Memory, strategy: Strategy)
    returns (greedy: seq<nat>, rounds: seq<nat>, fill: seq<nat>)
    requires OrderOk(m) && Header(m) <= m.maxBytes && forall i :: 0 <= i < |m.request.events| ==> Size(m, i) > 0
    ensures History(m, strategy, greedy, rounds, fill, Selected(m, strategy))
  {
    StartIsAccounted(m);
    CoverIsAccounted(m, Start(m));
    hide Accounted, GreedyPicks, RoundPicks, FillPicks;
    greedy := [];
    var covered := Start(m);
    if strategy == CoveragePerByte {
      greedy := CoverHistory(m, Start(m));
      covered := Cover(m, Start(m));
    }
    rounds := RoundsHistory(m, covered);
    fill := FillHistory(m, Rounds(m, covered), 0);
  }
}
