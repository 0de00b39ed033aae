/**
 Deterministic repair of visible equalities (`propose_deterministic_semantic_repair`):
 which leaves are replaced, by what, and what the replacement is worth.
 */
module SemanticRepair {
  import opened Prelude
  import opened Json
  import opened Order
  import opened Pointers
  import opened PointerAccess
  import opened Diff
  import opened RepairScopes
  import opened SemanticAssertions

  datatype Replacement = Replacement(value: Json, ids: seq<string>)

  type Replacements = map<string, Replacement>

  datatype RepairFailure =
    | EvaluationFailed(error: EvalError) | TargetUnreadable(kind: AccessError) | ConflictingReplacements

  datatype Target = Target(pointer: string, expected: Expr)

  datatype Repair = Repair(proposal: Proposal, assertionIds: set<string>, resultPointers: seq<string>)

  predicate IsDirectResultReference(e: Expr) {
    e.Ref? && e.source == ProposalResult
  }

  /** `_repair_target`. */
  function RepairTarget(a: Assertion): Option<Target> {
    if a.operator != Equals then None
    else if IsDirectResultReference(a.left) && !ReferencesResult(a.right) then Some(Target(a.left.pointer, a.right))
    else if IsDirectResultReference(a.right) && !ReferencesResult(a.left) then Some(Target(a.right.pointer, a.left))
    else None
  }

  /** The value a result-independent expression has, computed as the source does without a result. */
  function Expected(t: Target, inputs: Json, ops: Operators): Result<Json, EvalError> {
    Evaluate(t.expected, inputs, Null, ops)
  }

  predicate Editable(pointer: string, allowed: Option<set<string>>) {
    allowed.Some? ==> CoveredBy(ResultPath(pointer), allowed.value)
  }

  /** One turn of the loop in `_collect_replacements`. */
  function CollectOne(found: Replacements, a: Assertion, inputs: Json, result: Json, allowed: Option<set<string>>,
                      ops: Operators)
    : Result<Replacements, RepairFailure>
  {
    var target := RepairTarget(a);
    if target.None? || !Editable(target.value.pointer, allowed) then Ok(found)
    else
      var pointer := target.value.pointer;
      match ResolveAt(result, pointer)
      case Err(kind) => Err(TargetUnreadable(kind))
      case Ok(current) =>
        match Expected(target.value, inputs, ops)
        case Err(error) => Err(EvaluationFailed(error))
        case Ok(expected) =>
          if JsonEqual(current, expected) then Ok(found)
          else if pointer !in found then Ok(found[pointer := Replacement(expected, [a.id])])
          else if !JsonEqual(found[pointer].value, expected) then Err(ConflictingReplacements)
          else Ok(found[pointer := Replacement(found[pointer].value, found[pointer].ids + [a.id])])
  }

  function Collect(assertions: seq<Assertion>, inputs: Json, result: Json, allowed: Option<set<string>>, ops: Operators)
    : Result<Replacements, RepairFailure>
  {
    if assertions == [] then Ok(map[])
    else
      match Collect(assertions[..|assertions| - 1], inputs, result, allowed, ops)
      case Err(failure) => Err(failure)
      case Ok(found) => CollectOne(found, assertions[|assertions| - 1], inputs, result, allowed, ops)
  }

  /** `_has_overlapping_pointers`. */
  predicate HasOverlap(pointers: set<string>) {
    exists p, q :: p in pointers && q in pointers && p != q && Overlap(p, q)
  }

  /** The replacement loop: write every collected value, in the order of the sorted pointers. */
  function WriteAll(root: Json, pointers: seq<string>, found: Replacements): Result<Json, AccessError>
    requires forall p :: p in pointers ==> p in found
  {
    if pointers == [] then Ok(root)
    else
      var init := pointers[..|pointers| - 1];
      var last := pointers[|pointers| - 1];
      assert forall p :: p in init ==> p in pointers;
      match WriteAll(root, init, found)
      case Err(kind) => Err(kind)
      case Ok(r) => ReplaceAt(r, last, found[last].value)
  }

  function RepairedIds(found: Replacements): set<string> {
    set p, id | p in found && id in found[p].ids :: id
  }

  /** Values `_json_clone` accepts: the whole proposal, and every replacement. */
  predicate Clonable(proposal: Proposal, found: Replacements) {
    AllFinite(proposal.ToJson()) && forall p :: p in found ==> AllFinite(found[p].value)
  }

  /** `propose_deterministic_semantic_repair`, every rejected case being `None`. */
  function Propose(assertions: seq<Assertion>, inputs: Json, proposal: Proposal, allowed: Option<set<string>>,
                   ops: Operators)
    : Option<Repair>
  {
    match Collect(assertions, inputs, proposal.result, allowed, ops)
    case Err(_) => None
    case Ok(found) =>
      if found.Keys == {} || HasOverlap(found.Keys) || !Clonable(proposal, found) then None
      else
        match WriteAll(proposal.result, Sorted(found.Keys), found)
        case Err(_) => None
        case Ok(result) => Some(Repair(proposal.(result := result), RepairedIds(found), Sorted(found.Keys)))
  }

  /** `_collect_replacements`. */
  method CollectReplacements(assertions: seq<Assertion>, inputs: Json, result: Json, allowed: Option<set<string>>,
                             ops: Operators)
    returns (collected: Result<Replacements, RepairFailure>)
    ensures collected == Collect(assertions, inputs, result, allowed, ops)
  {
    var found: Replacements := map[];
    for i := 0 to |assertions|
      invariant Collect(assertions[..i], inputs, result, allowed, ops) == Ok(found)
    {
      assert assertions[..i + 1][..i] == assertions[..i];
      var step := CollectOne(found, assertions[i], inputs, result, allowed, ops);
      if step.Err? {
        CollectFailureLasts(assertions, i + 1, inputs, result, allowed, ops);
        return step;
      }
      found := step.value;
    }
    assert assertions[..|assertions|] == assertions;
    return Ok(found);
  }

  /** The replacement loop of `propose_deterministic_semantic_repair`. */
  method WriteReplacements(root: Json, pointers: seq<string>, found: Replacements)
      returns (written: Result<Json, AccessError>)
    requires forall p :: p in pointers ==> p in found
    ensures written == WriteAll(root, pointers, found)
  {
    var result := root;
    for i := 0 to |pointers|
      invariant WriteAll(root, pointers[..i], found) == Ok(result)
    {
      assert pointers[..i + 1][..i] == pointers[..i];
      var step := ReplaceAt(result, pointers[i], found[pointers[i]].value);
      if step.Err? {
        WriteFailureLasts(root, pointers, i + 1, found);
        return step;
      }
      result := step.value;
    }
    assert pointers[..|pointers|] == pointers;
    return Ok(result);
  }

  /** The whole proposal step. */
  method ProposeRepair(assertions: seq<Assertion>, inputs: Json, proposal: Proposal, allowed: Option<set<string>>,
                       ops: Operators)
    returns (repair: Option<Repair>)
    ensures repair == Propose(assertions, inputs, proposal, allowed, ops)
  {
    var collected := CollectReplacements(assertions, inputs, proposal.result, allowed, ops);
    if collected.Err? {
      return None;
    }
    var found := collected.value;
    if found.Keys == {} || HasOverlap(found.Keys) || !Clonable(proposal, found) {
      return None;
    }
    var pointers := Sorted(found.Keys);
    var written := WriteReplacements(proposal.result, pointers, found);
    if written.Err? {
      return None;
    }
    return Some(Repair(proposal.(result := written.value), RepairedIds(found), pointers));
  }

  lemma {:induction false} CollectFailureLasts(assertions: seq<Assertion>, n: nat, inputs: Json, result: Json,
                                               allowed: Option<set<string>>, ops: Operators)
    requires n <= |assertions| && Collect(assertions[..n], inputs, result, allowed, ops).Err?
    ensures Collect(assertions, inputs, result, allowed, ops) == Collect(assertions[..n], inputs, result, allowed, ops)
    decreases |assertions| - n
  {
    if n < |assertions| {
      assert assertions[..n + 1][..n] == assertions[..n];
      CollectFailureLasts(assertions, n + 1, inputs, result, allowed, ops);
    } else {
      assert assertions[..n] == assertions;
    }
  }

  lemma {:induction false} WriteFailureLasts(root: Json, pointers: seq<string>, n: nat, found: Replacements)
    requires n <= |pointers| && forall p :: p in pointers ==> p in found
    requires WriteAll(root, pointers[..n], found).Err?
    ensures WriteAll(root, pointers, found) == WriteAll(root, pointers[..n], found)
    decreases |pointers| - n
  {
    if n < |pointers| {
      assert pointers[..n + 1][..n] == pointers[..n];
      WriteFailureLasts(root, pointers, n + 1, found);
    } else {
      assert pointers[..n] == pointers;
    }
  }

  // ------------------------------------------------------- what was collected

  /** Writing `value` at `p` makes the equality `a` true, unless the value cannot be cloned. */
  predicate Serves(a: Assertion, p: string, value: Json, inputs: Json, ops: Operators) {
    var t := RepairTarget(a);
    && t.Some? && t.value.pointer == p
    && var expected := Expected(t.value, inputs, ops);
       expected.Ok? && (AllFinite(value) ==> JsonEqual(value, expected.value))
  }

  ghost predicate Backed(assertions: seq<Assertion>, p: string, id: string, value: Json, inputs: Json, ops: Operators) {
    exists a :: a in assertions && a.id == id && Serves(a, p, value, inputs, ops)
  }

  /** Every listed ID is backed by an assertion its replacement makes true, and every target was readable. */
  ghost predicate CollectedWell(assertions: seq<Assertion>, inputs: Json, result: Json, allowed: Option<set<string>>,
                                ops: Operators, found: Replacements) {
    && (forall p :: p in found ==> ResolveAt(result, p).Ok? && Editable(p, allowed) && found[p].ids != [])
    && (forall p, id :: p in found && id in found[p].ids ==> Backed(assertions, p, id, found[p].value, inputs, ops))
  }

  lemma {:induction false} BackedGrows(init: seq<Assertion>, last: Assertion, p: string, id: string, value: Json,
                                       inputs: Json, ops: Operators)
    requires Backed(init, p, id, value, inputs, ops)
    ensures Backed(init + [last], p, id, value, inputs, ops)
  {
    var a :| a in init && a.id == id && Serves(a, p, value, inputs, ops);
    assert a in init + [last];
  }

  lemma {:induction false} NewlyBacked(init: seq<Assertion>, last: Assertion, p: string, value: Json, inputs: Json,
                                       ops: Operators)
    requires RepairTarget(last).Some? && RepairTarget(last).value.pointer == p
    requires Expected(RepairTarget(last).value, inputs, ops).Ok?
    requires value == Expected(RepairTarget(last).value, inputs, ops).value
             || JsonEqual(value, Expected(RepairTarget(last).value, inputs, ops).value)
    ensures Backed(init + [last], p, last.id, value, inputs, ops)
  {
    JsonEqualIsEquivalence(value, value, value);
    assert last in init + [last] && Serves(last, p, value, inputs, ops);
  }

  lemma {:induction false} AllBackedGrow(init: seq<Assertion>, last: Assertion, inputs: Json, result: Json,
                                         allowed: Option<set<string>>, ops: Operators, found: Replacements)
    requires CollectedWell(init, inputs, result, allowed, ops, found)
    ensures CollectedWell(init + [last], inputs, result, allowed, ops, found)
  {
    forall p, id | p in found && id in found[p].ids ensures Backed(init + [last], p, id, found[p].value, inputs, ops) {
      BackedGrows(init, last, p, id, found[p].value, inputs, ops);
    }
  }

  /** The two ways one turn can end: nothing changes, or the target's entry gains this assertion. */
  lemma {:induction false} CollectOneCases(found: Replacements, a: Assertion, inputs: Json, result: Json,
                                           allowed: Option<set<string>>, ops: Operators)
    requires CollectOne(found, a, inputs, result, allowed, ops).Ok?
    ensures var after := CollectOne(found, a, inputs, result, allowed, ops).value;
            || after == found
            || (&& RepairTarget(a).Some? && Editable(RepairTarget(a).value.pointer, allowed)
                && ResolveAt(result, RepairTarget(a).value.pointer).Ok?
                && Expected(RepairTarget(a).value, inputs, ops).Ok?
                && var p, expected := RepairTarget(a).value.pointer, Expected(RepairTarget(a).value, inputs, ops).value;
                   if p in found
                     then JsonEqual(found[p].value, expected)
                       && after == found[p := Replacement(found[p].value, found[p].ids + [a.id])]
                   else after == found[p := Replacement(expected, [a.id])])
  {
  }

  lemma {:induction false} EntryIsWell(assertions: seq<Assertion>, inputs: Json, result: Json,
                                       allowed: Option<set<string>>, ops: Operators,
                    found: Replacements, p: string, value: Json, ids: seq<string>, id: string)
    requires CollectedWell(assertions, inputs, result, allowed, ops, found)
    requires ResolveAt(result, p).Ok? && Editable(p, allowed) && Backed(assertions, p, id, value, inputs, ops)
    requires if p in found then value == found[p].value && ids == found[p].ids + [id] else ids == [id]
    ensures CollectedWell(assertions, inputs, result, allowed, ops, found[p := Replacement(value, ids)])
  {
  }

  lemma {:induction false} CollectOneIsWell(init: seq<Assertion>, last: Assertion, inputs: Json, result: Json,
                                            allowed: Option<set<string>>, ops: Operators, found: Replacements)
    requires CollectedWell(init, inputs, result, allowed, ops, found)
    requires CollectOne(found, last, inputs, result, allowed, ops).Ok?
    ensures CollectedWell(init + [last], inputs, result, allowed, ops,
                          CollectOne(found, last, inputs, result, allowed, ops).value)
  {
    AllBackedGrow(init, last, inputs, result, allowed, ops, found);
    CollectOneCases(found, last, inputs, result, allowed, ops);
    var after := CollectOne(found, last, inputs, result, allowed, ops).value;
    if after != found {
      var p := RepairTarget(last).value.pointer;
      NewlyBacked(init, last, p, after[p].value, inputs, ops);
      EntryIsWell(init + [last], inputs, result, allowed, ops, found, p, after[p].value, after[p].ids, last.id);
    }
  }

  lemma {:induction false} CollectIsWell(assertions: seq<Assertion>, inputs: Json, result: Json,
                                         allowed: Option<set<string>>, ops: Operators)
    requires Collect(assertions, inputs, result, allowed, ops).Ok?
    ensures CollectedWell(assertions, inputs, result, allowed, ops,
                          Collect(assertions, inputs, result, allowed, ops).value)
  {
    if assertions != [] {
      var init, last := assertions[..|assertions| - 1], assertions[|assertions| - 1];
      CollectIsWell(init, inputs, result, allowed, ops);
      CollectOneIsWell(init, last, inputs, result, allowed, ops, Collect(init, inputs, result, allowed, ops).value);
      assert assertions == init + [last];
    }
  }

  // ------------------------------------------------------- what was written

  /** The writes succeed, stick, and leave positions comparable with none of them alone. */
  lemma {:induction false} WritesStick(root: Json, pointers: seq<string>, found: Replacements)
    requires forall p :: p in pointers ==> p in found && ValidPointer(p) && ResolveAt(root, p).Ok?
    requires forall i, j :: 0 <= i < j < |pointers| ==> !Overlap(pointers[i], pointers[j])
    ensures WriteAll(root, pointers, found).Ok?
    ensures forall p :: p in pointers ==> ResolveAt(WriteAll(root, pointers, found).value, p) == Ok(found[p].value)
    ensures forall q :: ValidPointer(q) && (forall p :: p in pointers ==> !Overlap(p, q)) ==>
              ResolveAt(WriteAll(root, pointers, found).value, q) == ResolveAt(root, q)
  {
    if pointers != [] {
      var init, last := pointers[..|pointers| - 1], pointers[|pointers| - 1];
      assert pointers == init + [last];
      WritesStick(root, init, found);
      var mid := WriteAll(root, init, found).value;
      assert forall p :: p in init ==> !Overlap(p, last);
      ReadAfterWrite(mid, Tokens(last), found[last].value);
      var after := WriteAll(root, pointers, found).value;
      forall q | ValidPointer(q) && !Overlap(last, q)
        ensures ResolveAt(after, q) == ResolveAt(mid, q)
      {
        OverlapIsComparability(last, q);
        WriteFrame(mid, Tokens(last), found[last].value, Tokens(q));
      }
      forall p | p in init ensures !Overlap(last, p) && ResolveAt(after, p) == Ok(found[p].value) {
        assert !Overlap(p, last);
      }
    }
  }

  lemma {:induction false} SortedPointersDisjoint(found: Replacements)
    requires !HasOverlap(found.Keys)
    ensures forall i, j :: 0 <= i < j < |Sorted(found.Keys)| ==> !Overlap(Sorted(found.Keys)[i], Sorted(found.Keys)[j])
  {
    SortedIsDisjoint(found.Keys, Sorted(found.Keys));
  }

  lemma {:induction false} SortedIsDisjoint(pointers: set<string>, s: seq<string>)
    requires !HasOverlap(pointers) && forall x :: x in s ==> x in pointers
    requires forall i, j :: 0 <= i < j < |s| ==> Less(s[i], s[j])
    ensures forall i, j :: 0 <= i < j < |s| ==> !Overlap(s[i], s[j])
  {
    forall i, j | 0 <= i < j < |s| ensures !Overlap(s[i], s[j]) {
      LessIsTotal(s[i], s[j]);
      assert s[i] in pointers && s[j] in pointers;
    }
  }

  /** A list of assertions with distinct IDs and valid result pointers, as the parser leaves it. */
  predicate ParsedForRepair(assertions: seq<Assertion>) {
    && (forall i, j :: 0 <= i < j < |assertions| ==> assertions[i].id != assertions[j].id)
    && (forall a, p :: a in assertions && p in AssertionReferences(a, ProposalResult) ==> ValidPointer(p))
  }

  lemma {:induction false} ParsedIsEnough(assertions: seq<Assertion>)
    requires Parsed(assertions)
    ensures ParsedForRepair(assertions)
  {
  }

  lemma {:induction false} TargetIsReferenced(a: Assertion)
    requires RepairTarget(a).Some?
    ensures RepairTarget(a).value.pointer in AssertionReferences(a, ProposalResult)
  {
  }

  lemma {:induction false} CollectedPointersValid(assertions: seq<Assertion>, inputs: Json, result: Json,
                                                  allowed: Option<set<string>>, ops: Operators, found: Replacements)
    requires ParsedForRepair(assertions) && CollectedWell(assertions, inputs, result, allowed, ops, found)
    ensures forall p :: p in found ==> ValidPointer(p)
  {
    forall p | p in found ensures ValidPointer(p) {
      var id := found[p].ids[0];
      assert id in found[p].ids && Backed(assertions, p, id, found[p].value, inputs, ops);
      var a :| a in assertions && a.id == id && Serves(a, p, found[p].value, inputs, ops);
      TargetIsReferenced(a);
    }
  }

  /** When a repair is proposed, this is what was collected and written. */
  lemma {:induction false} RepairContents(assertions: seq<Assertion>, inputs: Json, proposal: Proposal,
                                          allowed: Option<set<string>>, ops: Operators)
    returns (found: Replacements)
    requires ParsedForRepair(assertions)
    requires Propose(assertions, inputs, proposal, allowed, ops).Some?
    ensures var r := Propose(assertions, inputs, proposal, allowed, ops).value;
            && Collect(assertions, inputs, proposal.result, allowed, ops) == Ok(found)
            && CollectedWell(assertions, inputs, proposal.result, allowed, ops, found)
            && Clonable(proposal, found)
            && r.assertionIds == RepairedIds(found) && r.resultPointers == Sorted(found.Keys)
            && r.proposal == proposal.(result := r.proposal.result)
            && (forall p :: p in found ==> ValidPointer(p) && ResolveAt(r.proposal.result, p) == Ok(found[p].value))
            && (forall q :: ValidPointer(q) && (forall p :: p in found ==> !Overlap(p, q)) ==>
                  ResolveAt(r.proposal.result, q) == ResolveAt(proposal.result, q))
  {
    found := Collect(assertions, inputs, proposal.result, allowed, ops).value;
    CollectIsWell(assertions, inputs, proposal.result, allowed, ops);
    CollectedPointersValid(assertions, inputs, proposal.result, allowed, ops, found);
    SortedPointersDisjoint(found);
    WritesStick(proposal.result, Sorted(found.Keys), found);
  }

  /** Collecting never ends in a failed write: an existing, non-overlapping target can always be written. */
  lemma {:induction false} ProposedExactlyWhenSound(assertions: seq<Assertion>, inputs: Json, proposal: Proposal,
                                                    allowed: Option<set<string>>, ops: Operators)
    requires ParsedForRepair(assertions)
    ensures Propose(assertions, inputs, proposal, allowed, ops).Some? <==>
            match Collect(assertions, inputs, proposal.result, allowed, ops) {
              case Err(_) => false
              case Ok(found) => found.Keys != {} && !HasOverlap(found.Keys) && Clonable(proposal, found)
            }
  {
    var c := Collect(assertions, inputs, proposal.result, allowed, ops);
    if c.Ok? && c.value.Keys != {} && !HasOverlap(c.value.Keys) && Clonable(proposal, c.value) {
      CollectIsWell(assertions, inputs, proposal.result, allowed, ops);
      CollectedPointersValid(assertions, inputs, proposal.result, allowed, ops, c.value);
      SortedPointersDisjoint(c.value);
      WritesStick(proposal.result, Sorted(c.value.Keys), c.value);
    }
  }

  /** Every assertion a returned repair lists holds on the repaired result. */
  lemma {:induction false} ListedAssertionsHold(assertions: seq<Assertion>, inputs: Json, proposal: Proposal,
                                                allowed: Option<set<string>>, ops: Operators, a: Assertion)
    requires ParsedForRepair(assertions) && a in assertions
    requires Propose(assertions, inputs, proposal, allowed, ops).Some?
    requires a.id in Propose(assertions, inputs, proposal, allowed, ops).value.assertionIds
    ensures Holds(a, inputs, Propose(assertions, inputs, proposal, allowed, ops).value.proposal.result, ops)
  {
    var repaired := Propose(assertions, inputs, proposal, allowed, ops).value.proposal.result;
    var found := RepairContents(assertions, inputs, proposal, allowed, ops);
    var p :| p in found && a.id in found[p].ids;
    assert Backed(assertions, p, a.id, found[p].value, inputs, ops);
    var b :| b in assertions && b.id == a.id && Serves(b, p, found[p].value, inputs, ops);
    assert a == b;
    ServedAssertionHolds(a, p, found[p].value, inputs, repaired, ops);
  }

  lemma {:induction false} ServedAssertionHolds(a: Assertion, p: string, value: Json, inputs: Json, result: Json,
                                                ops: Operators)
    requires Serves(a, p, value, inputs, ops) && AllFinite(value) && ResolveAt(result, p) == Ok(value)
    ensures Holds(a, inputs, result, ops)
  {
    var t := RepairTarget(a).value;
    EvaluationReadsReferences(t.expected, inputs, Null, result, ops);
    var expected := Expected(t, inputs, ops).value;
    JsonEqualIsEquivalence(value, expected, expected);
    if IsDirectResultReference(a.left) && !ReferencesResult(a.right) {
      assert Evaluate(a.left, inputs, result, ops) == Ok(value);
    } else {
      assert Evaluate(a.right, inputs, result, ops) == Ok(value);
    }
  }

  /** Conversely, an eligible equality that fails does so because its target differs from what is expected. */
  lemma {:induction false} EligibleFailureDiffers(a: Assertion, inputs: Json, result: Json, ops: Operators)
    requires RepairTarget(a).Some? && !Holds(a, inputs, result, ops)
    requires ResolveAt(result, RepairTarget(a).value.pointer).Ok? && Expected(RepairTarget(a).value, inputs, ops).Ok?
    ensures !JsonEqual(ResolveAt(result, RepairTarget(a).value.pointer).value,
                       Expected(RepairTarget(a).value, inputs, ops).value)
  {
    var t := RepairTarget(a).value;
    EvaluationReadsReferences(t.expected, inputs, Null, result, ops);
    var current, expected := ResolveAt(result, t.pointer).value, Expected(t, inputs, ops).value;
    JsonEqualIsEquivalence(current, expected, current);
    if IsDirectResultReference(a.left) && !ReferencesResult(a.right) {
      assert Evaluate(a.left, inputs, result, ops) == Ok(current);
    } else {
      assert Evaluate(a.right, inputs, result, ops) == Ok(current);
    }
  }

  /** Everything disjoint from the replaced pointers resolves as before, errors included. */
  lemma {:induction false} RepairFrame(assertions: seq<Assertion>, inputs: Json, proposal: Proposal,
                                       allowed: Option<set<string>>, ops: Operators, pointer: string)
    requires ParsedForRepair(assertions) && ValidPointer(pointer)
    requires Propose(assertions, inputs, proposal, allowed, ops).Some?
    requires forall p :: p in Propose(assertions, inputs, proposal, allowed, ops).value.resultPointers ==>
             !Overlap(p, pointer)
    ensures var r := Propose(assertions, inputs, proposal, allowed, ops).value;
            ResolveAt(r.proposal.result, pointer) == ResolveAt(proposal.result, pointer)
  {
    var found := RepairContents(assertions, inputs, proposal, allowed, ops);
    forall p | p in found ensures !Overlap(p, pointer) {
      assert p in Sorted(found.Keys);
    }
  }

  /** Collecting never drops an ID. */
  lemma {:induction false} CollectKeepsIds(found: Replacements, a: Assertion, inputs: Json, result: Json,
                                           allowed: Option<set<string>>, ops: Operators)
    requires CollectOne(found, a, inputs, result, allowed, ops).Ok?
    ensures RepairedIds(found) <= RepairedIds(CollectOne(found, a, inputs, result, allowed, ops).value)
  {
    var after := CollectOne(found, a, inputs, result, allowed, ops).value;
    forall id | id in RepairedIds(found) ensures id in RepairedIds(after) {
      var p :| p in found && id in found[p].ids;
      assert p in after && id in after[p].ids;
    }
  }

  lemma {:induction false} CollectListsFailure(found: Replacements, a: Assertion, inputs: Json, result: Json,
                                               allowed: Option<set<string>>, ops: Operators)
    requires RepairTarget(a).Some? && Editable(RepairTarget(a).value.pointer, allowed) && !Holds(a, inputs, result, ops)
    requires CollectOne(found, a, inputs, result, allowed, ops).Ok?
    ensures a.id in RepairedIds(CollectOne(found, a, inputs, result, allowed, ops).value)
  {
    EligibleFailureDiffers(a, inputs, result, ops);
    var after := CollectOne(found, a, inputs, result, allowed, ops).value;
    var p := RepairTarget(a).value.pointer;
    assert p in after && a.id in after[p].ids;
  }

  /**
   An assertion already failing, eligible and allowed is never silently skipped: it is listed, or
   nothing is proposed.
   */
  lemma {:induction false} EligibleFailuresAreListed(assertions: seq<Assertion>, inputs: Json, result: Json,
                                                     allowed: Option<set<string>>, ops: Operators, a: Assertion)
    requires a in assertions && RepairTarget(a).Some? && Editable(RepairTarget(a).value.pointer, allowed)
    requires !Holds(a, inputs, result, ops)
    requires Collect(assertions, inputs, result, allowed, ops).Ok?
    ensures a.id in RepairedIds(Collect(assertions, inputs, result, allowed, ops).value)
  {
    var init, last := assertions[..|assertions| - 1], assertions[|assertions| - 1];
    assert assertions == init + [last];
    var before := Collect(init, inputs, result, allowed, ops).value;
    if a in init {
      EligibleFailuresAreListed(init, inputs, result, allowed, ops, a);
      CollectKeepsIds(before, last, inputs, result, allowed, ops);
    } else {
      CollectListsFailure(before, a, inputs, result, allowed, ops);
    }
  }

  // ------------------------------------------- exactly what is collected

  predicate Eligible(a: Assertion, allowed: Option<set<string>>) {
    RepairTarget(a).Some? && Editable(RepairTarget(a).value.pointer, allowed)
  }

  /**
   Nothing about this assertion stops the collection: if it is eligible, its target is there and its
   other side has a value.
   */
  predicate Ready(a: Assertion, inputs: Json, result: Json, allowed: Option<set<string>>, ops: Operators) {
    Eligible(a, allowed) ==>
      ResolveAt(result, RepairTarget(a).value.pointer).Ok? && Expected(RepairTarget(a).value, inputs, ops).Ok?
  }

  /** What an eligible equality that fails asks for: its target, and the value the other side has. */
  function Want(a: Assertion, inputs: Json, result: Json, allowed: Option<set<string>>,
                ops: Operators): Option<(string, Json)> {
    if !Eligible(a, allowed) || !Ready(a, inputs, result, allowed, ops) then None
    else
      var t := RepairTarget(a).value;
      if JsonEqual(ResolveAt(result, t.pointer).value, Expected(t, inputs, ops).value) then None
      else Some((t.pointer, Expected(t, inputs, ops).value))
  }

  /** Two wants for one target agree. */
  predicate Agree(a: Option<(string, Json)>, b: Option<(string, Json)>) {
    a.Some? && b.Some? && a.value.0 == b.value.0 ==> JsonEqual(a.value.1, b.value.1)
  }

  lemma {:induction false} OneTurn(found: Replacements, a: Assertion, inputs: Json, result: Json,
                                   allowed: Option<set<string>>, ops: Operators)
    ensures var after := CollectOne(found, a, inputs, result, allowed, ops);
            var want := Want(a, inputs, result, allowed, ops);
            && (after.Ok? <==>
                  && Ready(a, inputs, result, allowed, ops)
                  && (want.Some? && want.value.0 in found ==> JsonEqual(found[want.value.0].value, want.value.1)))
            && (after.Ok? ==>
                  after.value == if want.None? then found
                                 else if want.value.0 in found
                                 then found[want.value.0 := Replacement(found[want.value.0].value,
                                                                        found[want.value.0].ids + [a.id])]
                                 else found[want.value.0 := Replacement(want.value.1, [a.id])])
  {
    hide JsonEqual;
  }

  /** The first assertion that wants this target wants this value. */
  ghost predicate FirstWant(assertions: seq<Assertion>, i: nat, p: string, v: Json, inputs: Json, result: Json,
                            allowed: Option<set<string>>, ops: Operators)
    requires i < |assertions|
  {
    && Want(assertions[i], inputs, result, allowed, ops) == Some((p, v))
    && forall j :: 0 <= j < i ==>
         Want(assertions[j], inputs, result, allowed, ops).Some? ==>
           Want(assertions[j], inputs, result, allowed, ops).value.0 != p
  }

  ghost predicate Wanted(assertions: seq<Assertion>, p: string, id: string, inputs: Json, result: Json,
                         allowed: Option<set<string>>, ops: Operators) {
    exists i ::
      0 <= i < |assertions| && assertions[i].id == id && Want(assertions[i], inputs, result, allowed, ops).Some?
                && Want(assertions[i], inputs, result, allowed, ops).value.0 == p
  }

  /** The entry under `p`: the value first wanted there, for exactly the assertions that want it. */
  ghost predicate EntryMeans(assertions: seq<Assertion>, found: Replacements, p: string, inputs: Json, result: Json,
                             allowed: Option<set<string>>, ops: Operators) {
    if p in found then
      && HasFirst(assertions, p, found[p].value, inputs, result, allowed, ops)
      && WantedBy(assertions, p, found[p].ids, inputs, result, allowed, ops)
    else WantedBy(assertions, p, [], inputs, result, allowed, ops)
  }

  ghost predicate HasFirst(assertions: seq<Assertion>, p: string, v: Json, inputs: Json, result: Json,
                           allowed: Option<set<string>>, ops: Operators) {
    exists i: nat :: i < |assertions| && FirstWant(assertions, i, p, v, inputs, result, allowed, ops)
  }

  /** Exactly the assertions with these IDs want the target changed. */
  ghost predicate WantedBy(assertions: seq<Assertion>, p: string, ids: seq<string>, inputs: Json, result: Json,
                           allowed: Option<set<string>>, ops: Operators) {
    forall id :: id in ids <==> Wanted(assertions, p, id, inputs, result, allowed, ops)
  }

  lemma {:induction false} WantedByGrows(assertions: seq<Assertion>, a: Assertion, p: string, ids: seq<string>,
                                         inputs: Json,
                                         result: Json, allowed: Option<set<string>>, ops: Operators)
    requires WantedBy(assertions, p, ids, inputs, result, allowed, ops)
    ensures var want := Want(a, inputs, result, allowed, ops);
            WantedBy(assertions + [a], p, if want.Some? && want.value.0 == p then ids + [a.id]
                     else ids, inputs, result, allowed, ops)
  {
    WantedGrows(assertions, a, p, inputs, result, allowed, ops);
    hide Want, Wanted;
  }

  lemma {:induction false} FirstStaysFirst(assertions: seq<Assertion>, a: Assertion, p: string, v: Json, inputs: Json,
                                           result: Json, allowed: Option<set<string>>, ops: Operators)
    requires HasFirst(assertions, p, v, inputs, result, allowed, ops)
    ensures HasFirst(assertions + [a], p, v, inputs, result, allowed, ops)
  {
    hide Want;
    var i: nat :| i < |assertions| && FirstWant(assertions, i, p, v, inputs, result, allowed, ops);
    var longer := assertions + [a];
    assert forall k :: 0 <= k <= i ==> longer[k] == assertions[k];
    assert FirstWant(longer, i, p, v, inputs, result, allowed, ops);
  }

  lemma {:induction false} LastIsFirst(assertions: seq<Assertion>, a: Assertion, p: string, v: Json, inputs: Json,
                                       result: Json, allowed: Option<set<string>>, ops: Operators)
    requires WantedBy(assertions, p, [], inputs, result, allowed, ops)
    requires Want(a, inputs, result, allowed, ops) == Some((p, v))
    ensures HasFirst(assertions + [a], p, v, inputs, result, allowed, ops)
  {
    NobodyWantedIt(assertions, p, inputs, result, allowed, ops);
    hide Want, Wanted;
    var longer := assertions + [a];
    assert longer[|assertions|] == a && forall k :: 0 <= k < |assertions| ==> longer[k] == assertions[k];
    assert FirstWant(longer, |assertions|, p, v, inputs, result, allowed, ops);
  }

  lemma {:induction false} EntryStays(assertions: seq<Assertion>, found: Replacements, a: Assertion, p: string,
                                      inputs: Json,
                                      result: Json, allowed: Option<set<string>>, ops: Operators)
    requires EntryMeans(assertions, found, p, inputs, result, allowed, ops)
    requires CollectOne(found, a, inputs, result, allowed, ops).Ok?
    ensures EntryMeans(assertions + [a], CollectOne(found, a, inputs, result, allowed, ops).value, p, inputs, result,
                       allowed, ops)
  {
    OneTurn(found, a, inputs, result, allowed, ops);
    hide CollectOne, Want, JsonEqual, Ready, HasFirst, WantedBy;
    WantedByGrows(assertions, a, p, if p in found then found[p].ids else [], inputs, result, allowed, ops);
    var after := CollectOne(found, a, inputs, result, allowed, ops).value;
    if p in found {
      FirstStaysFirst(assertions, a, p, found[p].value, inputs, result, allowed, ops);
    } else if p in after {
      assert [] + [a.id] == [a.id];
      LastIsFirst(assertions, a, p, after[p].value, inputs, result, allowed, ops);
    }
  }

  lemma {:induction false} WantedGrows(assertions: seq<Assertion>, a: Assertion, p: string, inputs: Json, result: Json,
                                       allowed: Option<set<string>>, ops: Operators)
    ensures forall id ::
              Wanted(assertions + [a], p, id, inputs, result, allowed, ops) <==>
                || Wanted(assertions, p, id, inputs, result, allowed, ops)
                || (a.id == id && Want(a, inputs, result, allowed, ops).Some?
                    && Want(a, inputs, result, allowed, ops).value.0 == p)
  {
    hide Want;
    var longer := assertions + [a];
    assert forall i :: 0 <= i < |assertions| ==> longer[i] == assertions[i];
    assert longer[|assertions|] == a;
  }

  lemma {:induction false} NobodyWantedIt(assertions: seq<Assertion>, p: string, inputs: Json, result: Json,
                                          allowed: Option<set<string>>, ops: Operators)
    requires WantedBy(assertions, p, [], inputs, result, allowed, ops)
    ensures forall j :: 0 <= j < |assertions| ==>
              Want(assertions[j], inputs, result, allowed, ops).Some? ==>
                Want(assertions[j], inputs, result, allowed, ops).value.0 != p
  {
    hide Want;
    forall j | 0 <= j < |assertions| && Want(assertions[j], inputs, result, allowed, ops).Some?
      ensures Want(assertions[j], inputs, result, allowed, ops).value.0 != p
    {
      assert !Wanted(assertions, p, assertions[j].id, inputs, result, allowed, ops);
    }
  }

  /** All assertions are ready, and any two wants for one target agree. */
  ghost predicate Collectable(assertions: seq<Assertion>, inputs: Json, result: Json, allowed: Option<set<string>>,
                              ops: Operators) {
    && (forall i :: 0 <= i < |assertions| ==> Ready(assertions[i], inputs, result, allowed, ops))
    && (forall i, j :: 0 <= i < j < |assertions| ==>
          Agree(Want(assertions[i], inputs, result, allowed, ops), Want(assertions[j], inputs, result, allowed, ops)))
  }

  /** Agreement with the first want for a target is agreement with all of them. */
  lemma {:induction false} AgreesWithAll(assertions: seq<Assertion>, found: Replacements, a: Assertion, inputs: Json,
                                         result: Json, allowed: Option<set<string>>, ops: Operators)
    requires Want(a, inputs, result, allowed, ops).Some?
    requires EntryMeans(assertions, found, Want(a, inputs, result, allowed, ops).value.0, inputs, result, allowed, ops)
    requires Collectable(assertions, inputs, result, allowed, ops)
    ensures var want := Want(a, inputs, result, allowed, ops);
            (want.value.0 in found ==> JsonEqual(found[want.value.0].value, want.value.1)) <==>
              forall i :: 0 <= i < |assertions| ==> Agree(Want(assertions[i], inputs, result, allowed, ops), want)
  {
    hide Want, JsonEqual, Ready;
    var want := Want(a, inputs, result, allowed, ops);
    var p := want.value.0;
    if p in found {
      var i: nat :| i < |assertions| && FirstWant(assertions, i, p, found[p].value, inputs, result, allowed, ops);
      if JsonEqual(found[p].value, want.value.1) {
        forall j | 0 <= j < |assertions|
          ensures Agree(Want(assertions[j], inputs, result, allowed, ops), want)
        {
          var other := Want(assertions[j], inputs, result, allowed, ops);
          if other.Some? && other.value.0 == p && i < j {
            assert Agree(Want(assertions[i], inputs, result, allowed, ops), other);
            JsonEqualIsEquivalence(found[p].value, other.value.1, want.value.1);
            JsonEqualIsEquivalence(other.value.1, found[p].value, want.value.1);
          }
        }
      } else {
        assert !Agree(Want(assertions[i], inputs, result, allowed, ops), want);
      }
    } else {
      NobodyWantedIt(assertions, p, inputs, result, allowed, ops);
    }
  }

  /**
   The collection succeeds exactly when every eligible equality has its target and a value to
   compare, and those that fail agree wherever they share a target. Then it holds, for each
   target that a failing one wants changed, the value first wanted and the assertions wanting it.
   */
  lemma {:induction false} CollectedExactlyWhen(assertions: seq<Assertion>, inputs: Json, result: Json,
                                                allowed: Option<set<string>>, ops: Operators)
    ensures Collect(assertions, inputs, result, allowed, ops).Ok?
            <==> Collectable(assertions, inputs, result, allowed, ops)
    ensures Collect(assertions, inputs, result, allowed, ops).Ok? ==>
              forall p ::
                EntryMeans(assertions, Collect(assertions, inputs, result, allowed, ops).value, p, inputs, result,
                           allowed, ops)
  {
    hide CollectOne, Want, JsonEqual, Ready, EntryMeans;
    if assertions == [] {
      NothingCollected(inputs, result, allowed, ops);
    } else {
      var n := |assertions| - 1;
      var init, last := assertions[..n], assertions[n];
      assert assertions == init + [last];
      CollectedExactlyWhen(init, inputs, result, allowed, ops);
      CollectableGrows(init, last, inputs, result, allowed, ops);
      hide Collectable;
      if Collect(init, inputs, result, allowed, ops).Ok? {
        var found := Collect(init, inputs, result, allowed, ops).value;
        OneTurn(found, last, inputs, result, allowed, ops);
        if Want(last, inputs, result, allowed, ops).Some? {
          AgreesWithAll(init, found, last, inputs, result, allowed, ops);
        }
        if CollectOne(found, last, inputs, result, allowed, ops).Ok? {
          forall p
            ensures EntryMeans(assertions, CollectOne(found, last, inputs, result, allowed, ops).value, p, inputs,
                               result, allowed, ops)
          {
            EntryStays(init, found, last, p, inputs, result, allowed, ops);
          }
        }
      }
    }
  }

  lemma {:induction false} NothingCollected(inputs: Json, result: Json, allowed: Option<set<string>>, ops: Operators)
    ensures Collectable([], inputs, result, allowed, ops)
    ensures forall p :: EntryMeans([], map[], p, inputs, result, allowed, ops)
  {
  }

  lemma {:induction false} CollectableGrows(init: seq<Assertion>, last: Assertion, inputs: Json, result: Json,
                                            allowed: Option<set<string>>, ops: Operators)
    ensures Collectable(init + [last], inputs, result, allowed, ops) <==>
              && Collectable(init, inputs, result, allowed, ops) && Ready(last, inputs, result, allowed, ops)
              && forall i :: 0 <= i < |init| ==>
                   Agree(Want(init[i], inputs, result, allowed, ops), Want(last, inputs, result, allowed, ops))
  {
    hide Want, Ready, Agree;
    var longer := init + [last];
    if Collectable(longer, inputs, result, allowed, ops) {
      forall i | 0 <= i < |init|
        ensures Ready(init[i], inputs, result, allowed, ops)
        ensures Agree(Want(init[i], inputs, result, allowed, ops), Want(last, inputs, result, allowed, ops))
      {
        assert longer[i] == init[i] && longer[|init|] == last;
      }
      assert Ready(longer[|init|], inputs, result, allowed, ops);
      forall i, j | 0 <= i < j < |init|
        ensures Agree(Want(init[i], inputs, result, allowed, ops), Want(init[j], inputs, result, allowed, ops))
      {
        assert longer[i] == init[i] && longer[j] == init[j];
      }
    }
  }

  // ------------------------------------------- repairs stay under their targets
  // ------------------------------------------- repairs stay under their targets

  /** The parts of `positions` that lie under `token`, with that token removed. */
  function TailsUnder(positions: set<seq<string>>, token: string): set<seq<string>> {
    set ts | ts in positions && ts != [] && ts[0] == token :: ts[1..]
  }

  /** The documents have the same shape and content except at or below these positions. */
  ghost predicate SameExcept(before: Json, after: Json, positions: set<seq<string>>)
    decreases before
  {
    || before == after
    || [] in positions
    || (before.Obj? && after.Obj? && before.fields.Keys == after.fields.Keys
        && forall k :: k in before.fields ==> SameExcept(before.fields[k], after.fields[k], TailsUnder(positions, k)))
    || (before.Arr? && after.Arr? && |before.items| == |after.items|
        && forall i :: 0 <= i < |before.items| ==>
           SameExcept(before.items[i], after.items[i], TailsUnder(positions, Decimal(i))))
  }

  lemma {:induction false} WriteStaysUnder(before: Json, after: Json, tokens: seq<string>, value: Json,
                                           positions: set<seq<string>>)
    requires SameExcept(before, after, positions) && tokens in positions
    requires Replace(after, tokens, value).Ok?
    ensures SameExcept(before, Replace(after, tokens, value).value, positions)
    decreases tokens
  {
    if [] !in positions {
      var written := Replace(after, tokens, value).value;
      var t, rest := tokens[0], tokens[1..];
      assert rest in TailsUnder(positions, t);
      match after {
        case Obj(m) =>
          forall k | k in before.fields
            ensures SameExcept(before.fields[k], written.fields[k], TailsUnder(positions, k))
          {
            if k == t {
              WriteStaysUnder(before.fields[k], m[k], rest, value, TailsUnder(positions, k));
            }
          }
        case Arr(xs) =>
          var n := DecimalValue(t);
          DecimalOfValue(t);
          forall i | 0 <= i < |before.items|
            ensures SameExcept(before.items[i], written.items[i], TailsUnder(positions, Decimal(i)))
          {
            if i == n {
              WriteStaysUnder(before.items[i], xs[i], rest, value, TailsUnder(positions, Decimal(i)));
            }
          }
        case _ => assert false;
      }
    }
  }

  /** Where only these positions differ, the diff reports only paths under them. */
  lemma {:induction false} SameExceptIsReported(before: Json, after: Json, path: string, positions: set<seq<string>>,
                                                p: string)
    requires ValidPointer(path) && AllFinite(before)
    requires SameExcept(before, after, positions) && p in ChangedPaths(before, after, path)
    ensures exists ts :: ts in positions && Tokens(path) + ts <= Tokens(p)
    decreases before
  {
    StrictEqualIsIdentity(before, after);
    if [] in positions {
      ChangedPathsAreValid(before, after, path, p);
      assert Tokens(path) + [] == Tokens(path);
    } else if before.Obj? && after.Obj? {
      var k :| k in before.fields.Keys + after.fields.Keys && p in KeyChanges(before, after, path, k);
      AppendKey(path, k);
      var child := path + "/" + Encode(k);
      SameExceptIsReported(before.fields[k], after.fields[k], child, TailsUnder(positions, k), p);
      var rest :| rest in TailsUnder(positions, k) && Tokens(child) + rest <= Tokens(p);
      PrependToken(positions, k, rest, Tokens(path));
    } else {
      var i :| 0 <= i < |before.items| && p in ItemChanges(before, after, path, i);
      AppendIndex(path, i);
      var child := path + "/" + Decimal(i);
      SameExceptIsReported(before.items[i], after.items[i], child, TailsUnder(positions, Decimal(i)), p);
      var rest :| rest in TailsUnder(positions, Decimal(i)) && Tokens(child) + rest <= Tokens(p);
      PrependToken(positions, Decimal(i), rest, Tokens(path));
    }
  }

  lemma {:induction false} PrependToken(positions: set<seq<string>>, token: string, rest: seq<string>,
                                        base: seq<string>)
    requires rest in TailsUnder(positions, token)
    ensures [token] + rest in positions && base + ([token] + rest) == base + [token] + rest
  {
    var ts :| ts in positions && ts != [] && ts[0] == token && ts[1..] == rest;
    assert ts == [token] + rest;
  }

  lemma {:induction false} WritesStayUnder(root: Json, pointers: seq<string>, found: Replacements,
                                           positions: set<seq<string>>)
    requires forall p :: p in pointers ==> p in found && Tokens(p) in positions
    requires WriteAll(root, pointers, found).Ok?
    ensures SameExcept(root, WriteAll(root, pointers, found).value, positions)
  {
    if pointers != [] {
      var init, last := pointers[..|pointers| - 1], pointers[|pointers| - 1];
      WritesStayUnder(root, init, found, positions);
      WriteStaysUnder(root, WriteAll(root, init, found).value, Tokens(last), found[last].value, positions);
    }
  }

  function Prefixed(inner: set<seq<string>>): set<seq<string>> {
    set ts | ts in inner :: ["result"] + ts
  }

  lemma {:induction false} PrefixedTails(inner: set<seq<string>>)
    ensures TailsUnder(Prefixed(inner), "result") == inner
    ensures [] !in Prefixed(inner)
  {
    forall ts | ts in inner ensures ts in TailsUnder(Prefixed(inner), "result") {
      assert (["result"] + ts)[1..] == ts && ["result"] + ts in Prefixed(inner);
    }
    forall ts | ts in TailsUnder(Prefixed(inner), "result") ensures ts in inner {
      var us :| us in Prefixed(inner) && us != [] && us[0] == "result" && us[1..] == ts;
      var vs :| vs in inner && us == ["result"] + vs;
      assert us[1..] == vs;
    }
  }

  lemma {:induction false} ProposalSameExcept(proposal: Proposal, result: Json, inner: set<seq<string>>)
    requires SameExcept(proposal.result, result, inner)
    ensures SameExcept(proposal.ToJson(), proposal.(result := result).ToJson(), Prefixed(inner))
  {
    PrefixedTails(inner);
    var b, a := proposal.ToJson(), proposal.(result := result).ToJson();
    assert b.fields.Keys == a.fields.Keys;
    forall k | k in b.fields ensures SameExcept(b.fields[k], a.fields[k], TailsUnder(Prefixed(inner), k)) {
    }
  }

  lemma {:induction false} CoveredThroughTarget(c: string, p: string, editable: set<string>)
    requires ValidPointer(c) && ValidPointer(p) && Editable(p, Some(editable)) && forall e :: e in editable ==>
             ValidPointer(e)
    requires ["result"] + Tokens(p) <= Tokens(c)
    ensures CoveredBy(c, editable)
  {
    var e :| e in editable && Under(ResultPath(p), e);
    ResultTokens(p);
    UnderIsTokenPrefix(ResultPath(p), e);
    UnderIsTokenPrefix(c, e);
  }

  /**
   A repair proposed for a scope's editable paths changes nothing outside them: every
   path its diff reports lies under a replaced pointer, hence under an editable path.
   */
  lemma {:induction false} RepairStaysInScope(assertions: seq<Assertion>, inputs: Json, proposal: Proposal,
                                              editable: set<string>, ops: Operators)
    requires ParsedForRepair(assertions) && forall e :: e in editable ==> ValidPointer(e)
    requires Propose(assertions, inputs, proposal, Some(editable), ops).Some?
    ensures ConfinedTo(proposal, Propose(assertions, inputs, proposal, Some(editable), ops).value.proposal, editable)
  {
    var repaired := Propose(assertions, inputs, proposal, Some(editable), ops).value.proposal;
    var found := RepairContents(assertions, inputs, proposal, Some(editable), ops);
    var inner := set p | p in found :: Tokens(p);
    WritesStayUnder(proposal.result, Sorted(found.Keys), found, inner);
    ProposalSameExcept(proposal, repaired.result, inner);
    var b, a := proposal.ToJson(), repaired.ToJson();
    forall c | c in ChangedPaths(b, a, "") ensures CoveredBy(c, editable) {
      SameExceptIsReported(b, a, "", Prefixed(inner), c);
      ChangedPathsAreValid(b, a, "", c);
      var ts :| ts in Prefixed(inner) && Tokens("") + ts <= Tokens(c);
      var p :| p in found && ts == ["result"] + Tokens(p);
      assert Tokens("") + ts == ts;
      CoveredThroughTarget(c, p, editable);
    }
  }
}
