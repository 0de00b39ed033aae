/**
 Contract-visible semantic assertions: evaluation, comparison, and the repair scope a
 failing assertion advertises.

 Operators other than `ref` are pure functions of their argument values, so they are
 one arbitrary function `ops`; everything here holds for every such function.
 */
module SemanticAssertions {
  import opened Prelude
  import opened Json
  import opened Order
  import opened Pointers
  import opened PointerAccess
  import opened RepairScopes

  const MAX_ASSERTIONS: nat := 64
  const MAX_EXPRESSION_NODES: nat := 512
  const MAX_COLLECTION_ITEMS: nat := 10_000
  const MAX_ASSERTION_ID_LENGTH: nat := 128
  const MAX_REFERENCE_LENGTH: nat := 2048

  datatype Source = Inputs | ProposalResult

  datatype Comparator = Equals | NotEquals | LessThan | AtMostOp | GreaterThan | AtLeast | SetEquals

  /** An operator with the static fields the parser attaches to it. */
  datatype Operator = Operator(name: string, pointer: string, comparator: Comparator, descending: bool, index: int,
                               digits: int)

  datatype Expr = Ref(source: Source, pointer: string) | Apply(op: Operator, args: seq<Expr>)

  datatype EvalError =
    | Reference(kind: AccessError, source: Source, pointer: string)
    | NotAnArray(operation: Comparator, actual: JsonType)
    | CollectionTooLarge(operation: Comparator)
    | NonCanonicalValue
    | Incomparable(operator: Comparator, left: JsonType, right: JsonType)
    | OperatorFailed(name: string, code: string)

  type Operators = (Operator, seq<Json>) -> Result<Json, EvalError>

  datatype Assertion = Assertion(id: string, operator: Comparator, left: Expr, right: Expr, repairGroup: Option<string>)

  // ---------------------------------------------------------------- evaluation

  /** `_evaluate`: arguments left to right, the first failure wins. */
  function Evaluate(e: Expr, inputs: Json, result: Json, ops: Operators): Result<Json, EvalError>
    decreases e, 0
  {
    match e
    case Ref(source, pointer) =>
      (match ResolveAt(if source == Inputs then inputs else result, pointer)
       case Ok(v) => Ok(v)
       case Err(kind) => Err(Reference(kind, source, pointer)))
    case Apply(op, args) =>
      match EvaluateAll(args, inputs, result, ops)
      case Err(error) => Err(error)
      case Ok(values) => ops(op, values)
  }

  function EvaluateAll(args: seq<Expr>, inputs: Json, result: Json, ops: Operators): Result<seq<Json>, EvalError>
    decreases args, 0
  {
    if args == [] then Ok([])
    else match Evaluate(args[0], inputs, result, ops)
      case Err(error) => Err(error)
      case Ok(v) =>
        match EvaluateAll(args[1..], inputs, result, ops)
        case Err(error) => Err(error)
        case Ok(rest) => Ok([v] + rest)
  }

  predicate IsNumber(v: Json) {
    v.Int? || (v.Num? && v.f != NonFinite)
  }

  function NumberValue(v: Json): real
    requires IsNumber(v)
  {
    if v.Int? then v.i as real else FloatValue(v.f)
  }

  /** `left < right` for two comparable values. */
  predicate ValueLess(left: Json, right: Json)
    requires (IsNumber(left) && IsNumber(right)) || (left.Str? && right.Str?)
  {
    if left.Str? then Less(left.s, right.s) else NumberValue(left) < NumberValue(right)
  }

  function ArrayError(v: Json, operation: Comparator): Option<EvalError> {
    if !v.Arr? then Some(NotAnArray(operation, TypeOf(v)))
    else if |v.items| > MAX_COLLECTION_ITEMS then Some(CollectionTooLarge(operation))
    else None
  }

  /** The set of `_strict_key`s of an array; two finite values share a key only if identical. */
  predicate SameMembers(left: seq<Json>, right: seq<Json>) {
    (forall v :: v in left ==> v in right) && (forall v :: v in right ==> v in left)
  }

  /** `_compare`. */
  function Compare(operator: Comparator, left: Json, right: Json): Result<bool, EvalError> {
    if operator == Equals then Ok(JsonEqual(left, right))
    else if operator == NotEquals then Ok(!JsonEqual(left, right))
    else if operator == SetEquals then
      if ArrayError(left, operator).Some? then Err(ArrayError(left, operator).value)
      else if ArrayError(right, operator).Some? then Err(ArrayError(right, operator).value)
      else if !AllFinite(left) || !AllFinite(right) then Err(NonCanonicalValue)
      else Ok(SameMembers(left.items, right.items))
    else if !((IsNumber(left) && IsNumber(right)) || (left.Str? && right.Str?)) then
      Err(Incomparable(operator, TypeOf(left), TypeOf(right)))
    else if operator == LessThan then Ok(ValueLess(left, right))
    else if operator == AtMostOp then Ok(!ValueLess(right, left))
    else if operator == GreaterThan then Ok(ValueLess(right, left))
    else Ok(!ValueLess(left, right))
  }

  /** One assertion's verdict, or the error that made it unevaluable. */
  function Verdict(a: Assertion, inputs: Json, result: Json, ops: Operators): Result<bool, EvalError> {
    match Evaluate(a.left, inputs, result, ops)
    case Err(error) => Err(error)
    case Ok(left) =>
      match Evaluate(a.right, inputs, result, ops)
      case Err(error) => Err(error)
      case Ok(right) => Compare(a.operator, left, right)
  }

  predicate Holds(a: Assertion, inputs: Json, result: Json, ops: Operators) {
    Verdict(a, inputs, result, ops) == Ok(true)
  }

  predicate Known(assertions: seq<Assertion>, id: string) {
    exists i :: 0 <= i < |assertions| && assertions[i].id == id
  }

  predicate KnownIds(assertions: seq<Assertion>, ids: seq<string>) {
    forall id :: id in ids ==> Known(assertions, id)
  }

  lemma {:induction false} KnownInTail(assertions: seq<Assertion>, ids: seq<string>)
    requires assertions != [] && KnownIds(assertions[1..], ids)
    ensures KnownIds(assertions, ids)
  {
    forall id | id in ids ensures Known(assertions, id) {
      assert Known(assertions[1..], id);
      var i :| 0 <= i < |assertions[1..]| && assertions[1..][i].id == id;
      assert assertions[i + 1].id == id;
    }
  }

  /** The failed rule IDs `validate_semantic_assertions` reports, in order. */
  function FailedRules(assertions: seq<Assertion>, inputs: Json, result: Json, ops: Operators): (ids: seq<string>)
    ensures KnownIds(assertions, ids)
  {
    if assertions == [] then []
    else
      var rest := FailedRules(assertions[1..], inputs, result, ops);
      KnownInTail(assertions, rest);
      (if Holds(assertions[0], inputs, result, ops) then [] else [assertions[0].id]) + rest
  }

  /** An ID is reported exactly when some assertion with that ID does not hold. */
  lemma {:induction false} FailedRulesAreThoseNotHolding(assertions: seq<Assertion>, inputs: Json, result: Json,
                                                         ops: Operators, id: string)
    ensures id in FailedRules(assertions, inputs, result, ops) <==>
            exists i :: 0 <= i < |assertions| && assertions[i].id == id && !Holds(assertions[i], inputs, result, ops)
  {
    if assertions != [] {
      var rest := assertions[1..];
      FailedRulesAreThoseNotHolding(rest, inputs, result, ops, id);
      forall i | 0 <= i < |rest| ensures rest[i] == assertions[i + 1] {
      }
      if i :| 0 <= i < |assertions| && assertions[i].id == id && !Holds(assertions[i], inputs, result, ops) {
        if i > 0 {
          assert rest[i - 1] == assertions[i];
        }
      }
    }
  }

  // ---------------------------------------------------------------- what a comparison says

  predicate IsOrder(operator: Comparator) {
    operator in {LessThan, AtMostOp, GreaterThan, AtLeast}
  }

  /** The relation an order comparator names, on two numbers. */
  predicate NumbersStand(operator: Comparator, x: real, y: real) {
    match operator
    case LessThan => x < y
    case AtMostOp => x <= y
    case GreaterThan => x > y
    case AtLeast => x >= y
    case Equals => x == y
    case NotEquals => x != y
    case SetEquals => false
  }

  /** And on two strings, ordered by code point. */
  predicate StringsStand(operator: Comparator, x: string, y: string) {
    match operator
    case LessThan => Less(x, y)
    case AtMostOp => Less(x, y) || x == y
    case GreaterThan => Less(y, x)
    case AtLeast => Less(y, x) || x == y
    case Equals => x == y
    case NotEquals => x != y
    case SetEquals => false
  }

  /** On finite numbers an order comparator is the order of their values, whatever their JSON types. */
  lemma {:induction false} NumbersCompare(operator: Comparator, left: Json, right: Json)
    requires IsOrder(operator) && IsNumber(left) && IsNumber(right)
    ensures Compare(operator, left, right) == Ok(NumbersStand(operator, NumberValue(left), NumberValue(right)))
  {
    hide JsonEqual;
  }

  lemma {:induction false} StringsCompare(operator: Comparator, left: Json, right: Json)
    requires IsOrder(operator) && left.Str? && right.Str?
    ensures Compare(operator, left, right) == Ok(StringsStand(operator, left.s, right.s))
  {
    hide JsonEqual;
    LessIsTotal(left.s, right.s);
  }

  /**
   An order comparator refuses exactly the pairs that are neither two finite numbers nor two strings,
   and names their types.
   */
  lemma {:induction false} OrderRefusesExactlyWhen(operator: Comparator, left: Json, right: Json)
    requires IsOrder(operator)
    ensures Compare(operator, left, right).Err? <==>
              !(IsNumber(left) && IsNumber(right)) && !(left.Str? && right.Str?)
    ensures Compare(operator, left, right).Err? ==>
              Compare(operator, left, right) == Err(Incomparable(operator, TypeOf(left), TypeOf(right)))
  {
    hide JsonEqual, Less;
  }

  /**
   The two equality comparators never fail and are complements; equal means the same finite value up to
   the sign of zeros.
   */
  lemma {:induction false} EqualityCompares(left: Json, right: Json)
    ensures Compare(Equals, left, right) ==
              Ok(AllFinite(left) && AllFinite(right) && ForgetZeroSign(left) == ForgetZeroSign(right))
    ensures Compare(NotEquals, left, right).Ok?
    ensures Compare(NotEquals, left, right).value <==> !Compare(Equals, left, right).value
  {
    JsonEqualIsIdentityUpToZeroSign(left, right);
    hide JsonEqual, AllFinite, ForgetZeroSign;
  }

  /**
   Set equality of two finite arrays within the limit is equality of their sets of members; other
   operands are refused.
   */
  lemma {:induction false} SetsCompare(left: Json, right: Json)
    ensures Compare(SetEquals, left, right).Ok? <==>
              && left.Arr? && |left.items| <= MAX_COLLECTION_ITEMS && right.Arr?
              && |right.items| <= MAX_COLLECTION_ITEMS
              && AllFinite(left) && AllFinite(right)
    ensures Compare(SetEquals, left, right).Ok? ==>
              (Compare(SetEquals, left, right).value <==> (set v | v in left.items) == (set v | v in right.items))
  {
    hide JsonEqual, AllFinite;
    if Compare(SetEquals, left, right).Ok? {
      var l, r := set v | v in left.items, set v | v in right.items;
      assert SameMembers(left.items, right.items) ==> l == r;
      assert l == r ==> (forall v :: v in left.items ==> v in r) && (forall v :: v in right.items ==> v in l);
    }
  }

  /** So a rule comparing two numbers is reported exactly when they do not stand in its relation, left to right. */
  lemma {:induction false} NumberRuleFailsExactlyWhen(a: Assertion, inputs: Json, result: Json, ops: Operators,
                                                      left: Json,
                                                      right: Json)
    requires IsOrder(a.operator) && IsNumber(left) && IsNumber(right)
    requires Evaluate(a.left, inputs, result, ops) == Ok(left) && Evaluate(a.right, inputs, result, ops) == Ok(right)
    ensures Verdict(a, inputs, result, ops) == Ok(NumbersStand(a.operator, NumberValue(left), NumberValue(right)))
    ensures FailedRules([a], inputs, result, ops)
            == if NumbersStand(a.operator, NumberValue(left), NumberValue(right)) then [] else [a.id]
  {
    hide Evaluate, Compare;
    NumbersCompare(a.operator, left, right);
    assert FailedRules([], inputs, result, ops) == [];
    assert [a][1..] == [];
  }

  lemma {:induction false} StringRuleFailsExactlyWhen(a: Assertion, inputs: Json, result: Json, ops: Operators,
                                                      left: Json,
                                                      right: Json)
    requires IsOrder(a.operator) && left.Str? && right.Str?
    requires Evaluate(a.left, inputs, result, ops) == Ok(left) && Evaluate(a.right, inputs, result, ops) == Ok(right)
    ensures Verdict(a, inputs, result, ops) == Ok(StringsStand(a.operator, left.s, right.s))
    ensures FailedRules([a], inputs, result, ops) == if StringsStand(a.operator, left.s, right.s) then [] else [a.id]
  {
    hide Evaluate, Compare;
    StringsCompare(a.operator, left, right);
    assert FailedRules([], inputs, result, ops) == [];
    assert [a][1..] == [];
  }

  /** Reported rules come in the order of the assertions, one entry for each that does not hold. */
  lemma {:induction false} FailedRulesInOrder(first: seq<Assertion>, rest: seq<Assertion>, inputs: Json, result: Json,
                                              ops: Operators)
    ensures FailedRules(first + rest, inputs, result, ops)
            == FailedRules(first, inputs, result, ops) + FailedRules(rest, inputs, result, ops)
  {
    hide Holds;
    if first == [] {
      assert first + rest == rest;
    } else {
      assert (first + rest)[1..] == first[1..] + rest;
      FailedRulesInOrder(first[1..], rest, inputs, result, ops);
    }
  }

  /** Arguments are evaluated left to right: their values in order, or the error of the first that fails. */
  lemma {:induction false} ArgumentsInOrder(args: seq<Expr>, inputs: Json, result: Json, ops: Operators)
    ensures var r := EvaluateAll(args, inputs, result, ops);
            && (r.Ok? <==> forall i :: 0 <= i < |args| ==> Evaluate(args[i], inputs, result, ops).Ok?)
            && (r.Ok? ==> |r.value| == |args|
                          && forall i :: 0 <= i < |args| ==> Evaluate(args[i], inputs, result, ops) == Ok(r.value[i]))
            && (r.Err? ==> exists i :: 0 <= i < |args| && Evaluate(args[i], inputs, result, ops) == Err(r.error)
                                       && forall j :: 0 <= j < i ==> Evaluate(args[j], inputs, result, ops).Ok?)
  {
    hide Evaluate;
    if args != [] {
      var rest := args[1..];
      ArgumentsInOrder(rest, inputs, result, ops);
      assert forall i :: 0 <= i < |rest| ==> rest[i] == args[i + 1];
      assert forall i :: 1 <= i < |args| ==> args[i] == rest[i - 1];
      var r := EvaluateAll(args, inputs, result, ops);
      if Evaluate(args[0], inputs, result, ops).Ok? && r.Err? {
        var i :| 0 <= i < |rest| && Evaluate(rest[i], inputs, result, ops) == Err(r.error)
                 && forall j :: 0 <= j < i ==> Evaluate(rest[j], inputs, result, ops).Ok?;
        assert Evaluate(args[i + 1], inputs, result, ops) == Err(r.error);
        assert forall j :: 0 <= j < i + 1 ==> Evaluate(args[j], inputs, result, ops).Ok?;
      }
    }
  }

  // ---------------------------------------------------------------- references
  // ---------------------------------------------------------------- references

  /** `_reference_pointers`. */
  function References(e: Expr, source: Source): set<string>
    decreases e
  {
    match e
    case Ref(s, p) => if s == source then {p} else {}
    case Apply(_, args) => set i, p | 0 <= i < |args| && p in References(args[i], source) :: p
  }

  /** `_references_result`. */
  predicate ReferencesResult(e: Expr) {
    References(e, ProposalResult) != {}
  }

  function AssertionReferences(a: Assertion, source: Source): set<string> {
    References(a.left, source) + References(a.right, source)
  }

  /** Evaluation sees the result only through the expression's own references. */
  lemma {:induction false} EvaluationReadsReferences(e: Expr, inputs: Json, r1: Json, r2: Json, ops: Operators)
    requires forall p :: p in References(e, ProposalResult) ==> ResolveAt(r1, p) == ResolveAt(r2, p)
    ensures Evaluate(e, inputs, r1, ops) == Evaluate(e, inputs, r2, ops)
    decreases e, 0
  {
    match e
    case Ref(source, pointer) =>
    case Apply(op, args) =>
      forall i, p | 0 <= i < |args| && p in References(args[i], ProposalResult)
        ensures ResolveAt(r1, p) == ResolveAt(r2, p)
      {
        assert p in References(e, ProposalResult);
      }
      EvaluationReadsAllReferences(args, inputs, r1, r2, ops);
  }

  lemma {:induction false} EvaluationReadsAllReferences(args: seq<Expr>, inputs: Json, r1: Json, r2: Json,
                                                        ops: Operators)
    requires forall i, p :: 0 <= i < |args| && p in References(args[i], ProposalResult) ==>
             ResolveAt(r1, p) == ResolveAt(r2, p)
    ensures EvaluateAll(args, inputs, r1, ops) == EvaluateAll(args, inputs, r2, ops)
    decreases args, 0
  {
    if args != [] {
      EvaluationReadsReferences(args[0], inputs, r1, r2, ops);
      forall i, p | 0 <= i < |args[1..]| && p in References(args[1..][i], ProposalResult)
        ensures ResolveAt(r1, p) == ResolveAt(r2, p)
      {
        assert args[1..][i] == args[i + 1];
      }
      EvaluationReadsAllReferences(args[1..], inputs, r1, r2, ops);
    }
  }

  lemma {:induction false} VerdictReadsReferences(a: Assertion, inputs: Json, r1: Json, r2: Json, ops: Operators)
    requires forall p :: p in AssertionReferences(a, ProposalResult) ==> ResolveAt(r1, p) == ResolveAt(r2, p)
    ensures Verdict(a, inputs, r1, ops) == Verdict(a, inputs, r2, ops)
  {
    EvaluationReadsReferences(a.left, inputs, r1, r2, ops);
    EvaluationReadsReferences(a.right, inputs, r1, r2, ops);
  }

  // ---------------------------------------------------------------- repair scope

  /** `_proposal_result_path`. */
  function ResultPath(pointer: string): string {
    "/result" + pointer
  }

  /** `_direct_result_path`. */
  function DirectResultPath(e: Expr): Option<string> {
    if e.Ref? && e.source == ProposalResult then Some(ResultPath(e.pointer)) else None
  }

  predicate AnyReferenceOverlaps(target: string, e: Expr) {
    exists p :: p in References(e, ProposalResult) && Overlap(target, ResultPath(p))
  }

  /** `_repair_target_path`: exactly one side is a plain result reference, and the other does not read it. */
  function TargetPath(a: Assertion): Option<string> {
    var left, right := DirectResultPath(a.left), DirectResultPath(a.right);
    if left.None? == right.None? then None
    else
      var target := if left.Some? then left.value else right.value;
      var other := if left.Some? then a.right else a.left;
      if AnyReferenceOverlaps(target, other) then None else Some(target)
  }

  /** What the parser guarantees about an assertion list. */
  predicate Parsed(assertions: seq<Assertion>) {
    && 0 < |assertions| <= MAX_ASSERTIONS
    && (forall i, j :: 0 <= i < j < |assertions| ==> assertions[i].id != assertions[j].id)
    && (forall a :: a in assertions ==> ParsedAssertion(a))
    && |set a, p | a in assertions && p in AssertionReferences(a, Inputs) :: p| <= MAX_EXPRESSION_NODES
  }

  predicate ParsedAssertion(a: Assertion) {
    && NotBlank(a.id) && |a.id| <= MAX_ASSERTION_ID_LENGTH
    && (a.repairGroup.Some? ==> NotBlank(a.repairGroup.value) && |a.repairGroup.value| <= MAX_ASSERTION_ID_LENGTH)
    && (ReferencesResult(a.left) || ReferencesResult(a.right))
    && (forall p :: p in AssertionReferences(a, ProposalResult) ==> ValidPointer(p) && |p| <= MAX_REFERENCE_LENGTH)
    && (forall p :: p in AssertionReferences(a, Inputs) ==>
        ValidPointer(p) && |p| <= MAX_REFERENCE_LENGTH && !ReservedInput(p))
  }

  /** `_is_reserved_input_pointer`. */
  predicate ReservedInput(p: string) {
    p == "" || CoveredBy(p, RESERVED_INPUT_ROOTS)
  }

  function FindAssertion(assertions: seq<Assertion>, id: string): (a: Assertion)
    requires Known(assertions, id)
    ensures a in assertions && a.id == id
  {
    if assertions[0].id == id then assertions[0] else
      assert exists i :: 0 <= i < |assertions[1..]| && assertions[1..][i].id == id by {
        var i :| 0 <= i < |assertions| && assertions[i].id == id;
        assert assertions[1..][i - 1].id == id;
      }
      FindAssertion(assertions[1..], id)
  }

  predicate InUnit(a: Assertion, first: Assertion) {
    a.id == first.id || (first.repairGroup.Some? && a.repairGroup == first.repairGroup)
  }

  predicate ReadsAny(a: Assertion, paths: set<string>) {
    exists p :: p in AssertionReferences(a, ProposalResult) && OverlapsAny(ResultPath(p), paths)
  }

  /** The assertions repaired together with the first failure. */
  function RepairUnit(assertions: seq<Assertion>, first: Assertion): set<Assertion> {
    set a | a in assertions && InUnit(a, first)
  }

  function EditablePaths(assertions: seq<Assertion>, first: Assertion): set<string> {
    set a | a in RepairUnit(assertions, first) && TargetPath(a).Some? :: TargetPath(a).value
  }

  function SelectedRules(assertions: seq<Assertion>, first: Assertion): set<Assertion> {
    set a | a in assertions && (InUnit(a, first) || ReadsAny(a, EditablePaths(assertions, first)))
  }

  /** The checks under which a scope is advertised at all. */
  predicate UnitRepairable(assertions: seq<Assertion>, first: Assertion, result: Json) {
    && (forall a :: a in RepairUnit(assertions, first) ==> TargetPath(a).Some?)
    && (forall e :: e in EditablePaths(assertions, first) ==>
        |e| >= |"/result"| && ResolveAt(result, e[|"/result"|..]).Ok?)
    && (forall e, f :: e in EditablePaths(assertions, first) && f in EditablePaths(assertions, first) && e != f ==>
        !Overlap(e, f))
  }

  /** `_semantic_repair_scope`: the first failure's unit, and every rule that reads what the unit edits. */
  function SemanticScope(assertions: seq<Assertion>, failed: seq<string>, result: Json): Option<RepairScope>
    requires failed != [] && KnownIds(assertions, failed)
  {
    var first := FindAssertion(assertions, failed[0]);
    if !UnitRepairable(assertions, first, result) then None
    else
      var editable := EditablePaths(assertions, first);
      var selected := SelectedRules(assertions, first);
      var ids := set a | a in selected :: a.id;
      var failedIds := set id | id in failed && id in ids;
      var sources := set a, p | a in selected && p in AssertionReferences(a, Inputs) :: p;
      var groups := if first.repairGroup.Some? then map[first.repairGroup.value := editable] else map[];
      Some(RepairScope(failedIds, ids, editable, groups, sources))
  }

  /** Repaired together with the first failing rule: that rule itself, and whatever shares its repair group. */
  predicate Together(assertions: seq<Assertion>, failed: seq<string>, a: Assertion)
    requires failed != []
  {
    a.id == failed[0]
      || (a.repairGroup.Some? && exists b :: b in assertions && b.id == failed[0] && b.repairGroup == a.repairGroup)
  }

  lemma {:induction false} UnitIsTogether(assertions: seq<Assertion>, failed: seq<string>, a: Assertion)
    requires Parsed(assertions) && failed != [] && KnownIds(assertions, failed) && a in assertions
    ensures InUnit(a, FindAssertion(assertions, failed[0])) <==> Together(assertions, failed, a)
  {
    var first := FindAssertion(assertions, failed[0]);
    if b :| b in assertions && b.id == failed[0] && b.repairGroup == a.repairGroup {
      var i :| 0 <= i < |assertions| && assertions[i] == b;
      var k :| 0 <= k < |assertions| && assertions[k] == first;
    }
  }

  /**
   What an advertised scope holds: a path is editable exactly if it is the target of a rule
   repaired together with the first failure; a rule is listed exactly if it is one of those or
   reads an editable path; of the listed ones exactly the failing are to be resolved.
   */
  lemma {:induction false} ScopeIsTheUnit(assertions: seq<Assertion>, failed: seq<string>, result: Json, a: Assertion)
    requires Parsed(assertions) && failed != [] && KnownIds(assertions, failed) && a in assertions
    requires SemanticScope(assertions, failed, result).Some?
    ensures var s := SemanticScope(assertions, failed, result).value;
            && (a.id in s.ruleIds <==> Together(assertions, failed, a) || ReadsAny(a, s.editablePaths))
            && (a.id in s.failedRuleIds <==> a.id in s.ruleIds && a.id in failed)
            && (Together(assertions, failed, a) ==>
                  && TargetPath(a).Some? && TargetPath(a).value in s.editablePaths
                  && (a.repairGroup.Some? ==> a.repairGroup.value in s.atomicGroups))
            && (a.id in s.ruleIds ==> AssertionReferences(a, Inputs) <= s.sourcePointers)
    ensures var s := SemanticScope(assertions, failed, result).value;
            forall e :: e in s.editablePaths ==>
              exists b :: b in assertions && Together(assertions, failed, b) && TargetPath(b) == Some(e)
  {
    hide UnitRepairable, ReservedInput, ValidPointer, ReadsAny, TargetPath, ReferencesResult, Together, InUnit;
    var s := SemanticScope(assertions, failed, result).value;
    var first := FindAssertion(assertions, failed[0]);
    UnitIsTogether(assertions, failed, a);
    TargetsOfUnit(assertions, failed, result);
    if a.id in s.ruleIds {
      var b :| b in SelectedRules(assertions, first) && b.id == a.id;
      OneAssertionPerId(assertions, a, b);
    }
    if Together(assertions, failed, a) {
      assert a in RepairUnit(assertions, first);
      GroupIsListed(assertions, failed, result, a);
    }
    forall e | e in s.editablePaths
      ensures exists b :: b in assertions && Together(assertions, failed, b) && TargetPath(b) == Some(e)
    {
      var b :| b in RepairUnit(assertions, first) && TargetPath(b).Some? && TargetPath(b).value == e;
      UnitIsTogether(assertions, failed, b);
    }
  }

  lemma {:induction false} OneAssertionPerId(assertions: seq<Assertion>, a: Assertion, b: Assertion)
    requires Parsed(assertions) && a in assertions && b in assertions && a.id == b.id
    ensures a == b
  {
    hide ParsedAssertion, AssertionReferences;
  }

  lemma {:induction false} TargetsOfUnit(assertions: seq<Assertion>, failed: seq<string>, result: Json)
    requires failed != [] && KnownIds(assertions, failed) && SemanticScope(assertions, failed, result).Some?
    ensures forall a :: a in RepairUnit(assertions, FindAssertion(assertions, failed[0])) ==> TargetPath(a).Some?
  {
    hide TargetPath;
  }

  lemma {:induction false} GroupIsListed(assertions: seq<Assertion>, failed: seq<string>, result: Json, a: Assertion)
    requires Parsed(assertions) && failed != [] && KnownIds(assertions, failed) && a in assertions
    requires SemanticScope(assertions, failed, result).Some? && InUnit(a, FindAssertion(assertions, failed[0]))
    ensures a.repairGroup.Some? ==> a.repairGroup.value in SemanticScope(assertions, failed, result).value.atomicGroups
  {
    hide UnitRepairable, TargetPath, ReadsAny, AssertionReferences, ParsedAssertion;
    OneAssertionPerId(assertions, FindAssertion(assertions, failed[0]), FindAssertion(assertions, failed[0]));
    if a.id == failed[0] {
      OneAssertionPerId(assertions, a, FindAssertion(assertions, failed[0]));
    }
  }

  /** The rule's target is a plain path into the result, and something is there. */
  predicate HasTarget(a: Assertion, result: Json) {
    && TargetPath(a).Some? && |TargetPath(a).value| >= |"/result"|
    && ResolveAt(result, TargetPath(a).value[|"/result"|..]).Ok?
  }

  /**
   A scope is advertised exactly when each rule of the unit has such a target, and different targets do
   not overlap.
   */
  lemma {:induction false} ScopeAdvertisedExactlyWhen(assertions: seq<Assertion>, failed: seq<string>, result: Json)
    requires Parsed(assertions) && failed != [] && KnownIds(assertions, failed)
    ensures SemanticScope(assertions, failed, result).Some? <==>
              && (forall a :: a in assertions && Together(assertions, failed, a) ==> HasTarget(a, result))
              && (forall a, b :: a in assertions && b in assertions && Together(assertions, failed, a)
                                 && Together(assertions, failed, b) && TargetPath(a) != TargetPath(b) ==>
                    !Overlap(TargetPath(a).value, TargetPath(b).value))
  {
    var first := FindAssertion(assertions, failed[0]);
    forall a | a in assertions
      ensures a in RepairUnit(assertions, first) <==> Together(assertions, failed, a)
    {
      UnitIsTogether(assertions, failed, a);
    }
    hide InUnit, Together, TargetPath, Overlap, ResolveAt, ParsedAssertion, AssertionReferences, ReadsAny;
    UnitRepairableMeans(assertions, first, result);
  }

  lemma {:induction false} UnitRepairableMeans(assertions: seq<Assertion>, first: Assertion, result: Json)
    ensures UnitRepairable(assertions, first, result) <==>
              && (forall a :: a in RepairUnit(assertions, first) ==> HasTarget(a, result))
              && (forall a, b :: a in RepairUnit(assertions, first) && b in RepairUnit(assertions, first)
                                 && TargetPath(a) != TargetPath(b) ==>
                    !Overlap(TargetPath(a).value, TargetPath(b).value))
  {
    hide InUnit, TargetPath, Overlap, ResolveAt;
    var unit, paths := RepairUnit(assertions, first), EditablePaths(assertions, first);
    assert forall a :: a in unit && TargetPath(a).Some? ==> TargetPath(a).value in paths;
    assert forall e :: e in paths ==> exists a :: a in unit && TargetPath(a) == Some(e);
  }

  predicate IsResultPath(e: string) {
    ValidPointer(e) && Under(e, "/result") && |e| <= MAX_REFERENCE_LENGTH + |"/result"|
  }

  lemma {:induction false} ResultPathShape(p: string)
    requires ValidPointer(p) && |p| <= MAX_REFERENCE_LENGTH
    ensures IsResultPath(ResultPath(p))
  {
    ResultTokens(p);
    ResultTokens("");
    assert "/result" + "" == "/result";
    UnderIsTokenPrefix(ResultPath(p), "/result");
  }

  lemma {:induction false} TargetIsResultPath(a: Assertion)
    requires ParsedAssertion(a) && TargetPath(a).Some?
    ensures IsResultPath(TargetPath(a).value)
  {
    var p := if DirectResultPath(a.left).Some? then a.left.pointer else a.right.pointer;
    assert p in AssertionReferences(a, ProposalResult);
    ResultPathShape(p);
  }

  lemma {:induction false} EditablePathsAreResultPaths(assertions: seq<Assertion>, first: Assertion)
    requires Parsed(assertions)
    ensures forall e :: e in EditablePaths(assertions, first) ==> IsResultPath(e)
  {
    forall e | e in EditablePaths(assertions, first) ensures IsResultPath(e) {
      var a :| a in RepairUnit(assertions, first) && TargetPath(a).Some? && TargetPath(a).value == e;
      TargetIsResultPath(a);
    }
  }

  /**
   Frame of a repair unit: a candidate that differs from the baseline only inside one
   scope's editable paths leaves every assertion outside the scope's rule IDs with
   exactly the verdict, or the error, it had.
   */
  lemma {:induction false} UnlistedRulesKeepTheirVerdict(assertions: seq<Assertion>, failed: seq<string>, inputs: Json,
                                      baseline: Proposal, candidate: Proposal, a: Assertion, ops: Operators)
    requires Parsed(assertions)
    requires failed != [] && KnownIds(assertions, failed)
    requires SemanticScope(assertions, failed, baseline.result).Some?
    requires ConfinedTo(baseline, candidate, SemanticScope(assertions, failed, baseline.result).value.editablePaths)
    requires a in assertions && a.id !in SemanticScope(assertions, failed, baseline.result).value.ruleIds
    ensures Verdict(a, inputs, baseline.result, ops) == Verdict(a, inputs, candidate.result, ops)
  {
    var scope := SemanticScope(assertions, failed, baseline.result).value;
    EditablePathsAreResultPaths(assertions, FindAssertion(assertions, failed[0]));
    forall p | p in AssertionReferences(a, ProposalResult)
      ensures ResolveAt(baseline.result, p) == ResolveAt(candidate.result, p)
    {
      ResultTokens(p);
      assert !ReadsAny(a, scope.editablePaths);
      assert !OverlapsAny(ResultPath(p), scope.editablePaths);
      ConfinedChangesFrame(baseline, candidate, scope.editablePaths, ResultPath(p));
      ReadThroughProposal(baseline, p);
      ReadThroughProposal(candidate, p);
    }
    VerdictReadsReferences(a, inputs, baseline.result, candidate.result, ops);
  }

  /** So a repair confined to one scope changes which rules fail only among that scope's rules. */
  lemma {:induction false} FailuresChangeOnlyInsideScope(assertions: seq<Assertion>, inputs: Json, baseline: Proposal,
                                                         candidate: Proposal,
                                      failed: seq<string>, id: string, ops: Operators)
    requires Parsed(assertions)
    requires failed == FailedRules(assertions, inputs, baseline.result, ops) && failed != []
    requires SemanticScope(assertions, failed, baseline.result).Some?
    requires ConfinedTo(baseline, candidate, SemanticScope(assertions, failed, baseline.result).value.editablePaths)
    requires id !in SemanticScope(assertions, failed, baseline.result).value.ruleIds
    ensures id in failed <==> id in FailedRules(assertions, inputs, candidate.result, ops)
  {
    FailedRulesAreThoseNotHolding(assertions, inputs, baseline.result, ops, id);
    FailedRulesAreThoseNotHolding(assertions, inputs, candidate.result, ops, id);
    forall i | 0 <= i < |assertions| && assertions[i].id == id
      ensures Verdict(assertions[i], inputs, baseline.result, ops)
              == Verdict(assertions[i], inputs, candidate.result, ops)
    {
      UnlistedRulesKeepTheirVerdict(assertions, failed, inputs, baseline, candidate, assertions[i], ops);
    }
  }

  // ------------------------------------------------- which scopes are accepted

  lemma {:induction false} MembersAtMostLength<T>(s: seq<T>)
    ensures |set x | x in s| <= |s|
  {
    if s != [] {
      MembersAtMostLength(s[1..]);
      var rest := set x | x in s[1..];
      assert s == [s[0]] + s[1..];
      assert (set x | x in s) == {s[0]} + rest;
    }
  }

  lemma {:induction false} UnitSizes(assertions: seq<Assertion>, first: Assertion)
    requires |assertions| <= MAX_ASSERTIONS
    ensures |EditablePaths(assertions, first)| <= MAX_ASSERTIONS
    ensures |set a | a in SelectedRules(assertions, first) :: a.id| <= MAX_ASSERTIONS
  {
    var targets := seq(|assertions|, i requires 0 <= i < |assertions| => TargetPath(assertions[i]));
    var paths := seq(|assertions|, i requires 0 <= i < |assertions| =>
      if targets[i].Some? then targets[i].value else "");
    MembersAtMostLength(paths);
    forall e | e in EditablePaths(assertions, first) ensures e in paths {
      var a :| a in RepairUnit(assertions, first) && TargetPath(a).Some? && TargetPath(a).value == e;
      var i :| 0 <= i < |assertions| && assertions[i] == a;
      assert paths[i] == e;
    }
    SubsetSize(EditablePaths(assertions, first), set x | x in paths);
    var ids := seq(|assertions|, i requires 0 <= i < |assertions| => assertions[i].id);
    MembersAtMostLength(ids);
    var selected := set a | a in SelectedRules(assertions, first) :: a.id;
    forall id | id in selected ensures id in ids {
      var a :| a in SelectedRules(assertions, first) && a.id == id;
      var i :| 0 <= i < |assertions| && assertions[i] == a;
      assert ids[i] == id;
    }
    SubsetSize(selected, set x | x in ids);
  }

  lemma {:induction false} ResultPathsAcceptable(paths: set<string>)
    requires |paths| <= MAX_ITEMS
    requires forall e :: e in paths ==> IsResultPath(e)
    requires forall e, f :: e in paths && f in paths && e != f ==> !Overlap(e, f)
    ensures ProposalPathsOk(paths) <==> forall e :: e in paths ==> |e| <= MAX_SCOPE_PATH_LENGTH
  {
    forall e | e in paths ensures e != "" && CoveredBy(e, PROPOSAL_ROOTS) {
      assert "/result" in PROPOSAL_ROOTS;
    }
  }

  lemma {:induction false} OneSlash(root: string)
    requires root in RESERVED_INPUT_ROOTS
    ensures forall i :: 0 < i < |root| ==> root[i] != '/'
  {
  }

  lemma {:induction false} SlashAfter(p: string, q: string)
    requires p + "/" <= q
    ensures |p| < |q| && q[|p|] == '/'
  {
    assert (p + "/")[|p|] == '/';
  }

  lemma {:induction false} InputsAcceptable(p: string)
    requires ValidPointer(p) && |p| <= MAX_REFERENCE_LENGTH && !ReservedInput(p)
    ensures SourcePointerOk(p)
  {
    if OverlapsAny(p, RESERVED_INPUT_ROOTS) {
      var r :| r in RESERVED_INPUT_ROOTS && Overlap(p, r);
      OneSlash(r);
      SlashAfter(p, r);
      assert false;
    }
  }

  lemma {:induction false} ScopeRules(assertions: seq<Assertion>, failed: seq<string>, result: Json)
    requires Parsed(assertions) && failed != [] && KnownIds(assertions, failed)
    requires SemanticScope(assertions, failed, result).Some?
    ensures var s := SemanticScope(assertions, failed, result).value;
            && s.failedRuleIds != {} && s.failedRuleIds <= s.ruleIds
            && |s.failedRuleIds| <= |s.ruleIds| <= MAX_ITEMS
            && forall id :: id in s.ruleIds ==> TextOk(id)
  {
    hide UnitRepairable, EditablePaths, ReadsAny, AssertionReferences, ValidPointer, ReservedInput, ReferencesResult;
    var s := SemanticScope(assertions, failed, result).value;
    var first := FindAssertion(assertions, failed[0]);
    UnitSizes(assertions, first);
    assert first in SelectedRules(assertions, first);
    assert failed[0] in s.failedRuleIds;
    SubsetSize(s.failedRuleIds, s.ruleIds);
    forall id | id in s.ruleIds ensures TextOk(id) {
      var a :| a in SelectedRules(assertions, first) && a.id == id;
      assert ParsedAssertion(a);
    }
  }

  lemma {:induction false} ScopeSources(assertions: seq<Assertion>, failed: seq<string>, result: Json)
    requires Parsed(assertions) && failed != [] && KnownIds(assertions, failed)
    requires SemanticScope(assertions, failed, result).Some?
    ensures var s := SemanticScope(assertions, failed, result).value;
            |s.sourcePointers| <= MAX_ITEMS && forall p :: p in s.sourcePointers ==> SourcePointerOk(p)
  {
    var s := SemanticScope(assertions, failed, result).value;
    var first := FindAssertion(assertions, failed[0]);
    var allSources := set a, p | a in assertions && p in AssertionReferences(a, Inputs) :: p;
    forall p | p in s.sourcePointers ensures SourcePointerOk(p) && p in allSources {
      var a :| a in SelectedRules(assertions, first) && p in AssertionReferences(a, Inputs);
      assert ParsedAssertion(a);
      InputsAcceptable(p);
    }
    SubsetSize(s.sourcePointers, allSources);
  }

  lemma {:induction false} UnitPaths(assertions: seq<Assertion>, first: Assertion, result: Json)
    requires Parsed(assertions) && first in assertions && UnitRepairable(assertions, first, result)
    ensures var paths := EditablePaths(assertions, first);
            paths != {} && (ProposalPathsOk(paths) <==> forall e :: e in paths ==> |e| <= MAX_SCOPE_PATH_LENGTH)
  {
    UnitSizes(assertions, first);
    EditablePathsAreResultPaths(assertions, first);
    ResultPathsAcceptable(EditablePaths(assertions, first));
    assert first in RepairUnit(assertions, first);
    assert TargetPath(first).value in EditablePaths(assertions, first);
  }

  lemma {:induction false} ScopeGroups(assertions: seq<Assertion>, failed: seq<string>, result: Json)
    requires Parsed(assertions) && failed != [] && KnownIds(assertions, failed)
    requires SemanticScope(assertions, failed, result).Some?
    ensures var s := SemanticScope(assertions, failed, result).value;
            |s.atomicGroups| <= 1 && forall g :: g in s.atomicGroups ==>
              TextOk(g) && s.atomicGroups[g] == s.editablePaths
  {
    assert ParsedAssertion(FindAssertion(assertions, failed[0]));
  }

  /**
   An advertised scope passes `RepairScope.from_raw` exactly when its paths fit the
   2048 characters allowed there. Assertions may use pointers of that length too, and
   the "/result" prefix makes them longer: a failing rule whose target pointer has more
   than 2041 characters advertises a scope that is always refused.
   */
  lemma {:induction false} AdvertisedScopeAcceptance(assertions: seq<Assertion>, failed: seq<string>, result: Json)
    requires Parsed(assertions) && failed != [] && KnownIds(assertions, failed)
    requires SemanticScope(assertions, failed, result).Some?
    ensures var s := SemanticScope(assertions, failed, result).value;
            ScopeOk(s) <==> forall e :: e in s.editablePaths ==> |e| <= MAX_SCOPE_PATH_LENGTH
  {
    ScopeRules(assertions, failed, result);
    ScopeSources(assertions, failed, result);
    ScopeGroups(assertions, failed, result);
    UnitPaths(assertions, FindAssertion(assertions, failed[0]), result);
    AssembleScope(SemanticScope(assertions, failed, result).value);
  }

  lemma {:induction false} AssembleScope(s: RepairScope)
    requires s.failedRuleIds != {} && s.failedRuleIds <= s.ruleIds
    requires |s.failedRuleIds| <= |s.ruleIds| <= MAX_ITEMS && forall id :: id in s.ruleIds ==> TextOk(id)
    requires |s.sourcePointers| <= MAX_ITEMS && forall p :: p in s.sourcePointers ==> SourcePointerOk(p)
    requires s.editablePaths != {}
    requires |s.atomicGroups| <= 1 && forall g :: g in s.atomicGroups ==>
             TextOk(g) && s.atomicGroups[g] == s.editablePaths
    ensures ScopeOk(s) <==> ProposalPathsOk(s.editablePaths)
  {
    forall g, h | g in s.atomicGroups && h in s.atomicGroups ensures g == h {
      SubsetSize({g, h}, s.atomicGroups.Keys);
    }
  }

  // ------------------------------------------------- an advertised scope that is refused

  /** `result[name] == inputs["q"]`, as one assertion. */
  function NamedEquality(name: string): Assertion {
    Assertion("rule", Equals, Ref(ProposalResult, "/" + name), Ref(Inputs, "/q"), None)
  }

  predicate IsPlain(name: string) {
    forall i :: 0 <= i < |name| ==> name[i] != '~' && name[i] != '/'
  }

  lemma {:induction false} InputQIsUsable()
    ensures ValidPointer("/q") && !ReservedInput("/q")
  {
    PlainName("q");
    assert "/" + "q" == "/q";
    hide ValidPointer, Tokens;
    var q := "/q";
    forall r | r in RESERVED_INPUT_ROOTS ensures !Under(q, r) {
      assert |r| > 2;
    }
  }

  lemma {:induction false} NamedReferences(name: string)
    ensures AssertionReferences(NamedEquality(name), Inputs) == {"/q"}
    ensures AssertionReferences(NamedEquality(name), ProposalResult) == {"/" + name}
    ensures "/" + name in References(NamedEquality(name).left, ProposalResult)
  {
  }

  lemma {:induction false} NamedEqualityIsAssertion(name: string)
    requires IsPlain(name) && |name| < MAX_REFERENCE_LENGTH
    ensures ParsedAssertion(NamedEquality(name))
  {
    hide ValidPointer, ReservedInput, Tokens;
    PlainName(name);
    InputQIsUsable();
    NamedReferences(name);
    assert "rule"[0] == 'r' && NotBlank("rule");
    hide AssertionReferences, References, IsPlain;
  }

  lemma {:induction false} NamedEqualityIsParsed(name: string)
    requires IsPlain(name) && |name| < MAX_REFERENCE_LENGTH
    ensures Parsed([NamedEquality(name)])
  {
    NamedEqualityIsAssertion(name);
    NamedReferences(name);
    OneAssertionParses(NamedEquality(name), "/q");
  }

  lemma {:induction false} OneAssertionParses(a: Assertion, q: string)
    requires ParsedAssertion(a) && AssertionReferences(a, Inputs) == {q}
    ensures Parsed([a])
  {
    hide ParsedAssertion, AssertionReferences;
    var inputs := set x, p | x in [a] && p in AssertionReferences(x, Inputs) :: p;
    assert a in [a];
    assert forall p :: p in inputs <==> p == q;
    assert inputs == {q};
    assert |inputs| == 1;
  }

  lemma {:induction false} NamedTarget(name: string)
    ensures TargetPath(NamedEquality(name)) == Some("/result" + ("/" + name))
    ensures EditablePaths([NamedEquality(name)], NamedEquality(name)) == {"/result" + ("/" + name)}
  {
    var a := NamedEquality(name);
    assert References(a.right, ProposalResult) == {};
    assert RepairUnit([a], a) == {a};
  }

  /**
   The input that shows it: for any plain field name of 2041 to 2047 characters, the parsed
   assertion that this field of the result equals an input advertises a scope when it fails,
   and that scope is refused.
   */
  lemma {:induction false} LongTargetsAreRefused(name: string, inputs: Json, result: Json, ops: Operators)
    requires IsPlain(name) && 2041 <= |name| <= 2047
    requires result.Obj? && name in result.fields && !Holds(NamedEquality(name), inputs, result, ops)
    ensures var assertions := [NamedEquality(name)];
            var failed := FailedRules(assertions, inputs, result, ops);
            && Parsed(assertions) && failed == ["rule"]
            && SemanticScope(assertions, failed, result).Some?
            && !ScopeOk(SemanticScope(assertions, failed, result).value)
  {
    var a := NamedEquality(name);
    NamedEqualityIsParsed(name);
    NamedTarget(name);
    NamedFailure(name, inputs, result, ops);
    NamedUnit(name, result);
    hide Parsed, Holds, UnitRepairable, ScopeOk, FailedRules, ValidPointer;
    assert SemanticScope([a], ["rule"], result).Some?;
    AdvertisedScopeAcceptance([a], ["rule"], result);
    assert "/result" + ("/" + name) in SemanticScope([a], ["rule"], result).value.editablePaths;
  }

  lemma {:induction false} NamedFailure(name: string, inputs: Json, result: Json, ops: Operators)
    requires !Holds(NamedEquality(name), inputs, result, ops)
    ensures FailedRules([NamedEquality(name)], inputs, result, ops) == ["rule"]
  {
    var a := NamedEquality(name);
    hide Holds;
    assert [a][1..] == [];
    assert FailedRules([], inputs, result, ops) == [];
  }

  lemma {:induction false} NamedUnit(name: string, result: Json)
    requires IsPlain(name) && result.Obj? && name in result.fields
    ensures UnitRepairable([NamedEquality(name)], NamedEquality(name), result)
  {
    var a := NamedEquality(name);
    var path := "/result" + ("/" + name);
    PlainName(name);
    NamedTarget(name);
    hide ValidPointer, EditablePaths, TargetPath, Tokens;
    assert path[|"/result"|..] == "/" + name;
    assert Resolve(result.fields[name], []) == Ok(result.fields[name]);
    assert Resolve(result, [name]) == Ok(result.fields[name]);
  }
}
