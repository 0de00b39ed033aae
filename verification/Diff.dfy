/**
 The structural diff behind scope checks: `_changed_paths` reports, as JSON Pointers,
 where two proposal documents differ.
 */
module Diff {
  import opened Prelude
  import opened Json
  import opened Pointers
  import opened PointerAccess

  /** `_changed_paths`. */
  function ChangedPaths(before: Json, after: Json, path: string): set<string>
    decreases before, 1
  {
    if StrictEqual(before, after) then {}
    else match (before, after)
      case (Obj(m), Obj(n)) =>
        set k, p | k in m.Keys + n.Keys && p in KeyChanges(before, after, path, k) :: p
      case (Arr(xs), Arr(ys)) =>
        if |xs| != |ys| then {path}
        else set i, p | 0 <= i < |xs| && p in ItemChanges(before, after, path, i) :: p
      case _ => {path}
  }

  function KeyChanges(before: Json, after: Json, path: string, key: string): set<string>
    requires before.Obj? && after.Obj?
    decreases before, 0
  {
    var child := path + "/" + Encode(key);
    if key in before.fields && key in after.fields then ChangedPaths(before.fields[key], after.fields[key], child)
    else {child}
  }

  function ItemChanges(before: Json, after: Json, path: string, index: nat): set<string>
    requires before.Arr? && after.Arr? && index < |before.items| && index < |after.items|
    decreases before, 0
  {
    ChangedPaths(before.items[index], after.items[index], path + "/" + Decimal(index))
  }

  /** The paths differ from nothing exactly when the documents are strictly equal. */
  lemma {:induction false} NoChangesExactlyWhenEqual(before: Json, after: Json, path: string)
    ensures ChangedPaths(before, after, path) == {} <==> StrictEqual(before, after)
    decreases before
  {
    if !StrictEqual(before, after) {
      match (before, after)
      case (Obj(m), Obj(n)) =>
        var k :| k in m.Keys + n.Keys && (k in m && k in n ==> !StrictEqual(m[k], n[k]));
        if k in m && k in n {
          NoChangesExactlyWhenEqual(m[k], n[k], path + "/" + Encode(k));
        }
        assert KeyChanges(before, after, path, k) != {};
        var p :| p in KeyChanges(before, after, path, k);
        assert p in ChangedPaths(before, after, path);
      case (Arr(xs), Arr(ys)) =>
        if |xs| == |ys| {
          var i :| 0 <= i < |xs| && !StrictEqual(xs[i], ys[i]);
          NoChangesExactlyWhenEqual(xs[i], ys[i], path + "/" + Decimal(i));
          assert ItemChanges(before, after, path, i) != {};
          var p :| p in ItemChanges(before, after, path, i);
          assert p in ChangedPaths(before, after, path);
        }
      case _ =>
    }
  }

  /** Every reported path is a valid pointer under the starting path. */
  lemma {:induction false} ChangedPathsAreValid(before: Json, after: Json, path: string, p: string)
    requires ValidPointer(path) && p in ChangedPaths(before, after, path)
    ensures ValidPointer(p) && Tokens(path) <= Tokens(p)
    decreases before
  {
    match (before, after)
    case (Obj(m), Obj(n)) =>
      var k :| k in m.Keys + n.Keys && p in KeyChanges(before, after, path, k);
      AppendKey(path, k);
      if k in m && k in n {
        ChangedPathsAreValid(m[k], n[k], path + "/" + Encode(k), p);
      }
    case (Arr(xs), Arr(ys)) =>
      if |xs| == |ys| {
        var i :| 0 <= i < |xs| && p in ItemChanges(before, after, path, i);
        AppendIndex(path, i);
        ChangedPathsAreValid(xs[i], ys[i], path + "/" + Decimal(i), p);
      }
    case _ =>
  }

  lemma {:induction false} AppendIndex(path: string, i: nat)
    requires ValidPointer(path)
    ensures ValidPointer(path + "/" + Decimal(i))
    ensures Tokens(path + "/" + Decimal(i)) == Tokens(path) + [Decimal(i)]
  {
    DecimalIsPlainToken(i);
    AppendKey(path, Decimal(i));
  }

  /** No reported path is comparable with `tokens`, read from the place `path` names. */
  ghost predicate Untouched(before: Json, after: Json, path: string, tokens: seq<string>) {
    forall p :: p in ChangedPaths(before, after, path) ==> !Comparable(Tokens(p), Tokens(path) + tokens)
  }

  /** A position comparable with no reported path reads the same in both documents. */
  lemma {:induction false} UntouchedReadsTheSame(before: Json, after: Json, path: string, tokens: seq<string>)
    requires ValidPointer(path)
    requires Untouched(before, after, path, tokens)
    ensures Resolve(before, tokens) == Resolve(after, tokens)
    decreases before
  {
    if StrictEqual(before, after) {
      StrictEqualIsIdentity(before, after);
    } else if before.Obj? && after.Obj? {
      UntouchedInObjects(before, after, path, tokens);
    } else if before.Arr? && after.Arr? && |before.items| == |after.items| {
      UntouchedInArrays(before, after, path, tokens);
    } else {
      assert path in ChangedPaths(before, after, path);
    }
  }

  lemma {:induction false} TokensNonEmpty(before: Json, after: Json, path: string, tokens: seq<string>)
    requires ValidPointer(path) && !StrictEqual(before, after)
    requires Untouched(before, after, path, tokens)
    ensures tokens != []
  {
    NoChangesExactlyWhenEqual(before, after, path);
    var p :| p in ChangedPaths(before, after, path);
    ChangedPathsAreValid(before, after, path, p);
    assert Tokens(path) + [] == Tokens(path);
  }

  lemma {:induction false} ChildTokens(path: string, child: string, key: string, tokens: seq<string>)
    requires tokens != [] && tokens[0] == key && Tokens(child) == Tokens(path) + [key]
    ensures Tokens(path) + tokens == Tokens(child) + tokens[1..]
    ensures Tokens(child) <= Tokens(path) + tokens
  {
    assert tokens == [key] + tokens[1..];
    assert Tokens(path) + tokens == Tokens(child) + tokens[1..];
  }

  lemma {:induction false} UntouchedKey(before: Json, after: Json, path: string, tokens: seq<string>)
    requires ValidPointer(path) && before.Obj? && after.Obj? && !StrictEqual(before, after) && tokens != []
    requires Untouched(before, after, path, tokens)
    ensures var k := tokens[0];
            && (k in before.fields <==> k in after.fields)
            && (k in before.fields ==>
                  Untouched(before.fields[k], after.fields[k], path + "/" + Encode(k), tokens[1..]))
  {
    var k := tokens[0];
    var child := path + "/" + Encode(k);
    AppendKey(path, k);
    ChildTokens(path, child, k, tokens);
    if k in before.fields.Keys + after.fields.Keys {
      forall p | p in KeyChanges(before, after, path, k)
        ensures !Comparable(Tokens(p), Tokens(child) + tokens[1..])
      {
        assert p in ChangedPaths(before, after, path);
      }
    }
  }

  lemma {:induction false} UntouchedInObjects(before: Json, after: Json, path: string, tokens: seq<string>)
    requires ValidPointer(path) && before.Obj? && after.Obj? && !StrictEqual(before, after)
    requires Untouched(before, after, path, tokens)
    ensures Resolve(before, tokens) == Resolve(after, tokens)
    decreases before, 0
  {
    TokensNonEmpty(before, after, path, tokens);
    UntouchedKey(before, after, path, tokens);
    var k := tokens[0];
    if k in before.fields {
      AppendKey(path, k);
      UntouchedReadsTheSame(before.fields[k], after.fields[k], path + "/" + Encode(k), tokens[1..]);
    }
  }

  lemma {:induction false} UntouchedItem(before: Json, after: Json, path: string, tokens: seq<string>, i: nat)
    requires ValidPointer(path) && before.Arr? && after.Arr? && |before.items| == |after.items|
    requires !StrictEqual(before, after) && tokens != [] && i < |before.items| && tokens[0] == Decimal(i)
    requires Untouched(before, after, path, tokens)
    ensures Untouched(before.items[i], after.items[i], path + "/" + Decimal(i), tokens[1..])
  {
    var child := path + "/" + Decimal(i);
    AppendIndex(path, i);
    ChildTokens(path, child, Decimal(i), tokens);
    forall p | p in ItemChanges(before, after, path, i)
      ensures !Comparable(Tokens(p), Tokens(child) + tokens[1..])
    {
      assert p in ChangedPaths(before, after, path);
    }
  }

  lemma {:induction false} UntouchedInArrays(before: Json, after: Json, path: string, tokens: seq<string>)
    requires ValidPointer(path) && before.Arr? && after.Arr? && |before.items| == |after.items|
    requires !StrictEqual(before, after)
    requires Untouched(before, after, path, tokens)
    ensures Resolve(before, tokens) == Resolve(after, tokens)
    decreases before, 0
  {
    TokensNonEmpty(before, after, path, tokens);
    if IsArrayIndex(tokens[0]) && DecimalValue(tokens[0]) < |before.items| {
      var i := DecimalValue(tokens[0]);
      DecimalOfValue(tokens[0]);
      UntouchedItem(before, after, path, tokens, i);
      AppendIndex(path, i);
      UntouchedReadsTheSame(before.items[i], after.items[i], path + "/" + Decimal(i), tokens[1..]);
    }
  }

  /**
   Diff soundness, on text: a pointer that overlaps no reported path resolves to the
   same value, or fails with the same error, in both documents.
   */
  lemma {:induction false} DiffSoundness(before: Json, after: Json, pointer: string)
    requires ValidPointer(pointer)
    requires forall p :: p in ChangedPaths(before, after, "") ==> !Overlap(pointer, p)
    ensures ResolveAt(before, pointer) == ResolveAt(after, pointer)
  {
    forall p | p in ChangedPaths(before, after, "")
      ensures !Comparable(Tokens(p), Tokens("") + Tokens(pointer))
    {
      ChangedPathsAreValid(before, after, "", p);
      OverlapIsComparability(pointer, p);
      assert Tokens("") + Tokens(pointer) == Tokens(pointer);
    }
    UntouchedReadsTheSame(before, after, "", Tokens(pointer));
  }

  lemma {:induction false} DifferBelow(before: Json, after: Json, token: string, tail: seq<string>)
    requires Child(before, token).Ok? && Child(after, token).Ok?
    requires Resolve(Child(before, token).value, tail) != Resolve(Child(after, token).value, tail)
    ensures Resolve(before, [token] + tail) != Resolve(after, [token] + tail)
  {
    assert ([token] + tail)[1..] == tail;
  }

  /** Conversely, every reported path is a real difference between finite documents. */
  lemma {:induction false} ReportedPathsDiffer(before: Json, after: Json, path: string, p: string)
    returns (rest: seq<string>)
    requires ValidPointer(path) && AllFinite(before) && AllFinite(after)
    requires p in ChangedPaths(before, after, path)
    ensures Tokens(p) == Tokens(path) + rest && Resolve(before, rest) != Resolve(after, rest)
    decreases before, 1
  {
    if before.Obj? && after.Obj? {
      var k :| k in before.fields.Keys + after.fields.Keys && p in KeyChanges(before, after, path, k);
      rest := ReportedKeyDiffers(before, after, path, k, p);
    } else if before.Arr? && after.Arr? && |before.items| == |after.items| {
      var i :| 0 <= i < |before.items| && p in ItemChanges(before, after, path, i);
      rest := ReportedItemDiffers(before, after, path, i, p);
    } else {
      StrictEqualIsIdentity(before, after);
      rest := [];
    }
  }

  lemma {:induction false} ReportedKeyDiffers(before: Json, after: Json, path: string, k: string, p: string)
    returns (rest: seq<string>)
    requires ValidPointer(path) && AllFinite(before) && AllFinite(after) && before.Obj? && after.Obj?
    requires k in before.fields.Keys + after.fields.Keys && p in KeyChanges(before, after, path, k)
    ensures Tokens(p) == Tokens(path) + rest && Resolve(before, rest) != Resolve(after, rest)
    decreases before, 0
  {
    hide ValidPointer, Tokens, Encode, ChangedPaths, StrictEqual;
    AppendKey(path, k);
    rest := [k];
    if k in before.fields && k in after.fields {
      var tail := ReportedPathsDiffer(before.fields[k], after.fields[k], path + "/" + Encode(k), p);
      rest := [k] + tail;
      DifferBelow(before, after, k, tail);
      assert Tokens(path) + [k] + tail == Tokens(path) + ([k] + tail);
    }
  }

  lemma {:induction false} ReportedItemDiffers(before: Json, after: Json, path: string, i: nat, p: string)
    returns (rest: seq<string>)
    requires ValidPointer(path) && AllFinite(before) && AllFinite(after)
    requires before.Arr? && after.Arr? && i < |before.items| == |after.items|
             && p in ItemChanges(before, after, path, i)
    ensures Tokens(p) == Tokens(path) + rest && Resolve(before, rest) != Resolve(after, rest)
    decreases before, 0
  {
    hide ValidPointer, Tokens, ChangedPaths, StrictEqual;
    AppendIndex(path, i);
    DecimalRoundTrip(i);
    var tail := ReportedPathsDiffer(before.items[i], after.items[i], path + "/" + Decimal(i), p);
    rest := [Decimal(i)] + tail;
    DifferBelow(before, after, Decimal(i), tail);
    assert Tokens(path) + [Decimal(i)] + tail == Tokens(path) + ([Decimal(i)] + tail);
  }

  /** A document pair of finite values differs at every path the diff reports. */
  lemma {:induction false} DiffPrecision(before: Json, after: Json, p: string)
    requires AllFinite(before) && AllFinite(after) && p in ChangedPaths(before, after, "")
    ensures ValidPointer(p) && ResolveAt(before, p) != ResolveAt(after, p)
  {
    ChangedPathsAreValid(before, after, "", p);
    var rest := ReportedPathsDiffer(before, after, "", p);
    assert Tokens("") + rest == rest;
  }
}
