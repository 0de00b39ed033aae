/**
 Reading (`_resolve_pointer`) and writing (`_replace_existing_pointer`) one position
 of a JSON tree, and the laws that tie the two together.
 */
module PointerAccess {
  import opened Prelude
  import opened Json
  import opened Pointers

  // ---------------------------------------------------------------- array indices

  predicate IsDigit(c: char) {
    '0' <= c <= '9'
  }

  function DigitValue(c: char): nat
    requires IsDigit(c)
  {
    (c as int) - ('0' as int)
  }

  predicate AllDigits(token: string) {
    token != "" && forall i :: 0 <= i < |token| ==> IsDigit(token[i])
  }

  function DecimalValue(token: string): nat
    requires forall i :: 0 <= i < |token| ==> IsDigit(token[i])
  {
    if token == "" then 0 else 10 * DecimalValue(token[..|token| - 1]) + DigitValue(token[|token| - 1])
  }

  /** An array index: ASCII digits with no leading zero (RFC 6901 section 4). */
  predicate IsArrayIndex(token: string) {
    AllDigits(token) && (|token| > 1 ==> token[0] != '0')
  }

  /** `str(n)` for a natural number. */
  function Decimal(n: nat): string {
    if n < 10 then [('0' as int + n) as char] else Decimal(n / 10) + [('0' as int + n % 10) as char]
  }

  lemma {:induction false} DecimalRoundTrip(n: nat)
    ensures IsArrayIndex(Decimal(n)) && DecimalValue(Decimal(n)) == n
    ensures n > 0 ==> Decimal(n)[0] != '0'
  {
    if n >= 10 {
      DecimalRoundTrip(n / 10);
      assert Decimal(n)[..|Decimal(n)| - 1] == Decimal(n / 10);
    }
  }

  lemma {:induction false} DecimalStep(front: nat, digit: nat)
    requires front > 0 && digit < 10
    ensures Decimal(10 * front + digit) == Decimal(front) + [('0' as int + digit) as char]
  {
    assert (10 * front + digit) / 10 == front && (10 * front + digit) % 10 == digit;
  }

  lemma {:induction false} DigitIsItsValue(c: char)
    requires IsDigit(c)
    ensures ('0' as int + DigitValue(c)) as char == c
  {
  }

  lemma {:induction false} DecimalOfValue(token: string)
    requires IsArrayIndex(token)
    ensures Decimal(DecimalValue(token)) == token
    ensures token[0] != '0' ==> DecimalValue(token) > 0
  {
    var init, last := token[..|token| - 1], token[|token| - 1];
    DigitIsItsValue(last);
    if |token| > 1 {
      assert init[0] == token[0];
      DecimalOfValue(init);
      hide DigitValue, Decimal;
      DecimalStep(DecimalValue(init), DigitValue(last));
      assert token == init + [last];
    } else {
      assert DecimalValue(init) == 0;
    }
  }

  lemma {:induction false} DecimalIsPlainToken(n: nat)
    ensures Encode(Decimal(n)) == Decimal(n)
  {
    DecimalRoundTrip(n);
    EncodeInOnePass(Decimal(n));
    PlainText(Decimal(n));
  }

  // ---------------------------------------------------------------- one step

  datatype AccessError = Missing | InvalidIndex | NotContainer

  /** One turn of the resolution loop, and `_child`. */
  function Child(current: Json, token: string): Result<Json, AccessError> {
    match current
    case Obj(m) => if token in m then Ok(m[token]) else Err(Missing)
    case Arr(xs) =>
      if !IsArrayIndex(token) then Err(InvalidIndex)
      else if DecimalValue(token) >= |xs| then Err(Missing)
      else Ok(xs[DecimalValue(token)])
    case _ => Err(NotContainer)
  }

  /** Assign the child named `token`; only meaningful where `Child` succeeds. */
  function SetChild(current: Json, token: string, value: Json): Json
    requires Child(current, token).Ok?
  {
    match current
    case Obj(m) => Obj(m[token := value])
    case Arr(xs) => Arr(xs[DecimalValue(token) := value])
  }

  lemma {:induction false} ChildAfterSet(current: Json, token: string, value: Json, other: string)
    requires Child(current, token).Ok?
    ensures Child(SetChild(current, token, value), token) == Ok(value)
    ensures other != token ==> Child(SetChild(current, token, value), other) == Child(current, other)
  {
    if current.Arr? && IsArrayIndex(other) && other != token {
      DecimalOfValue(token);
      DecimalOfValue(other);
    }
  }

  // ---------------------------------------------------------------- whole pointers

  function Resolve(root: Json, tokens: seq<string>): Result<Json, AccessError> {
    if tokens == [] then Ok(root)
    else match Child(root, tokens[0])
      case Err(e) => Err(e)
      case Ok(c) => Resolve(c, tokens[1..])
  }

  function ResolveAt(root: Json, pointer: string): Result<Json, AccessError> {
    Resolve(root, Tokens(pointer))
  }

  /** `_resolve_pointer`: walk the tokens, decoding each one on the way. */
  method ResolvePointer(root: Json, pointer: string) returns (found: Result<Json, AccessError>)
    ensures found == ResolveAt(root, pointer)
  {
    var current := root;
    if pointer == "" {
      return Ok(current);
    }
    var encoded := Split(pointer[1..], '/');
    for i := 0 to |encoded|
      invariant Resolve(root, Tokens(pointer)) == Resolve(current, Tokens(pointer)[i..])
    {
      var token := ReplacePair(ReplacePair(encoded[i], '~', '1', '/'), '~', '0', '~');
      assert Tokens(pointer)[i..][0] == token;
      assert Tokens(pointer)[i..][1..] == Tokens(pointer)[i + 1..];
      match current {
        case Obj(m) =>
          if token !in m { return Err(Missing); }
          current := m[token];
        case Arr(xs) =>
          if !IsArrayIndex(token) { return Err(InvalidIndex); }
          var index := DecimalValue(token);
          if index >= |xs| { return Err(Missing); }
          current := xs[index];
        case _ => return Err(NotContainer);
      }
    }
    return Ok(current);
  }

  /** `_replace_existing_pointer` on the tokens: the parent must exist and hold the last token. */
  function Replace(root: Json, tokens: seq<string>, value: Json): Result<Json, AccessError> {
    if tokens == [] then Ok(value)
    else match Child(root, tokens[0])
      case Err(e) => Err(e)
      case Ok(c) =>
        match Replace(c, tokens[1..], value)
        case Err(e) => Err(e)
        case Ok(c') => Ok(SetChild(root, tokens[0], c'))
  }

  function ReplaceAt(root: Json, pointer: string, value: Json): Result<Json, AccessError> {
    Replace(root, Tokens(pointer), value)
  }

  /** A write succeeds exactly where a read does, and fails with the read's error. */
  lemma {:induction false} ReplaceFailsAsResolve(root: Json, tokens: seq<string>, value: Json)
    ensures Replace(root, tokens, value).Ok? <==> Resolve(root, tokens).Ok?
    ensures Replace(root, tokens, value).Err? ==> Replace(root, tokens, value).error == Resolve(root, tokens).error
  {
    if tokens != [] && Child(root, tokens[0]).Ok? {
      ReplaceFailsAsResolve(Child(root, tokens[0]).value, tokens[1..], value);
    }
  }

  /** What is written is what is read back. */
  lemma {:induction false} ReadAfterWrite(root: Json, tokens: seq<string>, value: Json)
    requires Resolve(root, tokens).Ok?
    ensures Replace(root, tokens, value).Ok?
    ensures Resolve(Replace(root, tokens, value).value, tokens) == Ok(value)
  {
    ReplaceFailsAsResolve(root, tokens, value);
    if tokens != [] {
      var c := Child(root, tokens[0]).value;
      ReadAfterWrite(c, tokens[1..], value);
      ChildAfterSet(root, tokens[0], Replace(c, tokens[1..], value).value, "");
    }
  }

  lemma {:induction false} ComparableTails<T>(a: seq<T>, b: seq<T>)
    requires a != [] && b != [] && a[0] == b[0]
    ensures Comparable(a, b) <==> Comparable(a[1..], b[1..])
  {
    assert a == [a[0]] + a[1..] && b == [b[0]] + b[1..];
  }

  /** A write leaves every position it is not comparable with exactly as it was, errors included. */
  lemma {:induction false} WriteFrame(root: Json, tokens: seq<string>, value: Json, other: seq<string>)
    requires Resolve(root, tokens).Ok?
    requires !Comparable(tokens, other)
    ensures Replace(root, tokens, value).Ok?
    ensures Resolve(Replace(root, tokens, value).value, other) == Resolve(root, other)
  {
    ReplaceFailsAsResolve(root, tokens, value);
    assert tokens != [] && other != [];
    var c := Child(root, tokens[0]).value;
    var c' := Replace(c, tokens[1..], value).value;
    ReplaceFailsAsResolve(c, tokens[1..], value);
    ChildAfterSet(root, tokens[0], c', other[0]);
    if other[0] == tokens[0] {
      ComparableTails(tokens, other);
      WriteFrame(c, tokens[1..], value, other[1..]);
    }
  }

  // ---------------------------------------------------------------- where a read fails

  /** Why a value has no child under a token, in RFC 6901's terms: array indices are decimals without leading zeros. */
  ghost predicate NoChild(v: Json, token: string, kind: AccessError) {
    match kind
    case Missing =>
      (v.Obj? && token !in v.fields) || (v.Arr? && exists n :: n >= |v.items| && token == Decimal(n))
    case InvalidIndex => v.Arr? && forall n: nat :: token != Decimal(n)
    case NotContainer => !v.Obj? && !v.Arr?
  }

  lemma {:induction false} ChildFailsExactlyWhen(v: Json, token: string, kind: AccessError)
    ensures Child(v, token) == Err(kind) <==> NoChild(v, token, kind)
    ensures v.Obj? && token in v.fields ==> Child(v, token) == Ok(v.fields[token])
    ensures v.Arr? ==> forall n: nat :: n < |v.items| && token == Decimal(n) ==> Child(v, token) == Ok(v.items[n])
  {
    forall n: nat
      ensures IsArrayIndex(Decimal(n)) && DecimalValue(Decimal(n)) == n
    {
      DecimalRoundTrip(n);
    }
    if IsArrayIndex(token) {
      DecimalOfValue(token);
    }
    hide Decimal, DecimalValue, IsArrayIndex;
  }

  /** The read goes well up to place `k`, and there is no child there. */
  ghost predicate FailsAt(root: Json, tokens: seq<string>, k: nat, kind: AccessError)
    requires k < |tokens|
  {
    Resolve(root, tokens[..k]).Ok? && NoChild(Resolve(root, tokens[..k]).value, tokens[k], kind)
  }

  /** A read fails exactly if some value on the way has no such child, for the reason it has none. */
  lemma {:induction false} ReadFailsExactlyWhen(root: Json, tokens: seq<string>, kind: AccessError)
    ensures Resolve(root, tokens) == Err(kind) <==> exists k: nat :: k < |tokens| && FailsAt(root, tokens, k, kind)
  {
    hide NoChild;
    if tokens != [] {
      var rest := tokens[1..];
      ChildFailsExactlyWhen(root, tokens[0], kind);
      assert Resolve(root, []) == Ok(root) && tokens[..0] == [];
      if Child(root, tokens[0]).Ok? {
        var c := Child(root, tokens[0]).value;
        ReadFailsExactlyWhen(c, rest, kind);
        forall k: nat | k < |rest|
          ensures FailsAt(root, tokens, k + 1, kind) <==> FailsAt(c, rest, k, kind)
        {
          assert tokens[..k + 1][1..] == rest[..k] && tokens[..k + 1][0] == tokens[0];
        }
        if k: nat :| k < |tokens| && FailsAt(root, tokens, k, kind) {
          assert k > 0 ==> FailsAt(c, rest, k - 1, kind);
        }
      } else {
        assert Child(root, tokens[0]) == Err(kind) ==> FailsAt(root, tokens, 0, kind);
        if k: nat :| k < |tokens| && FailsAt(root, tokens, k, kind) {
          if k > 0 {
            assert tokens[..k][0] == tokens[0];
          }
        }
      }
    }
  }
}
