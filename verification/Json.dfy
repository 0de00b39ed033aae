/**
 JSON values and the two strict equalities of the repository: `json_equal`, which
 assertions use, and `_strict_equal`, which the repair diff uses.

 Python's numbers keep integers and floats apart; a float is a finite real, the
 distinct negative zero, or one of the non-finite values JSON text cannot carry.
 */
module Json {

  datatype Float = Finite(value: real) | NegativeZero | NonFinite

  datatype Json =
    | Null
    | Bool(b: bool)
    | Int(i: int)
    | Num(f: Float)
    | Str(s: string)
    | Arr(items: seq<Json>)
    | Obj(fields: map<string, Json>)

  datatype JsonType =
    | NullType | BooleanType | IntegerType | NumberType | StringType | ArrayType | ObjectType
    | NonCanonical

  /** `json_type`, with `None` written `NonCanonical`. */
  function TypeOf(v: Json): JsonType {
    match v
    case Null => NullType
    case Bool(_) => BooleanType
    case Int(_) => IntegerType
    case Num(f) => if f == NonFinite then NonCanonical else NumberType
    case Str(_) => StringType
    case Arr(_) => ArrayType
    case Obj(_) => ObjectType
  }

  /** Python's `==` on two floats that are both finite. */
  predicate FloatEqual(x: Float, y: Float) {
    FloatValue(x) == FloatValue(y)
  }

  function FloatValue(x: Float): real {
    if x.Finite? then x.value else 0.0
  }

  /** `json_equal`: equal types, then equal contents. */
  predicate JsonEqual(a: Json, b: Json) {
    TypeOf(a) != NonCanonical && TypeOf(a) == TypeOf(b) &&
    match (a, b)
    case (Obj(m), Obj(n)) => m.Keys == n.Keys && forall k | k in m && k in n :: JsonEqual(m[k], n[k])
    case (Arr(xs), Arr(ys)) => |xs| == |ys| && forall i | 0 <= i < |xs| && i < |ys| :: JsonEqual(xs[i], ys[i])
    case (Num(x), Num(y)) => FloatEqual(x, y)
    case _ => a == b
  }

  /** `_strict_equal`: as above, and the sign of a zero counts. */
  predicate StrictEqual(a: Json, b: Json) {
    match (a, b)
    case (Obj(m), Obj(n)) => m.Keys == n.Keys && forall k | k in m && k in n :: StrictEqual(m[k], n[k])
    case (Arr(xs), Arr(ys)) => |xs| == |ys| && forall i | 0 <= i < |xs| && i < |ys| :: StrictEqual(xs[i], ys[i])
    case (Num(x), Num(y)) => x != NonFinite && y != NonFinite && x == y
    case _ => a == b
  }

  /** The value holds no NaN or infinity, so `json.dumps(allow_nan=False)` accepts it. */
  predicate AllFinite(v: Json) {
    match v
    case Obj(m) => forall k | k in m :: AllFinite(m[k])
    case Arr(xs) => forall i | 0 <= i < |xs| :: AllFinite(xs[i])
    case Num(x) => x != NonFinite
    case _ => true
  }

  /** The value with every negative zero written as zero. */
  function ForgetZeroSign(v: Json): Json {
    match v
    case Obj(m) => Obj(map k | k in m :: ForgetZeroSign(m[k]))
    case Arr(xs) => Arr(seq(|xs|, i requires 0 <= i < |xs| => ForgetZeroSign(xs[i])))
    case Num(NegativeZero) => Num(Finite(0.0))
    case _ => v
  }

  /** The diff's equality is identity, on exactly the values JSON text can carry. */
  lemma {:induction false} StrictEqualIsIdentity(a: Json, b: Json)
    ensures StrictEqual(a, b) <==> a == b && AllFinite(a)
  {
    match (a, b)
    case (Obj(m), Obj(n)) =>
      forall k | k in m && k in n
        ensures StrictEqual(m[k], n[k]) <==> m[k] == n[k] && AllFinite(m[k])
      {
        StrictEqualIsIdentity(m[k], n[k]);
      }
    case (Arr(xs), Arr(ys)) =>
      forall i | 0 <= i < |xs| && i < |ys|
        ensures StrictEqual(xs[i], ys[i]) <==> xs[i] == ys[i] && AllFinite(xs[i])
      {
        StrictEqualIsIdentity(xs[i], ys[i]);
      }
    case _ =>
  }

  /** `json_equal` is identity of finite values up to the sign of zeros. */
  lemma {:induction false} JsonEqualIsIdentityUpToZeroSign(a: Json, b: Json)
    ensures JsonEqual(a, b) <==> AllFinite(a) && AllFinite(b) && ForgetZeroSign(a) == ForgetZeroSign(b)
  {
    match (a, b)
    case (Obj(m), Obj(n)) =>
      forall k | k in m && k in n
        ensures JsonEqual(m[k], n[k])
                <==> AllFinite(m[k]) && AllFinite(n[k]) && ForgetZeroSign(m[k]) == ForgetZeroSign(n[k])
      {
        JsonEqualIsIdentityUpToZeroSign(m[k], n[k]);
      }
      var fm, fn := ForgetZeroSign(a).fields, ForgetZeroSign(b).fields;
      assert fm.Keys == m.Keys && fn.Keys == n.Keys;
      if fm == fn {
        forall k | k in m && k in n ensures ForgetZeroSign(m[k]) == ForgetZeroSign(n[k]) {
          assert fm[k] == fn[k];
        }
      }
    case (Arr(xs), Arr(ys)) =>
      forall i | 0 <= i < |xs| && i < |ys|
        ensures JsonEqual(xs[i], ys[i])
                <==> AllFinite(xs[i]) && AllFinite(ys[i]) && ForgetZeroSign(xs[i]) == ForgetZeroSign(ys[i])
      {
        JsonEqualIsIdentityUpToZeroSign(xs[i], ys[i]);
      }
      var fx, fy := ForgetZeroSign(a).items, ForgetZeroSign(b).items;
      assert |fx| == |xs| && |fy| == |ys|;
      if fx == fy {
        forall i | 0 <= i < |xs| && i < |ys| ensures ForgetZeroSign(xs[i]) == ForgetZeroSign(ys[i]) {
          assert fx[i] == fy[i];
        }
      }
    case _ =>
  }

  /** `json_equal` is an equivalence on exactly the finite values. */
  lemma {:induction false} JsonEqualIsEquivalence(a: Json, b: Json, c: Json)
    ensures JsonEqual(a, a) <==> AllFinite(a)
    ensures JsonEqual(a, b) ==> JsonEqual(b, a)
    ensures JsonEqual(a, b) && JsonEqual(b, c) ==> JsonEqual(a, c)
  {
    JsonEqualIsIdentityUpToZeroSign(a, a);
    JsonEqualIsIdentityUpToZeroSign(a, b);
    JsonEqualIsIdentityUpToZeroSign(b, a);
    JsonEqualIsIdentityUpToZeroSign(b, c);
    JsonEqualIsIdentityUpToZeroSign(a, c);
  }
}
