/** Python's order on strings (by code point) and `sorted` of a set of strings. */
module Order {

  /** `a < b` on strings: compare code points, a proper prefix first. */
  predicate Less(a: string, b: string) {
    b != "" && (a == "" || a[0] < b[0] || (a[0] == b[0] && Less(a[1..], b[1..])))
  }

  predicate AtMost(a: string, b: string) {
    a == b || Less(a, b)
  }

  lemma {:induction false} LessIsTotal(a: string, b: string)
    ensures Less(a, b) || a == b || Less(b, a)
    ensures !(Less(a, b) && Less(b, a)) && !Less(a, a)
  {
    if a != "" && b != "" && a[0] == b[0] {
      LessIsTotal(a[1..], b[1..]);
      assert a == [a[0]] + a[1..] && b == [b[0]] + b[1..];
    }
    if a != "" {
      LessIsTotal(a[1..], a[1..]);
    }
  }

  /** `a < b` exactly when `a` is a proper prefix of `b`, or smaller at the first place where they differ. */
  lemma {:induction false} LessAtFirstDifference(a: string, b: string)
    ensures Less(a, b) <==> exists i :: FirstDifference(a, b, i) && (i == |a| || a[i] < b[i])
  {
    if Less(a, b) && a != "" && a[0] == b[0] {
      LessAtFirstDifference(a[1..], b[1..]);
      var i :| FirstDifference(a[1..], b[1..], i) && (i == |a[1..]| || a[1..][i] < b[1..][i]);
      assert a[..i + 1] == [a[0]] + a[1..][..i] && b[..i + 1] == [b[0]] + b[1..][..i];
      assert FirstDifference(a, b, i + 1);
    } else if Less(a, b) {
      assert FirstDifference(a, b, 0);
    } else if i :| FirstDifference(a, b, i) && (i == |a| || a[i] < b[i]) {
      if i > 0 {
        assert a[0] == a[..i][0] == b[..i][0] == b[0];
        assert a[1..][..i - 1] == a[..i][1..] && b[1..][..i - 1] == b[..i][1..];
        assert FirstDifference(a[1..], b[1..], i - 1);
        LessAtFirstDifference(a[1..], b[1..]);
      }
    }
  }

  /** The two agree before `i`, and `b` goes on there while `a` ends or has another character. */
  predicate FirstDifference(a: string, b: string, i: int) {
    0 <= i <= |a| && i < |b| && a[..i] == b[..i] && (i < |a| ==> a[i] != b[i])
  }

  lemma {:induction false} LessIsTransitive(a: string, b: string, c: string)
    requires Less(a, b) && Less(b, c)
    ensures Less(a, c)
  {
    if a != "" && a[0] == b[0] && b[0] == c[0] {
      LessIsTransitive(a[1..], b[1..], c[1..]);
    }
  }

  predicate IsLeast(s: set<string>, m: string) {
    m in s && forall x :: x in s ==> AtMost(m, x)
  }

  lemma {:induction false} AtMostIsTransitive(a: string, b: string, c: string)
    requires AtMost(a, b) && AtMost(b, c)
    ensures AtMost(a, c)
  {
    if a != b && b != c {
      LessIsTransitive(a, b, c);
    }
  }

  lemma {:induction false} LeastExists(s: set<string>) returns (m: string)
    requires s != {}
    ensures IsLeast(s, m)
    ensures forall n :: IsLeast(s, n) ==> n == m
  {
    var y :| y in s;
    var rest := s - {y};
    m := y;
    if rest != {} {
      var r := LeastExists(rest);
      LessIsTotal(r, y);
      m := if Less(y, r) then y else r;
      forall x | x in rest ensures AtMost(m, x) {
        AtMostIsTransitive(m, r, x);
      }
    }
    assert forall x :: x in s ==> x == y || x in rest;
    forall n | IsLeast(s, n) ensures n == m {
      assert AtMost(n, m) && AtMost(m, n);
      LessIsTotal(n, m);
    }
  }

  lemma {:induction false} LeastIsDetermined(s: set<string>)
    requires s != {}
    ensures exists m :: IsLeast(s, m)
    ensures forall m, n :: IsLeast(s, m) && IsLeast(s, n) ==> m == n
  {
    var m := LeastExists(s);
  }

  function Least(s: set<string>): (m: string)
    requires s != {}
    ensures IsLeast(s, m)
  {
    LeastIsDetermined(s);
    var m :| IsLeast(s, m);
    m
  }

  /** `sorted(s)`. */
  function Sorted(s: set<string>): (r: seq<string>)
    ensures |r| == |s| && forall x :: x in r <==> x in s
    ensures forall i, j :: 0 <= i < j < |r| ==> Less(r[i], r[j])
  {
    if s == {} then [] else
      var m := Least(s);
      var rest := Sorted(s - {m});
      assert forall j :: 0 <= j < |rest| ==> rest[j] in s && rest[j] != m;
      [m] + rest
  }
}
