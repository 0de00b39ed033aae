/** Small datatypes and text helpers shared by every module. */
module Prelude {

  datatype Option<+T> = None | Some(value: T)

  datatype Result<+T, +E> = Ok(value: T) | Err(error: E)

  /** Prefix test on sequences, either way round. */
  predicate Comparable<T(==)>(a: seq<T>, b: seq<T>) {
    a <= b || b <= a
  }

  /** Characters Python's `str.strip` removes. */
  predicate IsSpace(c: char) {
    c in {'\t', '\n', '\r', ' '}
    || c in {'\U{000B}', '\U{000C}', '\U{001C}', '\U{001D}', '\U{001E}', '\U{001F}', '\U{0085}', '\U{00A0}'}
    || c in {'\U{1680}', '\U{2028}', '\U{2029}', '\U{202F}', '\U{205F}', '\U{3000}'}
    || '\U{2000}' <= c <= '\U{200A}'
  }

  /** `value.strip()` is non-empty. */
  predicate NotBlank(s: string) {
    exists i :: 0 <= i < |s| && !IsSpace(s[i])
  }

  lemma {:induction false} SubsetSize<T>(a: set<T>, b: set<T>)
    requires a <= b
    ensures |a| <= |b|
  {
    assert b == a + (b - a);
  }
}
