/**
 JSON Pointers (RFC 6901 sections 3 and 4) as text, and the tree positions they name.

 The repository compares pointers as text (`startswith`) and walks trees by decoded
 reference tokens. This module proves that the two readings agree, which every
 repair-scope argument rests on.
 */
module Pointers {
  import opened Prelude
  import opened Json

  // ---------------------------------------------------------------- text

  /** `text.split(sep)`. */
  function Split(s: string, sep: char): (parts: seq<string>)
    ensures |parts| > 0
  {
    if s == "" then [""]
    else if s[0] == sep then [""] + Split(s[1..], sep)
    else var rest := Split(s[1..], sep); [[s[0]] + rest[0]] + rest[1..]
  }

  /** `text.replace(old, new)` for a two-character `old` and a one-character `new`. */
  function ReplacePair(s: string, first: char, second: char, sub: char): string {
    if |s| < 2 then s
    else if s[0] == first && s[1] == second then [sub] + ReplacePair(s[2..], first, second, sub)
    else [s[0]] + ReplacePair(s[1..], first, second, sub)
  }

  /** `text.replace(old, new)` for a one-character `old`. */
  function ReplaceChar(s: string, old_char: char, sub: string): string {
    if s == "" then "" else (if s[0] == old_char then sub else [s[0]]) + ReplaceChar(s[1..], old_char, sub)
  }

  /** `_encode`: escape a key for use as a reference token. */
  function Encode(key: string): string {
    ReplaceChar(ReplaceChar(key, '~', "~0"), '/', "~1")
  }

  /** `_decode`: two successive replacements, in this order. */
  function Decode(token: string): string {
    ReplacePair(ReplacePair(token, '~', '1', '/'), '~', '0', '~')
  }

  /** Every '~' starts one of the two escapes of RFC 6901 section 3. */
  predicate EscapesValid(s: string) {
    if s == "" then true
    else if s[0] == '~' then |s| >= 2 && s[1] in "01" && EscapesValid(s[2..])
    else EscapesValid(s[1..])
  }

  predicate ValidPointer(p: string) {
    (p != "" ==> p[0] == '/') && EscapesValid(p)
  }

  /** The reference tokens, still escaped: `pointer[1:].split("/")`, or none at the root. */
  function RawTokens(p: string): seq<string> {
    if p == "" then [] else Split(p[1..], '/')
  }

  function DecodeAll(raw: seq<string>): (tokens: seq<string>)
    ensures |tokens| == |raw|
    ensures forall i :: 0 <= i < |raw| ==> tokens[i] == Decode(raw[i])
  {
    seq(|raw|, i requires 0 <= i < |raw| => Decode(raw[i]))
  }

  function Tokens(p: string): seq<string> {
    DecodeAll(RawTokens(p))
  }

  /** `left == right`, or one begins with the other followed by a slash. */
  predicate Overlap(left: string, right: string) {
    left == right || right + "/" <= left || left + "/" <= right
  }

  /** `path == root or path.startswith(root + "/")`. */
  predicate Under(path: string, root: string) {
    path == root || root + "/" <= path
  }

  /** The scanning loop of `_validate_pointer` and `_json_pointer`. */
  method CheckEscapes(value: string) returns (valid: bool)
    ensures valid <==> EscapesValid(value)
  {
    var index := 0;
    while index < |value|
      invariant 0 <= index <= |value|
      invariant EscapesValid(value) <==> EscapesValid(value[index..])
    {
      if value[index] == '~' {
        if index + 1 >= |value| || value[index + 1] !in "01" {
          return false;
        }
        assert value[index..][2..] == value[index + 2..];
        index := index + 2;
      } else {
        assert value[index..][1..] == value[index + 1..];
        index := index + 1;
      }
    }
    return true;
  }

  // ------------------------------------------------- decoding is injective

  predicate NoSlash(s: string) {
    '/' !in s
  }

  /** One left-to-right pass over the escapes. */
  function DecodeOnce(s: string): string {
    if |s| >= 2 && s[0] == '~' && s[1] == '1' then "/" + DecodeOnce(s[2..])
    else if |s| >= 2 && s[0] == '~' && s[1] == '0' then "~" + DecodeOnce(s[2..])
    else if s == "" then "" else [s[0]] + DecodeOnce(s[1..])
  }

  /** What is left to replace after the first of the two passes. */
  lemma {:induction false} TwoPassesAreOne(s: string)
    requires EscapesValid(s)
    ensures Decode(s) == DecodeOnce(s)
  {
    if |s| < 2 {
    } else if s[0] == '~' {
      var rest := ReplacePair(s[2..], '~', '1', '/');
      TwoPassesAreOne(s[2..]);
      if s[1] == '1' {
        SkipFirst('/', rest);
      } else {
        assert ReplacePair(s[1..], '~', '1', '/')
               == ['0'] + rest by { SkipFirstPass('0', s[2..]); assert s[1..] == ['0'] + s[2..]; }
        assert ReplacePair(s, '~', '1', '/') == ['~', '0'] + rest;
        assert (['~', '0'] + rest)[2..] == rest;
      }
    } else {
      TwoPassesAreOne(s[1..]);
      SkipFirst(s[0], ReplacePair(s[1..], '~', '1', '/'));
    }
  }

  lemma {:induction false} SkipFirst(c: char, rest: string)
    requires c != '~'
    ensures ReplacePair([c] + rest, '~', '0', '~') == [c] + ReplacePair(rest, '~', '0', '~')
  {
    assert ([c] + rest)[1..] == rest;
  }

  lemma {:induction false} SkipFirstPass(c: char, rest: string)
    requires c != '~'
    ensures ReplacePair([c] + rest, '~', '1', '/') == [c] + ReplacePair(rest, '~', '1', '/')
  {
    assert ([c] + rest)[1..] == rest;
  }

  /** `_encode` in one pass. */
  function EncodeOnce(key: string): string {
    if key == "" then ""
    else (if key[0] == '~' then "~0" else if key[0] == '/' then "~1" else [key[0]]) + EncodeOnce(key[1..])
  }

  lemma {:induction false} ReplaceCharAppend(a: string, b: string, old_char: char, sub: string)
    ensures ReplaceChar(a + b, old_char, sub) == ReplaceChar(a, old_char, sub) + ReplaceChar(b, old_char, sub)
  {
    if a == "" {
      assert a + b == b;
    } else {
      assert (a + b)[1..] == a[1..] + b;
      ReplaceCharAppend(a[1..], b, old_char, sub);
    }
  }

  lemma {:induction false} EncodeInOnePass(key: string)
    ensures Encode(key) == EncodeOnce(key)
  {
    if key != "" {
      EncodeInOnePass(key[1..]);
      var head := if key[0] == '~' then "~0" else [key[0]];
      ReplaceCharAppend(head, ReplaceChar(key[1..], '~', "~0"), '/', "~1");
      assert ReplaceChar("~0", '/', "~1") == "~0" by { assert "~0"[1..] == "0"; }
      assert ReplaceChar([key[0]], '/', "~1") == if key[0] == '/' then "~1" else [key[0]];
    }
  }

  lemma {:induction false} EncodedShape(key: string)
    ensures EscapesValid(EncodeOnce(key)) && NoSlash(EncodeOnce(key))
    ensures DecodeOnce(EncodeOnce(key)) == key
  {
    if key != "" {
      EncodedShape(key[1..]);
      var rest := EncodeOnce(key[1..]);
      if key[0] == '~' {
        assert ("~0" + rest)[2..] == rest;
      } else if key[0] == '/' {
        assert ("~1" + rest)[2..] == rest;
      } else {
        assert ([key[0]] + rest)[1..] == rest;
      }
    }
  }

  lemma {:induction false} EncodeAfterDecode(token: string)
    requires EscapesValid(token) && NoSlash(token)
    ensures EncodeOnce(DecodeOnce(token)) == token
  {
    if token == "" {
    } else if token[0] == '~' {
      EncodeAfterDecode(token[2..]);
      var rest := DecodeOnce(token[2..]);
      assert token == token[..2] + token[2..];
      assert token[..2] == if token[1] == '1' then "~1" else "~0";
    } else {
      EncodeAfterDecode(token[1..]);
      assert token == [token[0]] + token[1..];
      assert ([token[0]] + DecodeOnce(token[1..]))[1..] == DecodeOnce(token[1..]);
    }
  }

  /** Escaping and unescaping are inverse on valid tokens, so distinct tokens name distinct keys. */
  lemma {:induction false} EscapingRoundTrip(key: string, token: string)
    requires EscapesValid(token) && NoSlash(token)
    ensures Decode(Encode(key)) == key
    ensures EscapesValid(Encode(key)) && NoSlash(Encode(key))
    ensures Encode(Decode(token)) == token
  {
    EncodeInOnePass(key);
    EncodedShape(key);
    TwoPassesAreOne(EncodeOnce(key));
    TwoPassesAreOne(token);
    EncodeInOnePass(Decode(token));
    EncodeAfterDecode(token);
  }

  // -------------------------------------------- text prefixes and token prefixes

  /** The text that splits into these raw tokens. */
  function Flatten(raw: seq<string>): string {
    if raw == [] then "" else "/" + raw[0] + Flatten(raw[1..])
  }

  predicate ProperTokens(raw: seq<string>) {
    forall i :: 0 <= i < |raw| ==> NoSlash(raw[i]) && EscapesValid(raw[i])
  }

  lemma {:induction false} SplitParts(s: string)
    ensures forall i :: 0 <= i < |Split(s, '/')| ==> NoSlash(Split(s, '/')[i])
    ensures Flatten(Split(s, '/')) == "/" + s
  {
    if s == "" {
      assert Flatten([""]) == "/" + "" + Flatten([""][1..]);
    } else {
      SplitParts(s[1..]);
      var rest := Split(s[1..], '/');
      if s[0] == '/' {
        assert ([""] + rest)[1..] == rest;
      } else {
        var parts := Split(s, '/');
        assert parts[1..] == rest[1..];
        assert Flatten(rest) == "/" + rest[0] + Flatten(rest[1..]);
        assert s[1..] == rest[0] + Flatten(rest[1..]) by {
          assert Flatten(rest)[1..] == rest[0] + Flatten(rest[1..]);
          assert Flatten(rest)[1..] == s[1..];
        }
        assert parts[0] == [s[0]] + rest[0];
        assert Flatten(parts) == "/" + ([s[0]] + rest[0]) + Flatten(rest[1..]);
        assert s == [s[0]] + s[1..];
      }
    }
  }

  lemma {:induction false} SplitConcat(token: string, rest: string)
    requires NoSlash(token)
    ensures Split(token, '/') == [token]
    ensures Split(token + "/" + rest, '/') == [token] + Split(rest, '/')
  {
    if token == "" {
      assert token + "/" + rest == "/" + rest;
      assert ("/" + rest)[1..] == rest;
    } else {
      SplitConcat(token[1..], rest);
      assert (token + "/" + rest)[1..] == token[1..] + "/" + rest;
      assert token == [token[0]] + token[1..];
    }
  }

  lemma {:induction false} RawTokensStep(token: string, tail: string)
    requires NoSlash(token) && (tail != "" ==> tail[0] == '/')
    ensures RawTokens("/" + token + tail) == [token] + RawTokens(tail)
  {
    assert ("/" + token + tail)[1..] == token + tail;
    if tail == "" {
      assert token + tail == token;
      SplitConcat(token, "");
    } else {
      assert token + tail == token + "/" + tail[1..];
      SplitConcat(token, tail[1..]);
    }
  }

  lemma {:induction false} RawTokensOfFlatten(raw: seq<string>)
    requires forall i :: 0 <= i < |raw| ==> NoSlash(raw[i])
    ensures RawTokens(Flatten(raw)) == raw
  {
    if raw == [] {
    } else {
      RawTokensOfFlatten(raw[1..]);
      FlattenIsRooted(raw[1..]);
      RawTokensStep(raw[0], Flatten(raw[1..]));
      assert raw == [raw[0]] + raw[1..];
    }
  }

  lemma {:induction false} FlattenAppend(a: seq<string>, b: seq<string>)
    ensures Flatten(a + b) == Flatten(a) + Flatten(b)
  {
    if a == [] {
      assert a + b == b;
    } else {
      assert (a + b)[1..] == a[1..] + b;
      FlattenAppend(a[1..], b);
    }
  }

  lemma {:induction false} EscapesAppend(a: string, b: string)
    requires EscapesValid(a + b) && (b != "" ==> b[0] == '/')
    ensures EscapesValid(a) && EscapesValid(b)
  {
    if a == "" {
      assert a + b == b;
    } else if a[0] == '~' {
      assert (a + b)[1] in "01";
      if |a| > 1 {
        assert (a + b)[2..] == a[2..] + b;
        EscapesAppend(a[2..], b);
      }
    } else {
      assert (a + b)[1..] == a[1..] + b;
      EscapesAppend(a[1..], b);
    }
  }

  lemma {:induction false} FlattenIsRooted(raw: seq<string>)
    ensures Flatten(raw) != "" ==> Flatten(raw)[0] == '/'
  {
  }

  lemma {:induction false} EscapesOfFlatten(raw: seq<string>)
    requires EscapesValid(Flatten(raw))
    ensures forall i :: 0 <= i < |raw| ==> EscapesValid(raw[i])
  {
    if raw != [] {
      var tail := Flatten(raw[1..]);
      assert Flatten(raw)[1..] == raw[0] + tail;
      FlattenIsRooted(raw[1..]);
      EscapesAppend(raw[0], tail);
      EscapesOfFlatten(raw[1..]);
    }
  }

  /** A valid pointer is exactly the flattening of its raw tokens, each valid and slash-free. */
  lemma {:induction false} PointerText(p: string)
    requires ValidPointer(p)
    ensures Flatten(RawTokens(p)) == p
    ensures ProperTokens(RawTokens(p))
  {
    if p != "" {
      SplitParts(p[1..]);
      assert p == "/" + p[1..];
      EscapesOfFlatten(RawTokens(p));
    }
  }

  lemma {:induction false} DecodedPrefix(a: seq<string>, b: seq<string>)
    requires ProperTokens(a) && ProperTokens(b)
    ensures DecodeAll(a) <= DecodeAll(b) <==> a <= b
  {
    if DecodeAll(a) <= DecodeAll(b) {
      forall i | 0 <= i < |a| ensures a[i] == b[i] {
        assert DecodeAll(a)[i] == DecodeAll(b)[i];
        EscapingRoundTrip("", a[i]);
        EscapingRoundTrip("", b[i]);
      }
    }
    if a <= b {
      forall i | 0 <= i < |a| ensures DecodeAll(a)[i] == DecodeAll(b)[i] {
        assert a[i] == b[i];
      }
    }
  }

  lemma {:induction false} EscapesJoin(a: string, b: string)
    requires EscapesValid(a) && EscapesValid(b)
    ensures EscapesValid(a + "/" + b)
  {
    if a == "" {
      assert (a + "/" + b)[1..] == b;
    } else if a[0] == '~' {
      assert (a + "/" + b)[2..] == a[2..] + "/" + b;
      EscapesJoin(a[2..], b);
    } else {
      assert (a + "/" + b)[1..] == a[1..] + "/" + b;
      EscapesJoin(a[1..], b);
    }
  }

  lemma {:induction false} DecodeAllAppend(a: seq<string>, b: seq<string>)
    ensures DecodeAll(a + b) == DecodeAll(a) + DecodeAll(b)
  {
  }

  lemma {:induction false} AppendEscapes(p: string, q: string)
    requires ValidPointer(p) && ValidPointer(q)
    ensures ValidPointer(p + q)
  {
    if q == "" {
      assert p + q == p;
    } else {
      EscapesJoin(p, q[1..]);
      assert p + q == p + "/" + q[1..];
    }
  }

  /** Pointers concatenate as their tokens do. */
  lemma {:induction false} AppendPointer(p: string, q: string)
    requires ValidPointer(p) && ValidPointer(q)
    ensures ValidPointer(p + q)
    ensures Tokens(p + q) == Tokens(p) + Tokens(q)
  {
    AppendEscapes(p, q);
    RawTokensAppend(p, q);
    DecodeAllAppend(RawTokens(p), RawTokens(q));
  }

  lemma {:induction false} RawTokensAppend(p: string, q: string)
    requires ValidPointer(p) && ValidPointer(q)
    ensures RawTokens(p + q) == RawTokens(p) + RawTokens(q)
  {
    PointerText(p);
    PointerText(q);
    FlattenAppend(RawTokens(p), RawTokens(q));
    RawTokensOfFlatten(RawTokens(p) + RawTokens(q));
  }

  lemma {:induction false} SingleToken(token: string)
    requires EscapesValid(token) && NoSlash(token)
    ensures ValidPointer("/" + token) && RawTokens("/" + token) == [token]
  {
    assert ("/" + token)[1..] == token;
    SplitConcat(token, "");
  }

  /** Extending a pointer by an encoded key extends its tokens by that key. */
  lemma {:induction false} AppendKey(p: string, key: string)
    requires ValidPointer(p)
    ensures ValidPointer(p + "/" + Encode(key))
    ensures Tokens(p + "/" + Encode(key)) == Tokens(p) + [key]
  {
    var token := Encode(key);
    EscapingRoundTrip(key, "");
    SingleToken(token);
    assert p + "/" + token == p + ("/" + token);
    AppendPointer(p, "/" + token);
    assert Tokens("/" + token) == [key];
  }

  lemma {:induction false} UnderExtendsTokens(path: string, root: string)
    requires ValidPointer(path) && ValidPointer(root) && Under(path, root)
    ensures RawTokens(root) <= RawTokens(path)
  {
    if path != root {
      var rest := path[|root|..];
      assert path == root + rest && rest[0] == '/' by {
        assert path[|root|] == (root + "/")[|root|];
      }
      EscapesAppend(root, rest);
      RawTokensAppend(root, rest);
    }
  }

  lemma {:induction false} TokensExtendUnder(path: string, root: string)
    requires ValidPointer(path) && ValidPointer(root) && RawTokens(root) <= RawTokens(path)
    ensures Under(path, root)
  {
    PointerText(path);
    PointerText(root);
    var rp, rr := RawTokens(path), RawTokens(root);
    var more := rp[|rr|..];
    assert rp == rr + more;
    FlattenAppend(rr, more);
    FlattenIsRooted(more);
    if Flatten(more) == "" {
      assert path == root;
    } else {
      assert path == root + Flatten(more);
      assert root + "/" <= path;
    }
  }

  /** `path` lies textually under `root` exactly when `root`'s tokens begin `path`'s tokens. */
  lemma {:induction false} UnderIsTokenPrefix(path: string, root: string)
    requires ValidPointer(path) && ValidPointer(root)
    ensures Under(path, root) <==> Tokens(root) <= Tokens(path)
  {
    PointerText(path);
    PointerText(root);
    DecodedPrefix(RawTokens(root), RawTokens(path));
    if Under(path, root) {
      UnderExtendsTokens(path, root);
    }
    if RawTokens(root) <= RawTokens(path) {
      TokensExtendUnder(path, root);
    }
  }

  /** Textual overlap of valid pointers is comparability of their decoded tokens. */
  lemma {:induction false} OverlapIsComparability(left: string, right: string)
    requires ValidPointer(left) && ValidPointer(right)
    ensures Overlap(left, right) <==> Comparable(Tokens(left), Tokens(right))
  {
    UnderIsTokenPrefix(left, right);
    UnderIsTokenPrefix(right, left);
  }

  /** A name with nothing to escape is its own token. */
  lemma {:induction false} PlainName(name: string)
    requires forall i :: 0 <= i < |name| ==> name[i] != '~' && name[i] != '/'
    ensures ValidPointer("/" + name) && Tokens("/" + name) == [name]
  {
    PlainText(name);
    EncodeInOnePass(name);
    EscapingRoundTrip(name, "");
    SingleToken(name);
    assert Tokens("/" + name) == [Decode(name)];
  }

  lemma {:induction false} PlainText(s: string)
    requires forall i :: 0 <= i < |s| ==> s[i] != '~' && s[i] != '/'
    ensures EncodeOnce(s) == s
  {
    if s != "" {
      PlainText(s[1..]);
      assert s == [s[0]] + s[1..];
    }
  }

  /** Two valid pointers with the same tokens are the same text. */
  lemma {:induction false} TokensDetermineText(p: string, q: string)
    requires ValidPointer(p) && ValidPointer(q) && Tokens(p) == Tokens(q)
    ensures p == q
  {
    PointerText(p);
    PointerText(q);
    DecodedPrefix(RawTokens(p), RawTokens(q));
    DecodedPrefix(RawTokens(q), RawTokens(p));
    assert RawTokens(p) == RawTokens(q);
  }

  /** The two escapes, and their order: `~01` is a tilde and a one, never a slash (RFC 6901 section 4). */
  lemma {:induction false} EscapesMean()
    ensures Decode("~0") == "~" && Decode("~1") == "/" && Decode("~01") == "~1" && Decode("~10") == "/0"
    ensures Encode("~") == "~0" && Encode("/") == "~1"
  {
  }
}
