/**
 * Models of the `strings` package functions the client uses: TrimSpace, ToLower,
 * HasPrefix, TrimPrefix and Replace with a count of one. Strings are sequences of
 * Unicode scalar values.
 */
module Text {

  /** Concatenation is associative; stated once so that proofs can cite it. */
  lemma SeqAssoc<T>(a: seq<T>, b: seq<T>, c: seq<T>)
    ensures a + (b + c) == (a + b) + c
  {
  }

  /** The code points Go's `unicode.IsSpace` accepts (Unicode White_Space). */
  predicate IsSpace(c: char) {
    || c == ' ' || c == '\t' || c == '\n' || c == '\U{B}' || c == '\U{C}' || c == '\r'
    || c == '\U{85}' || c == '\U{A0}' || c == '\U{1680}'
    || ('\U{2000}' <= c <= '\U{200A}')
    || c == '\U{2028}' || c == '\U{2029}' || c == '\U{202F}' || c == '\U{205F}' || c == '\U{3000}'
  }

  predicate AllSpace(s: string) {
    forall i :: 0 <= i < |s| ==> IsSpace(s[i])
  }

  /** Neither end of `s` is white space. */
  predicate Trimmed(s: string) {
    s == [] || (!IsSpace(s[0]) && !IsSpace(s[|s| - 1]))
  }

  /** Drops the leading white space. */
  function TrimLeft(s: string): (r: string)
    ensures |r| <= |s|
    ensures r == [] || !IsSpace(r[0])
  {
    if |s| > 0 && IsSpace(s[0]) then TrimLeft(s[1..]) else s
  }

  /** Drops the trailing white space. */
  function TrimRight(s: string): (r: string)
    ensures |r| <= |s|
    ensures r == [] || !IsSpace(r[|r| - 1])
    ensures r != [] ==> r[0] == s[0]
  {
    if |s| > 0 && IsSpace(s[|s| - 1]) then TrimRight(s[..|s| - 1]) else s
  }

  /** TrimLeft keeps the suffix of `s` left after a white-space prefix. */
  lemma {:induction false} TrimLeftShape(s: string)
    ensures TrimLeft(s) == s[|s| - |TrimLeft(s)|..]
    ensures AllSpace(s[..|s| - |TrimLeft(s)|])
  {
    if |s| > 0 && IsSpace(s[0]) {
      var r := TrimLeft(s[1..]);
      TrimLeftShape(s[1..]);
      assert s[1..][..|s[1..]| - |r|] == s[1..|s| - |r|];
    }
  }

  /** TrimRight keeps the prefix of `s` left before a white-space suffix. */
  lemma {:induction false} TrimRightShape(s: string)
    ensures TrimRight(s) == s[..|TrimRight(s)|]
    ensures AllSpace(s[|TrimRight(s)|..])
  {
    if |s| > 0 && IsSpace(s[|s| - 1]) {
      var r := TrimRight(s[..|s| - 1]);
      TrimRightShape(s[..|s| - 1]);
      assert s[..|s| - 1][|r|..] == s[|r|..|s| - 1];
    }
  }

  /** `strings.TrimSpace`: leading white space first, then trailing. */
  function TrimSpace(s: string): (r: string)
    ensures Trimmed(r)
  {
    TrimRight(TrimLeft(s))
  }

  /**
   * TrimSpace removes exactly the white space at both ends: `s` is `r` with a
   * white-space prefix and suffix around it.
   */
  lemma TrimSpaceShape(s: string) returns (i: nat, j: nat)
    ensures i <= j <= |s| && TrimSpace(s) == s[i..j]
    ensures AllSpace(s[..i]) && AllSpace(s[j..])
  {
    var l := TrimLeft(s);
    var r := TrimRight(l);
    TrimLeftShape(s);
    TrimRightShape(l);
    i, j := |s| - |l|, |s| - |l| + |r|;
    assert l[..|r|] == s[i..j];
    assert s[j..] == l[|r|..];
  }

  /** A string trims to nothing exactly when it is all white space. */
  lemma TrimSpaceEmpty(s: string)
    ensures TrimSpace(s) == [] <==> AllSpace(s)
  {
    var i, j := TrimSpaceShape(s);
    if TrimSpace(s) == [] {
      assert s == s[..i] + s[j..];
    }
  }

  /** TrimLeft of white space followed by a string that does not start with white space. */
  lemma {:induction false} TrimLeftOf(a: string, m: string)
    requires AllSpace(a)
    requires m == [] || !IsSpace(m[0])
    ensures TrimLeft(a + m) == m
  {
    if a != [] {
      assert (a + m)[1..] == a[1..] + m;
      TrimLeftOf(a[1..], m);
    }
  }

  /** TrimRight of a string that does not end in white space, followed by white space. */
  lemma {:induction false} TrimRightOf(m: string, b: string)
    requires AllSpace(b)
    requires m == [] || !IsSpace(m[|m| - 1])
    ensures TrimRight(m + b) == m
  {
    if b != [] {
      assert (m + b)[..|m + b| - 1] == m + b[..|b| - 1];
      TrimRightOf(m, b[..|b| - 1]);
    }
  }

  /**
   * The reference characterisation: whatever white space surrounds a trimmed
   * string, TrimSpace gives that string back.
   */
  lemma TrimSpaceOf(a: string, m: string, b: string)
    requires AllSpace(a) && AllSpace(b) && Trimmed(m)
    ensures TrimSpace(a + m + b) == m
  {
    if m == [] {
      assert a + m + b == a + b;
      TrimLeftOf(a + b, []);
      assert a + b + [] == a + b;
    } else {
      assert a + m + b == a + (m + b);
      TrimLeftOf(a, m + b);
      TrimRightOf(m, b);
    }
  }

  /** A trimmed string is its own TrimSpace. */
  lemma TrimSpaceOfTrimmed(m: string)
    requires Trimmed(m)
    ensures TrimSpace(m) == m
  {
    TrimSpaceOf([], m, []);
    assert [] + m + [] == m;
  }

  /** TrimSpace is idempotent. */
  lemma TrimSpaceIdempotent(s: string)
    ensures TrimSpace(TrimSpace(s)) == TrimSpace(s)
  {
    TrimSpaceOfTrimmed(TrimSpace(s));
  }

  /** ASCII case mapping of one character; every other character is kept. */
  function LowerChar(c: char): char {
    if 'A' <= c <= 'Z' then (c as int + 32) as char else c
  }

  predicate IsUpperAscii(c: char) {
    'A' <= c <= 'Z'
  }

  /** `strings.ToLower`, restricted to ASCII letters. */
  function ToLower(s: string): (r: string)
    ensures |r| == |s|
    ensures forall i :: 0 <= i < |s| ==> r[i] == LowerChar(s[i])
  {
    seq(|s|, i requires 0 <= i < |s| => LowerChar(s[i]))
  }

  /** Lowering leaves no upper-case letter, keeps every white-space character in place, and is idempotent. */
  lemma ToLowerFacts(s: string)
    ensures forall i :: 0 <= i < |s| ==> !IsUpperAscii(ToLower(s)[i])
    ensures forall i :: 0 <= i < |s| ==> (IsSpace(ToLower(s)[i]) <==> IsSpace(s[i]))
    ensures ToLower(ToLower(s)) == ToLower(s)
  {
  }

  /** `strings.HasPrefix`. */
  predicate HasPrefix(s: string, p: string) {
    |p| <= |s| && s[..|p|] == p
  }

  /** `s` starts with `p` exactly when `s` is `p` followed by something. */
  lemma HasPrefixOf(p: string, r: string, s: string)
    ensures HasPrefix(p + r, p)
    ensures HasPrefix(s, p) <==> |p| <= |s| && s == p + s[|p|..]
  {
    assert (p + r)[..|p|] == p;
    if |p| <= |s| && s == p + s[|p|..] {
      assert s[..|p|] == (p + s[|p|..])[..|p|];
    }
  }

  /** `strings.TrimPrefix`: `s` without `p` when `s` starts with `p`, else `s` unchanged. */
  function TrimPrefix(s: string, p: string): (r: string)
    ensures HasPrefix(s, p) ==> p + r == s
    ensures !HasPrefix(s, p) ==> r == s
  {
    if HasPrefix(s, p) then s[|p|..] else s
  }

  /**
   * `strings.Replace(s, [c], repl, 1)`: the first occurrence of `c`, if any, is
   * replaced by `repl`; the rest of `s` is copied.
   */
  function ReplaceFirst(s: string, c: char, repl: string): (r: string)
    ensures c !in s ==> r == s
  {
    if s == [] then []
    else if s[0] == c then repl + s[1..]
    else [s[0]] + ReplaceFirst(s[1..], c, repl)
  }

  /** The characterisation of ReplaceFirst: before the first `c` nothing changes. */
  lemma {:induction false} ReplaceFirstAt(p: string, c: char, q: string, repl: string)
    requires c !in p
    ensures ReplaceFirst(p + ([c] + q), c, repl) == p + (repl + q)
  {
    var t := [c] + q;
    if p != [] {
      assert (p + t)[0] == p[0] && (p + t)[1..] == p[1..] + t;
      ReplaceFirstAt(p[1..], c, q, repl);
      assert p + (repl + q) == [p[0]] + (p[1..] + (repl + q));
    } else {
      assert p + t == t && p + (repl + q) == repl + q;
    }
  }
}
