/**
 * `String.prototype.trim` as the application's forms use it: whitespace is the
 * ECMAScript set of white-space and line-terminator code points.
 */
module Text {

  /** ECMAScript WhiteSpace (tab, vertical tab, form feed, BOM and every Zs
      space separator) or LineTerminator (LF, CR, LS, PS). */
  predicate IsWhitespace(c: char) {
    || c == '\t' || c == '\U{000B}' || c == '\U{000C}' || c == ' '
    || c == '\U{00A0}' || c == '\U{FEFF}' || c == '\U{1680}'
    || ('\U{2000}' <= c <= '\U{200A}')
    || c == '\U{202F}' || c == '\U{205F}' || c == '\U{3000}'
    || c == '\n' || c == '\r' || c == '\U{2028}' || c == '\U{2029}'
  }

  /** Every character of `s` is whitespace (vacuously true of ""). */
  predicate AllWhitespace(s: string) {
    forall i :: 0 <= i < |s| ==> IsWhitespace(s[i])
  }

  /** Drops the leading whitespace: the result is a suffix of `s`, what was
      dropped is whitespace, and what is kept does not start with whitespace. */
  function TrimStart(s: string): (r: string)
    ensures |r| <= |s| && r == s[|s| - |r|..]
    ensures AllWhitespace(s[..|s| - |r|])
    ensures r == [] || !IsWhitespace(r[0])
  {
    if s != [] && IsWhitespace(s[0]) then TrimStart(s[1..]) else s
  }

  /** Drops the trailing whitespace: the result is a prefix of `s`, what was
      dropped is whitespace, and what is kept does not end with whitespace. */
  function TrimEnd(s: string): (r: string)
    ensures |r| <= |s| && r == s[..|r|]
    ensures AllWhitespace(s[|r|..])
    ensures r == [] || !IsWhitespace(r[|r| - 1])
  {
    if s != [] && IsWhitespace(s[|s| - 1]) then
      var r := TrimEnd(s[..|s| - 1]);
      assert s[|r|..] == s[..|s| - 1][|r|..] + [s[|s| - 1]];
      r
    else s
  }

  /** `r` occurs in `s` at offset `k`. */
  predicate SliceAt(s: string, k: int, r: string) {
    0 <= k <= |s| - |r| && r == s[k..k + |r|]
  }

  /** `r` occurs in `s` at offset `k`, with only whitespace before and after. */
  predicate PaddedAt(s: string, k: int, r: string) {
    SliceAt(s, k, r) && AllWhitespace(s[..k]) && AllWhitespace(s[k + |r|..])
  }

  /** `s.trim()`: the slice of `s` left once the whitespace at both ends is
      removed; it is empty exactly when `s` is whitespace only. */
  function Trim(s: string): (r: string)
    ensures r == [] <==> AllWhitespace(s)
    ensures r != [] ==> !IsWhitespace(r[0]) && !IsWhitespace(r[|r| - 1])
    ensures exists k :: PaddedAt(s, k, r)
  {
    TrimBothEnds(s);
    TrimEnd(TrimStart(s))
  }

  /** Trimming the start and then the end keeps a slice of `s`, padded by
      whitespace, that is empty exactly when `s` is whitespace only. */
  lemma {:induction false} TrimBothEnds(s: string)
    ensures PaddedAt(s, |s| - |TrimStart(s)|, TrimEnd(TrimStart(s)))
    ensures TrimEnd(TrimStart(s)) == [] <==> AllWhitespace(s)
  {
    var t := TrimStart(s);
    JoinPadding(s, |s| - |t|, t);
  }

  /** When `s[..k]` is whitespace and `t == s[k..]` does not start with
      whitespace, trimming the end of `t` leaves a slice of `s` at `k` padded
      by whitespace, empty exactly when all of `s` is whitespace. */
  lemma {:induction false} JoinPadding(s: string, k: nat, t: string)
    requires k <= |s| && t == s[k..] && AllWhitespace(s[..k])
    requires t == [] || !IsWhitespace(t[0])
    ensures PaddedAt(s, k, TrimEnd(t))
    ensures TrimEnd(t) == [] <==> AllWhitespace(s)
  {
    var r := TrimEnd(t);
    assert s[k..k + |r|] == t[..|r|];
    assert s[k + |r|..] == t[|r|..];
    if r == [] {
      assert t == t[|r|..];
      assert t == [];
      assert s == s[..k];
    } else {
      assert s[k] == r[0];
    }
  }

  /** Trimming an already trimmed string changes nothing. */
  lemma {:induction false} TrimIdempotent(s: string)
    ensures Trim(Trim(s)) == Trim(s)
  {
    var r := Trim(s);
    if r != [] {
      assert TrimStart(r) == r;
      assert TrimEnd(r) == r;
    }
  }

  /** Leading whitespace before a string that starts with something else is
      exactly what TrimStart removes. */
  lemma {:induction false} TrimStartPadded(left: string, rest: string)
    requires AllWhitespace(left)
    requires rest != [] && !IsWhitespace(rest[0])
    ensures TrimStart(left + rest) == rest
  {
    if left == [] {
      assert left + rest == rest;
    } else {
      assert (left + rest)[1..] == left[1..] + rest;
      TrimStartPadded(left[1..], rest);
    }
  }

  /** Trailing whitespace after a string that ends with something else is
      exactly what TrimEnd removes. */
  lemma {:induction false} TrimEndPadded(rest: string, right: string)
    requires AllWhitespace(right)
    requires rest != [] && !IsWhitespace(rest[|rest| - 1])
    ensures TrimEnd(rest + right) == rest
  {
    if right == [] {
      assert rest + right == rest;
    } else {
      var n := |right| - 1;
      assert (rest + right)[..|rest + right| - 1] == rest + right[..n];
      TrimEndPadded(rest, right[..n]);
    }
  }

  /** Whitespace padding around a string that neither starts nor ends with
      whitespace is exactly what trimming removes. */
  lemma TrimPadded(left: string, s: string, right: string)
    requires AllWhitespace(left) && AllWhitespace(right)
    requires s != [] && !IsWhitespace(s[0]) && !IsWhitespace(s[|s| - 1])
    ensures Trim(left + s + right) == s
  {
    assert left + s + right == left + (s + right);
    TrimStartPadded(left, s + right);
    TrimEndPadded(s, right);
  }
}
