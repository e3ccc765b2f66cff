/**
 * The few JavaScript string operations the modelled code relies on:
 * `startsWith`, `includes` and `trim`, over strings as sequences of characters.
 */
module Text {

  /** The characters `String.prototype.trim` removes: ECMAScript's WhiteSpace and LineTerminator code points. */
  predicate IsJsWhitespace(c: char) {
    || c == '\t' || c == '\n' || c == '\U{000B}' || c == '\U{000C}' || c == '\r' || c == ' '
    || c == '\U{00A0}' || c == '\U{1680}' || ('\U{2000}' <= c <= '\U{200A}')
    || c == '\U{2028}' || c == '\U{2029}' || c == '\U{202F}' || c == '\U{205F}'
    || c == '\U{3000}' || c == '\U{FEFF}'
  }

  predicate AllWhitespace(s: string) {
    forall i :: 0 <= i < |s| ==> IsJsWhitespace(s[i])
  }

  /** `s.startsWith(p)` */
  predicate StartsWith(s: string, p: string) {
    |p| <= |s| && s[..|p|] == p
  }

  /** `t` occurs in `s` starting at index `i`. */
  predicate OccursAt(s: string, t: string, i: nat) {
    i + |t| <= |s| && s[i..i + |t|] == t
  }

  /** `s.includes(t)`: true exactly when `t` occurs somewhere in `s`. */
  function Contains(s: string, t: string): (b: bool)
    ensures b <==> exists i: nat :: OccursAt(s, t, i)
    decreases |s|
  {
    if |t| > |s| then false
    else if s[..|t|] == t then assert OccursAt(s, t, 0); true
    else
      var b := Contains(s[1..], t);
      assert b ==> exists i: nat :: OccursAt(s, t, i) by {
        if b {
          var i: nat :| OccursAt(s[1..], t, i);
          assert s[i + 1..i + 1 + |t|] == s[1..][i..i + |t|];
          assert OccursAt(s, t, i + 1);
        }
      }
      assert (exists i: nat :: OccursAt(s, t, i)) ==> b by {
        if exists i: nat :: OccursAt(s, t, i) {
          var i: nat :| OccursAt(s, t, i);
          assert i != 0;
          assert s[1..][i - 1..i - 1 + |t|] == s[i..i + |t|];
          assert OccursAt(s[1..], t, i - 1);
        }
      }
      b
  }

  /**
   * `s.length`: the number of UTF-16 code units, two for each character
   * outside the Basic Multilingual Plane.
   */
  function Utf16Length(s: string): (n: nat)
    ensures |s| <= n <= 2 * |s|
    ensures (forall i :: 0 <= i < |s| ==> s[i] <= '\U{FFFF}') ==> n == |s|
  {
    if s == [] then 0 else (if s[0] > '\U{FFFF}' then 2 else 1) + Utf16Length(s[1..])
  }

  /** `s.trimStart()`: drops the leading whitespace and nothing else. */
  function TrimStart(s: string): (r: string)
    ensures |r| <= |s| && r == s[|s| - |r|..]
    ensures AllWhitespace(s[..|s| - |r|])
    ensures r == [] || !IsJsWhitespace(r[0])
  {
    if s == [] || !IsJsWhitespace(s[0]) then s
    else
      var r := TrimStart(s[1..]);
      assert s[..|s| - |r|] == [s[0]] + s[1..][..|s| - 1 - |r|];
      r
  }

  /** `s.trimEnd()`: drops the trailing whitespace and nothing else. */
  function TrimEnd(s: string): (r: string)
    ensures |r| <= |s| && r == s[..|r|]
    ensures AllWhitespace(s[|r|..])
    ensures r == [] || !IsJsWhitespace(r[|r| - 1])
  {
    if s == [] || !IsJsWhitespace(s[|s| - 1]) then s
    else
      var r := TrimEnd(s[..|s| - 1]);
      assert s[|r|..] == s[..|s| - 1][|r|..] + [s[|s| - 1]];
      r
  }

  /** `s` is `r` with whitespace `s[..k]` before it and whitespace after it. */
  predicate FramedBy(s: string, r: string, k: nat) {
    k + |r| <= |s| && s[k..k + |r|] == r && AllWhitespace(s[..k]) && AllWhitespace(s[k + |r|..])
  }

  /** `s.trim()`: `s` is the result framed by whitespace, and the result neither starts nor ends with whitespace. */
  function Trim(s: string): (r: string)
    ensures |r| <= |s|
    ensures r == [] || (!IsJsWhitespace(r[0]) && !IsJsWhitespace(r[|r| - 1]))
    ensures exists k: nat :: FramedBy(s, r, k)
  {
    TrimFramed(s);
    TrimEnd(TrimStart(s))
  }

  lemma TrimFramed(s: string)
    ensures var m := TrimStart(s);
            var r := TrimEnd(m);
            && (r == [] || (!IsJsWhitespace(r[0]) && !IsJsWhitespace(r[|r| - 1])))
            && FramedBy(s, r, |s| - |m|)
  {
    var m := TrimStart(s);
    var r := TrimEnd(m);
    var k := |s| - |m|;
    TrimPieces(s, m, r, k);
  }

  /** `r` taken from the front of `m`, itself the back of `s` from `k` on. */
  lemma TrimPieces(s: string, m: string, r: string, k: nat)
    requires k <= |s| && m == s[k..] && |r| <= |m| && r == m[..|r|]
    requires AllWhitespace(s[..k]) && AllWhitespace(m[|r|..])
    requires m == [] || !IsJsWhitespace(m[0])
    ensures FramedBy(s, r, k)
    ensures r == [] || !IsJsWhitespace(r[0])
  {
    if r != [] {
      assert r[0] == m[0];
    }
    assert s[k..k + |r|] == r;
    assert s[k + |r|..] == m[|r|..];
  }

  /** A string made only of characters outside the Basic Multilingual Plane has twice their number in code units. */
  lemma {:induction false} Utf16LengthAstral(s: string)
    requires forall i :: 0 <= i < |s| ==> s[i] > '\U{FFFF}'
    ensures Utf16Length(s) == 2 * |s|
    decreases |s|
  {
    if s != [] {
      Utf16LengthAstral(s[1..]);
    }
  }

  /** A string that neither starts nor ends with whitespace trims to itself. */
  lemma TrimUnframed(s: string)
    requires s != [] && !IsJsWhitespace(s[0]) && !IsJsWhitespace(s[|s| - 1])
    ensures Trim(s) == s
  {
    TrimStartStops(s);
  }

  /** Trimming twice is trimming once. */
  lemma {:induction false} TrimIdempotent(s: string)
    ensures Trim(Trim(s)) == Trim(s)
  {
    var r := Trim(s);
    assert TrimStart(r) == r;
    assert TrimEnd(r) == r;
  }

  /** A string that is all whitespace trims to the empty string, and only such a string does. */
  lemma {:induction false} TrimEmptyIffBlank(s: string)
    ensures Trim(s) == [] <==> AllWhitespace(s)
  {
    var r := Trim(s);
    var k: nat :| FramedBy(s, r, k);
    if r == [] {
      forall i | 0 <= i < |s| ensures IsJsWhitespace(s[i]) {
        if i < k { assert s[..k][i] == s[i]; } else { assert s[k..][i - k] == s[i]; }
      }
    } else {
      assert s[k] == r[0];
    }
  }

  /** Whitespace in front of `s` is exactly what `trimStart` removes in front of it. */
  lemma {:induction false} TrimStartPadded(p: string, s: string)
    requires AllWhitespace(p)
    ensures TrimStart(p + s) == TrimStart(s)
    decreases |p|
  {
    if p != [] {
      assert (p + s)[0] == p[0];
      assert (p + s)[1..] == p[1..] + s;
      TrimStartPadded(p[1..], s);
    } else {
      assert p + s == s;
    }
  }

  /** Whitespace behind `s` is exactly what `trimEnd` removes behind it. */
  lemma {:induction false} TrimEndPadded(s: string, q: string)
    requires AllWhitespace(q)
    ensures TrimEnd(s + q) == TrimEnd(s)
    decreases |q|
  {
    if q != [] {
      var n := |s + q|;
      assert (s + q)[n - 1] == q[|q| - 1];
      assert (s + q)[..n - 1] == s + q[..|q| - 1];
      TrimEndPadded(s, q[..|q| - 1]);
    } else {
      assert s + q == s;
    }
  }

  /** Once a non-whitespace character is reached, `trimStart` keeps everything after it. */
  lemma {:induction false} TrimStartAppend(s: string, q: string)
    requires TrimStart(s) != []
    ensures TrimStart(s + q) == TrimStart(s) + q
    decreases |s|
  {
    var x := s + q;
    assert x[0] == s[0];
    if IsJsWhitespace(s[0]) {
      assert x[1..] == s[1..] + q;
      TrimStartAppend(s[1..], q);
      TrimStartSkips(s);
      TrimStartSkips(x);
    } else {
      TrimStartStops(s);
      TrimStartStops(x);
    }
  }

  lemma TrimStartSkips(s: string)
    requires s != [] && IsJsWhitespace(s[0])
    ensures TrimStart(s) == TrimStart(s[1..])
  {
  }

  lemma TrimStartStops(s: string)
    requires s != [] && !IsJsWhitespace(s[0])
    ensures TrimStart(s) == s
  {
  }

  /** `(p + s + q).trim() == s.trim()` whenever `p` and `q` are whitespace only. */
  lemma {:induction false} TrimIgnoresPadding(p: string, s: string, q: string)
    requires AllWhitespace(p) && AllWhitespace(q)
    ensures Trim(p + s + q) == Trim(s)
  {
    assert p + s + q == p + (s + q);
    TrimStartPadded(p, s + q);
    var m := TrimStart(s);
    assert Trim(s) == TrimEnd(m);
    assert Trim(p + s + q) == TrimEnd(TrimStart(s + q));
    if m != [] {
      TrimStartAppend(s, q);
      TrimEndPadded(m, q);
    } else {
      TrimStartBlank(s, q);
    }
  }

  /** When `s` is all whitespace, so is `s + q` for whitespace `q`, and it trims to nothing. */
  lemma TrimStartBlank(s: string, q: string)
    requires TrimStart(s) == [] && AllWhitespace(q)
    ensures TrimStart(s + q) == []
  {
    assert s[..|s|] == s;
    assert AllWhitespace(s + q) by {
      forall i | 0 <= i < |s + q| ensures IsJsWhitespace((s + q)[i]) {
        if i < |s| { assert (s + q)[i] == s[i]; } else { assert (s + q)[i] == q[i - |s|]; }
      }
    }
    TrimStartPadded(s + q, []);
    assert s + q + [] == s + q;
  }

  /**
   * A needle that neither starts nor ends with whitespace occurs in `p + s + q`
   * exactly when it occurs in `s`, whenever `p` and `q` are whitespace only.
   */
  lemma {:induction false} ContainsIgnoresPadding(p: string, s: string, q: string, t: string)
    requires AllWhitespace(p) && AllWhitespace(q)
    requires t != [] && !IsJsWhitespace(t[0]) && !IsJsWhitespace(t[|t| - 1])
    ensures Contains(p + s + q, t) <==> Contains(s, t)
  {
    var x := p + s + q;
    if Contains(s, t) {
      var i: nat :| OccursAt(s, t, i);
      assert x[|p| + i..|p| + i + |t|] == s[i..i + |t|];
      assert OccursAt(x, t, |p| + i);
    }
    if Contains(x, t) {
      var i: nat :| OccursAt(x, t, i);
      assert x[i] == t[0];
      assert i >= |p|;
      assert x[i + |t| - 1] == t[|t| - 1];
      assert i + |t| <= |p| + |s|;
      assert s[i - |p|..i - |p| + |t|] == x[i..i + |t|];
      assert OccursAt(s, t, i - |p|);
    }
  }
}
