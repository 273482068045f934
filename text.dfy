/** String normalisation used by the dispatcher: `trim()` followed by
    `toLowerCase()`. Whitespace is the ECMAScript WhiteSpace and
    LineTerminator set; case folding is restricted to ASCII letters. */
module Text {

  /** The code points that `String.prototype.trim` strips from either end.
      None of them is an ASCII letter, so lower-casing never touches one. */
  predicate IsSpace(c: char)
    ensures IsSpace(c) ==> !IsUpper(c) && !('a' <= c <= 'z')
  {
    c == '\t' || c == '\n' || c == '\U{B}' || c == '\U{C}' || c == '\r' || c == ' '
    || c == '\U{A0}' || c == '\U{1680}' || '\U{2000}' <= c <= '\U{200A}'
    || c == '\U{2028}' || c == '\U{2029}' || c == '\U{202F}' || c == '\U{205F}'
    || c == '\U{3000}' || c == '\U{FEFF}'
  }

  predicate AllSpace(s: string) {
    forall i :: 0 <= i < |s| ==> IsSpace(s[i])
  }

  /** Neither end of `s` is whitespace. */
  predicate Trimmed(s: string) {
    s == [] || (!IsSpace(s[0]) && !IsSpace(s[|s| - 1]))
  }

  predicate IsUpper(c: char) {
    'A' <= c <= 'Z'
  }

  /** How many whitespace characters `s` starts with. */
  function LeadingSpaces(s: string): (k: nat)
    ensures k <= |s|
    ensures forall i :: 0 <= i < k ==> IsSpace(s[i])
    ensures k < |s| ==> !IsSpace(s[k])
  {
    if s != [] && IsSpace(s[0]) then
      var k := LeadingSpaces(s[1..]);
      assert forall i :: 1 <= i < 1 + k ==> s[i] == s[1..][i - 1];
      1 + k
    else
      0
  }

  /** How many whitespace characters `s` ends with. */
  function TrailingSpaces(s: string): (k: nat)
    ensures k <= |s|
    ensures forall i :: |s| - k <= i < |s| ==> IsSpace(s[i])
    ensures k < |s| ==> !IsSpace(s[|s| - 1 - k])
  {
    if s != [] && IsSpace(s[|s| - 1]) then
      var k := TrailingSpaces(s[..|s| - 1]);
      assert forall i :: |s| - 1 - k <= i < |s| - 1 ==> s[i] == s[..|s| - 1][i];
      1 + k
    else
      0
  }

  /** `s.trim()`: drops the leading whitespace, then the trailing
      whitespace. The result has no whitespace at either end, and it is
      empty exactly when `s` is all whitespace. */
  function Trim(s: string): (r: string)
    ensures Trimmed(r)
    ensures |r| <= |s|
    ensures r == [] <==> AllSpace(s)
  {
    var a := LeadingSpaces(s);
    var t := s[a..];
    var r := t[..|t| - TrailingSpaces(t)];
    assert r != [] ==> r[0] == s[a] && r[|r| - 1] == t[|t| - 1 - TrailingSpaces(t)];
    r
  }

  /** ASCII lower-casing of one character. */
  function LowerChar(c: char): (d: char)
    ensures IsUpper(c) ==> d as int == c as int + 32
    ensures !IsUpper(c) ==> d == c
    ensures !IsUpper(d)
  {
    if IsUpper(c) then (c as int - 'A' as int + 'a' as int) as char else c
  }

  /** `s.toLowerCase()` on ASCII letters: each character lower-cased in
      place, so the length is kept and no upper-case letter is left. */
  function ToLower(s: string): (r: string)
    ensures |r| == |s|
    ensures forall i :: 0 <= i < |r| ==> !IsUpper(r[i])
  {
    seq(|s|, i requires 0 <= i < |s| => LowerChar(s[i]))
  }

  /** `cmd.trim().toLowerCase()` */
  function Normalize(s: string): (r: string)
    ensures Trimmed(r)
    ensures |r| <= |s|
    ensures forall i :: 0 <= i < |r| ==> !IsUpper(r[i])
    ensures r == [] <==> AllSpace(s)
  {
    var t := Trim(s);
    ToLowerKeepsTrimmed(t);
    ToLower(t)
  }

  // ---------------------------------------------------------------------
  // Trim is characterised by padding: it returns exactly the trimmed core.

  /** The count of leading whitespace is the only `k` with whitespace
      before it and none at it. */
  lemma {:induction false} LeadingSpacesUnique(s: string, k: nat)
    requires k <= |s|
    requires forall i :: 0 <= i < k ==> IsSpace(s[i])
    requires k < |s| ==> !IsSpace(s[k])
    ensures LeadingSpaces(s) == k
  {
  }

  lemma {:induction false} TrailingSpacesUnique(s: string, k: nat)
    requires k <= |s|
    requires forall i :: |s| - k <= i < |s| ==> IsSpace(s[i])
    requires k < |s| ==> !IsSpace(s[|s| - 1 - k])
    ensures TrailingSpaces(s) == k
  {
  }

  /** Reference definition: whitespace around a trimmed core is removed
      and the core is kept as it is. */
  lemma {:induction false} TrimOfPadded(p: string, m: string, q: string)
    requires AllSpace(p) && AllSpace(q) && Trimmed(m)
    ensures Trim(p + m + q) == m
  {
    var s := p + m + q;
    if m == [] {
      assert forall i :: 0 <= i < |s| ==> IsSpace(s[i]) by {
        assert forall i :: |p| <= i < |s| ==> s[i] == q[i - |p|];
      }
    } else {
      assert s[|p|] == m[0];
      LeadingSpacesUnique(s, |p|);
      var t := s[|p|..];
      assert t == m + q;
      assert t[|t| - 1 - |q|] == m[|m| - 1];
      TrailingSpacesUnique(t, |q|);
      assert t[..|t| - |q|] == m;
    }
  }

  /** The whitespace that `Trim` removes in front of its result. */
  function Leading(s: string): string {
    s[..LeadingSpaces(s)]
  }

  /** The whitespace that `Trim` removes behind its result. */
  function Trailing(s: string): string {
    var t := s[LeadingSpaces(s)..];
    t[|t| - TrailingSpaces(t)..]
  }

  /** Regrouping a concatenation of three strings, used by
      `TrimDecomposes` and `Portfolio.DispatchEchoesThenReplies`. */
  lemma {:induction false} Assoc(a: string, b: string, c: string)
    ensures a + b + c == a + (b + c)
  {
  }

  /** Every string is its trim surrounded by whitespace. */
  lemma {:induction false} TrimDecomposes(s: string)
    ensures AllSpace(Leading(s)) && AllSpace(Trailing(s))
    ensures s == Leading(s) + Trim(s) + Trailing(s)
  {
    var a := LeadingSpaces(s);
    var t := s[a..];
    var n := |t| - TrailingSpaces(t);
    assert Leading(s) == s[..a];
    assert Trim(s) == t[..n];
    assert Trailing(s) == t[n..];
    assert t == t[..n] + t[n..];
    assert s == s[..a] + t;
    Assoc(s[..a], t[..n], t[n..]);
  }

  lemma {:induction false} AllSpaceAppend(a: string, b: string)
    requires AllSpace(a) && AllSpace(b)
    ensures AllSpace(a + b)
  {
    assert forall i :: |a| <= i < |a + b| ==> (a + b)[i] == b[i - |a|];
  }

  /** Whitespace added around a string does not change its trim. */
  lemma {:induction false} TrimIgnoresPadding(p: string, s: string, q: string)
    requires AllSpace(p) && AllSpace(q)
    ensures Trim(p + s + q) == Trim(s)
  {
    TrimDecomposes(s);
    var p', m, q' := Leading(s), Trim(s), Trailing(s);
    calc {
      p + s + q;
      p + (p' + m + q') + q;
      (p + p') + m + (q' + q);
    }
    AllSpaceAppend(p, p');
    AllSpaceAppend(q', q);
    TrimOfPadded(p + p', m, q' + q);
  }

  lemma {:induction false} TrimIdempotent(s: string)
    ensures Trim(Trim(s)) == Trim(s)
  {
    assert [] + Trim(s) + [] == Trim(s);
    TrimOfPadded([], Trim(s), []);
  }

  // ---------------------------------------------------------------------
  // Lower-casing

  lemma {:induction false} ToLowerAppend(a: string, b: string)
    ensures ToLower(a + b) == ToLower(a) + ToLower(b)
  {
    assert forall i :: 0 <= i < |a + b| ==> ToLower(a + b)[i] == (ToLower(a) + ToLower(b))[i];
  }

  lemma {:induction false} ToLowerIdempotent(s: string)
    ensures ToLower(ToLower(s)) == ToLower(s)
  {
  }

  lemma {:induction false} ToLowerKeepsSpace(s: string)
    ensures AllSpace(ToLower(s)) <==> AllSpace(s)
  {
    var l := ToLower(s);
    assert forall i :: 0 <= i < |s| ==> (IsSpace(l[i]) <==> IsSpace(s[i]));
  }

  lemma {:induction false} ToLowerKeepsTrimmed(s: string)
    ensures Trimmed(ToLower(s)) <==> Trimmed(s)
  {
    var l := ToLower(s);
    assert l != [] ==> l[0] == LowerChar(s[0]) && l[|l| - 1] == LowerChar(s[|s| - 1]);
  }

  /** Lower-casing neither creates nor removes whitespace, so it commutes
      with trimming. */
  lemma {:induction false} TrimToLower(s: string)
    ensures Trim(ToLower(s)) == ToLower(Trim(s))
  {
    TrimDecomposes(s);
    var p, m, q := Leading(s), Trim(s), Trailing(s);
    ToLowerAppend(p + m, q);
    ToLowerAppend(p, m);
    ToLowerKeepsSpace(p);
    ToLowerKeepsSpace(q);
    ToLowerKeepsTrimmed(m);
    TrimOfPadded(ToLower(p), ToLower(m), ToLower(q));
  }

  /** The normalised command does not depend on surrounding whitespace or
      on the case of ASCII letters. */
  lemma {:induction false} NormalizeIgnoresCaseAndPadding(p: string, u: string, q: string, s: string)
    requires AllSpace(p) && AllSpace(q)
    requires ToLower(u) == ToLower(s)
    ensures Normalize(p + u + q) == Normalize(s)
  {
    ToLowerAppend(p + u, q);
    ToLowerAppend(p, u);
    ToLowerKeepsSpace(p);
    ToLowerKeepsSpace(q);
    calc {
      Normalize(p + u + q);
      ToLower(Trim(p + u + q));
      { TrimToLower(p + u + q); }
      Trim(ToLower(p + u + q));
      Trim(ToLower(p) + ToLower(u) + ToLower(q));
      { TrimIgnoresPadding(ToLower(p), ToLower(u), ToLower(q)); }
      Trim(ToLower(s));
      { TrimToLower(s); }
      Normalize(s);
    }
  }

  /** A trimmed string without upper-case letters is its own normal form. */
  lemma {:induction false} NormalFormIsFixed(s: string)
    requires Trimmed(s)
    requires forall i :: 0 <= i < |s| ==> !IsUpper(s[i])
    ensures ToLower(s) == s
    ensures Normalize(s) == s
  {
    assert ToLower(s) == s by {
      assert forall i :: 0 <= i < |s| ==> ToLower(s)[i] == LowerChar(s[i]) == s[i];
    }
    assert [] + s + [] == s;
    TrimOfPadded([], s, []);
  }

  lemma {:induction false} NormalizeIdempotent(s: string)
    ensures Normalize(Normalize(s)) == Normalize(s)
  {
    TrimToLower(Trim(s));
    TrimIdempotent(s);
    ToLowerIdempotent(Trim(s));
  }
}
