/**
 * The string built-ins the storefront relies on: the `\s` class and `trim`,
 * `toLowerCase`, `includes` and `length` (counted in UTF-16 code units).
 */
module JsString {

  /**
   * ECMAScript WhiteSpace and LineTerminator code points: what `\s` matches
   * and what `trim` strips.
   */
  predicate IsWhitespace(c: char)
  {
    c == '\t' || c == '\n' || c == '\U{000B}' || c == '\U{000C}' || c == '\r' || c == ' ' ||
    c == '\U{00A0}' || c == '\U{1680}' || ('\U{2000}' <= c <= '\U{200A}') ||
    c == '\U{2028}' || c == '\U{2029}' || c == '\U{202F}' || c == '\U{205F}' ||
    c == '\U{3000}' || c == '\U{FEFF}'
  }

  /** `s.trimStart()`: the suffix left after dropping leading whitespace. */
  function TrimStart(s: string): (r: string)
    ensures |r| <= |s|
  {
    if s != [] && IsWhitespace(s[0]) then TrimStart(s[1..]) else s
  }

  /** `trimStart` drops a whitespace prefix and stops at the first other character. */
  lemma {:induction false} TrimStartFacts(s: string)
    ensures var r := TrimStart(s);
      && r == s[|s| - |r|..]
      && (forall k :: 0 <= k < |s| - |r| ==> IsWhitespace(s[k]))
      && (r != [] ==> !IsWhitespace(r[0]))
  {
    if s != [] && IsWhitespace(s[0]) {
      TrimStartFacts(s[1..]);
      var r := TrimStart(s);
      assert forall k :: 1 <= k < |s| - |r| ==> s[k] == s[1..][k - 1];
    }
  }

  /** `s.trimEnd()`: the prefix left after dropping trailing whitespace. */
  function TrimEnd(s: string): (r: string)
    ensures |r| <= |s|
  {
    if s != [] && IsWhitespace(s[|s| - 1]) then TrimEnd(s[..|s| - 1]) else s
  }

  /** `trimEnd` drops a whitespace suffix and stops at the last other character. */
  lemma {:induction false} TrimEndFacts(s: string)
    ensures var r := TrimEnd(s);
      && r == s[..|r|]
      && (forall k :: |r| <= k < |s| ==> IsWhitespace(s[k]))
      && (r != [] ==> !IsWhitespace(r[|r| - 1]))
  {
    if s != [] && IsWhitespace(s[|s| - 1]) {
      var t := s[..|s| - 1];
      TrimEndFacts(t);
      var r := TrimEnd(s);
      assert r == t[..|r|];
      assert forall k :: |r| <= k < |t| ==> s[k] == t[k];
    }
  }

  /** `s.trim()`. */
  function Trim(s: string): (r: string)
    ensures |r| <= |s|
  {
    TrimEnd(TrimStart(s))
  }

  /**
   * `trim` yields the empty string exactly for all-whitespace input; otherwise
   * a piece of the input that neither starts nor ends with whitespace.
   */
  lemma TrimFacts(s: string)
    ensures Trim(s) == [] <==> forall k :: 0 <= k < |s| ==> IsWhitespace(s[k])
    ensures Trim(s) != [] ==> !IsWhitespace(Trim(s)[0]) && !IsWhitespace(Trim(s)[|Trim(s)| - 1])
    ensures exists i :: OccursAt(s, Trim(s), i)
  {
    var t := TrimStart(s);
    var r := TrimEnd(t);
    TrimStartFacts(s);
    TrimEndFacts(t);
    assert r == s[|s| - |t|..|s| - |t| + |r|];
    assert OccursAt(s, r, |s| - |t|);
    assert r != [] ==> r[0] == t[0];
    assert forall k :: |s| - |t| <= k < |s| ==> s[k] == t[k - (|s| - |t|)];
  }

  /** Code points whose lower-case form differs, restricted to Basic Latin and Latin-1. */
  predicate IsUpper(c: char)
  {
    ('A' <= c <= 'Z') || ('\U{00C0}' <= c <= '\U{00DE}' && c != '\U{00D7}')
  }

  function LowerChar(c: char): char
  {
    if IsUpper(c) then (c as int + 32) as char else c
  }

  /** `s.toLowerCase()` on Basic Latin and Latin-1 letters. */
  function ToLower(s: string): (r: string)
    ensures |r| == |s|
    ensures forall k :: 0 <= k < |s| ==> r[k] == LowerChar(s[k])
  {
    seq(|s|, k requires 0 <= k < |s| => LowerChar(s[k]))
  }

  lemma ToLowerIdempotent(s: string)
    ensures ToLower(ToLower(s)) == ToLower(s)
  {
    forall k | 0 <= k < |s|
      ensures LowerChar(LowerChar(s[k])) == LowerChar(s[k])
    {
      var c := s[k];
      if IsUpper(c) {
        assert !IsUpper(LowerChar(c));
      }
    }
  }

  lemma LowerCharKeepsWhitespace(c: char)
    ensures IsWhitespace(LowerChar(c)) == IsWhitespace(c)
  {
    if IsUpper(c) {
      assert !IsWhitespace(c);
      var l := LowerChar(c);
      assert ('a' <= l <= 'z') || ('\U{00E0}' <= l <= '\U{00FE}');
    }
  }

  /** Lower-casing never creates or removes whitespace, so it commutes with trimming to empty. */
  lemma ToLowerKeepsBlank(s: string)
    ensures (Trim(ToLower(s)) == []) == (Trim(s) == [])
  {
    var l := ToLower(s);
    TrimFacts(s);
    TrimFacts(l);
    forall k | 0 <= k < |s|
      ensures IsWhitespace(l[k]) == IsWhitespace(s[k])
    {
      LowerCharKeepsWhitespace(s[k]);
    }
  }

  /** `t` occurs in `s` starting at index `i`. */
  ghost predicate OccursAt(s: string, t: string, i: int)
  {
    0 <= i && i + |t| <= |s| && s[i..i + |t|] == t
  }

  /** `s.includes(t)`. */
  function Includes(s: string, t: string): (b: bool)
    ensures b <==> exists i :: OccursAt(s, t, i)
    decreases |s|
  {
    if |t| > |s| then
      assert forall i :: !OccursAt(s, t, i);
      false
    else if s[..|t|] == t then
      assert OccursAt(s, t, 0);
      true
    else
      var b := Includes(s[1..], t);
      assert forall i :: OccursAt(s[1..], t, i) <==> OccursAt(s, t, i + 1) by {
        forall i ensures OccursAt(s[1..], t, i) <==> OccursAt(s, t, i + 1) {
          if 0 <= i && i + |t| <= |s| - 1 {
            assert s[1..][i..i + |t|] == s[i + 1..i + 1 + |t|];
          }
        }
      }
      assert !OccursAt(s, t, 0);
      assert forall i :: OccursAt(s, t, i) ==> i == 0 || OccursAt(s[1..], t, i - 1);
      b
  }

  /** `s.length`: code points outside the Basic Multilingual Plane count twice. */
  function Utf16Length(s: string): (n: nat)
    ensures |s| <= n <= 2 * |s|
  {
    if s == [] then 0 else (if s[0] as int > 0xFFFF then 2 else 1) + Utf16Length(s[1..])
  }

  lemma {:induction false} Utf16LengthAppend(a: string, b: string)
    ensures Utf16Length(a + b) == Utf16Length(a) + Utf16Length(b)
  {
    if a == [] {
      assert a + b == b;
    } else {
      assert (a + b)[1..] == a[1..] + b;
      Utf16LengthAppend(a[1..], b);
    }
  }

  /** A slice is never longer than the whole string. */
  lemma Utf16LengthOfSlice(s: string, i: int, j: int)
    requires 0 <= i <= j <= |s|
    ensures Utf16Length(s[i..j]) <= Utf16Length(s)
  {
    var t := s[..j];
    assert s == t + s[j..];
    Utf16LengthAppend(t, s[j..]);
    assert t == t[..i] + t[i..];
    Utf16LengthAppend(t[..i], t[i..]);
    assert s[i..j] == t[i..];
  }

  /** Trimming never makes a string longer. */
  lemma Utf16LengthOfTrim(s: string)
    ensures Utf16Length(Trim(s)) <= Utf16Length(s)
  {
    var r := Trim(s);
    TrimFacts(s);
    var i :| OccursAt(s, r, i);
    assert s[i..i + |r|] == r;
    Utf16LengthOfSlice(s, i, i + |r|);
  }

  /** At least two code units: two code points, or one outside the Basic Multilingual Plane. */
  lemma Utf16LengthAtLeastTwo(s: string)
    ensures Utf16Length(s) >= 2 <==> |s| >= 2 || (|s| == 1 && s[0] as int > 0xFFFF)
  {
    if |s| == 1 {
      assert s[1..] == [];
    }
  }

}
