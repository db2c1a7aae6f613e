/**
 * The few Python string operations the backend relies on, over `string` (= seq<char>):
 * `str.strip()`, `str.lower()`, the substring test `sub in s`, and the decimal
 * rendering of integers used by f-strings.
 */
module Text {

  // ---------------------------------------------------------------- whitespace

  /** The characters Python's `str.isspace()` accepts. */
  const Spaces: set<char> := {
    ' ', '\t', '\n', '\U{0B}', '\U{0C}', '\r', '\U{1C}', '\U{1D}', '\U{1E}', '\U{1F}',
    '\U{85}', '\U{A0}', '\U{1680}',
    '\U{2000}', '\U{2001}', '\U{2002}', '\U{2003}', '\U{2004}', '\U{2005}',
    '\U{2006}', '\U{2007}', '\U{2008}', '\U{2009}', '\U{200A}',
    '\U{2028}', '\U{2029}', '\U{202F}', '\U{205F}', '\U{3000}'
  }

  /** Python's `str.isspace()` for a single character. */
  predicate IsSpace(c: char)
  {
    c in Spaces
  }

  /** All characters of `s` are whitespace (true of the empty string). */
  predicate Blank(s: string)
  {
    forall i :: 0 <= i < |s| ==> IsSpace(s[i])
  }

  /** Drops the leading whitespace: what is left is a suffix of `s` that does not start with whitespace. */
  function TrimStart(s: string): (r: string)
    ensures |r| <= |s| && r == s[|s| - |r|..]
    ensures r == [] || !IsSpace(r[0])
    ensures forall i :: 0 <= i < |s| - |r| ==> IsSpace(s[i])
    decreases |s|
  {
    if |s| > 0 && IsSpace(s[0]) then TrimStart(s[1..]) else s
  }

  /** Drops the trailing whitespace: what is left is a prefix of `s` that does not end with whitespace. */
  function TrimEnd(s: string): (r: string)
    ensures |r| <= |s| && r == s[..|r|]
    ensures r == [] || !IsSpace(r[|r| - 1])
    ensures forall i :: |r| <= i < |s| ==> IsSpace(s[i])
    decreases |s|
  {
    if |s| > 0 && IsSpace(s[|s| - 1]) then TrimEnd(s[..|s| - 1]) else s
  }

  /** `r` stands at index `i` of `s` with only whitespace before and after it. */
  predicate FramedBySpace(s: string, r: string, i: int)
  {
    0 <= i <= |s| - |r| && s[i..i + |r|] == r && Blank(s[..i]) && Blank(s[i + |r|..])
  }

  /**
   * Python's `s.strip()`: the part of `s` left after removing whitespace at both ends.
   * It is empty exactly when `s` is blank, otherwise it starts and ends with a
   * non-space character, and it is what remains of `s` once a blank prefix and a
   * blank suffix are cut off.
   */
  function Strip(s: string): (r: string)
    ensures r == [] || (!IsSpace(r[0]) && !IsSpace(r[|r| - 1]))
    ensures r == [] <==> Blank(s)
    ensures exists i :: FramedBySpace(s, r, i)
    ensures Contains(s, r)
  {
    var t := TrimStart(s);
    var r := TrimEnd(t);
    StripEnds(s, t, r);
    PrefixOfSuffix(s, t, r);
    assert Blank(s[..|s| - |t|]) && Blank(t[|r|..]);
    r
  }

  /** The ends of a trimmed string, from the facts `TrimStart` and `TrimEnd` guarantee. */
  lemma StripEnds(s: string, t: string, r: string)
    requires |t| <= |s| && t == s[|s| - |t|..]
    requires t == [] || !IsSpace(t[0])
    requires forall i :: 0 <= i < |s| - |t| ==> IsSpace(s[i])
    requires |r| <= |t| && r == t[..|r|]
    requires r == [] || !IsSpace(r[|r| - 1])
    requires forall i :: |r| <= i < |t| ==> IsSpace(t[i])
    ensures r == [] || (!IsSpace(r[0]) && !IsSpace(r[|r| - 1]))
    ensures r == [] <==> Blank(s)
  {
    assert r != [] ==> r[0] == t[0] == s[|s| - |t|];
  }

  /**
   * A prefix of a suffix occurs in the whole; when the parts cut off are blank, it is
   * framed by whitespace where the suffix starts.
   */
  lemma PrefixOfSuffix(s: string, t: string, r: string)
    requires |t| <= |s| && t == s[|s| - |t|..]
    requires |r| <= |t| && r == t[..|r|]
    ensures Contains(s, r)
    ensures Blank(s[..|s| - |t|]) && Blank(t[|r|..]) ==> FramedBySpace(s, r, |s| - |t|)
  {
    var k := |s| - |t|;
    assert s[k..k + |r|] == r;
    ContainsAt(s, r, k);
    assert s[k + |r|..] == t[|r|..];
  }

  /** Stripping twice is stripping once. */
  lemma {:induction false} StripIdempotent(s: string)
    ensures Strip(Strip(s)) == Strip(s)
  {
    StripTrimmed(Strip(s));
  }

  /** A string that neither starts nor ends with whitespace is left as it is. */
  lemma {:induction false} StripTrimmed(s: string)
    requires s == [] || (!IsSpace(s[0]) && !IsSpace(s[|s| - 1]))
    ensures Strip(s) == s
  {
  }

  // ---------------------------------------------------------------- case

  predicate IsUpper(c: char)
  {
    'A' <= c <= 'Z'
  }

  /** ASCII lower-casing of one character; every other character is kept. */
  function LowerChar(c: char): (d: char)
    ensures !IsUpper(d)
    ensures !IsUpper(c) ==> d == c
  {
    if IsUpper(c) then (c as int + 32) as char else c
  }

  /** Python's `s.lower()` restricted to ASCII: each character is lower-cased where it stands. */
  function Lower(s: string): (r: string)
    ensures |r| == |s|
    ensures forall i :: 0 <= i < |s| ==> r[i] == LowerChar(s[i])
    decreases |s|
  {
    if s == [] then [] else [LowerChar(s[0])] + Lower(s[1..])
  }

  /** Lower-casing twice is lower-casing once: the customer-care handler's own `lower()` changes nothing. */
  lemma {:induction false} LowerIdempotent(s: string)
    ensures Lower(Lower(s)) == Lower(s)
  {
    var l := Lower(s);
    assert forall i :: 0 <= i < |l| ==> Lower(l)[i] == l[i];
  }

  /** A string without upper-case letters is its own lower case. */
  lemma {:induction false} LowerNoUpper(s: string)
    requires forall i :: 0 <= i < |s| ==> !IsUpper(s[i])
    ensures Lower(s) == s
  {
    assert forall i :: 0 <= i < |s| ==> Lower(s)[i] == s[i];
  }

  // ---------------------------------------------------------------- substrings

  /** Python's `sub in s` on strings (the empty string occurs in every string). */
  predicate Contains(s: string, sub: string)
    ensures sub <= s ==> Contains(s, sub)
    ensures Contains(s, sub) ==> |sub| <= |s|
    decreases |s|
  {
    sub <= s || (|s| > 0 && Contains(s[1..], sub))
  }

  /** `sub` occurs in `s` starting at index `i`. */
  predicate OccursAt(s: string, sub: string, i: int)
  {
    0 <= i <= |s| - |sub| && s[i..i + |sub|] == sub
  }

  lemma {:induction false} ContainsAt(s: string, sub: string, i: int)
    requires OccursAt(s, sub, i)
    ensures Contains(s, sub)
    decreases i
  {
    if i == 0 {
      assert sub <= s;
    } else {
      assert s[1..][i - 1..i - 1 + |sub|] == s[i..i + |sub|];
      ContainsAt(s[1..], sub, i - 1);
    }
  }

  /** The recursive substring test agrees with the existence of an occurrence, both ways. */
  lemma {:induction false} ContainsIff(s: string, sub: string)
    ensures Contains(s, sub) <==> exists i :: OccursAt(s, sub, i)
    decreases |s|
  {
    if Contains(s, sub) {
      if sub <= s {
        assert OccursAt(s, sub, 0);
      } else {
        ContainsIff(s[1..], sub);
        var j :| OccursAt(s[1..], sub, j);
        assert s[1..][j..j + |sub|] == s[j + 1..j + 1 + |sub|];
        assert OccursAt(s, sub, j + 1);
      }
    }
    if exists i :: OccursAt(s, sub, i) {
      var i :| OccursAt(s, sub, i);
      ContainsAt(s, sub, i);
    }
  }

  /** An occurrence inside an occurrence is an occurrence. */
  lemma {:induction false} ContainsTransitive(s: string, mid: string, sub: string)
    requires Contains(s, mid) && Contains(mid, sub)
    ensures Contains(s, sub)
  {
    ContainsIff(s, mid);
    ContainsIff(mid, sub);
    var i :| OccursAt(s, mid, i);
    var j :| OccursAt(mid, sub, j);
    var window := s[i + j..i + j + |sub|];
    assert forall k :: 0 <= k < |sub| ==> window[k] == mid[j + k];
    assert window == sub;
    ContainsAt(s, sub, i + j);
  }

  /** Every character of a contained string is a character of the containing one. */
  lemma {:induction false} ContainedChars(s: string, sub: string, k: int)
    requires 0 <= k < |sub| && Contains(s, sub)
    ensures sub[k] in s
  {
    ContainsIff(s, sub);
    var i :| OccursAt(s, sub, i);
    assert s[i + k] == sub[k];
  }

  /** A string lacking one of the characters of `w` does not contain `w`. */
  lemma Lacks(s: string, w: string, k: int)
    requires 0 <= k < |w| && w[k] !in s
    ensures !Contains(s, w)
  {
    if Contains(s, w) {
      ContainedChars(s, w, k);
    }
  }

  /** Appending on either side keeps an occurrence. */
  lemma {:induction false} ContainsConcat(a: string, b: string, sub: string)
    ensures Contains(a, sub) ==> Contains(a + b, sub)
    ensures Contains(b, sub) ==> Contains(a + b, sub)
  {
    ContainsIff(a, sub);
    ContainsIff(b, sub);
    if Contains(a, sub) {
      var i :| OccursAt(a, sub, i);
      assert (a + b)[i..i + |sub|] == a[i..i + |sub|];
      ContainsAt(a + b, sub, i);
    }
    if Contains(b, sub) {
      var i :| OccursAt(b, sub, i);
      assert (a + b)[|a| + i..|a| + i + |sub|] == b[i..i + |sub|];
      ContainsAt(a + b, sub, |a| + i);
    }
  }

  /** The middle part of a three-part string occurs in it. */
  lemma ContainsMiddle(a: string, m: string, b: string)
    ensures Contains(a + m + b, m)
  {
    assert m <= m + b;
    ContainsConcat(a, m + b, m);
    assert a + m + b == a + (m + b);
  }

  // ---------------------------------------------------------------- numbers

  function DigitChar(d: nat): char
    requires d < 10
  {
    "0123456789"[d]
  }

  function DigitValue(c: char): nat
  {
    if '0' <= c <= '9' then c as int - '0' as int else 0
  }

  /** The value of a string of decimal digits. */
  function DigitsValue(s: string): nat
    decreases |s|
  {
    if s == [] then 0 else 10 * DigitsValue(s[..|s| - 1]) + DigitValue(s[|s| - 1])
  }

  /**
   * Python's `str(n)` for a natural number: a non-empty string of digits whose value is `n`,
   * without leading zeros.
   */
  function NatText(n: nat): (r: string)
    ensures |r| > 0 && forall i :: 0 <= i < |r| ==> '0' <= r[i] <= '9'
    ensures DigitsValue(r) == n
    ensures r[0] == '0' ==> n == 0
    decreases n
  {
    var d := DigitChar(n % 10);
    assert DigitValue(d) == n % 10;
    if n < 10 then [d] else
      var r := NatText(n / 10) + [d];
      assert r[..|r| - 1] == NatText(n / 10);
      assert r[0] == NatText(n / 10)[0];
      r
  }

  /**
   * Python's `str(i)` for an integer: a minus sign exactly for a negative number, then the
   * digits of its magnitude.
   */
  function IntText(i: int): (r: string)
    ensures |r| > 0 && (r[0] == '-' <==> i < 0)
    ensures forall k :: (if i < 0 then 1 else 0) <= k < |r| ==> '0' <= r[k] <= '9'
    ensures i < 0 ==> DigitsValue(r[1..]) == -i
    ensures i >= 0 ==> DigitsValue(r) == i
    ensures var d := if i < 0 then 1 else 0; |r| > d && (r[d] == '0' ==> i == 0)
  {
    if i < 0 then "-" + NatText(-i) else NatText(i)
  }

  /**
   * Python's `str(x)` for a float `x` that holds an integral value of magnitude below 10^16,
   * which is how the REAL balance column prints: `150.0`, `449.0`.
   */
  function FloatText(i: int): (r: string)
    ensures |r| >= 3 && r[..|r| - 2] == IntText(i) && r[|r| - 2..] == ".0"
  {
    IntText(i) + ".0"
  }
}
