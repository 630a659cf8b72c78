/** The string built-ins the gateway relies on: `lower()`, substring `in`,
    `replace()`, `int()`/`float()` parsing of setting strings and `str()` of an int. */
module Text {
  import opened Optional

  /** ASCII lowering of one character. */
  function LowerChar(c: char): char
  {
    if 'A' <= c <= 'Z' then (c as int + 32) as char else c
  }

  /** `s.lower()`, character by character. */
  function Lower(s: string): (r: string)
    ensures |r| == |s|
    ensures forall i :: 0 <= i < |s| ==> r[i] == LowerChar(s[i])
  {
    if s == [] then [] else [LowerChar(s[0])] + Lower(s[1..])
  }

  /** Every character of `w` is left alone by lowering. */
  predicate IsLowerWord(w: string)
  {
    forall i :: 0 <= i < |w| ==> LowerChar(w[i]) == w[i]
  }

  /** `w` occurs in `s` starting at index `i`. */
  predicate OccursAt(w: string, s: string, i: int)
  {
    0 <= i && i + |w| <= |s| && forall j :: 0 <= j < |w| ==> s[i + j] == w[j]
  }

  /** Python's `w in s` for strings. */
  predicate Occurs(w: string, s: string)
  {
    exists i | 0 <= i <= |s| - |w| :: OccursAt(w, s, i)
  }

  /** Index of the leftmost occurrence of a non-empty `w` in `s` (`s.find(w)`). */
  function IndexOf(s: string, w: string): (r: Option<nat>)
    requires |w| > 0
    ensures r.Some? ==> OccursAt(w, s, r.value)
    ensures r.Some? ==> forall j :: 0 <= j < r.value ==> !OccursAt(w, s, j)
    ensures r.None? <==> !Occurs(w, s)
    decreases |s|
  {
    if |s| < |w| then None
    else if OccursAt(w, s, 0) then Some(0)
    else
      var rest := IndexOf(s[1..], w);
      ShiftOccurrence(w, s);
      if rest.None? then None else Some(rest.value + 1)
  }

  /** Occurrences in `s[1..]` are the occurrences in `s` shifted by one. */
  lemma ShiftOccurrence(w: string, s: string)
    requires |s| > 0
    ensures forall j :: 1 <= j ==> (OccursAt(w, s, j) <==> OccursAt(w, s[1..], j - 1))
    ensures Occurs(w, s) && !OccursAt(w, s, 0) ==> Occurs(w, s[1..])
  {
    if Occurs(w, s) && !OccursAt(w, s, 0) {
      var i :| 0 <= i <= |s| - |w| && OccursAt(w, s, i);
      assert OccursAt(w, s[1..], i - 1);
    }
  }

  /** `s.replace(w, r)` for a non-empty `w`: every occurrence, leftmost first and
      without overlaps, is replaced by `r`. */
  function Replace(s: string, w: string, r: string): string
    requires |w| > 0
    decreases |s|
  {
    match IndexOf(s, w)
    case None => s
    case Some(i) => s[..i] + r + Replace(s[i + |w|..], w, r)
  }

  /** A character of `w` absent from `t` keeps `w` from occurring in `t`. */
  lemma AbsentChar(w: string, t: string, k: nat)
    requires k < |w| && w[k] !in t
    ensures !Occurs(w, t)
  {
  }

  /** An occurrence in `a + r + b` lies inside one of the three parts or covers the
      first or the last character of `r`. */
  lemma OccurrenceInParts(v: string, a: string, r: string, b: string, i: int)
    requires |r| > 0 && OccursAt(v, a + r + b, i)
    ensures || OccursAt(v, a, i) || OccursAt(v, r, i - |a|) || OccursAt(v, b, i - |a| - |r|)
            || r[0] in v || r[|r| - 1] in v
  {
    var t := a + r + b;
    var n := |v|;
    if i + n <= |a| {
      assert OccursAt(v, a, i);
    } else if i >= |a| + |r| {
      assert OccursAt(v, b, i - |a| - |r|);
    } else if i >= |a| && i + n <= |a| + |r| {
      assert OccursAt(v, r, i - |a|);
    } else if i < |a| {
      assert v[|a| - i] == t[|a|] == r[0];
    } else {
      assert v[|a| + |r| - 1 - i] == t[|a| + |r| - 1] == r[|r| - 1];
    }
  }

  /** No occurrence of `v` lies across the borders of `r` when `r` starts and ends with
      characters that `v` does not contain. */
  lemma NoOccurrenceAcross(v: string, a: string, r: string, b: string)
    requires |r| > 0 && r[0] !in v && r[|r| - 1] !in v
    requires !Occurs(v, a) && !Occurs(v, r) && !Occurs(v, b)
    ensures !Occurs(v, a + r + b)
  {
    if i :| 0 <= i <= |a + r + b| - |v| && OccursAt(v, a + r + b, i) {
      OccurrenceInParts(v, a, r, b, i);
    }
  }

  /** A prefix that ends before the first occurrence holds no occurrence. */
  lemma PrefixBeforeFirst(w: string, s: string, i: nat)
    requires |w| > 0 && i <= |s|
    requires forall j :: 0 <= j < i ==> !OccursAt(w, s, j)
    ensures !Occurs(w, s[..i])
  {
    if k :| 0 <= k <= i - |w| && OccursAt(w, s[..i], k) {
      assert OccursAt(w, s, k);
    }
  }

  /** A slice of a string free of `v` is free of `v`. */
  lemma SliceAbsent(v: string, s: string, lo: nat, hi: nat)
    requires lo <= hi <= |s| && !Occurs(v, s)
    ensures !Occurs(v, s[lo..hi])
  {
    if k :| 0 <= k <= hi - lo - |v| && OccursAt(v, s[lo..hi], k) {
      assert OccursAt(v, s, lo + k);
    }
  }

  /** After `replace(w, r)` no `w` is left, when `r` is bracketed by characters that
      `w` does not contain and holds no `w` itself. */
  lemma {:induction false} ReplaceRemoves(s: string, w: string, r: string)
    requires |w| > 0 && |r| > 0 && r[0] !in w && r[|r| - 1] !in w && !Occurs(w, r)
    ensures !Occurs(w, Replace(s, w, r))
    decreases |s|
  {
    match IndexOf(s, w)
    case None =>
    case Some(i) =>
      PrefixBeforeFirst(w, s, i);
      ReplaceRemoves(s[i + |w|..], w, r);
      NoOccurrenceAcross(w, s[..i], r, Replace(s[i + |w|..], w, r));
  }

  /** Replacing `w` cannot create an occurrence of another word `v` that neither `s`
      nor `r` holds, under the same bracketing condition. */
  lemma {:induction false} ReplaceKeepsAbsent(s: string, w: string, r: string, v: string)
    requires |w| > 0 && |r| > 0 && r[0] !in v && r[|r| - 1] !in v
    requires !Occurs(v, s) && !Occurs(v, r)
    ensures !Occurs(v, Replace(s, w, r))
    decreases |s|
  {
    match IndexOf(s, w)
    case None =>
    case Some(i) =>
      SliceAbsent(v, s, 0, i);
      SliceAbsent(v, s, i + |w|, |s|);
      assert s[0..i] == s[..i] && s[i + |w|..|s|] == s[i + |w|..];
      ReplaceKeepsAbsent(s[i + |w|..], w, r, v);
      NoOccurrenceAcross(v, s[..i], r, Replace(s[i + |w|..], w, r));
  }

  /** A lower-case word found in `s` is also found in `s.lower()`. */
  lemma OccursInLower(w: string, s: string)
    requires IsLowerWord(w) && Occurs(w, s)
    ensures Occurs(w, Lower(s))
  {
    var i :| 0 <= i <= |s| - |w| && OccursAt(w, s, i);
    assert OccursAt(w, Lower(s), i);
  }

  predicate IsDigit(c: char)
  {
    '0' <= c <= '9'
  }

  predicate AllDigits(s: string)
  {
    forall i :: 0 <= i < |s| ==> IsDigit(s[i])
  }

  /** Value of a string of decimal digits. */
  function DigitsValue(s: string): (n: nat)
    requires AllDigits(s)
  {
    if s == [] then 0 else DigitsValue(s[..|s| - 1]) * 10 + (s[|s| - 1] as int - '0' as int)
  }

  /** `int(s)` for an optionally signed run of ASCII decimal digits; None where Python
      raises ValueError. */
  function ParseInt(s: string): Option<int>
  {
    if |s| > 0 && (s[0] == '-' || s[0] == '+') then
      var digits := s[1..];
      if digits != [] && AllDigits(digits) then
        Some(if s[0] == '-' then 0 - DigitsValue(digits) else DigitsValue(digits))
      else None
    else if s != [] && AllDigits(s) then Some(DigitsValue(s))
    else None
  }

  function Pow10(k: nat): (p: nat)
    ensures p > 0
  {
    if k == 0 then 1 else 10 * Pow10(k - 1)
  }

  /** Value of an unsigned decimal `digits[.digits]` with at least one digit. */
  function UnsignedDecimal(s: string): Option<real>
  {
    if exists k :: 0 <= k < |s| && s[k] == '.' then
      var k :| 0 <= k < |s| && s[k] == '.';
      var whole, frac := s[..k], s[k + 1..];
      if AllDigits(whole) && AllDigits(frac) && |whole| + |frac| > 0 then
        Some(DigitsValue(whole) as real + DigitsValue(frac) as real / Pow10(|frac|) as real)
      else None
    else if s != [] && AllDigits(s) then Some(DigitsValue(s) as real)
    else None
  }

  /** `float(s)` for an optionally signed decimal with an optional fraction part; None
      where the model treats Python as raising ValueError. */
  function ParseDecimal(s: string): Option<real>
  {
    if |s| > 0 && (s[0] == '-' || s[0] == '+') then
      match UnsignedDecimal(s[1..])
      case None => None
      case Some(v) => Some(if s[0] == '-' then -v else v)
    else UnsignedDecimal(s)
  }

  function DigitChar(d: nat): char
    requires d < 10
  {
    ('0' as int + d) as char
  }

  function NatToString(n: nat): (r: string)
    ensures |r| > 0 && AllDigits(r)
  {
    if n < 10 then [DigitChar(n)] else NatToString(n / 10) + [DigitChar(n % 10)]
  }

  /** `str(i)` for an int. */
  function IntToString(i: int): string
  {
    if i < 0 then "-" + NatToString(-i) else NatToString(i)
  }

  /** Reading the decimal text of a natural number gives the number back. */
  lemma {:induction false} NatToStringRoundTrip(n: nat)
    ensures DigitsValue(NatToString(n)) == n
  {
    if n >= 10 {
      var s := NatToString(n);
      assert s[..|s| - 1] == NatToString(n / 10);
      NatToStringRoundTrip(n / 10);
    }
  }

  /** `int(str(i)) == i`. */
  lemma IntToStringRoundTrip(i: int)
    ensures ParseInt(IntToString(i)) == Some(i)
  {
    if i < 0 {
      NatToStringRoundTrip(-i);
      assert IntToString(i)[1..] == NatToString(-i);
    } else {
      NatToStringRoundTrip(i);
      assert IntToString(i)[0] != '-' && IntToString(i)[0] != '+' by {
        assert IsDigit(NatToString(i)[0]);
      }
    }
  }
}
