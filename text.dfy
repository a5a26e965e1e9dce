/** String helpers: ASCII lower-casing, substring search, decimal digits and splitting at a separator. */
module Text {
  import opened Wrappers

  /** `c.toLowerCase()` on the ASCII letters; every other character is left as it is. */
  function LowerChar(c: char): char
  {
    if 'A' <= c <= 'Z' then (c as int + 32) as char else c
  }

  function ToLower(s: string): (r: string)
    ensures |r| == |s|
    ensures forall i :: 0 <= i < |s| ==> r[i] == LowerChar(s[i])
  {
    seq(|s|, i requires 0 <= i < |s| => LowerChar(s[i]))
  }

  /** `sub` occurs in `s` starting at index `i`. */
  ghost predicate OccursAt(s: string, sub: string, i: int)
  {
    0 <= i && i + |sub| <= |s| && s[i..i + |sub|] == sub
  }

  /** Left-to-right scan for `sub` at an index at or after `from`. */
  function ContainsFrom(s: string, sub: string, from: nat): (b: bool)
    requires from <= |s|
    ensures b <==> exists k :: from <= k && OccursAt(s, sub, k)
    decreases |s| - from
  {
    if from + |sub| > |s| then false
    else if s[from..from + |sub|] == sub then
      assert OccursAt(s, sub, from);
      true
    else
      ContainsFrom(s, sub, from + 1)
  }

  /** JavaScript's `s.includes(sub)`. */
  function Contains(s: string, sub: string): (b: bool)
    ensures b <==> exists k :: OccursAt(s, sub, k)
  {
    ContainsFrom(s, sub, 0)
  }

  lemma OccurrenceChar(s: string, sub: string, k: int, m: int)
    requires OccursAt(s, sub, k) && k <= m < k + |sub|
    ensures s[m] in sub
  {
    assert sub[m - k] == s[m];
  }

  /**
   * Joining with a separator that `sub` does not contain, onto a tail that does not contain `sub`,
   * adds no occurrence: `sub` occurs in the joined string exactly when it occurs in `s`.
   */
  lemma ContainsJoin(s: string, sep: char, tail: string, sub: string)
    requires sep !in sub
    requires !Contains(tail, sub)
    ensures Contains(s + [sep] + tail, sub) <==> Contains(s, sub)
  {
    var joined := s + [sep] + tail;
    if Contains(s, sub) {
      var k :| OccursAt(s, sub, k);
      assert joined[k..k + |sub|] == s[k..k + |sub|];
      assert OccursAt(joined, sub, k);
    }
    if Contains(joined, sub) {
      var k :| OccursAt(joined, sub, k);
      if k + |sub| <= |s| {
        assert s[k..k + |sub|] == joined[k..k + |sub|];
        assert OccursAt(s, sub, k);
      } else if k <= |s| {
        OccurrenceChar(joined, sub, k, |s|);
        assert false;
      } else {
        assert tail[k - |s| - 1..k - |s| - 1 + |sub|] == joined[k..k + |sub|];
        assert OccursAt(tail, sub, k - |s| - 1);
        assert false;
      }
    }
  }

  predicate IsDigit(c: char)
  {
    '0' <= c <= '9'
  }

  predicate AllDigits(s: string)
  {
    forall i :: 0 <= i < |s| ==> IsDigit(s[i])
  }

  function DigitChar(d: nat): (c: char)
    requires d < 10
    ensures IsDigit(c)
  {
    ('0' as int + d) as char
  }

  function DigitValue(c: char): nat
    requires IsDigit(c)
  {
    c as int - '0' as int
  }

  /** The value of a string of decimal digits (leading zeros allowed). */
  function DigitsToNat(s: string): nat
    requires AllDigits(s)
  {
    if s == [] then 0 else DigitsToNat(s[..|s| - 1]) * 10 + DigitValue(s[|s| - 1])
  }

  /** A decimal numeral without leading zeros: `0` alone, or a first digit other than `0`. */
  predicate Canonical(s: string)
  {
    |s| >= 1 && AllDigits(s) && (s[0] == '0' ==> |s| == 1)
  }

  /** A non-negative integer in decimal, as a template literal `${n}` prints it: no padding. */
  function NatToString(n: nat): (r: string)
    ensures |r| >= 1 && AllDigits(r)
    ensures r[0] == '0' <==> n == 0
    ensures Canonical(r)
    ensures |r| == 1 <==> n < 10
    ensures 10 <= n < 100 ==> |r| == 2
    ensures DigitsToNat(r) == n
  {
    if n < 10 then
      [DigitChar(n)]
    else
      var r := NatToString(n / 10) + [DigitChar(n % 10)];
      assert r[..|r| - 1] == NatToString(n / 10);
      r
  }

  /** A numeral without leading zeros is the one `NatToString` prints for its value. */
  lemma {:induction false} CanonicalUnique(s: string)
    requires Canonical(s)
    ensures s == NatToString(DigitsToNat(s))
  {
    var t := s[..|s| - 1];
    if |s| == 1 {
      DigitRoundTrip(s[0]);
    } else {
      assert t[0] == s[0];
      CanonicalUnique(t);
      NatToStringStep(DigitsToNat(t), s[|s| - 1]);
      assert t + [s[|s| - 1]] == s;
    }
  }

  lemma DigitRoundTrip(c: char)
    requires IsDigit(c)
    ensures DigitChar(DigitValue(c)) == c
  {
  }

  /** Printing a number with one more digit appends that digit. */
  lemma NatToStringStep(m: nat, c: char)
    requires m >= 1 && IsDigit(c)
    ensures NatToString(m * 10 + DigitValue(c)) == NatToString(m) + [c]
  {
    var n := m * 10 + DigitValue(c);
    assert n / 10 == m && n % 10 == DigitValue(c);
    DigitRoundTrip(c);
  }

  /** A leading `0` does not change the value of a digit string. */
  lemma {:induction false} LeadingZero(s: string)
    requires AllDigits(s)
    ensures AllDigits("0" + s) && DigitsToNat("0" + s) == DigitsToNat(s)
  {
    if s != [] {
      var t := s[..|s| - 1];
      assert ("0" + s)[..|"0" + s| - 1] == "0" + t;
      LeadingZero(t);
    }
  }

  /** Splits `s` at the first occurrence of `sep`. */
  function SplitAt(s: string, sep: char): (r: Option<(string, string)>)
    ensures r.None? <==> sep !in s
    ensures r.Some? ==> s == r.value.0 + [sep] + r.value.1 && sep !in r.value.0
  {
    if s == [] then None
    else if s[0] == sep then Some(([], s[1..]))
    else
      match SplitAt(s[1..], sep)
      case None => None
      case Some(parts) => Some(([s[0]] + parts.0, parts.1))
  }

  /** When `a` holds no separator, splitting `a + [sep] + b` gives back `a` and `b`. */
  lemma {:induction false} SplitAtJoin(a: string, sep: char, b: string)
    requires sep !in a
    ensures SplitAt(a + [sep] + b, sep) == Some((a, b))
  {
    var s := a + [sep] + b;
    if a == [] {
      assert s[0] == sep && s[1..] == b;
    } else {
      assert s[0] == a[0] && a[0] != sep;
      assert s[1..] == a[1..] + [sep] + b;
      SplitAtJoin(a[1..], sep, b);
      assert [a[0]] + a[1..] == a;
    }
  }
}
