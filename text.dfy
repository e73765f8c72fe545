/**
 * String helpers the interviewer relies on, restricted to ASCII:
 * Python's `str.strip()`, `str.lower()`, substring search (`in` on
 * strings, and the literal parts of the reply-fence regular expression)
 * and `str()` of a non-negative integer.
 */
module Text {
  import opened Wrappers

  /** Python's `str.isspace()` on an ASCII character: space, \t \n \v \f \r and \x1c-\x1f. */
  predicate IsSpace(c: char) {
    c == ' ' || (9 <= c as int <= 13) || (28 <= c as int <= 31)
  }

  /** Every character of `s` in `lo..hi` is whitespace. */
  predicate SpaceBetween(s: string, lo: int, hi: int)
    requires 0 <= lo <= hi <= |s|
  {
    forall k :: lo <= k < hi ==> IsSpace(s[k])
  }

  /** Leading whitespace removed. */
  function TrimStart(s: string): (r: string)
    ensures |r| <= |s| && r == s[|s| - |r|..]
    ensures SpaceBetween(s, 0, |s| - |r|)
    ensures r != [] ==> !IsSpace(r[0])
  {
    if |s| > 0 && IsSpace(s[0]) then TrimStart(s[1..]) else s
  }

  /** Trailing whitespace removed. */
  function TrimEnd(s: string): (r: string)
    ensures |r| <= |s| && r == s[..|r|]
    ensures SpaceBetween(s, |r|, |s|)
    ensures r != [] ==> !IsSpace(r[|r| - 1])
  {
    if |s| > 0 && IsSpace(s[|s| - 1]) then TrimEnd(s[..|s| - 1]) else s
  }

  /**
   * `s[i..j]` is what `s.strip()` gives: only whitespace is cut on either
   * side, and the slice neither starts nor ends with whitespace.
   */
  ghost predicate StripsTo(s: string, i: int, j: int) {
    0 <= i <= j <= |s| && SpaceBetween(s, 0, i) && SpaceBetween(s, j, |s|) &&
    (i < j ==> !IsSpace(s[i]) && !IsSpace(s[j - 1]))
  }

  ghost predicate IsStripOf(s: string, r: string) {
    exists i, j :: StripsTo(s, i, j) && r == s[i..j]
  }

  /** Python's `s.strip()` with no argument. */
  function Strip(s: string): (r: string)
    ensures IsStripOf(s, r)
  {
    TrimsStrip(s);
    TrimEnd(TrimStart(s))
  }

  /** Trimming the start, then the end, cuts exactly what a strip cuts. */
  lemma TrimsStrip(s: string)
    ensures IsStripOf(s, TrimEnd(TrimStart(s)))
  {
    var t := TrimStart(s);
    var r := TrimEnd(t);
    var i := |s| - |t|;
    var j := i + |r|;
    assert r == s[i..j] by {
      assert t == s[i..] && r == t[..|r|];
    }
    assert SpaceBetween(s, j, |s|) by {
      forall k | j <= k < |s| ensures IsSpace(s[k]) {
        assert s[k] == t[k - i];
      }
    }
    if r != [] {
      assert s[i] == r[0] && s[j - 1] == r[|r| - 1];
    }
    assert StripsTo(s, i, j);
  }

  /** Index `k` of `s` lies in whitespace cut off by a strip to `s[i..j]`. */
  lemma CutIsSpace(s: string, i: int, j: int, k: int)
    requires StripsTo(s, i, j) && 0 <= k < |s| && (k < i || j <= k)
    ensures IsSpace(s[k])
  {
  }

  /** Two strips of the same string select the same slice. */
  lemma StripsToUnique(s: string, i: int, j: int, i': int, j': int)
    requires StripsTo(s, i, j) && StripsTo(s, i', j')
    ensures s[i..j] == s[i'..j']
  {
    if i < j && i' == j' {
      CutIsSpace(s, i', j', i);
    } else if i == j && i' < j' {
      CutIsSpace(s, i, j, i');
    } else if i < j && i' < j' {
      if i < i' { CutIsSpace(s, i', j', i); }
      if i' < i { CutIsSpace(s, i, j, i'); }
      if j < j' { CutIsSpace(s, i, j, j' - 1); }
      if j' < j { CutIsSpace(s, i', j', j - 1); }
    }
  }

  /** The description `IsStripOf` determines the result: any string meeting it is `Strip(s)`. */
  lemma StripUnique(s: string, r: string)
    requires IsStripOf(s, r)
    ensures r == Strip(s)
  {
    var i, j :| StripsTo(s, i, j) && r == s[i..j];
    var i', j' :| StripsTo(s, i', j') && Strip(s) == s[i'..j'];
    StripsToUnique(s, i, j, i', j');
  }

  /** Python's `str.lower()` on one ASCII character. */
  function LowerChar(c: char): char {
    if 'A' <= c <= 'Z' then (c as int - 'A' as int + 'a' as int) as char else c
  }

  /** Python's `str.lower()` over ASCII. */
  function Lower(s: string): (r: string)
    ensures |r| == |s| && forall k :: 0 <= k < |s| ==> r[k] == LowerChar(s[k])
  {
    seq(|s|, k requires 0 <= k < |s| => LowerChar(s[k]))
  }

  /** `s.lower() == "yes"` holds exactly for the eight spellings of "yes" in mixed case. */
  lemma LowerIsYes(s: string)
    ensures Lower(s) == "yes" <==>
      |s| == 3 && (s[0] == 'y' || s[0] == 'Y') && (s[1] == 'e' || s[1] == 'E') && (s[2] == 's' || s[2] == 'S')
  {
    if |s| == 3 && (s[0] == 'y' || s[0] == 'Y') && (s[1] == 'e' || s[1] == 'E') && (s[2] == 's' || s[2] == 'S') {
      assert Lower(s) == [Lower(s)[0], Lower(s)[1], Lower(s)[2]];
    }
    if Lower(s) == "yes" {
      assert Lower(s)[0] == 'y' && Lower(s)[1] == 'e' && Lower(s)[2] == 's';
    }
  }

  /** `pat` occurs in `s` starting at index `k`. */
  predicate OccursAt(s: string, pat: string, k: int) {
    0 <= k && k + |pat| <= |s| && s[k..k + |pat|] == pat
  }

  /** The first index at or after `from` where `pat` occurs in `s`, if any. */
  function FindFrom(s: string, pat: string, from: nat): (r: Option<nat>)
    ensures r.Some? ==> from <= r.value && OccursAt(s, pat, r.value)
    ensures r.Some? ==> forall k :: from <= k < r.value ==> !OccursAt(s, pat, k)
    ensures r.None? ==> forall k :: from <= k ==> !OccursAt(s, pat, k)
    decreases |s| - from
  {
    if from + |pat| > |s| then None
    else if s[from..from + |pat|] == pat then Some(from)
    else FindFrom(s, pat, from + 1)
  }

  /** Python's `pat in s` for two strings. */
  predicate Contains(s: string, pat: string) {
    FindFrom(s, pat, 0).Some?
  }

  lemma ContainsIff(s: string, pat: string)
    ensures Contains(s, pat) <==> exists k :: OccursAt(s, pat, k)
  {
    if k :| OccursAt(s, pat, k) {
      assert 0 <= k;
    }
  }

  predicate IsDigit(c: char) {
    '0' <= c <= '9'
  }

  function Digit(d: nat): (c: char)
    requires d < 10
    ensures IsDigit(c) && c as int - '0' as int == d
  {
    ('0' as int + d) as char
  }

  /** The number a string of decimal digits denotes. */
  function DecimalValue(s: string): nat
    requires forall k :: 0 <= k < |s| ==> IsDigit(s[k])
  {
    if s == [] then 0
    else
      assert IsDigit(s[|s| - 1]);
      DecimalValue(s[..|s| - 1]) * 10 + (s[|s| - 1] as int - '0' as int)
  }

  /** Python's `str(n)` for `n >= 0` (see `NatToStringDenotes`). */
  function NatToString(n: nat): string
    decreases n
  {
    if n < 10 then [Digit(n)] else NatToString(n / 10) + [Digit(n % 10)]
  }

  /** `str(n)`: decimal digits without leading zeros, denoting `n`. */
  lemma {:induction false} NatToStringDenotes(n: nat)
    ensures |NatToString(n)| > 0 && forall k :: 0 <= k < |NatToString(n)| ==> IsDigit(NatToString(n)[k])
    ensures |NatToString(n)| > 1 ==> NatToString(n)[0] != '0'
    ensures DecimalValue(NatToString(n)) == n
    decreases n
  {
    if n >= 10 {
      NatToStringDenotes(n / 10);
      var r := NatToString(n);
      assert r == NatToString(n / 10) + [Digit(n % 10)];
      assert r[..|r| - 1] == NatToString(n / 10);
    }
  }
}
