/**
 * The Python string operations the bookkeeping layer relies on:
 * `str.split(sep)` with an explicit separator, `str(int)` and `int(str)`.
 */
module Text {
  import opened Wrappers

  // ---------------------------------------------------------------------------
  // str.split(sep)
  // ---------------------------------------------------------------------------

  /** `d` occurs in `s` starting at position `j`. */
  predicate OccursAt(s: string, d: string, j: nat) {
    j + |d| <= |s| && s[j..j + |d|] == d
  }

  lemma OccursAtTail(s: string, d: string, j: nat)
    requires |s| > 0
    ensures OccursAt(s, d, j + 1) <==> OccursAt(s[1..], d, j)
  {
    if j + 1 + |d| <= |s| {
      assert s[1..][j..j + |d|] == s[j + 1..j + 1 + |d|];
    }
  }

  /** The position of the first occurrence of `d` in `s`, as `str.find` gives it. */
  function IndexOf(s: string, d: string): (r: Option<nat>)
    requires |d| > 0
    ensures r.Some? ==> OccursAt(s, d, r.value)
    ensures r.Some? ==> forall j: nat :: j < r.value ==> !OccursAt(s, d, j)
    ensures r.None? ==> forall j: nat :: !OccursAt(s, d, j)
    decreases |s|
  {
    if |s| < |d| then None
    else if s[..|d|] == d then Some(0)
    else
      var rest := IndexOf(s[1..], d);
      assert forall j: nat :: OccursAt(s, d, j + 1) <==> OccursAt(s[1..], d, j) by {
        forall j: nat ensures OccursAt(s, d, j + 1) <==> OccursAt(s[1..], d, j) {
          OccursAtTail(s, d, j);
        }
      }
      assert forall j: nat :: OccursAt(s, d, j) ==> j > 0 && OccursAt(s[1..], d, j - 1) by {
        forall j: nat | OccursAt(s, d, j) ensures j > 0 && OccursAt(s[1..], d, j - 1) {
          if j > 0 { OccursAtTail(s, d, j - 1); }
        }
      }
      if rest.None? then None else Some(rest.value + 1)
  }

  /** `s.split(d)`: the pieces between non-overlapping occurrences of `d`, left to right. */
  function Split(s: string, d: string): (pieces: seq<string>)
    requires |d| > 0
    ensures |pieces| >= 1
    decreases |s|
  {
    match IndexOf(s, d)
    case None => [s]
    case Some(i) => [s[..i]] + Split(s[i + |d|..], d)
  }

  /** `d.join(pieces)`. */
  function Join(pieces: seq<string>, d: string): string
  {
    if |pieces| == 0 then ""
    else if |pieces| == 1 then pieces[0]
    else pieces[0] + d + Join(pieces[1..], d)
  }

  /** Splitting loses nothing: joining the pieces with the separator gives the string back. */
  lemma {:induction false} JoinSplit(s: string, d: string)
    requires |d| > 0
    ensures Join(Split(s, d), d) == s
    decreases |s|
  {
    match IndexOf(s, d)
    case None =>
    case Some(i) =>
      var rest := Split(s[i + |d|..], d);
      JoinSplit(s[i + |d|..], d);
      assert Split(s, d) == [s[..i]] + rest;
      assert Join(Split(s, d), d) == s[..i] + d + Join(rest, d);
      assert s == s[..i] + s[i..i + |d|] + s[i + |d|..];
  }

  /** No piece of a split contains the separator. */
  lemma {:induction false} SplitPiecesFree(s: string, d: string)
    requires |d| > 0
    ensures forall k :: 0 <= k < |Split(s, d)| ==> IndexOf(Split(s, d)[k], d).None?
    decreases |s|
  {
    match IndexOf(s, d)
    case None =>
    case Some(i) =>
      SplitPiecesFree(s[i + |d|..], d);
      var head := s[..i];
      forall j: nat ensures !OccursAt(head, d, j) {
        if OccursAt(head, d, j) {
          assert s[j..j + |d|] == head[j..j + |d|];
          assert OccursAt(s, d, j);
          assert false;
        }
      }
      assert Split(s, d) == [head] + Split(s[i + |d|..], d);
  }

  /** When the first character of `d` does not occur in `p`, the first piece of `p + d + t` is `p`. */
  lemma SplitAfterPrefix(p: string, d: string, t: string)
    requires |d| > 0 && d[0] !in p
    ensures Split(p + d + t, d) == [p] + Split(t, d)
  {
    var s := p + d + t;
    assert s[|p|..|p| + |d|] == d;
    assert OccursAt(s, d, |p|);
    forall j: nat | j < |p| ensures !OccursAt(s, d, j) {
      assert s[j] == p[j] != d[0];
      if j + |d| <= |s| {
        assert s[j..j + |d|][0] == s[j];
      }
    }
    var r := IndexOf(s, d);
    assert r.Some?;
    assert !(r.value < |p|);
    assert !(r.value > |p|);
    assert s[..|p|] == p;
    assert s[|p| + |d|..] == t;
  }

  /** A string without the first character of `d` splits into itself alone. */
  lemma SplitWithoutSeparator(t: string, d: string)
    requires |d| > 0 && d[0] !in t
    ensures Split(t, d) == [t]
  {
    forall j: nat ensures !OccursAt(t, d, j) {
      if j + |d| <= |t| {
        assert t[j..j + |d|][0] == t[j] != d[0];
      }
    }
  }

  // ---------------------------------------------------------------------------
  // str(int) and int(str)
  // ---------------------------------------------------------------------------

  predicate IsDigit(c: char) { '0' <= c <= '9' }

  function DigitChar(n: nat): (c: char)
    requires n < 10
    ensures IsDigit(c) && c as int - '0' as int == n
  {
    (n + '0' as int) as char
  }

  function DigitValue(c: char): nat
  {
    if IsDigit(c) then c as int - '0' as int else 0
  }

  /** Decimal digits of `n`, most significant first, without leading zeros. */
  function NatToString(n: nat): (s: string)
    decreases n
  {
    if n < 10 then [DigitChar(n)] else NatToString(n / 10) + [DigitChar(n % 10)]
  }

  /** `str(i)` for a Python int. */
  function IntToString(i: int): string
  {
    if i < 0 then "-" + NatToString(-i) else NatToString(i)
  }

  /** The characters Python's `str.strip()` removes (and so `int()` ignores around a number). */
  predicate IsWhitespace(c: char) {
    var n := c as int;
    (9 <= n <= 13) || (28 <= n <= 32) || n == 0x85 || n == 0xA0 || n == 0x1680 ||
    (0x2000 <= n <= 0x200A) || n == 0x2028 || n == 0x2029 || n == 0x202F ||
    n == 0x205F || n == 0x3000
  }

  function TrimStart(s: string): string
    decreases |s|
  {
    if |s| > 0 && IsWhitespace(s[0]) then TrimStart(s[1..]) else s
  }

  function TrimEnd(s: string): string
    decreases |s|
  {
    if |s| > 0 && IsWhitespace(s[|s| - 1]) then TrimEnd(s[..|s| - 1]) else s
  }

  /** Digits with Python's optional single `_` between two digits (`1_000`). */
  predicate WellFormedDigits(s: string) {
    && |s| > 0 && IsDigit(s[0]) && IsDigit(s[|s| - 1])
    && (forall k :: 0 <= k < |s| ==> IsDigit(s[k]) || s[k] == '_')
    && (forall k :: 0 <= k < |s| - 1 ==> !(s[k] == '_' && s[k + 1] == '_'))
  }

  /** The decimal value of a digit string, skipping `_` separators. */
  function DigitsValue(s: string): nat
    decreases |s|
  {
    if s == [] then 0
    else if s[|s| - 1] == '_' then DigitsValue(s[..|s| - 1])
    else DigitsValue(s[..|s| - 1]) * 10 + DigitValue(s[|s| - 1])
  }

  /** `int(s)` in base 10: `None` stands for the `ValueError` Python raises. */
  function ParseInt(s: string): Option<int>
  {
    var t := TrimEnd(TrimStart(s));
    if |t| > 0 && (t[0] == '-' || t[0] == '+') then
      if WellFormedDigits(t[1..]) then
        Some(if t[0] == '-' then -(DigitsValue(t[1..]) as int) else DigitsValue(t[1..]))
      else None
    else if WellFormedDigits(t) then Some(DigitsValue(t))
    else None
  }

  lemma {:induction false} NatToStringDigits(n: nat)
    ensures |NatToString(n)| > 0
    ensures forall k :: 0 <= k < |NatToString(n)| ==> IsDigit(NatToString(n)[k])
    ensures DigitsValue(NatToString(n)) == n
    decreases n
  {
    var s := NatToString(n);
    if n < 10 {
      assert s[..0] == [];
    } else {
      NatToStringDigits(n / 10);
      assert s[..|s| - 1] == NatToString(n / 10);
    }
  }

  /** Decimal digits with no leading zero, except for `0` itself. */
  predicate CanonicalDigits(d: string) {
    && |d| > 0
    && (forall k :: 0 <= k < |d| ==> IsDigit(d[k]))
    && (|d| > 1 ==> d[0] != '0')
  }

  /** The text `str` gives for an int: canonical digits, with a `-` before any number but `0`. */
  predicate CanonicalInt(s: string) {
    || CanonicalDigits(s)
    || (|s| > 1 && s[0] == '-' && CanonicalDigits(s[1..]) && s[1..] != "0")
  }

  lemma {:induction false} NatToStringLeading(n: nat)
    ensures NatToString(n)[0] == '0' <==> n == 0
    decreases n
  {
    NatToStringDigits(n);
    if n >= 10 {
      NatToStringLeading(n / 10);
      NatToStringDigits(n / 10);
    }
  }

  /** `str` writes every int in canonical form. */
  lemma IntToStringCanonical(i: int)
    ensures CanonicalInt(IntToString(i))
  {
    var m: nat := if i < 0 then -i else i;
    NatToStringDigits(m);
    NatToStringLeading(m);
    if i < 0 {
      assert IntToString(i)[1..] == NatToString(m);
    }
  }

  lemma {:induction false} DigitsValuePositive(d: string)
    requires CanonicalDigits(d) && d[0] != '0'
    ensures DigitsValue(d) >= 1
    decreases |d|
  {
    if |d| > 1 {
      var init := d[..|d| - 1];
      assert init[0] == d[0];
      DigitsValuePositive(init);
    }
  }

  /** Canonical digits are the digits `str` writes for their own value. */
  lemma {:induction false} CanonicalDigitsAreStr(d: string)
    requires CanonicalDigits(d)
    ensures d == NatToString(DigitsValue(d))
    decreases |d|
  {
    var c := d[|d| - 1];
    assert DigitChar(DigitValue(c)) == c;
    if |d| > 1 {
      var init := d[..|d| - 1];
      assert init[0] == d[0];
      DigitsValuePositive(init);
      CanonicalDigitsAreStr(init);
      assert d == init + [c];
    }
  }

  /** `int` strips nothing from a canonical text. */
  lemma CanonicalUntrimmed(s: string)
    requires CanonicalInt(s)
    ensures TrimEnd(TrimStart(s)) == s
  {
    assert !IsWhitespace(s[0]) && !IsWhitespace(s[|s| - 1]);
    assert TrimStart(s) == s;
  }

  /**
   * A canonical text that reads back as `v` is exactly `str(v)`: the round
   * trip and canonical form together fix the text.
   */
  lemma CanonicalIsStr(s: string, v: int)
    requires CanonicalInt(s) && ParseInt(s) == Some(v)
    ensures s == IntToString(v)
  {
    CanonicalUntrimmed(s);
    if CanonicalDigits(s) {
      assert s[0] != '-' && s[0] != '+';
      assert WellFormedDigits(s);
      CanonicalDigitsAreStr(s);
    } else {
      var d := s[1..];
      assert WellFormedDigits(d);
      CanonicalDigitsAreStr(d);
      if |d| == 1 {
        assert d == [d[0]];
      }
      DigitsValuePositive(d);
      assert s == "-" + d;
    }
  }

  /** `int(str(i)) == i`: the text `str` produces is read back to the same number by `int`. */
  lemma IntToStringRoundTrip(i: int)
    ensures ParseInt(IntToString(i)) == Some(i)
  {
    var m: nat := if i < 0 then -i else i;
    NatToStringDigits(m);
    var digits := NatToString(m);
    assert WellFormedDigits(digits);
    var s := IntToString(i);
    assert !IsWhitespace(s[0]) && !IsWhitespace(s[|s| - 1]);
    assert TrimStart(s) == s;
    assert TrimEnd(s) == s;
    if i < 0 {
      assert s[1..] == digits;
    } else {
      assert !(s[0] == '-' || s[0] == '+');
    }
  }
}
