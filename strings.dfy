/** The pieces of Go's `strings` and `strconv` packages the core relies on:
    substring search, decimal formatting of integers and the base-10 parser
    behind `json.Number.Int64`, plus the ordered substring classification
    that every error handler of the core performs. */
module Strings {
  import opened Wrappers

  // ---------------------------------------------------------------------
  // strings.Contains
  // ---------------------------------------------------------------------

  /** `strings.Contains(s, sub)`: the empty string occurs in every string. */
  predicate Contains(s: string, sub: string)
    decreases |s|
  {
    sub <= s || (|s| > 0 && Contains(s[1..], sub))
  }

  /** `sub` occurs in `s` starting at index `i`. */
  ghost predicate OccursAt(s: string, sub: string, i: int)
  {
    0 <= i && i + |sub| <= |s| && s[i..i + |sub|] == sub
  }

  /** An occurrence at 0 is a prefix. */
  lemma OccursAtZero(s: string, sub: string)
    ensures OccursAt(s, sub, 0) <==> sub <= s
  {
    if |sub| <= |s| {
      assert s[0..|sub|] == s[..|sub|];
    }
  }

  /** Dropping the first character shifts every occurrence one place left. */
  lemma OccursShift(s: string, sub: string, i: nat)
    requires |s| > 0
    ensures OccursAt(s[1..], sub, i) <==> OccursAt(s, sub, i + 1)
  {
    if i + 1 + |sub| <= |s| {
      assert s[1..][i..i + |sub|] == s[i + 1..i + 1 + |sub|];
    }
  }

  /** The recursive search agrees with the positional definition of a substring. */
  lemma {:induction false} ContainsIffOccurs(s: string, sub: string)
    ensures Contains(s, sub) <==> exists i :: OccursAt(s, sub, i)
    decreases |s|
  {
    OccursAtZero(s, sub);
    if sub <= s {
      assert OccursAt(s, sub, 0);
    } else if |s| > 0 {
      ContainsIffOccurs(s[1..], sub);
      if i :| OccursAt(s[1..], sub, i) {
        OccursShift(s, sub, i);
      }
      if i :| OccursAt(s, sub, i) {
        OccursShift(s, sub, i - 1);
      }
    } else {
      assert forall i :: !OccursAt(s, sub, i);
    }
  }

  /** A string built around `sub` contains it. */
  lemma ContainsInfix(a: string, sub: string, b: string)
    ensures Contains(a + sub + b, sub)
  {
    var s := a + sub + b;
    assert s[|a|..|a| + |sub|] == sub;
    assert OccursAt(s, sub, |a|);
    ContainsIffOccurs(s, sub);
  }

  // ---------------------------------------------------------------------
  // Ordered substring classification
  // ---------------------------------------------------------------------

  /** Some needle of the list occurs in `msg`. */
  predicate MentionsAny(msg: string, needles: seq<string>)
  {
    exists k :: 0 <= k < |needles| && Contains(msg, needles[k])
  }

  /** A list of needles is mentioned when its head is, or its tail. */
  lemma MentionsAnyCons(msg: string, needle: string, rest: seq<string>)
    ensures MentionsAny(msg, [needle] + rest) <==> Contains(msg, needle) || MentionsAny(msg, rest)
  {
    var needles := [needle] + rest;
    if k :| 0 <= k < |needles| && Contains(msg, needles[k]) {
      if k > 0 {
        assert needles[k] == rest[k - 1];
      }
    }
    if k :| 0 <= k < |rest| && Contains(msg, rest[k]) {
      assert needles[k + 1] == rest[k];
    }
    if Contains(msg, needle) {
      assert needles[0] == needle;
    }
  }

  /** The label of the FIRST rule one of whose needles occurs in `msg`: the
      reference reading of a chain of `if strings.Contains(...)` tests. */
  function FirstMatch<L>(rules: seq<(seq<string>, L)>, msg: string): (r: Option<L>)
    ensures r.None? <==> forall i :: 0 <= i < |rules| ==> !MentionsAny(msg, rules[i].0)
    ensures r.Some? ==> exists i :: 0 <= i < |rules| && MentionsAny(msg, rules[i].0) && r.value == rules[i].1
                                    && forall j :: 0 <= j < i ==> !MentionsAny(msg, rules[j].0)
  {
    if rules == [] then None
    else if MentionsAny(msg, rules[0].0) then Some(rules[0].1)
    else
      var r := FirstMatch(rules[1..], msg);
      assert forall i :: 1 <= i < |rules| ==> rules[i] == rules[1..][i - 1];
      r
  }

  // ---------------------------------------------------------------------
  // Decimal integers (strconv)
  // ---------------------------------------------------------------------

  const MaxUint64: int := 0xFFFF_FFFF_FFFF_FFFF
  const MinInt64: int := -0x8000_0000_0000_0000
  const MaxInt64: int := 0x7FFF_FFFF_FFFF_FFFF

  predicate IsDigit(c: char) { '0' <= c <= '9' }

  function DigitValue(c: char): nat
    requires IsDigit(c)
  {
    (c as int) - ('0' as int)
  }

  function DigitChar(d: nat): (c: char)
    requires d < 10
    ensures IsDigit(c) && DigitValue(c) == d
  {
    (('0' as int) + d) as char
  }

  /** `%d` of a non-negative integer: the shortest run of decimal digits. */
  function FormatNat(n: nat): (s: string)
    ensures |s| > 0 && forall i :: 0 <= i < |s| ==> IsDigit(s[i])
  {
    if n < 10 then [DigitChar(n)] else FormatNat(n / 10) + [DigitChar(n % 10)]
  }

  /** `%d` / `strconv.Itoa`. */
  function FormatInt(n: int): string
  {
    if n < 0 then "-" + FormatNat(-n) else FormatNat(n)
  }

  /** How the digit loop of `strconv.ParseUint(s, 10, 64)` ends. */
  datatype Scan = Scanned(n: nat) | BadSyntax | OutOfRange

  /** The digit loop of `strconv.ParseUint(s, 10, 64)` from accumulator `n`:
      each character is checked to be a digit BEFORE the accumulator is checked
      for overflow past 2^64-1, so an overflow ends the scan even if a bad
      character follows. */
  function ScanDigits(s: string, n: nat): Scan
    decreases |s|
  {
    if s == [] then Scanned(n)
    else if !IsDigit(s[0]) then BadSyntax
    else if n * 10 + DigitValue(s[0]) > MaxUint64 then OutOfRange
    else ScanDigits(s[1..], n * 10 + DigitValue(s[0]))
  }

  /** The text of a `*strconv.NumError` from ParseInt (Go quotes the input;
      escaping inside the quotes is not modelled). */
  function SyntaxError(s: string): string
  {
    "strconv.ParseInt: parsing \"" + s + "\": invalid syntax"
  }

  function RangeError(s: string): string
  {
    "strconv.ParseInt: parsing \"" + s + "\": value out of range"
  }

  /** `strconv.ParseInt(s, 10, 64)`, the parser `json.Number.Int64` calls: an
      optional sign, at least one decimal digit, nothing else, and a value that
      fits in 64 signed bits. */
  function ParseInt64(s: string): (r: Result<int>)
    ensures r.Ok? ==> MinInt64 <= r.value <= MaxInt64
    ensures r.Ok? ==> s != "" && (IsDigit(s[0]) || s[0] == '+' || s[0] == '-')
  {
    if s == "" then Err(SyntaxError(s))
    else
      var neg := s[0] == '-';
      var digits := if s[0] == '+' || s[0] == '-' then s[1..] else s;
      if digits == "" then Err(SyntaxError(s))
      else
        match ScanDigits(digits, 0)
        case BadSyntax => Err(SyntaxError(s))
        case OutOfRange => Err(RangeError(s))
        case Scanned(u) =>
          if !neg && u > MaxInt64 then Err(RangeError(s))
          else if neg && u > -MinInt64 then Err(RangeError(s))
          else
            var v: int := if neg then -(u as int) else u;
            Ok(v)
  }

  /** Scanning one more digit extends a finished scan the way the loop body does. */
  lemma {:induction false} ScanAppendDigit(s: string, n: nat, c: char)
    requires IsDigit(c) && ScanDigits(s, n).Scanned?
    ensures var m := ScanDigits(s, n).n;
            ScanDigits(s + [c], n) ==
              if m * 10 + DigitValue(c) > MaxUint64 then OutOfRange else Scanned(m * 10 + DigitValue(c))
    decreases |s|
  {
    if s != [] {
      assert (s + [c])[0] == s[0];
      assert (s + [c])[1..] == s[1..] + [c];
      ScanAppendDigit(s[1..], n * 10 + DigitValue(s[0]), c);
    }
  }

  /** The digit loop reads back every unsigned 64-bit value `FormatNat` writes. */
  lemma {:induction false} ScanFormatNat(n: nat)
    requires n <= MaxUint64
    ensures ScanDigits(FormatNat(n), 0) == Scanned(n)
  {
    if n >= 10 {
      ScanFormatNat(n / 10);
      ScanAppendDigit(FormatNat(n / 10), 0, DigitChar(n % 10));
    }
  }

  /** Round trip: `strconv.ParseInt(strconv.Itoa(n), 10, 64) == n` for every int64. */
  lemma FormatParseRoundTrip(n: int)
    requires MinInt64 <= n <= MaxInt64
    ensures ParseInt64(FormatInt(n)) == Ok(n)
  {
    if n < 0 {
      var s := FormatInt(n);
      assert s[1..] == FormatNat(-n);
      ScanFormatNat(-n);
    } else {
      ScanFormatNat(n);
      assert IsDigit(FormatNat(n)[0]);
    }
  }
}
