/**
 * The parts of Go's `strings`, `strconv` and `fmt` packages that the core's
 * string handling relies on: white-space trimming, splitting on a separator,
 * searching for "%d", decimal and hexadecimal integers, ASCII lower-casing.
 */
module Text {
  import opened Wrappers
  import opened Seqs

  // ---------------------------------------------------------------------
  // White space (unicode.IsSpace, strings.TrimSpace)
  // ---------------------------------------------------------------------

  /** unicode.IsSpace: the characters with the Unicode White_Space property. */
  predicate IsSpace(c: char) {
    var n := c as int;
    (9 <= n <= 13) || n == 32 || n == 0x85 || n == 0xA0 || n == 0x1680
    || (0x2000 <= n <= 0x200A) || n == 0x2028 || n == 0x2029 || n == 0x202F
    || n == 0x205F || n == 0x3000
  }

  /** A string that neither starts nor ends with white space. */
  predicate Trimmed(s: string) {
    s == [] || (!IsSpace(s[0]) && !IsSpace(s[|s| - 1]))
  }

  /** Drops the leading white space of `s`. */
  function TrimLeft(s: string): (r: string)
    ensures |r| <= |s| && r == s[|s| - |r|..]
    ensures r == [] || !IsSpace(r[0])
  {
    if |s| > 0 && IsSpace(s[0]) then TrimLeft(s[1..]) else s
  }

  /** Drops the trailing white space of `s`. */
  function TrimRight(s: string): (r: string)
    ensures |r| <= |s| && r == s[..|r|]
    ensures r == [] || !IsSpace(r[|r| - 1])
  {
    if |s| > 0 && IsSpace(s[|s| - 1]) then TrimRight(s[..|s| - 1]) else s
  }

  /** strings.TrimSpace: `s` without its leading and trailing white space. */
  function TrimSpace(s: string): (r: string)
    ensures Trimmed(r)
    ensures |r| <= |s|
  {
    TrimRight(TrimLeft(s))
  }

  /** TrimLeft drops only white space. */
  lemma {:induction false} TrimLeftDropsSpace(s: string)
    ensures forall k :: 0 <= k < |s| - |TrimLeft(s)| ==> IsSpace(s[k])
    decreases |s|
  {
    if |s| > 0 && IsSpace(s[0]) {
      TrimLeftDropsSpace(s[1..]);
      forall k | 1 <= k < |s| - |TrimLeft(s)| ensures IsSpace(s[k]) {
        assert s[k] == s[1..][k - 1];
      }
    }
  }

  /** TrimRight drops only white space. */
  lemma {:induction false} TrimRightDropsSpace(s: string)
    ensures forall k :: |TrimRight(s)| <= k < |s| ==> IsSpace(s[k])
    decreases |s|
  {
    if |s| > 0 && IsSpace(s[|s| - 1]) {
      var init := s[..|s| - 1];
      TrimRightDropsSpace(init);
      forall k | |TrimRight(s)| <= k < |s| - 1 ensures IsSpace(s[k]) {
        assert s[k] == init[k];
      }
    }
  }

  /**
   * Trimming keeps the middle of `s` and drops only white space: the
   * result is a slice of `s`, everything before it and everything after it
   * is white space, and it neither starts nor ends with white space.
   */
  lemma TrimSpaceSlice(s: string)
    ensures var r := TrimSpace(s);
      exists i, j :: 0 <= i <= j <= |s| && r == s[i..j]
        && (forall k :: 0 <= k < i ==> IsSpace(s[k]))
        && (forall k :: j <= k < |s| ==> IsSpace(s[k]))
  {
    var l := TrimLeft(s);
    var r := TrimRight(l);
    TrimLeftDropsSpace(s);
    TrimRightDropsSpace(l);
    MiddleSlice(s, l, r, IsSpace);
  }

  /** Trimming adds no character: what `s` lacks, its trimmed form lacks. */
  lemma TrimSpaceLacks(s: string, c: char)
    requires c !in s
    ensures c !in TrimSpace(s)
  {
    var l := TrimLeft(s);
    assert forall i :: 0 <= i < |l| ==> l[i] == s[|s| - |l| + i];
    var r := TrimRight(l);
    assert forall i :: 0 <= i < |r| ==> r[i] == l[i];
  }

  /** Trimming a string that has no white space at either end changes nothing. */
  lemma TrimSpaceOfTrimmed(s: string)
    requires Trimmed(s)
    ensures TrimSpace(s) == s
  {
    assert TrimLeft(s) == s;
  }

  // ---------------------------------------------------------------------
  // Splitting and joining (strings.Split, strings.SplitN(_, _, 2), strings.Join)
  // ---------------------------------------------------------------------

  /** strings.Join(parts, string(sep)). */
  function Join(parts: seq<string>, sep: char): string
  {
    if |parts| == 0 then ""
    else if |parts| == 1 then parts[0]
    else parts[0] + [sep] + Join(parts[1..], sep)
  }

  /**
   * strings.Split(s, string(sep)): the pieces between the separators; it
   * always has at least one piece (the empty string splits into [""]).
   */
  function Split(s: string, sep: char): (parts: seq<string>)
    ensures |parts| >= 1
    decreases |s|
  {
    if s == [] then [""]
    else
      var rest := Split(s[1..], sep);
      if s[0] == sep then [""] + rest
      else [[s[0]] + rest[0]] + rest[1..]
  }

  /** No piece contains the separator. */
  lemma {:induction false} SplitPiecesLackSep(s: string, sep: char)
    ensures forall i :: 0 <= i < |Split(s, sep)| ==> sep !in Split(s, sep)[i]
    decreases |s|
  {
    if s != [] {
      SplitPiecesLackSep(s[1..], sep);
      var rest := Split(s[1..], sep);
      var parts := Split(s, sep);
      if s[0] != sep {
        assert parts[0] == [s[0]] + rest[0];
        forall i | 0 < i < |parts| ensures sep !in parts[i] {
          assert parts[i] == rest[i];
        }
      } else {
        forall i | 0 < i < |parts| ensures sep !in parts[i] {
          assert parts[i] == rest[i - 1];
        }
      }
    }
  }

  /** Joining the pieces with the separator gives back the string. */
  lemma {:induction false} JoinSplit(s: string, sep: char)
    ensures Join(Split(s, sep), sep) == s
    decreases |s|
  {
    if s != [] {
      JoinSplit(s[1..], sep);
      var rest := Split(s[1..], sep);
      assert s == [s[0]] + s[1..];
      if s[0] == sep {
        assert ([""] + rest)[1..] == rest;
      } else {
        var parts := [[s[0]] + rest[0]] + rest[1..];
        assert parts[1..] == rest[1..];
      }
    }
  }

  /** A piece without the separator splits into itself. */
  lemma {:induction false} SplitPiece(p: string, sep: char)
    requires sep !in p
    ensures Split(p, sep) == [p]
    decreases |p|
  {
    if p != [] {
      SplitPiece(p[1..], sep);
      assert [p[0]] + p[1..] == p;
    }
  }

  /** Splitting `p + sep + t`, where `p` has no separator, yields `p` and then the pieces of `t`. */
  lemma {:induction false} SplitAfterPiece(p: string, sep: char, t: string)
    requires sep !in p
    ensures Split(p + [sep] + t, sep) == [p] + Split(t, sep)
    decreases |p|
  {
    var s := p + [sep] + t;
    if p == [] {
      assert s[1..] == t;
    } else {
      assert s[1..] == p[1..] + [sep] + t;
      SplitAfterPiece(p[1..], sep, t);
      assert [p[0]] + p[1..] == p;
    }
  }

  /** Split undoes Join, for pieces without the separator. */
  lemma {:induction false} SplitJoin(parts: seq<string>, sep: char)
    requires |parts| >= 1
    requires forall i :: 0 <= i < |parts| ==> sep !in parts[i]
    ensures Split(Join(parts, sep), sep) == parts
  {
    if |parts| == 1 {
      SplitPiece(parts[0], sep);
    } else {
      SplitJoin(parts[1..], sep);
      SplitAfterPiece(parts[0], sep, Join(parts[1..], sep));
      assert [parts[0]] + parts[1..] == parts;
    }
  }

  /**
   * strings.SplitN(s, string(sep), 2): the whole string when it has no
   * separator, otherwise the text before the first separator and the rest.
   */
  function SplitN2(s: string, sep: char): (parts: seq<string>)
    ensures sep !in s ==> parts == [s]
    ensures sep in s ==> |parts| == 2 && sep !in parts[0] && parts[0] + [sep] + parts[1] == s
  {
    if s == [] then [s]
    else if s[0] == sep then
      assert s == "" + [sep] + s[1..];
      ["", s[1..]]
    else
      var rest := SplitN2(s[1..], sep);
      assert s == [s[0]] + s[1..];
      if |rest| == 1 then [s] else [[s[0]] + rest[0], rest[1]]
  }

  // ---------------------------------------------------------------------
  // Substrings (strings.Contains, strings.HasPrefix) and the "%d" verb of fmt.Sprintf
  // ---------------------------------------------------------------------

  /** `pat` occurs in `s` starting at index `i`. */
  predicate OccursAt(s: string, pat: string, i: nat) {
    i + |pat| <= |s| && s[i..i + |pat|] == pat
  }

  /** strings.Index: the first index at which `pat` occurs in `s`. */
  function IndexOf(s: string, pat: string): (r: Option<nat>)
    ensures r.Some? ==> OccursAt(s, pat, r.value)
    ensures r.Some? ==> forall i: nat :: i < r.value ==> !OccursAt(s, pat, i)
    ensures r.None? ==> forall i: nat :: !OccursAt(s, pat, i)
    decreases |s|
  {
    if |s| < |pat| then None
    else if s[..|pat|] == pat then Some(0)
    else
      var rest := IndexOf(s[1..], pat);
      assert !OccursAt(s, pat, 0);
      if rest.None? then
        assert forall i: nat :: !OccursAt(s, pat, i) by {
          forall i: nat ensures !OccursAt(s, pat, i) {
            if i > 0 { OccursShift(s, pat, i - 1); }
          }
        }
        None
      else
        OccursShift(s, pat, rest.value);
        assert forall i: nat :: i < rest.value + 1 ==> !OccursAt(s, pat, i) by {
          forall i: nat | i < rest.value + 1 ensures !OccursAt(s, pat, i) {
            if i > 0 { OccursShift(s, pat, i - 1); }
          }
        }
        Some(rest.value + 1)
  }

  lemma OccursShift(s: string, pat: string, i: nat)
    requires |s| > 0
    ensures OccursAt(s, pat, i + 1) <==> OccursAt(s[1..], pat, i)
  {
    if i + 1 + |pat| <= |s| {
      assert s[i + 1..i + 1 + |pat|] == s[1..][i..i + |pat|];
    }
  }

  /** strings.Contains. */
  predicate Contains(s: string, pat: string) {
    IndexOf(s, pat).Some?
  }

  /** strings.HasPrefix. */
  predicate HasPrefix(s: string, prefix: string) {
    |prefix| <= |s| && s[..|prefix|] == prefix
  }

  /** The integer verb that the core's templates use. */
  const IntVerb: string := "%d"

  /**
   * fmt.Sprintf(template, n) for a template whose only verb is one "%d":
   * the first "%d" is replaced by the decimal digits of n.
   */
  function SprintfD(template: string, n: int): string
  {
    match IndexOf(template, IntVerb)
    case None => template
    case Some(i) => template[..i] + FormatDecimal(n) + template[i + 2..]
  }

  // ---------------------------------------------------------------------
  // Integers (strconv.Itoa, strconv.Atoi, strconv.ParseInt with base 16)
  // ---------------------------------------------------------------------

  /** Bounds of Go's 64-bit `int`. */
  const IntMin: int := -0x8000_0000_0000_0000
  const IntMax: int := 0x7FFF_FFFF_FFFF_FFFF

  predicate InIntRange(n: int) {
    IntMin <= n <= IntMax
  }

  /** The digit character for `d` in base 10 or 16 (lower-case letters, as strconv writes them). */
  function DigitChar(d: nat): char
    requires d < 16
  {
    if d < 10 then ('0' as int + d) as char else ('a' as int + d - 10) as char
  }

  /** The value of a decimal or hexadecimal digit of either case. */
  function DigitValue(c: char): Option<nat>
  {
    if '0' <= c <= '9' then Some(c as int - '0' as int)
    else if 'a' <= c <= 'f' then Some(c as int - 'a' as int + 10)
    else if 'A' <= c <= 'F' then Some(c as int - 'A' as int + 10)
    else None
  }

  predicate IsDigit(c: char, base: nat) {
    DigitValue(c).Some? && DigitValue(c).value < base
  }

  /** A non-empty run of base-`base` digits. */
  predicate AllDigits(s: string, base: nat) {
    |s| > 0 && forall i :: 0 <= i < |s| ==> IsDigit(s[i], base)
  }

  /** The value of a non-empty string of base-`base` digits. */
  function ParseDigits(s: string, base: nat): (r: Option<nat>)
    requires base == 10 || base == 16
    ensures r.Some? <==> |s| > 0 && forall i :: 0 <= i < |s| ==> IsDigit(s[i], base)
  {
    if |s| == 0 then None
    else
      var d := DigitValue(s[|s| - 1]);
      if d.None? || d.value >= base then None
      else if |s| == 1 then Some(d.value)
      else
        var init := s[..|s| - 1];
        assert forall i :: 0 <= i < |init| ==> init[i] == s[i];
        match ParseDigits(init, base)
        case None => None
        case Some(v) => Some(v * base + d.value)
  }

  /** The base-`base` digits of `n`, without leading zeros. */
  function FormatNat(n: nat, base: nat): (s: string)
    requires base == 10 || base == 16
    ensures |s| > 0
    ensures forall i :: 0 <= i < |s| ==> IsDigit(s[i], base)
  {
    if n < base then [DigitChar(n)] else FormatNat(n / base, base) + [DigitChar(n % base)]
  }

  /** strconv.Itoa, and the "%d" verb: an optional minus sign and the decimal digits. */
  function FormatDecimal(n: int): (s: string)
    ensures |s| > 0
  {
    if n < 0 then "-" + FormatNat(-n, 10) else FormatNat(n, 10)
  }

  /** An optional sign followed by digits, without a range check. */
  function ParseSigned(s: string, base: nat): Option<int>
    requires base == 10 || base == 16
  {
    if s == [] then None
    else
      var digits := if s[0] == '+' || s[0] == '-' then s[1..] else s;
      match ParseDigits(digits, base)
      case None => None
      case Some(u) => Some(if s[0] == '-' then 0 - u as int else u as int)
  }

  /**
   * strconv.ParseInt(s, base, 64) for base 10 or 16: an optional sign, one
   * or more digits, and a value that fits a 64-bit int. No prefix, no
   * underscores and no white space are accepted.
   */
  function ParseInt(s: string, base: nat): (r: Option<int>)
    requires base == 10 || base == 16
    ensures r.Some? ==> InIntRange(r.value)
  {
    match ParseSigned(s, base)
    case None => None
    case Some(v) => if InIntRange(v) then Some(v) else None
  }

  /** strconv.Atoi on a 64-bit platform. */
  function Atoi(s: string): Option<int>
  {
    ParseInt(s, 10)
  }

  lemma DigitOfChar(d: nat)
    requires d < 16
    ensures DigitValue(DigitChar(d)) == Some(d)
  {
  }

  /** `b` to the power `e`. */
  function Pow(b: nat, e: nat): nat {
    if e == 0 then 1 else b * Pow(b, e - 1)
  }

  /** The value of one digit character, 0 for a character that is no digit. */
  function DigitOf(c: char): nat {
    if DigitValue(c).Some? then DigitValue(c).value else 0
  }

  /**
   * The positional value of a digit string: the first of `n` digits
   * weighs `base` to the power `n - 1`, the last one weighs 1.
   */
  function DigitsValue(s: string, base: nat): nat {
    if s == [] then 0 else DigitOf(s[0]) * Pow(base, |s| - 1) + DigitsValue(s[1..], base)
  }

  /** Appending a digit shifts the value up one place. */
  lemma {:induction false} DigitsValueSnoc(s: string, c: char, base: nat)
    ensures DigitsValue(s + [c], base) == DigitsValue(s, base) * base + DigitOf(c)
    decreases |s|
  {
    var t := s + [c];
    if s == [] {
      assert t[1..] == [];
    } else {
      assert t[0] == s[0] && t[1..] == s[1..] + [c];
      DigitsValueSnoc(s[1..], c, base);
      var d, p, v := DigitOf(s[0]), Pow(base, |s| - 1), DigitsValue(s[1..], base);
      assert Pow(base, |s|) == base * p;
      ShiftPlace(d, p, v, base, DigitOf(c));
    }
  }

  /** The arithmetic of one more place: the leading digit's weight grows by a factor `base`. */
  lemma ShiftPlace(d: nat, p: nat, v: nat, base: nat, e: nat)
    ensures d * (base * p) + (v * base + e) == (d * p + v) * base + e
  {
    assert d * (base * p) == (d * p) * base;
    assert (d * p + v) * base == (d * p) * base + v * base;
  }

  /** An accepted digit string has its positional value. */
  lemma {:induction false} ParseDigitsValue(s: string, base: nat)
    requires base == 10 || base == 16
    ensures ParseDigits(s, base).Some? ==> ParseDigits(s, base).value == DigitsValue(s, base)
    decreases |s|
  {
    if |s| > 0 {
      var init := s[..|s| - 1];
      assert s == init + [s[|s| - 1]];
      DigitsValueSnoc(init, s[|s| - 1], base);
      if |s| > 1 {
        ParseDigitsValue(init, base);
      } else {
        assert init == [];
      }
    }
  }

  /** The digits of a numeral: what follows an optional leading sign. */
  function Unsigned(s: string): string {
    if s != [] && (s[0] == '+' || s[0] == '-') then s[1..] else s
  }

  /**
   * The reading of a signed numeral that strconv.ParseInt documents: an
   * optional sign, one or more digits of the base valued positionally
   * (either letter case, leading zeros allowed), and a value in the 64-bit
   * `int` range.
   */
  function NumeralValue(s: string, base: nat): Option<int> {
    var digits := Unsigned(s);
    var magnitude: int := DigitsValue(digits, base);
    var v: int := if s != [] && s[0] == '-' then -magnitude else magnitude;
    if AllDigits(digits, base) && InIntRange(v)
    then Some(v) else None
  }

  /** ParseInt agrees with the positional reading of the numeral on every input. */
  lemma ParseIntNumeral(s: string, base: nat)
    requires base == 10 || base == 16
    ensures ParseInt(s, base) == NumeralValue(s, base)
  {
    ParseDigitsValue(Unsigned(s), base);
  }

  /** A sign followed by digits reads as the signed positional value of the digits. */
  lemma ParseIntSigned(sign: char, digits: string, base: nat)
    requires base == 10 || base == 16
    requires sign == '+' || sign == '-'
    requires AllDigits(digits, base)
    requires DigitsValue(digits, base) <= IntMax
    ensures var v: int := DigitsValue(digits, base);
      ParseInt([sign] + digits, base) == Some(if sign == '-' then -v else v)
  {
    var s := [sign] + digits;
    assert s[0] == sign && s[1..] == digits;
    assert Unsigned(s) == digits;
    ParseIntNumeral(s, base);
  }

  /** ParseDigits reads back what FormatNat writes. */
  lemma {:induction false} ParseFormatNat(n: nat, base: nat)
    requires base == 10 || base == 16
    ensures ParseDigits(FormatNat(n, base), base) == Some(n)
  {
    if n < base {
      DigitOfChar(n);
    } else {
      var s := FormatNat(n, base);
      var init := FormatNat(n / base, base);
      assert s == init + [DigitChar(n % base)];
      assert s[..|s| - 1] == init;
      DigitOfChar(n % base);
      ParseFormatNat(n / base, base);
    }
  }

  /** Reading back a formatted integer, without the range check, gives the integer. */
  lemma ParseSignedFormatDecimal(n: int)
    ensures ParseSigned(FormatDecimal(n), 10) == Some(n)
  {
    var s := FormatDecimal(n);
    if n < 0 {
      var d := FormatNat(-n, 10);
      assert s == "-" + d;
      assert s[0] == '-' && s[1..] == d;
      ParseFormatNat(-n, 10);
      assert ParseDigits(s[1..], 10) == Some(-n);
    } else {
      var d := FormatNat(n, 10);
      assert s == d;
      assert IsDigit(d[0], 10);
      assert DigitValue('+') == None && DigitValue('-') == None;
      assert s[0] != '+' && s[0] != '-';
      ParseFormatNat(n, 10);
    }
  }

  /** strconv.Atoi(strconv.Itoa(n)) == n for every 64-bit int. */
  lemma AtoiFormatDecimal(n: int)
    requires InIntRange(n)
    ensures Atoi(FormatDecimal(n)) == Some(n)
  {
    ParseSignedFormatDecimal(n);
  }

  /** Different integers are written differently. */
  lemma FormatDecimalInjective(a: int, b: int)
    requires FormatDecimal(a) == FormatDecimal(b)
    ensures a == b
  {
    ParseSignedFormatDecimal(a);
    ParseSignedFormatDecimal(b);
  }

  // ---------------------------------------------------------------------
  // Lower-casing (strings.ToLower, restricted to ASCII letters)
  // ---------------------------------------------------------------------

  function LowerChar(c: char): char {
    if 'A' <= c <= 'Z' then (c as int + 32) as char else c
  }

  /** strings.ToLower for ASCII letters; other characters are kept. */
  function ToLower(s: string): (r: string)
    ensures |r| == |s|
    ensures forall i :: 0 <= i < |s| ==> r[i] == LowerChar(s[i])
  {
    if s == [] then [] else [LowerChar(s[0])] + ToLower(s[1..])
  }

  /** Lower-casing twice is lower-casing once. */
  lemma ToLowerIdempotent(s: string)
    ensures ToLower(ToLower(s)) == ToLower(s)
  {
    var l := ToLower(s);
    forall i | 0 <= i < |s| ensures ToLower(l)[i] == l[i] {
      assert l[i] == LowerChar(s[i]);
    }
  }
}
