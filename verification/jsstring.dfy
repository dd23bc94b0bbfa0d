/** String operations with the JavaScript semantics the forms and the
    customizer rely on: the white-space class behind `\s` and `trim()`,
    lower-casing, substring search (an unanchored `match` on a literal),
    `replace(/\s+/g, "-")`, and `parseInt` with and without an explicit radix.
    Strings are sequences of Unicode scalar values, where JavaScript strings
    are UTF-16 code units; lower-casing covers the ASCII letters only. */
module JsString {
  import opened Common

  // ---------------------------------------------------------------------------
  // White space
  // ---------------------------------------------------------------------------

  /** The characters matched by `\s` and removed by `trim()`: the ECMAScript
      WhiteSpace and LineTerminator productions. */
  predicate IsWhitespace(c: char) {
    || c == '\t' || c == '\n' || c == '\U{000B}' || c == '\U{000C}' || c == '\r'
    || c == ' ' || c == '\U{00A0}' || c == '\U{1680}'
    || ('\U{2000}' <= c <= '\U{200A}')
    || c == '\U{2028}' || c == '\U{2029}' || c == '\U{202F}' || c == '\U{205F}'
    || c == '\U{3000}' || c == '\U{FEFF}'
  }

  predicate NoWhitespace(s: string) {
    forall i :: 0 <= i < |s| ==> !IsWhitespace(s[i])
  }

  predicate AllWhitespace(s: string) {
    forall i :: 0 <= i < |s| ==> IsWhitespace(s[i])
  }

  // ---------------------------------------------------------------------------
  // Lower-casing
  // ---------------------------------------------------------------------------

  predicate IsUpperAscii(c: char) {
    'A' <= c <= 'Z'
  }

  /** `toLowerCase` on one character, for the ASCII letters. */
  function LowerChar(c: char): (r: char)
    ensures !IsUpperAscii(r)
    ensures IsWhitespace(r) == IsWhitespace(c)
    ensures IsUpperAscii(c) ==> r as int == c as int + 32
    ensures !IsUpperAscii(c) ==> r == c
  {
    if IsUpperAscii(c) then (c as int + 32) as char else c
  }

  /** `toLowerCase` on a string: same length, every character lowered. */
  function Lower(s: string): (r: string)
    ensures |r| == |s|
    ensures forall i :: 0 <= i < |s| ==> r[i] == LowerChar(s[i])
    ensures IsLowered(r)
  {
    seq(|s|, i requires 0 <= i < |s| => LowerChar(s[i]))
  }

  /** No character of `s` changes under lower-casing. */
  predicate IsLowered(s: string) {
    forall i :: 0 <= i < |s| ==> !IsUpperAscii(s[i])
  }

  lemma LowerOfLowered(s: string)
    requires IsLowered(s)
    ensures Lower(s) == s
  {
  }

  // ---------------------------------------------------------------------------
  // trim()
  // ---------------------------------------------------------------------------

  /** Drops the leading white space: the result is the suffix of `s` that
      starts at the first non-white-space character. */
  function TrimStart(s: string): (r: string)
    ensures |r| <= |s| && r == s[|s| - |r|..]
    ensures r == [] || !IsWhitespace(r[0])
    ensures AllWhitespace(s[..|s| - |r|])
  {
    if s != [] && IsWhitespace(s[0]) then TrimStart(s[1..]) else s
  }

  /** Drops the trailing white space: the result is the prefix of `s` that
      ends at the last non-white-space character. */
  function TrimEnd(s: string): (r: string)
    ensures |r| <= |s| && r == s[..|r|]
    ensures r == [] || !IsWhitespace(r[|r| - 1])
    ensures AllWhitespace(s[|r|..])
  {
    if s != [] && IsWhitespace(s[|s| - 1]) then TrimEnd(s[..|s| - 1]) else s
  }

  /** `r` sits in `s` at offset `k` with nothing but white space before and
      after it. */
  predicate Framed(s: string, r: string, k: int) {
    0 <= k && k + |r| <= |s| && s[k..k + |r|] == r
    && AllWhitespace(s[..k]) && AllWhitespace(s[k + |r|..])
  }

  /** `String.prototype.trim`: the slice of `s` left once the white space at
      both ends is removed; it has no white space at either end, is empty
      exactly when `s` is all white space, and only white space surrounds it
      in `s`. */
  function Trim(s: string): (r: string)
    ensures r == [] <==> AllWhitespace(s)
    ensures r != [] ==> !IsWhitespace(r[0]) && !IsWhitespace(r[|r| - 1])
    ensures exists k | 0 <= k <= |s| - |r| :: Framed(s, r, k)
    ensures Contains(s, r)
  {
    TrimIsSlice(s);
    TrimEmptyIffBlank(s);
    TrimEnd(TrimStart(s))
  }

  lemma TrimIsSlice(s: string)
    ensures Contains(s, TrimEnd(TrimStart(s)))
    ensures exists k | 0 <= k <= |s| - |TrimEnd(TrimStart(s))| :: Framed(s, TrimEnd(TrimStart(s)), k)
  {
    var t := TrimStart(s);
    var r := TrimEnd(t);
    var a := |s| - |t|;
    assert t == s[a..];
    assert r == s[a..][..|r|];
    assert s[a..][..|r|] == s[a..a + |r|];
    assert OccursAt(s, r, a);
    assert s[a + |r|..] == t[|r|..];
    assert Framed(s, r, a);
  }

  lemma TrimEmptyIffBlank(s: string)
    ensures TrimEnd(TrimStart(s)) == [] <==> AllWhitespace(s)
  {
    var t := TrimStart(s);
    var r := TrimEnd(t);
    if r == [] {
      assert t[|r|..] == t;
      assert |t| == 0;
      assert s[..|s| - |t|] == s;
    } else {
      assert r[0] == t[0];
      assert t[0] == s[|s| - |t|];
    }
  }

  lemma {:induction false} TrimIdempotent(s: string)
    ensures Trim(Trim(s)) == Trim(s)
  {
    var r := Trim(s);
    if r != [] {
      assert TrimStart(r) == r;
      assert TrimEnd(r) == r;
    } else {
      assert TrimStart(r) == [];
    }
  }

  // ---------------------------------------------------------------------------
  // Substring search
  // ---------------------------------------------------------------------------

  predicate OccursAt(s: string, sub: string, i: int) {
    0 <= i && i + |sub| <= |s| && s[i..i + |sub|] == sub
  }

  /** `sub` occurs somewhere in `s`; this is what a regular expression made of
      the literal `sub` followed by `.*` tests, since `match` is unanchored. */
  predicate Contains(s: string, sub: string) {
    exists i | 0 <= i <= |s| - |sub| :: OccursAt(s, sub, i)
  }

  lemma ContainsInContext(pre: string, s: string, post: string, sub: string)
    requires Contains(s, sub)
    ensures Contains(pre + s + post, sub)
  {
    var i :| 0 <= i <= |s| - |sub| && OccursAt(s, sub, i);
    var t := pre + s + post;
    assert t[|pre| + i..|pre| + i + |sub|] == s[i..i + |sub|];
    assert OccursAt(t, sub, |pre| + i);
  }

  // ---------------------------------------------------------------------------
  // replace(/\s+/g, "-")
  // ---------------------------------------------------------------------------

  /** Replaces every maximal run of white space by a single '-'. */
  function DashWhitespaceRuns(s: string): (r: string)
    ensures NoWhitespace(r)
    ensures |r| <= |s|
    decreases |s|
  {
    if s == [] then []
    else if IsWhitespace(s[0]) then
      var rest := TrimStart(s);
      assert rest == [] || rest[0] != s[0];
      "-" + DashWhitespaceRuns(rest)
    else
      [s[0]] + DashWhitespaceRuns(s[1..])
  }

  /** A run of white space between a white-space-free head and a tail that does
      not start with white space collapses to exactly one dash. */
  lemma {:induction false} DashOneRun(head: string, run: string, tail: string)
    requires NoWhitespace(head)
    requires run != [] && AllWhitespace(run)
    requires tail == [] || !IsWhitespace(tail[0])
    ensures DashWhitespaceRuns(head + run + tail) == head + "-" + DashWhitespaceRuns(tail)
  {
    if head == [] {
      assert head + run + tail == run + tail;
      DashRunAtStart(run, tail);
    } else {
      var c, h := head[0], head[1..];
      var d := DashWhitespaceRuns(tail);
      SplitHead(head, run + tail);
      SplitHead(head, "-" + d);
      assert NoWhitespace(h);
      DashOneRun(h, run, tail);
      assert h + run + tail == h + (run + tail);
      assert h + "-" + d == h + ("-" + d);
      DashLeadingChar(c, h + (run + tail));
      assert head + run + tail == head + (run + tail);
      assert head + "-" + d == head + ("-" + d);
    }
  }

  lemma DashRunAtStart(run: string, tail: string)
    requires run != [] && AllWhitespace(run)
    requires tail == [] || !IsWhitespace(tail[0])
    ensures DashWhitespaceRuns(run + tail) == "-" + DashWhitespaceRuns(tail)
  {
    TrimStartOfRun(run, tail);
    DashLeadingRun(run + tail);
  }

  lemma SplitHead(head: string, rest: string)
    requires head != []
    ensures head + rest == [head[0]] + (head[1..] + rest)
  {
  }

  lemma DashLeadingChar(c: char, rest: string)
    requires !IsWhitespace(c)
    ensures DashWhitespaceRuns([c] + rest) == [c] + DashWhitespaceRuns(rest)
  {
    assert ([c] + rest)[1..] == rest;
  }

  lemma DashLeadingRun(s: string)
    requires s != [] && IsWhitespace(s[0])
    ensures DashWhitespaceRuns(s) == "-" + DashWhitespaceRuns(TrimStart(s))
  {
  }

  lemma {:induction false} TrimStartOfRun(run: string, tail: string)
    requires AllWhitespace(run)
    requires tail == [] || !IsWhitespace(tail[0])
    ensures TrimStart(run + tail) == tail
    decreases |run|
  {
    if run == [] {
      assert run + tail == tail;
    } else {
      assert (run + tail)[1..] == run[1..] + tail;
      TrimStartOfRun(run[1..], tail);
    }
  }

  /** Text without white space passes through unchanged. */
  lemma {:induction false} DashIdentityOnClean(s: string)
    requires NoWhitespace(s)
    ensures DashWhitespaceRuns(s) == s
  {
    if s != [] {
      DashIdentityOnClean(s[1..]);
      assert [s[0]] + s[1..] == s;
    }
  }

  /** Characters other than the dashes come from the input, so lower-cased
      input stays lower-cased. */
  lemma {:induction false} DashKeepsLowered(s: string)
    requires IsLowered(s)
    ensures IsLowered(DashWhitespaceRuns(s))
    decreases |s|
  {
    if s != [] {
      if IsWhitespace(s[0]) {
        var rest := TrimStart(s);
        assert IsLowered(rest) by {
          forall i | 0 <= i < |rest| ensures !IsUpperAscii(rest[i]) {
            assert rest[i] == s[|s| - |rest| + i];
          }
        }
        DashKeepsLowered(rest);
      } else {
        DashKeepsLowered(s[1..]);
      }
    }
  }

  lemma DashIdempotent(s: string)
    ensures DashWhitespaceRuns(DashWhitespaceRuns(s)) == DashWhitespaceRuns(s)
  {
    DashIdentityOnClean(DashWhitespaceRuns(s));
  }

  // ---------------------------------------------------------------------------
  // parseInt
  // ---------------------------------------------------------------------------

  /** The two ways the source calls `parseInt`: with radix 10, and without a
      radix, which additionally honours a "0x"/"0X" hexadecimal prefix. */
  datatype Radix = Decimal | Unspecified

  predicate IsDecimalDigit(c: char) {
    '0' <= c <= '9'
  }

  predicate IsHexDigit(c: char) {
    IsDecimalDigit(c) || 'a' <= c <= 'f' || 'A' <= c <= 'F'
  }

  predicate IsDigitIn(c: char, hex: bool) {
    if hex then IsHexDigit(c) else IsDecimalDigit(c)
  }

  predicate HasDecimalDigit(s: string) {
    exists i :: 0 <= i < |s| && IsDecimalDigit(s[i])
  }

  function DigitValue(c: char): (r: nat)
    requires IsHexDigit(c)
    ensures r < 16
    ensures IsDecimalDigit(c) ==> r < 10
  {
    if IsDecimalDigit(c) then c as int - '0' as int
    else if 'a' <= c <= 'f' then c as int - 'a' as int + 10
    else c as int - 'A' as int + 10
  }

  /** The longest prefix of `s` made of digits of the base. */
  function DigitRun(s: string, hex: bool): (r: string)
    ensures |r| <= |s| && r == s[..|r|]
    ensures forall i :: 0 <= i < |r| ==> IsDigitIn(r[i], hex)
    ensures |r| < |s| ==> !IsDigitIn(s[|r|], hex)
  {
    if s != [] && IsDigitIn(s[0], hex) then [s[0]] + DigitRun(s[1..], hex) else []
  }

  /** The value of a digit string read most significant digit first. */
  function DigitsValue(ds: string, hex: bool): nat
    requires forall i :: 0 <= i < |ds| ==> IsDigitIn(ds[i], hex)
  {
    if ds == [] then 0
    else
      var last := ds[|ds| - 1];
      assert IsDigitIn(last, hex);
      DigitsValue(ds[..|ds| - 1], hex) * (if hex then 16 else 10) + DigitValue(last)
  }

  /** `parseInt(s, 10)` or `parseInt(s)`; None stands for NaN. Leading white
      space and one sign are skipped, then the longest run of digits is read
      and anything after it is ignored. */
  function ParseInt(s: string, radix: Radix): Option<int> {
    ParseSigned(TrimStart(s), radix)
  }

  /** Drops one leading '+' or '-'. */
  function WithoutSign(t: string): (u: string)
    ensures |u| <= |t| && u == t[|t| - |u|..]
  {
    if t != [] && (t[0] == '-' || t[0] == '+') then t[1..] else t
  }

  /** Whether the digits are read in base 16: only without an explicit radix,
      and only after a "0x" or "0X" prefix. */
  predicate HasHexPrefix(u: string, radix: Radix) {
    radix == Unspecified && |u| >= 2 && u[0] == '0' && (u[1] == 'x' || u[1] == 'X')
  }

  /** The value of the digit run at the start of an unsigned numeral. */
  function ParseUnsigned(u: string, radix: Radix): Option<int> {
    var hex := HasHexPrefix(u, radix);
    var digits := DigitRun(if hex then u[2..] else u, hex);
    if digits == [] then None else Some(DigitsValue(digits, hex))
  }

  /** A string without a single decimal digit parses to NaN in either mode:
      a number always comes from at least one decimal digit of the input
      (a hexadecimal prefix itself starts with '0'). */
  lemma ParsedNumberHasDigit(s: string, radix: Radix)
    ensures ParseInt(s, radix).Some? ==> HasDecimalDigit(s)
  {
    var t := TrimStart(s);
    var u := WithoutSign(t);
    var off := |s| - |u|;
    assert u == s[off..];
    if ParseUnsigned(u, radix).Some? {
      assert u != [];
      assert IsDecimalDigit(u[0]) by {
        if !HasHexPrefix(u, radix) {
          assert DigitRun(u, false) != [];
        }
      }
      assert s[off] == u[0];
    }
  }

  // ---------------------------------------------------------------------------
  // Decimal rendering of an integer (what a number input shows)
  // ---------------------------------------------------------------------------

  function DigitChar(d: nat): (c: char)
    requires d < 10
    ensures IsDecimalDigit(c) && DigitValue(c) == d
  {
    ('0' as int + d) as char
  }

  /** The decimal digits of `n`, without leading zeros. */
  function NatToDecimal(n: nat): (r: string)
    ensures r != []
    ensures forall i :: 0 <= i < |r| ==> IsDecimalDigit(r[i])
    ensures n > 0 ==> r[0] != '0'
  {
    if n < 10 then [DigitChar(n)] else NatToDecimal(n / 10) + [DigitChar(n % 10)]
  }

  /** The decimal rendering of an integer, with a leading '-' when negative. */
  function IntToDecimal(n: int): (r: string)
    ensures r != [] && !IsWhitespace(r[0])
    ensures HasDecimalDigit(r)
  {
    var r := if n < 0 then "-" + NatToDecimal(-n) else NatToDecimal(n);
    assert IsDecimalDigit(r[|r| - 1]);
    r
  }

  lemma {:induction false} DigitRunOfDigits(s: string, hex: bool)
    requires forall i :: 0 <= i < |s| ==> IsDigitIn(s[i], hex)
    ensures DigitRun(s, hex) == s
  {
    if s != [] {
      DigitRunOfDigits(s[1..], hex);
    }
  }

  lemma {:induction false} DecimalValue(n: nat)
    ensures DigitsValue(NatToDecimal(n), false) == n
  {
    if n >= 10 {
      var ds := NatToDecimal(n);
      assert ds[..|ds| - 1] == NatToDecimal(n / 10);
      DecimalValue(n / 10);
    }
  }

  /** A numeral whose unsigned part reads as `m` reads as `m`, or as `-m`
      after a '-'. */
  lemma SignedNumeral(ds: string, negative: bool, radix: Radix, m: int)
    requires ds != [] && IsDecimalDigit(ds[0])
    requires ParseUnsigned(ds, radix) == Some(m)
    ensures ParseInt(if negative then "-" + ds else ds, radix) == Some(if negative then -m else m)
  {
    SignStripped(ds, negative);
    SignApplied(if negative then "-" + ds else ds, radix, m);
  }

  /** A numeral with an optional leading '-' loses exactly that sign. */
  lemma SignStripped(ds: string, negative: bool)
    requires ds != [] && IsDecimalDigit(ds[0])
    ensures var s := if negative then "-" + ds else ds;
            TrimStart(s) == s && WithoutSign(s) == ds && (s[0] == '-' <==> negative)
  {
    var s := if negative then "-" + ds else ds;
    StartsClean(s);
    if negative {
      assert s[1..] == ds;
    }
  }

  lemma SignApplied(t: string, radix: Radix, m: int)
    requires ParseUnsigned(WithoutSign(t), radix) == Some(m)
    ensures ParseSigned(t, radix) == Some(if t != [] && t[0] == '-' then -m else m)
  {
  }

  /** `ParseInt` once leading white space is gone. */
  function ParseSigned(t: string, radix: Radix): Option<int> {
    match ParseUnsigned(WithoutSign(t), radix)
    case None => None
    case Some(magnitude) => Some(if t != [] && t[0] == '-' then -magnitude else magnitude)
  }

  lemma StartsClean(s: string)
    requires s != [] && !IsWhitespace(s[0])
    ensures TrimStart(s) == s
  {
  }

  lemma ParseDecimalDigits(ds: string, radix: Radix)
    requires ds != [] && forall i :: 0 <= i < |ds| ==> IsDecimalDigit(ds[i])
    requires |ds| >= 2 ==> ds[0] != '0'
    ensures ParseUnsigned(ds, radix) == Some(DigitsValue(ds, false))
  {
    assert !HasHexPrefix(ds, radix);
    DigitRunOfDigits(ds, false);
  }

  /** `parseInt` reads back every integer's decimal rendering, with or without
      the explicit radix. */
  lemma ParseIntRoundTrip(n: int, radix: Radix)
    ensures ParseInt(IntToDecimal(n), radix) == Some(n)
  {
    var m: nat := if n < 0 then -n else n;
    var ds := NatToDecimal(m);
    assert IntToDecimal(n) == if n < 0 then "-" + ds else ds;
    NumeralHasNoLeadingZero(m);
    DecimalValue(m);
    ParseDecimalDigits(ds, radix);
    SignedNumeral(ds, n < 0, radix, m);
  }

  lemma NumeralHasNoLeadingZero(m: nat)
    ensures |NatToDecimal(m)| >= 2 ==> NatToDecimal(m)[0] != '0'
  {
    if m == 0 {
      assert NatToDecimal(m) == [DigitChar(0)];
    }
  }
}
