/**
  Character-level stand-ins for the C and C++ library conversions the loader
  relies on: `std::istream >> unsigned int`, `std::istream >> float`,
  `strtoul(s, nullptr, 0)` and `atoi`, and the `std::stringstream` objects the
  builder uses to accumulate element text.

  Every extraction skips leading white space and then reads the longest prefix
  that fits the number syntax, as `std::num_get` does; what follows that prefix
  is left for the next extraction. Only decimal notation is read (see README,
  "Left out").
 */
module Scan {
  import opened Wrappers

  /** `isspace` in the "C" locale. */
  predicate IsSpace(c: char) {
    c == ' ' || c == '\t' || c == '\n' || c == '\r' || c == '\U{0B}' || c == '\U{0C}'
  }

  predicate IsDigit(c: char) {
    '0' <= c <= '9'
  }

  predicate AllDigits(s: string) {
    forall i :: 0 <= i < |s| ==> IsDigit(s[i])
  }

  function DigitValue(c: char): nat
    requires IsDigit(c)
  {
    c as int - '0' as int
  }

  /** `s` without its leading white space. */
  function SkipSpace(s: string): (r: string)
    ensures |r| <= |s| && r == s[|s| - |r|..]
    ensures r == [] || !IsSpace(r[0])
    ensures forall i :: 0 <= i < |s| - |r| ==> IsSpace(s[i])
    decreases |s|
  {
    if s != [] && IsSpace(s[0]) then SkipSpace(s[1..]) else s
  }

  /** Length of the run of decimal digits that starts `s`. */
  function DigitRun(s: string): (n: nat)
    ensures n <= |s|
    ensures AllDigits(s[..n])
    ensures n == |s| || !IsDigit(s[n])
  {
    if s != [] && IsDigit(s[0]) then
      assert s[1..][..DigitRun(s[1..])] == s[1..1 + DigitRun(s[1..])];
      1 + DigitRun(s[1..])
    else 0
  }

  /** Value of a string of decimal digits, most significant digit first. */
  function DecimalValue(d: string): nat
    requires AllDigits(d)
  {
    if d == [] then 0 else 10 * DecimalValue(d[..|d| - 1]) + DigitValue(d[|d| - 1])
  }

  function Pow10(n: nat): (p: nat)
    ensures p >= 1
  {
    if n == 0 then 1 else 10 * Pow10(n - 1)
  }

  /** Largest `unsigned int` (32 bits). */
  const UINT_MAX: nat := 0xFFFF_FFFF

  /** Largest `unsigned long` / `size_t` (64 bits). */
  const SIZE_MAX: nat := 0xFFFF_FFFF_FFFF_FFFF

  /**
    One `stream >> v` into an `unsigned int`: white space is skipped, an
    optional '+' and then a run of digits is read. `None` when there is no
    digit or the value does not fit (the stream then fails); otherwise the
    value and the text after it.
   */
  function NextUInt(s: string): (r: Option<(nat, string)>)
    ensures r.Some? ==> r.value.0 <= UINT_MAX && |r.value.1| < |s|
  {
    UIntAfterSpace(SkipSpace(s))
  }

  /** The part of `stream >> v` that follows the skipped white space. */
  function UIntAfterSpace(t: string): (r: Option<(nat, string)>)
    ensures r.Some? ==> r.value.0 <= UINT_MAX && |r.value.1| < |t|
  {
    var u := if t != [] && t[0] == '+' then t[1..] else t;
    var n := DigitRun(u);
    if n == 0 || DecimalValue(u[..n]) > UINT_MAX then None
    else Some((DecimalValue(u[..n]), u[n..]))
  }

  /**
    One `stream >> f` into a `float`, read as an exact decimal: white space is
    skipped, then an optional sign, digits, and an optional '.' followed by
    digits, with at least one digit in all. `None` when there is no digit;
    otherwise the value and the text after the number, a proper suffix.
   */
  function NextFloat(s: string): (r: Option<(real, string)>)
    ensures r.Some? ==> |r.value.1| < |s| && r.value.1 == s[|s| - |r.value.1|..]
  {
    var t := SkipSpace(s);
    var r := FloatAfterSpace(t);
    if r.Some? then SuffixOfSuffix(s, t, r.value.1); r else r
  }

  /** A suffix of a suffix of `s` is a suffix of `s`. */
  lemma SuffixOfSuffix(s: string, t: string, u: string)
    requires |t| <= |s| && t == s[|s| - |t|..]
    requires |u| <= |t| && u == t[|t| - |u|..]
    ensures u == s[|s| - |u|..]
  {
    assert forall i :: 0 <= i < |u| ==> u[i] == t[|t| - |u| + i] == s[|s| - |u| + i];
  }

  /** The part of `stream >> f` that follows the skipped white space: the sign, then the number. */
  function FloatAfterSpace(t: string): (r: Option<(real, string)>)
    ensures r.Some? ==> |r.value.1| < |t| && r.value.1 == t[|t| - |r.value.1|..]
  {
    var negative := t != [] && t[0] == '-';
    var u := if t != [] && (t[0] == '-' || t[0] == '+') then t[1..] else t;
    match UnsignedDecimal(u)
    case None => None
    case Some((magnitude, rest)) => Some((if negative then -magnitude else magnitude, rest))
  }

  /** Digits with an optional '.' and fraction digits after them, at least one digit in all. */
  function UnsignedDecimal(u: string): (r: Option<(real, string)>)
    ensures r.Some? ==> |r.value.1| < |u| && r.value.1 == u[|u| - |r.value.1|..]
  {
    var whole := DigitRun(u);
    if whole < |u| && u[whole] == '.' then
      var frac := DigitRun(u[whole + 1..]);
      if whole + frac == 0 then None
      else Some((DecimalValue(u[..whole]) as real + FractionValue(u[whole + 1..][..frac]), u[whole + 1 + frac..]))
    else if whole == 0 then None
    else Some((DecimalValue(u[..whole]) as real, u[whole..]))
  }

  /** The value of the digits after a decimal point. */
  function FractionValue(f: string): real
    requires AllDigits(f)
  {
    DecimalValue(f) as real / Pow10(|f|) as real
  }

  /**
    The values `while (stream >> v)` reads from `text` into an `unsigned int`:
    every extraction up to, and not including, the first one that fails.
   */
  function UInts(text: string): (vs: seq<nat>)
    ensures forall i :: 0 <= i < |vs| ==> vs[i] <= UINT_MAX
    decreases |text|
  {
    match NextUInt(text)
    case None => []
    case Some((v, rest)) => [v] + UInts(rest)
  }

  /** The values `while (stream >> f)` reads from `text` into a `float`. */
  function Floats(text: string): (vs: seq<real>)
    ensures |vs| <= |text|
    decreases |text|
  {
    match NextFloat(text)
    case None => []
    case Some((v, rest)) => [v] + Floats(rest)
  }

  /** Value of the run of digits that starts `u`, 0 when there is none. */
  function LeadingValue(u: string): nat {
    DecimalValue(u[..DigitRun(u)])
  }

  /**
    `strtoul(s, nullptr, 0)` read in decimal: leading white space and an
    optional '+' are skipped and the digits that follow are converted; 0 when
    there are none; a value beyond `unsigned long` saturates to its maximum.
   */
  function StrToUL(s: string): (r: nat)
    ensures r <= SIZE_MAX
  {
    var t := SkipSpace(s);
    var v := if t != [] && t[0] == '+' then LeadingValue(t[1..]) else LeadingValue(t);
    if v > SIZE_MAX then SIZE_MAX else v
  }

  /**
    `atoi(s)`: leading white space is skipped, then an optional sign and the
    digits that follow are converted; 0 when there are none.
   */
  function Atoi(s: string): (r: int)
    ensures AllDigits(s) ==> r == DecimalValue(s)
  {
    NumeralReads(s);
    SignedLeadingValue(SkipSpace(s))
  }

  /** A plain numeral has no white space to skip, and its leading digits are all of it. */
  lemma NumeralReads(s: string)
    ensures AllDigits(s) ==> SkipSpace(s) == s && LeadingValue(s) == DecimalValue(s)
  {
    if AllDigits(s) {
      DigitsOnly(s);
      assert s[..|s|] == s;
    }
  }

  /** An optional sign and the digits after it, as `atoi` reads them once white space is skipped. */
  function SignedLeadingValue(t: string): int {
    if t != [] && t[0] == '-' then -(LeadingValue(t[1..]) as int)
    else if t != [] && t[0] == '+' then LeadingValue(t[1..])
    else LeadingValue(t)
  }

  /** On a plain numeral, `strtoul` and `atoi` give its decimal value. */
  lemma ConvertNumeral(d: string)
    requires AllDigits(d)
    ensures Atoi(d) == DecimalValue(d)
    ensures DecimalValue(d) <= SIZE_MAX ==> StrToUL(d) == DecimalValue(d)
  {
    NumeralReads(d);
  }

  /**
    A `std::stringstream` used to accumulate element text: a good stream holds
    the text not yet extracted; once an extraction has failed the stream is
    `Failed`, ignores further writes and yields nothing more.
   */
  datatype TextBuffer = Buffer(text: string) | Failed

  /** A freshly constructed `std::stringstream`. */
  const EMPTY_BUFFER: TextBuffer := Buffer("")

  /** `stream << s`. */
  function Append(b: TextBuffer, s: string): TextBuffer {
    match b
    case Buffer(t) => Buffer(t + s)
    case Failed => Failed
  }

  /** One `stream >> v` into an `unsigned int`: the value read, if any, and the stream afterwards. */
  function ExtractUInt(b: TextBuffer): (Option<nat>, TextBuffer) {
    match b
    case Failed => (None, Failed)
    case Buffer(t) =>
      match NextUInt(t)
      case None => (None, Failed)
      case Some((v, rest)) => (Some(v), Buffer(rest))
  }

  /** One `stream >> f` into a `float`. */
  function ExtractFloat(b: TextBuffer): (Option<real>, TextBuffer) {
    match b
    case Failed => (None, Failed)
    case Buffer(t) =>
      match NextFloat(t)
      case None => (None, Failed)
      case Some((v, rest)) => (Some(v), Buffer(rest))
  }

  /** Everything a `while (stream >> v)` loop reads from `b`. */
  function BufferedUInts(b: TextBuffer): seq<nat> {
    if b.Failed? then [] else UInts(b.text)
  }

  /** Everything a `while (stream >> f)` loop reads from `b`. */
  function BufferedFloats(b: TextBuffer): seq<real> {
    if b.Failed? then [] else Floats(b.text)
  }

  /** Termination measure for extraction loops: every successful extraction shrinks it. */
  function Remaining(b: TextBuffer): nat {
    if b.Failed? then 0 else |b.text| + 1
  }

  /** One successful extraction peels the first value off what the loop reads; a failed one ends it. */
  lemma ExtractUIntStep(b: TextBuffer)
    ensures var (r, b') := ExtractUInt(b);
            (r.None? ==> b' == Failed && BufferedUInts(b) == []) &&
            (r.Some? ==> Remaining(b') < Remaining(b) && BufferedUInts(b) == [r.value] + BufferedUInts(b'))
  {
  }

  lemma ExtractFloatStep(b: TextBuffer)
    ensures var (r, b') := ExtractFloat(b);
            (r.None? ==> b' == Failed && BufferedFloats(b) == []) &&
            (r.Some? ==> Remaining(b') < Remaining(b) && BufferedFloats(b) == [r.value] + BufferedFloats(b'))
  {
  }

  /** Writing two chunks in turn buffers exactly what writing their concatenation does. */
  lemma AppendChunks(b: TextBuffer, x: string, y: string)
    ensures Append(Append(b, x), y) == Append(b, x + y)
  {
    if b.Buffer? {
      assert (b.text + x) + y == b.text + (x + y);
    }
  }

  // Printing numbers, the partner of reading them.

  /** The decimal numeral of `n`, without leading zeros. */
  function Decimal(n: nat): (d: string)
    ensures |d| >= 1 && AllDigits(d)
  {
    if n < 10 then [('0' as int + n) as char]
    else Decimal(n / 10) + [('0' as int + n % 10) as char]
  }

  /** Values written as decimal numerals, each followed by one space. */
  function Format(vs: seq<nat>): string {
    if vs == [] then "" else Decimal(vs[0]) + " " + Format(vs[1..])
  }

  lemma {:induction false} DecimalValueOfDecimal(n: nat)
    ensures DecimalValue(Decimal(n)) == n
  {
    var d := Decimal(n);
    if n >= 10 {
      DecimalValueOfDecimal(n / 10);
      assert d[..|d| - 1] == Decimal(n / 10);
    }
  }

  lemma {:induction false} DigitRunOfDigits(d: string, rest: string)
    requires AllDigits(d)
    requires rest == [] || !IsDigit(rest[0])
    ensures DigitRun(d + rest) == |d|
  {
    if d != [] {
      assert (d + rest)[1..] == d[1..] + rest;
      DigitRunOfDigits(d[1..], rest);
    } else {
      assert d + rest == rest;
    }
  }

  /** A string of digits has no white space to skip and is one run of digits. */
  lemma DigitsOnly(d: string)
    requires AllDigits(d)
    ensures SkipSpace(d) == d && DigitRun(d) == |d|
  {
    if d != [] {
      assert !IsSpace(d[0]);
    }
    assert d + "" == d;
    DigitRunOfDigits(d, "");
  }

  /** Reading back a numeral followed by a non-digit yields the number and the text after the numeral. */
  lemma NextUIntOfDecimal(n: nat, rest: string)
    requires n <= UINT_MAX
    requires rest == [] || !IsDigit(rest[0])
    ensures NextUInt(Decimal(n) + rest) == Some((n, rest))
  {
    var d := Decimal(n);
    assert IsDigit(d[0]);
    assert (d + rest)[0] == d[0];
    NothingToSkip(d + rest);
    UIntAfterSpaceOfDecimal(n, rest);
  }

  /** Text that does not start with white space is left as it is. */
  lemma NothingToSkip(s: string)
    requires s != [] && !IsSpace(s[0])
    ensures SkipSpace(s) == s
  {
  }

  lemma UIntAfterSpaceOfDecimal(n: nat, rest: string)
    requires n <= UINT_MAX
    requires rest == [] || !IsDigit(rest[0])
    ensures UIntAfterSpace(Decimal(n) + rest) == Some((n, rest))
  {
    var d := Decimal(n);
    var s := d + rest;
    assert s[0] == d[0];
    DigitRunOfDigits(d, rest);
    assert s[..|d|] == d;
    assert s[|d|..] == rest;
    DecimalValueOfDecimal(n);
  }

  lemma NextUIntSkipsSpace(s: string)
    ensures NextUInt(" " + s) == NextUInt(s)
  {
    assert (" " + s)[1..] == s;
    assert SkipSpace(" " + s) == SkipSpace(s);
  }

  /** Reading a numeral, a space and more text yields the number followed by what the rest yields. */
  lemma UIntsOfNumeral(v: nat, rest: string)
    requires v <= UINT_MAX
    ensures UInts(Decimal(v) + " " + rest) == [v] + UInts(rest)
  {
    var tail := " " + rest;
    assert Decimal(v) + " " + rest == Decimal(v) + tail;
    NextUIntOfDecimal(v, tail);
    UIntsSkipsSpace(rest);
  }

  /** Round trip: the values of a formatted index list read back as that list. */
  lemma {:induction false} UIntsOfFormat(vs: seq<nat>)
    requires forall i :: 0 <= i < |vs| ==> vs[i] <= UINT_MAX
    ensures UInts(Format(vs)) == vs
  {
    if vs == [] {
      assert NextUInt("") == None;
    } else {
      UIntsOfFormatStep(vs);
      UIntsOfFormat(vs[1..]);
      HeadTail(vs);
    }
  }

  lemma HeadTail<T>(s: seq<T>)
    requires s != []
    ensures [s[0]] + s[1..] == s
  {
  }

  /** The first formatted value reads back, and reading goes on with the rest of the list. */
  lemma UIntsOfFormatStep(vs: seq<nat>)
    requires vs != [] && vs[0] <= UINT_MAX
    ensures UInts(Format(vs)) == [vs[0]] + UInts(Format(vs[1..]))
  {
    UIntsOfNumeral(vs[0], Format(vs[1..]));
  }

  lemma UIntsSkipsSpace(s: string)
    ensures UInts(" " + s) == UInts(s)
  {
    NextUIntSkipsSpace(s);
  }

  // Printing decimal literals, the partner of reading floats.

  /** A decimal literal as a `<float_array>` writes it: an optional minus, the whole part, a point and fraction digits. */
  datatype DecimalLiteral = DecimalLiteral(negative: bool, whole: nat, fraction: string)

  predicate ValidLiteral(d: DecimalLiteral) {
    AllDigits(d.fraction)
  }

  /** The exact value a literal denotes. */
  function LiteralValue(d: DecimalLiteral): real
    requires ValidLiteral(d)
  {
    var magnitude := d.whole as real + FractionValue(d.fraction);
    if d.negative then -magnitude else magnitude
  }

  function LiteralText(d: DecimalLiteral): string {
    (if d.negative then "-" else "") + Decimal(d.whole) + "." + d.fraction
  }

  /** Literals separated by single spaces. */
  function JoinLiterals(ds: seq<DecimalLiteral>): string {
    if ds == [] then ""
    else if |ds| == 1 then LiteralText(ds[0])
    else LiteralText(ds[0]) + " " + JoinLiterals(ds[1..])
  }

  function LiteralValues(ds: seq<DecimalLiteral>): seq<real>
    requires forall i :: 0 <= i < |ds| ==> ValidLiteral(ds[i])
  {
    if ds == [] then [] else [LiteralValue(ds[0])] + LiteralValues(ds[1..])
  }

  /** Where the parts of `w.f` followed by more text sit. */
  lemma PointSplit(w: string, f: string, rest: string)
    ensures var u := w + ['.'] + f + rest;
            |w| < |u| && u[|w|] == '.' && u[..|w|] == w && u[|w| + 1..] == f + rest
  {
  }

  /** A run of digits `w`, a point and a run of digits `fraction` read as one decimal, leaving `rest`. */
  lemma UnsignedDecimalAt(u: string, w: string, fraction: string, rest: string)
    requires 0 < |w| < |u| && DigitRun(u) == |w| && u[|w|] == '.' && DigitRun(u[|w| + 1..]) == |fraction|
    requires u[..|w|] == w && u[|w| + 1..][..|fraction|] == fraction && u[|w| + 1 + |fraction|..] == rest
    requires AllDigits(w) && AllDigits(fraction)
    ensures UnsignedDecimal(u) == Some((DecimalValue(w) as real + FractionValue(fraction), rest))
  {
    var r := UnsignedDecimal(u);
    assert r.Some?;
    assert r.value.0 == DecimalValue(w) as real + FractionValue(fraction);
    assert r.value.1 == rest;
  }

  /** Digits, a point, fraction digits and then a non-digit read back as the decimal they spell. */
  lemma UnsignedDecimalOfParts(u: string, w: string, fraction: string, rest: string)
    requires AllDigits(w) && |w| > 0 && AllDigits(fraction)
    requires rest == [] || !IsDigit(rest[0])
    requires |w| < |u| && u[..|w|] == w && u[|w|] == '.' && u[|w| + 1..] == fraction + rest
    ensures UnsignedDecimal(u) == Some((DecimalValue(w) as real + FractionValue(fraction), rest))
  {
    assert u == w + u[|w|..];
    DigitRunOfDigits(w, u[|w|..]);
    DigitRunOfDigits(fraction, rest);
    var v := fraction + rest;
    assert v[..|fraction|] == fraction && v[|fraction|..] == rest;
    assert u[|w| + 1 + |fraction|..] == v[|fraction|..];
    UnsignedDecimalAt(u, w, fraction, rest);
  }

  /** A sign, or none, in front of an unsigned decimal. */
  lemma FloatAfterSign(t: string, u: string, negative: bool, magnitude: real, rest: string)
    requires if negative then t == ['-'] + u else t == u && (t == [] || (t[0] != '-' && t[0] != '+'))
    requires UnsignedDecimal(u) == Some((magnitude, rest))
    ensures FloatAfterSpace(t) == Some((if negative then -magnitude else magnitude, rest))
  {
    if negative {
      assert t[1..] == u;
    }
    var r := FloatAfterSpace(t);
    assert r.Some?;
    assert r.value.0 == (if negative then -magnitude else magnitude);
    assert r.value.1 == rest;
  }

  /** The digits of a literal after its sign: the whole part, the point and the fraction. */
  function Unsigned(d: DecimalLiteral): string {
    Decimal(d.whole) + ['.'] + d.fraction
  }

  /** A literal's digits followed by a non-digit read back as its magnitude. */
  lemma LiteralMagnitude(d: DecimalLiteral, rest: string)
    requires ValidLiteral(d)
    requires rest == [] || !IsDigit(rest[0])
    ensures UnsignedDecimal(Unsigned(d) + rest) == Some((d.whole as real + FractionValue(d.fraction), rest))
  {
    var w := Decimal(d.whole);
    PointSplit(w, d.fraction, rest);
    UnsignedDecimalOfParts(Unsigned(d) + rest, w, d.fraction, rest);
    DecimalValueOfDecimal(d.whole);
  }

  /** A printed literal starts with its sign, if any, and then its digits; it never starts with white space. */
  lemma LiteralSign(d: DecimalLiteral, rest: string)
    ensures var t := LiteralText(d) + rest;
            && t != [] && !IsSpace(t[0])
            && (if d.negative then t == ['-'] + (Unsigned(d) + rest)
                else t == Unsigned(d) + rest && t[0] != '-' && t[0] != '+')
  {
    var w := Decimal(d.whole);
    assert IsDigit(w[0]);
    if !d.negative {
      assert (LiteralText(d) + rest)[0] == w[0];
    }
  }

  /** A printed literal, once past the white space, reads as its value. */
  lemma FloatAfterSpaceOfLiteral(d: DecimalLiteral, rest: string)
    requires ValidLiteral(d)
    requires rest == [] || !IsDigit(rest[0])
    ensures FloatAfterSpace(LiteralText(d) + rest) == Some((LiteralValue(d), rest))
  {
    LiteralSign(d, rest);
    LiteralMagnitude(d, rest);
    var magnitude := d.whole as real + FractionValue(d.fraction);
    var value := if d.negative then -magnitude else magnitude;
    assert LiteralValue(d) == value;
    FloatAfterSign(LiteralText(d) + rest, Unsigned(d) + rest, d.negative, magnitude, rest);
  }

  /** Reading a printed literal followed by a non-digit yields its value and exactly the text after it. */
  lemma NextFloatOfLiteral(d: DecimalLiteral, rest: string)
    requires ValidLiteral(d)
    requires rest == [] || !IsDigit(rest[0])
    ensures NextFloat(LiteralText(d) + rest) == Some((LiteralValue(d), rest))
  {
    LiteralSign(d, rest);
    NothingToSkip(LiteralText(d) + rest);
    FloatAfterSpaceOfLiteral(d, rest);
  }

  lemma FloatsSkipsSpace(s: string)
    ensures Floats(" " + s) == Floats(s)
  {
    assert (" " + s)[1..] == s;
    assert SkipSpace(" " + s) == SkipSpace(s);
  }

  /** One successful extraction is the first value `while (stream >> f)` reads. */
  lemma FloatsAfter(text: string, v: real, rest: string)
    requires NextFloat(text) == Some((v, rest))
    ensures Floats(text) == [v] + Floats(rest)
  {
  }

  /** Reading a literal and more text yields its value followed by what the text yields. */
  lemma FloatsOfLiteral(d: DecimalLiteral, rest: string)
    requires ValidLiteral(d)
    requires rest == [] || !IsDigit(rest[0])
    ensures Floats(LiteralText(d) + rest) == [LiteralValue(d)] + Floats(rest)
  {
    NextFloatOfLiteral(d, rest);
    FloatsAfter(LiteralText(d) + rest, LiteralValue(d), rest);
  }

  lemma FloatsOfLastLiteral(d: DecimalLiteral)
    requires ValidLiteral(d)
    ensures Floats(LiteralText(d)) == [LiteralValue(d)]
  {
    FloatsOfLiteral(d, "");
    assert LiteralText(d) + "" == LiteralText(d);
    assert NextFloat("") == None;
  }

  /** The first of two or more joined literals reads back, and reading goes on with the rest. */
  lemma FloatsOfLiteralsStep(ds: seq<DecimalLiteral>)
    requires |ds| >= 2 && ValidLiteral(ds[0])
    ensures Floats(JoinLiterals(ds)) == [LiteralValue(ds[0])] + Floats(JoinLiterals(ds[1..]))
  {
    var more := JoinLiterals(ds[1..]);
    var tail := " " + more;
    assert JoinLiterals(ds) == LiteralText(ds[0]) + tail;
    FloatsOfLiteral(ds[0], tail);
    FloatsSkipsSpace(more);
  }

  /** Round trip: literals joined by spaces read back as their values, in order. */
  lemma {:induction false} FloatsOfLiterals(ds: seq<DecimalLiteral>)
    requires forall i :: 0 <= i < |ds| ==> ValidLiteral(ds[i])
    ensures Floats(JoinLiterals(ds)) == LiteralValues(ds)
  {
    if ds == [] {
      assert NextFloat("") == None;
    } else if |ds| == 1 {
      FloatsOfLastLiteral(ds[0]);
    } else {
      FloatsOfLiteralsStep(ds);
      FloatsOfLiterals(ds[1..]);
    }
  }

  // Numerals read as floats: `<float_array>` text often holds whole numbers with no point.

  /** A run of digits `w` not followed by a point reads as its whole value, leaving `rest`. */
  lemma UnsignedWholeAt(u: string, w: string, rest: string)
    requires 0 < |w| <= |u| && DigitRun(u) == |w| && (|w| == |u| || u[|w|] != '.')
    requires u[..|w|] == w && u[|w|..] == rest && AllDigits(w)
    ensures UnsignedDecimal(u) == Some((DecimalValue(w) as real, rest))
  {
    var r := UnsignedDecimal(u);
    assert r.Some?;
    assert r.value.0 == DecimalValue(w) as real;
    assert r.value.1 == rest;
  }

  /** A numeral followed by neither a digit nor a point reads back as a float with its value. */
  lemma NextFloatOfDecimal(n: nat, rest: string)
    requires rest == [] || (!IsDigit(rest[0]) && rest[0] != '.')
    ensures NextFloat(Decimal(n) + rest) == Some((n as real, rest))
  {
    var d := Decimal(n);
    var u := d + rest;
    assert IsDigit(d[0]) && u[0] == d[0];
    NothingToSkip(u);
    DigitRunOfDigits(d, rest);
    assert u[..|d|] == d && u[|d|..] == rest;
    DecimalValueOfDecimal(n);
    UnsignedWholeAt(u, d, rest);
    FloatAfterSign(u, u, false, n as real, rest);
  }

  /** Reading a numeral, a space and more text as floats yields the number followed by what the rest yields. */
  lemma FloatsOfNumeral(v: nat, rest: string)
    ensures Floats(Decimal(v) + " " + rest) == [v as real] + Floats(rest)
  {
    var tail := " " + rest;
    assert Decimal(v) + " " + rest == Decimal(v) + tail;
    NextFloatOfDecimal(v, tail);
    FloatsAfter(Decimal(v) + tail, v as real, tail);
    FloatsSkipsSpace(rest);
  }

  /** A numeral alone reads as the one float it denotes. */
  lemma FloatsOfLastNumeral(v: nat)
    ensures Floats(Decimal(v)) == [v as real]
  {
    NextFloatOfDecimal(v, "");
    assert Decimal(v) + "" == Decimal(v);
    FloatsAfter(Decimal(v), v as real, "");
    assert NextFloat("") == None;
  }

  /** The whole numbers of `vs` as reals. */
  function Reals(vs: seq<nat>): (rs: seq<real>)
    ensures |rs| == |vs|
  {
    if vs == [] then [] else [vs[0] as real] + Reals(vs[1..])
  }

  /** Whole numbers written as numerals separated by single spaces. */
  function JoinNumerals(vs: seq<nat>): string {
    if vs == [] then ""
    else if |vs| == 1 then Decimal(vs[0])
    else Decimal(vs[0]) + " " + JoinNumerals(vs[1..])
  }

  /** Round trip: numerals joined by spaces read back through `>> float` as their values, in order. */
  lemma {:induction false} FloatsOfNumerals(vs: seq<nat>)
    ensures Floats(JoinNumerals(vs)) == Reals(vs)
  {
    if vs == [] {
      assert NextFloat("") == None;
    } else if |vs| == 1 {
      FloatsOfLastNumeral(vs[0]);
    } else {
      FloatsOfNumeral(vs[0], JoinNumerals(vs[1..]));
      FloatsOfNumerals(vs[1..]);
    }
  }

  /** Round trip: numerals joined by spaces read back through `>> unsigned` as the same list. */
  lemma {:induction false} UIntsOfNumerals(vs: seq<nat>)
    requires forall i :: 0 <= i < |vs| ==> vs[i] <= UINT_MAX
    ensures UInts(JoinNumerals(vs)) == vs
  {
    if vs == [] {
      assert NextUInt("") == None;
    } else if |vs| == 1 {
      NextUIntOfDecimal(vs[0], "");
      assert Decimal(vs[0]) + "" == Decimal(vs[0]);
      assert NextUInt("") == None;
    } else {
      UIntsOfNumeral(vs[0], JoinNumerals(vs[1..]));
      UIntsOfNumerals(vs[1..]);
      HeadTail(vs);
    }
  }

  /** The numerals of one triangle: a vertex count of 3 and the indices 0, 1 and 2. */
  lemma TriangleNumerals()
    ensures UInts("3") == [3] && UInts("0 1 2") == [0, 1, 2]
  {
    assert JoinNumerals([3]) == "3";
    UIntsOfNumerals([3]);
    assert JoinNumerals([0, 1, 2]) == "0 1 2";
    UIntsOfNumerals([0, 1, 2]);
  }

  /** `strtoul` on a few one-digit attributes, and on an absent one. */
  lemma SmallNumerals()
    ensures StrToUL("") == 0 && StrToUL("0") == 0 && StrToUL("2") == 2 && StrToUL("3") == 3
  {
    assert SkipSpace("") == "" && DigitRun("") == 0;
    OneDigitNumeral('0');
    OneDigitNumeral('2');
    OneDigitNumeral('3');
  }

  /** `strtoul` reads a one-digit numeral as that digit's value. */
  lemma OneDigitNumeral(c: char)
    requires IsDigit(c)
    ensures StrToUL([c]) == DigitValue(c)
  {
    assert [c][..0] == "";
    ConvertNumeral([c]);
  }

  /** Two opposite corners of a unit cube. */
  const CORNERS: seq<nat> := [0, 0, 0, 1, 1, 1]

  lemma CornersText()
    ensures JoinNumerals(CORNERS) == "0 0 0 1 1 1"
  {
  }

  lemma CornersValues()
    ensures Reals(CORNERS) == [0.0, 0.0, 0.0, 1.0, 1.0, 1.0]
  {
  }

  /** `<float_array>0 0 0 1 1 1</float_array>` holds six values. */
  lemma SixFloats()
    ensures Floats("0 0 0 1 1 1") == [0.0, 0.0, 0.0, 1.0, 1.0, 1.0]
  {
    CornersText();
    CornersValues();
    FloatsOfNumerals(CORNERS);
  }

  /** The literal "n.0" denotes `n`. */
  lemma WholeLiteral(n: nat)
    ensures ValidLiteral(DecimalLiteral(false, n, "0")) && LiteralValue(DecimalLiteral(false, n, "0")) == n as real
  {
    assert "0"[..0] == "";
    assert DecimalValue("0") == 0;
  }

  /** The literals 1.0, 2.0 and 3.0. */
  const ONE_TWO_THREE: seq<DecimalLiteral> :=
    [DecimalLiteral(false, 1, "0"), DecimalLiteral(false, 2, "0"), DecimalLiteral(false, 3, "0")]

  lemma OneTwoThreeText()
    ensures JoinLiterals(ONE_TWO_THREE) == "1.0 2.0 3.0"
  {
  }

  lemma OneTwoThreeValues()
    ensures forall i :: 0 <= i < |ONE_TWO_THREE| ==> ValidLiteral(ONE_TWO_THREE[i])
    ensures LiteralValues(ONE_TWO_THREE) == [1.0, 2.0, 3.0]
  {
    var ds := ONE_TWO_THREE;
    WholeLiteral(1);
    WholeLiteral(2);
    WholeLiteral(3);
    assert ds[1..][1..] == [ds[2]];
    assert LiteralValues([ds[2]]) == [3.0];
    assert LiteralValues(ds[1..]) == [2.0, 3.0];
  }

  /** `<float_array>1.0 2.0 3.0</float_array>` holds the values 1, 2 and 3. */
  lemma ThreeFloats()
    ensures Floats("1.0 2.0 3.0") == [1.0, 2.0, 3.0]
  {
    OneTwoThreeText();
    OneTwoThreeValues();
    FloatsOfLiterals(ONE_TWO_THREE);
  }
}
