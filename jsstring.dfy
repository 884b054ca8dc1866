/** The JavaScript string operations the source relies on, over `seq<char>`.
    A `char` is a Unicode scalar value, so `|s|` is JavaScript's `length`
    only for text inside the Basic Multilingual Plane: a character outside
    it counts once here and as two code units there. Case mapping covers
    ASCII letters only. */
module Text {
  import opened Wrappers

  /** JavaScript WhiteSpace and LineTerminator characters: the set that
      `String.prototype.trim`, the regular-expression class `\s` and the
      number parsers skip. */
  predicate IsSpace(c: char) {
    var u := c as int;
    (0x09 <= u <= 0x0D) || u == 0x20 || u == 0xA0 || u == 0x1680
    || (0x2000 <= u <= 0x200A) || u == 0x2028 || u == 0x2029 || u == 0x202F
    || u == 0x205F || u == 0x3000 || u == 0xFEFF
  }

  predicate AllSpace(s: string) {
    forall i :: 0 <= i < |s| ==> IsSpace(s[i])
  }

  /** No whitespace at either end. */
  predicate Trimmed(s: string) {
    s == [] || (!IsSpace(s[0]) && !IsSpace(s[|s| - 1]))
  }

  function TrimStart(s: string): (r: string)
    ensures |r| <= |s|
  {
    if s == [] || !IsSpace(s[0]) then s else TrimStart(s[1..])
  }

  function TrimEnd(s: string): (r: string)
    ensures |r| <= |s|
  {
    if s == [] || !IsSpace(s[|s| - 1]) then s else TrimEnd(s[..|s| - 1])
  }

  /** `String.prototype.trim`. */
  function Trim(s: string): (r: string)
    ensures |r| <= |s|
  {
    TrimEnd(TrimStart(s))
  }

  /** `TrimStart` cuts exactly the leading whitespace. */
  lemma {:induction false} TrimStartFacts(s: string)
    ensures TrimStart(s) == s[|s| - |TrimStart(s)|..]
    ensures AllSpace(s[..|s| - |TrimStart(s)|])
    ensures TrimStart(s) == [] || !IsSpace(TrimStart(s)[0])
  {
    if s != [] && IsSpace(s[0]) {
      var r := TrimStart(s[1..]);
      TrimStartFacts(s[1..]);
      assert s[..|s| - |r|] == [s[0]] + s[1..][..|s[1..]| - |r|];
    }
  }

  /** `TrimEnd` cuts exactly the trailing whitespace. */
  lemma {:induction false} TrimEndFacts(s: string)
    ensures TrimEnd(s) == s[..|TrimEnd(s)|]
    ensures AllSpace(s[|TrimEnd(s)|..])
    ensures TrimEnd(s) == [] || !IsSpace(TrimEnd(s)[|TrimEnd(s)| - 1])
  {
    if s != [] && IsSpace(s[|s| - 1]) {
      var r := TrimEnd(s[..|s| - 1]);
      TrimEndFacts(s[..|s| - 1]);
      assert s[|r|..] == s[..|s| - 1][|r|..] + [s[|s| - 1]];
    }
  }

  /** The trimmed text has no whitespace at either end. */
  lemma TrimmedTrim(s: string)
    ensures Trimmed(Trim(s))
  {
    var t := TrimStart(s);
    TrimStartFacts(s);
    TrimEndFacts(t);
    var r := TrimEnd(t);
    assert r != [] ==> r[0] == t[0];
  }

  /** The trimmed text is a contiguous piece of the input with only whitespace cut away. */
  lemma TrimIsInfix(s: string)
    ensures exists a, b :: 0 <= a <= b <= |s| && Trim(s) == s[a..b]
              && AllSpace(s[..a]) && AllSpace(s[b..])
  {
    var t := TrimStart(s);
    TrimStartFacts(s);
    TrimEndFacts(t);
    var a := |s| - |t|;
    var r := TrimEnd(t);
    var b := a + |r|;
    assert t == s[a..];
    assert r == s[a..b];
    assert s[b..] == t[|r|..];
  }

  lemma TrimOfTrimmed(s: string)
    requires Trimmed(s)
    ensures Trim(s) == s
  {
  }

  lemma TrimIdempotent(s: string)
    ensures Trim(Trim(s)) == Trim(s)
  {
    TrimmedTrim(s);
    TrimOfTrimmed(Trim(s));
  }

  /** Trimming leaves nothing exactly when the text is whitespace only. */
  lemma TrimEmptyIffAllSpace(s: string)
    ensures Trim(s) == [] <==> AllSpace(s)
  {
    var t := TrimStart(s);
    TrimStartFacts(s);
    TrimEndFacts(t);
    if Trim(s) == [] {
      assert t[0..] == t;
      assert s == s[..|s| - |t|] + t;
    }
  }

  function LowerChar(c: char): char {
    if 'A' <= c <= 'Z' then (c as int + 32) as char else c
  }

  /** `toLowerCase` on ASCII letters; other characters are kept. */
  function ToLower(s: string): (r: string)
    ensures |r| == |s|
  {
    if s == [] then [] else ToLower(s[..|s| - 1]) + [LowerChar(s[|s| - 1])]
  }

  predicate IsWordChar(c: char) {
    ('a' <= c <= 'z') || ('A' <= c <= 'Z') || ('0' <= c <= '9') || c == '_'
  }

  predicate StartsWith(s: string, p: string) {
    |p| <= |s| && s[..|p|] == p
  }

  predicate OccursAt(s: string, p: string, i: int) {
    0 <= i && i + |p| <= |s| && s[i..i + |p|] == p
  }

  /** First index at or after `from` where `p` occurs in `s`. */
  function IndexOfFrom(s: string, p: string, from: nat): (r: Option<nat>)
    decreases |s| - from
    ensures r.Some? ==> from <= r.value && OccursAt(s, p, r.value)
    ensures r.Some? ==> forall k :: from <= k < r.value ==> !OccursAt(s, p, k)
    ensures r.None? ==> forall k :: from <= k ==> !OccursAt(s, p, k)
  {
    if from + |p| > |s| then None
    else if s[from..from + |p|] == p then Some(from)
    else IndexOfFrom(s, p, from + 1)
  }

  /** `s.includes(p)`. */
  predicate Contains(s: string, p: string) {
    IndexOfFrom(s, p, 0).Some?
  }

  lemma ContainsIff(s: string, p: string)
    ensures Contains(s, p) <==> exists k :: OccursAt(s, p, k)
  {
    if !Contains(s, p) {
      forall k | OccursAt(s, p, k) ensures false {
      }
    }
  }

  /** `s.split(sep)` for a one-character separator. */
  function Split(s: string, sep: char): (r: seq<string>)
    ensures |r| >= 1
    ensures forall i :: 0 <= i < |r| ==> sep !in r[i]
    decreases |s|
  {
    var k := IndexOfFrom(s, [sep], 0);
    if k.None? then
      assert forall i :: 0 <= i < |s| ==> s[i] != sep by {
        forall i | 0 <= i < |s| ensures s[i] != sep {
          assert !OccursAt(s, [sep], i);
          assert s[i..i + 1] == [s[i]];
        }
      }
      [s]
    else
      var head := s[..k.value];
      assert forall i :: 0 <= i < |head| ==> head[i] != sep by {
        forall i | 0 <= i < |head| ensures head[i] != sep {
          assert !OccursAt(s, [sep], i);
          assert s[i..i + 1] == [s[i]];
        }
      }
      [head] + Split(s[k.value + 1..], sep)
  }

  /** `xs.join(sep)`. */
  function Join(xs: seq<string>, sep: string): string {
    if xs == [] then ""
    else if |xs| == 1 then xs[0]
    else xs[0] + sep + Join(xs[1..], sep)
  }

  /** Splitting a join undoes it when no part holds the separator. */
  lemma {:induction false} SplitJoin(xs: seq<string>, sep: char)
    requires |xs| >= 1
    requires forall i :: 0 <= i < |xs| ==> sep !in xs[i]
    ensures Split(Join(xs, [sep]), sep) == xs
    decreases |xs|
  {
    var s := Join(xs, [sep]);
    if |xs| == 1 {
      forall k | 0 <= k ensures !OccursAt(s, [sep], k) {
        if k < |s| {
          assert s[k..k + 1] == [s[k]];
        }
      }
    } else {
      var h := |xs[0]|;
      var rest := Join(xs[1..], [sep]);
      assert s == xs[0] + [sep] + rest;
      assert s[h..h + 1] == [sep];
      assert OccursAt(s, [sep], h);
      var r := IndexOfFrom(s, [sep], 0);
      forall k | 0 <= k < h ensures !OccursAt(s, [sep], k) {
        assert s[k] == xs[0][k];
        assert s[k..k + 1] == [xs[0][k]];
      }
      assert r.Some? && r.value <= h;
      assert r == Some(h);
      assert s[..h] == xs[0];
      assert s[h + 1..] == rest;
      SplitJoin(xs[1..], sep);
      assert [xs[0]] + xs[1..] == xs;
    }
  }

  function DigitChar(d: nat): char
    requires d < 10
  {
    "0123456789"[d]
  }

  function NatToString(n: nat): (r: string)
    ensures |r| >= 1
  {
    if n < 10 then [DigitChar(n)] else NatToString(n / 10) + [DigitChar(n % 10)]
  }

  /** `String(n)` for an integer. */
  function IntToString(n: int): (r: string)
    ensures |r| >= 1
  {
    if n < 0 then "-" + NatToString(-n) else NatToString(n)
  }

  predicate IsDigit(c: char) { '0' <= c <= '9' }

  function DigitValue(c: char): nat
    requires IsDigit(c)
  {
    c as int - '0' as int
  }

  predicate AllDigits(ds: string) {
    forall i :: 0 <= i < |ds| ==> IsDigit(ds[i])
  }

  /** Value of a string of decimal digits read most significant first. */
  function DecimalValue(ds: string): nat
    requires forall i :: 0 <= i < |ds| ==> IsDigit(ds[i])
  {
    if ds == [] then 0 else DecimalValue(ds[..|ds| - 1]) * 10 + DigitValue(ds[|ds| - 1])
  }

  /** Length of the longest run of decimal digits at the start of `s`. */
  function DigitRun(s: string): (n: nat)
    ensures n <= |s|
    ensures forall i :: 0 <= i < n ==> IsDigit(s[i])
  {
    if s == [] || !IsDigit(s[0]) then 0 else 1 + DigitRun(s[1..])
  }

  predicate IsHexDigit(c: char) {
    IsDigit(c) || ('a' <= c <= 'f') || ('A' <= c <= 'F')
  }

  function HexDigitValue(c: char): nat
    requires IsHexDigit(c)
  {
    if IsDigit(c) then DigitValue(c)
    else if 'a' <= c <= 'f' then c as int - 'a' as int + 10
    else c as int - 'A' as int + 10
  }

  /** Value of a string of digits in base `radix` (2, 8, 10 or 16) read most
      significant first. */
  function RadixValue(ds: string, radix: nat): nat
    requires forall i :: 0 <= i < |ds| ==> IsHexDigit(ds[i])
  {
    if ds == [] then 0 else RadixValue(ds[..|ds| - 1], radix) * radix + HexDigitValue(ds[|ds| - 1])
  }

  /** Length of the longest run of hexadecimal digits at the start of `s`. */
  function HexRun(s: string): (n: nat)
    ensures n <= |s|
    ensures forall i :: 0 <= i < n ==> IsHexDigit(s[i])
  {
    if s == [] || !IsHexDigit(s[0]) then 0 else 1 + HexRun(s[1..])
  }

  /** Splits an optional leading sign off `t`: the factor and the rest. */
  function SignOf(t: string): (r: (int, string))
    ensures r.0 == 1 || r.0 == -1
  {
    if |t| > 0 && t[0] == '-' then (-1, t[1..])
    else if |t| > 0 && t[0] == '+' then (1, t[1..])
    else (1, t)
  }

  /** `parseInt(s, 10)`: leading whitespace, an optional sign, then the longest
      run of decimal digits; `None` is `NaN` (no digit at all). */
  function ParseInt10(s: string): Option<int> {
    var (sign, rest) := SignOf(TrimStart(s));
    var n := DigitRun(rest);
    if n == 0 then None else Some(sign * DecimalValue(rest[..n]))
  }

  /** `parseInt(s)` with no radix: like `ParseInt10`, except that a `0x` or `0X`
      after the sign selects hexadecimal. */
  function ParseIntAuto(s: string): Option<int> {
    var (sign, rest) := SignOf(TrimStart(s));
    if |rest| >= 2 && rest[0] == '0' && (rest[1] == 'x' || rest[1] == 'X') then
      var hex := rest[2..];
      var n := HexRun(hex);
      if n == 0 then None else Some(sign * RadixValue(hex[..n], 16))
    else
      var n := DigitRun(rest);
      if n == 0 then None else Some(sign * DecimalValue(rest[..n]))
  }

  /** The base a `0x`, `0o` or `0b` prefix letter selects; 0 for any other letter. */
  function RadixOf(c: char): nat {
    if c == 'x' || c == 'X' then 16
    else if c == 'o' || c == 'O' then 8
    else if c == 'b' || c == 'B' then 2
    else 0
  }

  predicate IsRadixDigit(c: char, radix: nat) {
    IsHexDigit(c) && HexDigitValue(c) < radix
  }

  function Pow10(k: nat): (p: nat)
    ensures p >= 1
  {
    if k == 0 then 1 else 10 * Pow10(k - 1)
  }

  /** `m * 10^k` when that is an integer, `None` when it has a fractional part. */
  function ScaledInteger(m: nat, k: int): Option<nat> {
    if k >= 0 then Some(m * Pow10(k))
    else if m % Pow10(-k) == 0 then Some(m / Pow10(-k))
    else None
  }

  /** The exponent of a numeral's tail: 0 for no tail, else `e` or `E`, an
      optional sign and at least one digit; `None` for anything else. */
  function ExponentPart(t: string): Option<int> {
    if t == [] then Some(0)
    else if t[0] != 'e' && t[0] != 'E' then None
    else
      var (sign, ds) := SignOf(t[1..]);
      if ds != [] && DigitRun(ds) == |ds| then Some(sign * DecimalValue(ds)) else None
  }

  /** The value of a numeral with the given whole and fractional digits and
      exponent tail, when it is an integer; at least one digit is needed. */
  function Mantissa(whole: string, frac: string, tail: string): Option<nat>
    requires AllDigits(whole) && AllDigits(frac)
  {
    var exp := ExponentPart(tail);
    if |whole| + |frac| == 0 || exp.None? then None
    else ScaledInteger(DecimalValue(whole + frac), exp.value - |frac|)
  }

  /** An unsigned decimal numeral `digits [. digits] [exponent]` with at
      least one mantissa digit (`"12"`, `"12.0"`, `".5e1"`, `"1e3"`): its
      value when that is an integer; `None` when `s` is not such a numeral or
      its value has a fractional part. */
  function DecimalNumeral(s: string): Option<nat> {
    var n1 := DigitRun(s);
    var after := s[n1..];
    if after != [] && after[0] == '.' then
      var n2 := DigitRun(after[1..]);
      Mantissa(s[..n1], after[1..][..n2], after[1..][n2..])
    else Mantissa(s[..n1], [], after)
  }

  /** `Number(s)` on a string, for integer values: the trimmed text is
      empty (0), a `0x`/`0o`/`0b` numeral without sign, or a signed decimal
      numeral. `None` is `NaN`, and also stands for a numeral whose value is
      not an integer (`"1.5"`) and for `"Infinity"`. */
  function StringToNumber(s: string): Option<int> {
    TrimmedNumber(Trim(s))
  }

  /** `Number` on text with no surrounding whitespace. */
  function TrimmedNumber(t: string): Option<int> {
    if t == [] then Some(0)
    else if |t| >= 2 && t[0] == '0' && RadixOf(t[1]) != 0 then
      var radix := RadixOf(t[1]);
      var ds := t[2..];
      if ds != [] && forall i :: 0 <= i < |ds| ==> IsRadixDigit(ds[i], radix) then Some(RadixValue(ds, radix)) else None
    else
      var (sign, rest) := SignOf(t);
      var n := DecimalNumeral(rest);
      if n.None? then None else Some(sign * n.value)
  }

  lemma {:induction false} DigitRunAppend(ds: string, t: string)
    requires AllDigits(ds)
    ensures DigitRun(ds + t) == |ds| + DigitRun(t)
  {
    if ds == [] {
      assert ds + t == t;
    } else {
      var u := ds + t;
      assert u[0] == ds[0] && IsDigit(u[0]);
      assert DigitRun(u) == 1 + DigitRun(u[1..]);
      assert u[1..] == ds[1..] + t;
      assert AllDigits(ds[1..]) by {
        forall i | 0 <= i < |ds[1..]| ensures IsDigit(ds[1..][i]) {
          assert ds[1..][i] == ds[i + 1];
        }
      }
      DigitRunAppend(ds[1..], t);
    }
  }

  /** `Trim` leaves a numeral that starts and ends with a digit as it is. */
  lemma TrimDigitEnds(t: string)
    requires t != [] && IsHexDigit(t[0]) && IsHexDigit(t[|t| - 1])
    ensures Trim(t) == t
  {
    TrimOfTrimmed(t);
  }

  /** A `0x`, `0o` or `0b` numeral is read in its base. */
  lemma StringToNumberRadix(letter: char, ds: string)
    requires RadixOf(letter) != 0 && ds != []
    requires forall i :: 0 <= i < |ds| ==> IsHexDigit(ds[i]) && HexDigitValue(ds[i]) < RadixOf(letter)
    ensures StringToNumber("0" + [letter] + ds) == Some(RadixValue(ds, RadixOf(letter)))
  {
    var t := "0" + [letter] + ds;
    assert t[|t| - 1] == ds[|ds| - 1];
    TrimDigitEnds(t);
    assert t[2..] == ds;
  }

  /** Read as decimal, `0x…` stops after the `0` at a letter that starts no exponent. */
  lemma RadixLetterNumeral(letter: char, ds: string)
    requires RadixOf(letter) != 0
    ensures DecimalNumeral("0" + ([letter] + ds)) == None
  {
    var tail := [letter] + ds;
    assert tail[0] == letter;
    assert AllDigits("0");
    PlainNumeral("0", tail);
  }

  /** A sign before a `0x`, `0o` or `0b` prefix makes the string `NaN`. */
  lemma StringToNumberSignedRadix(sign: char, letter: char, ds: string)
    requires (sign == '-' || sign == '+') && RadixOf(letter) != 0 && ds != []
    requires forall i :: 0 <= i < |ds| ==> IsHexDigit(ds[i]) && HexDigitValue(ds[i]) < RadixOf(letter)
    ensures StringToNumber([sign] + ("0" + ([letter] + ds))) == None
  {
    var rest := "0" + ([letter] + ds);
    var t := [sign] + rest;
    assert t[0] == sign && t[|t| - 1] == ds[|ds| - 1] && t[1..] == rest;
    TrimOfTrimmed(t);
    RadixLetterNumeral(letter, ds);
  }

  /** A trimmed string that starts with a decimal digit and has no radix
      prefix is read as a decimal numeral. */
  lemma StringToNumberDecimal(t: string)
    requires t != [] && IsHexDigit(t[|t| - 1]) && IsDigit(t[0])
    requires |t| >= 2 ==> RadixOf(t[1]) == 0
    ensures DecimalNumeral(t).None? ==> StringToNumber(t) == None
    ensures DecimalNumeral(t).Some? ==> StringToNumber(t) == Some(DecimalNumeral(t).value)
  {
    TrimDigitEnds(t);
  }

  /** A numeral with a point: the whole and fractional digits form the
      mantissa, scaled by the exponent less the number of fractional digits. */
  lemma PointNumeral(whole: string, frac: string, tail: string)
    requires AllDigits(whole) && AllDigits(frac)
    requires tail == [] || !IsDigit(tail[0])
    ensures DecimalNumeral(whole + ("." + (frac + tail))) == Mantissa(whole, frac, tail)
  {
    var rest := frac + tail;
    var after := "." + rest;
    var s := whole + after;
    assert after[0] == '.';
    DigitRunAppend(whole, after);
    assert s[|whole|..] == after && s[..|whole|] == whole;
    assert after[1..] == rest;
    DigitRunAppend(frac, tail);
    assert rest[..|frac|] == frac && rest[|frac|..] == tail;
  }

  /** A numeral without a point: the digits scaled by the exponent. */
  lemma PlainNumeral(whole: string, tail: string)
    requires AllDigits(whole)
    requires tail == [] || (!IsDigit(tail[0]) && tail[0] != '.')
    ensures DecimalNumeral(whole + tail) == Mantissa(whole, [], tail)
  {
    var s := whole + tail;
    DigitRunAppend(whole, tail);
    assert s[|whole|..] == tail && s[..|whole|] == whole;
  }

  lemma DecimalValueSnoc(ds: string, d: char)
    requires AllDigits(ds) && IsDigit(d)
    ensures DecimalValue(ds + [d]) == DecimalValue(ds) * 10 + DigitValue(d)
  {
    assert (ds + [d])[..|ds|] == ds;
  }

  lemma ZeroFractionNumeral(ds: string)
    requires AllDigits(ds)
    ensures DecimalNumeral(ds + ".0") == Some(DecimalValue(ds))
  {
    assert ds + ".0" == ds + ("." + ("0" + ""));
    PointNumeral(ds, "0", "");
    DecimalValueSnoc(ds, '0');
    var m := DecimalValue(ds);
    assert Pow10(1) == 10;
    assert (m * 10) % 10 == 0 && (m * 10) / 10 == m;
  }

  /** A mantissa ending in a non-zero digit over one fractional digit is not an integer. */
  lemma FractionalScaled(m: nat, d: nat)
    requires 1 <= d <= 9
    ensures ScaledInteger(m * 10 + d, -1) == None
  {
    assert Pow10(1) == 10;
  }

  lemma FractionNumeral(ds: string, d: char)
    requires AllDigits(ds) && '1' <= d <= '9'
    ensures DecimalNumeral(ds + "." + [d]) == None
  {
    assert ds + "." + [d] == ds + ("." + ([d] + ""));
    PointNumeral(ds, [d], "");
    DecimalValueSnoc(ds, d);
    FractionalScaled(DecimalValue(ds), DigitValue(d));
  }

  /** `ds + ".0"` is the integer the digits denote. */
  lemma StringToNumberZeroFraction(ds: string)
    requires ds != [] && AllDigits(ds)
    ensures StringToNumber(ds + ".0") == Some(DecimalValue(ds))
  {
    var t := ds + ".0";
    ZeroFractionNumeral(ds);
    assert t[0] == ds[0] && t[|t| - 1] == '0';
    assert |t| >= 2 ==> t[1] == '.' || IsDigit(t[1]);
    StringToNumberDecimal(t);
  }

  /** `ds + "." + d` with a non-zero digit `d` has a fractional value, so it is
      `NaN` in this model. */
  lemma StringToNumberFraction(ds: string, d: char)
    requires ds != [] && AllDigits(ds) && '1' <= d <= '9'
    ensures StringToNumber(ds + "." + [d]) == None
  {
    var t := ds + "." + [d];
    FractionNumeral(ds, d);
    assert t[0] == ds[0] && t[|t| - 1] == d;
    assert |t| >= 2 ==> t[1] == '.' || IsDigit(t[1]);
    StringToNumberDecimal(t);
  }

  lemma ExponentOf(es: string)
    requires es != [] && AllDigits(es)
    ensures ExponentPart("e" + es) == Some(DecimalValue(es))
  {
    var tail := "e" + es;
    assert tail[0] == 'e' && tail[1..] == es;
    assert es[0] != '-' && es[0] != '+';
    assert SignOf(es) == (1, es);
    DigitRunAppend(es, "");
    assert es + "" == es;
  }

  /** Without fractional digits the mantissa is the whole digits' value. */
  lemma WholeMantissa(ds: string, tail: string, k: int)
    requires AllDigits(ds) && ds != [] && ExponentPart(tail) == Some(k)
    ensures Mantissa(ds, [], tail) == ScaledInteger(DecimalValue(ds), k)
  {
    assert ds + [] == ds;
  }

  lemma ExponentNumeral(ds: string, es: string)
    requires AllDigits(ds) && ds != [] && es != [] && AllDigits(es)
    ensures DecimalNumeral(ds + ("e" + es)) == Some(DecimalValue(ds) * Pow10(DecimalValue(es)))
  {
    assert ("e" + es)[0] == 'e';
    PlainNumeral(ds, "e" + es);
    ExponentOf(es);
    WholeMantissa(ds, "e" + es, DecimalValue(es));
  }

  lemma ExponentShape(ds: string, es: string)
    requires ds != [] && AllDigits(ds) && es != [] && AllDigits(es)
    ensures var t := ds + ("e" + es);
      t != [] && IsHexDigit(t[|t| - 1]) && IsDigit(t[0]) && (|t| >= 2 ==> RadixOf(t[1]) == 0)
  {
    var t := ds + ("e" + es);
    assert t[0] == ds[0] && t[|t| - 1] == es[|es| - 1];
    assert |t| >= 2 ==> t[1] == 'e' || IsDigit(t[1]);
  }

  /** `ds + "e" + es` is the digits' value times ten to the exponent. */
  lemma StringToNumberExponent(ds: string, es: string)
    requires ds != [] && AllDigits(ds) && es != [] && AllDigits(es)
    ensures StringToNumber(ds + ("e" + es)) == Some(DecimalValue(ds) * Pow10(DecimalValue(es)))
  {
    ExponentShape(ds, es);
    ExponentNumeral(ds, es);
    StringToNumberDecimal(ds + ("e" + es));
  }

  /** `Math.min` on numbers. */
  function Min(a: int, b: int): int { if a <= b then a else b }

  /** The clamped end index that `substring(0, n)` and `slice(0, n)` use. */
  function SubstringEnd(len: nat, n: int): (e: nat)
    ensures e <= len
  {
    if n < 0 then 0 else if n > len then len else n
  }

  /** `s.substring(0, n)`: `n` is clamped to `[0, |s|]`. */
  function Prefix(s: string, n: int): (r: string)
    ensures r == s[..SubstringEnd(|s|, n)]
    ensures r <= s && |r| == SubstringEnd(|s|, n)
    ensures 0 <= n <= |s| ==> |r| == n
  {
    s[..SubstringEnd(|s|, n)]
  }

  /** `xs.slice(0, n)`: a negative `n` counts back from the end. */
  function SliceTo<T>(xs: seq<T>, n: int): (r: seq<T>)
    ensures |r| <= |xs| && r == xs[..|r|]
    ensures 0 <= n ==> |r| == if n < |xs| then n else |xs|
    ensures n < 0 ==> |r| == if |xs| + n < 0 then 0 else |xs| + n
  {
    if n < 0 then (if |xs| + n < 0 then [] else xs[..|xs| + n])
    else if n < |xs| then xs[..n]
    else xs
  }
}
