/** Conversions between numbers, bytes and text that the credential format
    and the address model use: Python's `str(n)`, `int(s)`, `bytes.hex()` and
    `bytes.fromhex(s)`. */
module Codificacao {
  import opened Wrappers
  import opened Texto

  type Byte = b: int | 0 <= b < 256
  type Nibble = n: int | 0 <= n < 16

  /** The digits `bytes.hex()` writes, lower case. */
  const HexDigits: string := "0123456789abcdef"

  predicate AllDigits(s: string) {
    forall i :: 0 <= i < |s| ==> IsDigit(s[i])
  }

  function DigitChar(d: int): char
    requires 0 <= d < 10
  {
    ('0' as int + d) as char
  }

  function DigitValue(c: char): nat
    requires IsDigit(c)
  {
    c as int - '0' as int
  }

  /** The number a non-empty run of decimal digits denotes (0 for ""). */
  function DecimalValue(s: string): nat
    requires AllDigits(s)
  {
    if s == [] then 0 else 10 * DecimalValue(s[..|s| - 1]) + DigitValue(s[|s| - 1])
  }

  /** `str(n)` for a natural number: decimal, no sign, no leading zero. */
  function NatToDecimal(n: nat): (r: string)
    ensures r != [] && AllDigits(r)
    ensures DecimalValue(r) == n
    ensures r[0] == '0' ==> r == "0"
  {
    if n < 10 then [DigitChar(n)]
    else
      var p := NatToDecimal(n / 10);
      assert (p + [DigitChar(n % 10)])[..|p|] == p;
      p + [DigitChar(n % 10)]
  }

  function Pow10(k: nat): nat {
    if k == 0 then 1 else 10 * Pow10(k - 1)
  }

  /** A number below `10^k` has at most `k` decimal digits. */
  lemma {:induction false} NatToDecimalLength(n: nat, k: nat)
    requires 1 <= k && n < Pow10(k)
    ensures |NatToDecimal(n)| <= k
  {
    if n >= 10 {
      assert k >= 2;
      NatToDecimalLength(n / 10, k - 1);
    }
  }

  /** The value of two runs of digits written one after the other. */
  lemma {:induction false} DecimalValueAppend(a: string, b: string)
    requires AllDigits(a) && AllDigits(b)
    ensures AllDigits(a + b)
    ensures DecimalValue(a + b) == DecimalValue(a) * Pow10(|b|) + DecimalValue(b)
    decreases |b|
  {
    if b == [] {
      assert a + b == a;
    } else {
      var c := a + b;
      var b' := b[..|b| - 1];
      assert c[..|c| - 1] == a + b';
      assert c[|c| - 1] == b[|b| - 1];
      DecimalValueAppend(a, b');
      Distribui(DecimalValue(c), DecimalValue(a + b'), DecimalValue(a), Pow10(|b'|), DecimalValue(b'),
                DigitValue(b[|b| - 1]), DecimalValue(b), Pow10(|b|));
    }
  }

  /** The arithmetic of one step of `DecimalValueAppend`: `c` is `v` with
      the digit `d` appended, `v` is `x` shifted left past `y`, and `b` is
      `y` with `d` appended. */
  lemma Distribui(c: int, v: int, x: int, p: int, y: int, d: int, b: int, q: int)
    requires c == 10 * v + d && v == x * p + y && b == 10 * y + d && q == 10 * p
    ensures c == x * q + b
  {
  }

  /** A run of zeros is worth nothing. */
  lemma {:induction false} DecimalValueZeros(k: nat)
    ensures AllDigits(seq(k, i => '0')) && DecimalValue(seq(k, i => '0')) == 0
  {
    if k > 0 {
      DecimalValueZeros(k - 1);
      assert seq(k, i => '0')[..k - 1] == seq(k - 1, i => '0');
    }
  }

  /** `f"{n:0{w}d}"`: the decimal numeral left-padded with zeros to width
      `w`; it still denotes `n`. */
  function PadZeros(n: nat, w: nat): (r: string)
    ensures AllDigits(r) && |r| >= w
    ensures DecimalValue(r) == n
    ensures |NatToDecimal(n)| <= w ==> |r| == w
  {
    var s := NatToDecimal(n);
    if |s| >= w then s
    else
      DecimalValueZeros(w - |s|);
      DecimalValueAppend(seq(w - |s|, i => '0'), s);
      seq(w - |s|, i => '0') + s
  }

  /** `str(i)` for any integer. */
  function IntToDecimal(i: int): (r: string)
    ensures r != [] && NoSpace(r)
  {
    if i < 0 then "-" + NatToDecimal(-i) else NatToDecimal(i)
  }

  predicate DigitsOrUnderscores(s: string) {
    forall i :: 0 <= i < |s| ==> IsDigit(s[i]) || s[i] == '_'
  }

  /** The digit part of a base-10 literal that `int()` accepts: ASCII digits,
      where a single `_` may stand between two digits. */
  predicate DigitBody(s: string) {
    && s != []
    && IsDigit(s[0])
    && IsDigit(s[|s| - 1])
    && DigitsOrUnderscores(s)
    && forall i :: 0 <= i < |s| - 1 && s[i] == '_' ==> s[i + 1] != '_'
  }

  /** `s` without its `_` separators. */
  function WithoutUnderscores(s: string): (r: string)
    requires DigitsOrUnderscores(s)
    ensures AllDigits(r)
    ensures AllDigits(s) ==> r == s
  {
    if s == [] then []
    else (if s[0] == '_' then [] else [s[0]]) + WithoutUnderscores(s[1..])
  }

  /** CPython's default `sys.get_int_max_str_digits()`: `int()` refuses a
      decimal literal of more digits, and `str()` an integer that long. */
  const MaxStrDigits := 4300

  /** Python's `int(s)` in base 10: surrounding whitespace is ignored, one
      optional sign, then a digit body of at most `MaxStrDigits` digits;
      anything else is a `ValueError` (None). */
  function ParseInt(s: string): (r: Option<int>)
    ensures r.Some? ==> !Blank(s)
    ensures s != [] && AllDigits(s) ==> r == if |s| <= MaxStrDigits then Some(DecimalValue(s)) else None
  {
    StripOfDigits(s);
    var t := Strip(s);
    if t == [] then None
    else
      var neg := t[0] == '-';
      var body := if t[0] == '-' || t[0] == '+' then t[1..] else t;
      if DigitBody(body) then
        var w := WithoutUnderscores(body);
        if |w| > MaxStrDigits then None
        else
          var v: int := DecimalValue(w);
          Some(if neg then -v else v)
      else None
  }

  /** A string without whitespace at its ends is its own `strip()`. */
  lemma StripOfNoSpace(s: string)
    requires NoSpace(s)
    ensures Strip(s) == s
  {
    assert LStrip(s) == s;
  }

  lemma StripOfDigits(s: string)
    ensures AllDigits(s) ==> Strip(s) == s
  {
    if AllDigits(s) {
      StripOfNoSpace(s);
    }
  }

  /** `int(str(n)) == n`, up to CPython's digit limit; beyond it `int()`
      raises. */
  lemma ParseNatToDecimal(n: nat)
    ensures ParseInt(NatToDecimal(n)) == if |NatToDecimal(n)| <= MaxStrDigits then Some(n) else None
  {
    var d := NatToDecimal(n);
    StripOfNoSpace(d);
    assert DigitBody(d);
  }

  /** Numbers below `10^10` (every C `int`) are well inside the limit. */
  lemma DezDigitos(n: nat)
    requires n < 10_000_000_000
    ensures |NatToDecimal(n)| <= 10 < MaxStrDigits
  {
    assert Pow10(10) == 10_000_000_000;
    NatToDecimalLength(n, 10);
  }

  function HexChar(v: Nibble): char {
    HexDigits[v]
  }

  /** The value of one hexadecimal digit, either case, or None. */
  function HexValue(c: char): Option<Nibble> {
    if '0' <= c <= '9' then Some(c as int - '0' as int)
    else if 'a' <= c <= 'f' then Some(c as int - 'a' as int + 10)
    else if 'A' <= c <= 'F' then Some(c as int - 'A' as int + 10)
    else None
  }

  lemma HexValueOfHexChar(v: Nibble)
    ensures HexValue(HexChar(v)) == Some(v)
  {
  }

  /** `b.hex()`: two lower-case hexadecimal digits per byte, high nibble first. */
  function ToHex(b: seq<Byte>): (r: string)
    ensures |r| == 2 * |b|
    ensures forall i :: 0 <= i < |r| ==> r[i] in HexDigits
  {
    if b == [] then []
    else [HexChar(b[0] / 16), HexChar(b[0] % 16)] + ToHex(b[1..])
  }

  /** The whitespace `bytes.fromhex` skips between byte pairs: ASCII only. */
  predicate IsAsciiSpace(c: char) {
    c == ' ' || '\t' <= c <= '\r'
  }

  /** `bytes.fromhex(s)`: pairs of hexadecimal digits, either case, with ASCII
      whitespace allowed between pairs; anything else is a `ValueError` (None). */
  function FromHex(s: string): (r: Option<seq<Byte>>)
    ensures r.Some? ==> 2 * |r.value| <= |s|
    ensures (forall i :: 0 <= i < |s| ==> IsAsciiSpace(s[i])) ==> r == Some([])
    decreases |s|
  {
    if s == [] then Some([])
    else if IsAsciiSpace(s[0]) then FromHex(s[1..])
    else if |s| >= 2 && HexValue(s[0]).Some? && HexValue(s[1]).Some? then
      match FromHex(s[2..])
      case None => None
      case Some(rest) => Some([16 * HexValue(s[0]).value + HexValue(s[1]).value] + rest)
    else None
  }

  /** One byte pair written by `ToHex` is read back by `FromHex`. */
  lemma FromHexPair(hi: Nibble, lo: Nibble, rest: string)
    ensures FromHex([HexChar(hi), HexChar(lo)] + rest) ==
            match FromHex(rest)
            case None => None
            case Some(tail) => Some([16 * hi + lo] + tail)
  {
    var s := [HexChar(hi), HexChar(lo)] + rest;
    HexValueOfHexChar(hi);
    HexValueOfHexChar(lo);
    assert s[2..] == rest;
    assert !IsAsciiSpace(s[0]);
  }

  /** `bytes.fromhex(b.hex()) == b`. */
  lemma {:induction false} FromHexToHex(b: seq<Byte>)
    ensures FromHex(ToHex(b)) == Some(b)
  {
    if b != [] {
      var hi, lo, rest := b[0] / 16, b[0] % 16, ToHex(b[1..]);
      assert ToHex(b) == [HexChar(hi), HexChar(lo)] + rest;
      FromHexToHex(b[1..]);
      FromHexPair(hi, lo, rest);
      Nibbles(b[0]);
      assert [16 * hi + lo] + b[1..] == b;
    }
  }

  /** A byte is its high nibble times 16 plus its low nibble. */
  lemma Nibbles(x: Byte)
    ensures 16 * (x / 16) + x % 16 == x
  {
  }
}
