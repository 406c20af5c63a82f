/**
 Rendering of numbers and account addresses as they appear in metric
 labels: decimal for integers (`{}` on an integer), and the short
 `0x`-prefixed hexadecimal literal for addresses (`to_hex_literal`, which
 drops leading zero digits). Each rendering comes with a parser that
 inverts it.
 */
module TextFormat {
  import opened Types

  // ---------------------------------------------------------------------
  // Decimal
  // ---------------------------------------------------------------------

  function DecimalDigit(d: nat): (c: char)
    requires d < 10
    ensures '0' <= c <= '9'
  {
    "0123456789"[d]
  }

  predicate IsDecimalDigit(c: char) {
    '0' <= c <= '9'
  }

  function DigitValue(c: char): (d: nat)
    requires IsDecimalDigit(c)
    ensures d < 10
  {
    (c as int) - ('0' as int)
  }

  lemma DigitRoundTrip(d: nat)
    requires d < 10
    ensures DigitValue(DecimalDigit(d)) == d
  {
  }

  /** `n.to_string()`: decimal digits, most significant first, no leading
      zeros. */
  function NatToString(n: nat): (s: string)
    ensures |s| > 0
    ensures forall i :: 0 <= i < |s| ==> IsDecimalDigit(s[i])
    ensures |s| > 1 ==> s[0] != '0'
    decreases n
  {
    if n < 10 then [DecimalDigit(n)]
    else NatToString(n / 10) + [DecimalDigit(n % 10)]
  }

  /** The value of a non-empty string of decimal digits; `None` for
      anything else. */
  function ParseNat(s: string): (r: Option<nat>)
    ensures r.Some? ==> |s| > 0 && forall i :: 0 <= i < |s| ==> IsDecimalDigit(s[i])
    decreases |s|
  {
    if |s| == 0 || !IsDecimalDigit(s[|s| - 1]) then None
    else if |s| == 1 then Some(DigitValue(s[0]))
    else
      match ParseNat(s[..|s| - 1])
      case None => None
      case Some(v) =>
        assert forall i :: 0 <= i < |s| - 1 ==> s[i] == s[..|s| - 1][i];
        Some(v * 10 + DigitValue(s[|s| - 1]))
  }

  lemma {:induction false} ParseNatRoundTrip(n: nat)
    ensures ParseNat(NatToString(n)) == Some(n)
    decreases n
  {
    DigitRoundTrip(n % 10);
    if n >= 10 {
      ParseNatRoundTrip(n / 10);
      ParseNatSnoc(NatToString(n / 10), DecimalDigit(n % 10));
    }
  }

  /** Parsing one more digit multiplies by ten and adds it. */
  lemma ParseNatSnoc(prefix: string, c: char)
    requires ParseNat(prefix).Some? && IsDecimalDigit(c)
    ensures ParseNat(prefix + [c]) == Some(ParseNat(prefix).value * 10 + DigitValue(c))
  {
    var s := prefix + [c];
    assert s[..|s| - 1] == prefix && s[|s| - 1] == c;
  }

  /** Decimal rendering is injective. */
  lemma NatToStringInjective(a: nat, b: nat)
    ensures NatToString(a) == NatToString(b) ==> a == b
  {
    ParseNatRoundTrip(a);
    ParseNatRoundTrip(b);
  }

  // ---------------------------------------------------------------------
  // Hexadecimal
  // ---------------------------------------------------------------------

  const HEX_DIGITS: string := "0123456789abcdef"

  function HexDigit(v: nat): (c: char)
    requires v < 16
  {
    HEX_DIGITS[v]
  }

  function HexValue(c: char): (r: Option<nat>)
    ensures r.Some? ==> r.value < 16
  {
    if '0' <= c <= '9' then Some((c as int) - ('0' as int))
    else if 'a' <= c <= 'f' then Some((c as int) - ('a' as int) + 10)
    else None
  }

  lemma HexDigitRoundTrip(v: nat)
    requires v < 16
    ensures HexValue(HexDigit(v)) == Some(v)
  {
  }

  /** `hex::encode`: two lower-case digits per byte. */
  function FullHex(bytes: seq<byte>): (s: string)
    ensures |s| == 2 * |bytes|
  {
    if |bytes| == 0 then []
    else [HexDigit(bytes[0] / 16), HexDigit(bytes[0] % 16)] + FullHex(bytes[1..])
  }

  /** The byte whose high and low hex digits are `hi` and `lo`. */
  function HexByte(hi: nat, lo: nat): (b: byte)
    requires hi < 16 && lo < 16
    ensures b / 16 == hi && b % 16 == lo
  {
    hi * 16 + lo
  }

  /** A byte is rebuilt from its two hex digits. */
  lemma HexByteOfDigits(b: byte)
    ensures HexByte(b / 16, b % 16) == b
  {
  }

  /** The bytes of an even-length hex string; `None` if a character is not
      a lower-case hex digit. */
  function DecodeHex(s: string): (r: Option<seq<byte>>)
    requires |s| % 2 == 0
    ensures r.Some? ==> 2 * |r.value| == |s|
  {
    if |s| == 0 then Some([])
    else
      var hi, lo, rest := HexValue(s[0]), HexValue(s[1]), DecodeHex(s[2..]);
      if hi.None? || lo.None? || rest.None? then None
      else Some([HexByte(hi.value, lo.value)] + rest.value)
  }

  lemma {:induction false} DecodeFullHex(bytes: seq<byte>)
    ensures DecodeHex(FullHex(bytes)) == Some(bytes)
    decreases |bytes|
  {
    if |bytes| > 0 {
      var s, b := FullHex(bytes), bytes[0];
      HexDigitRoundTrip(b / 16);
      HexDigitRoundTrip(b % 16);
      DecodeFullHex(bytes[1..]);
      assert s[0] == HexDigit(b / 16) && s[1] == HexDigit(b % 16) && s[2..] == FullHex(bytes[1..]);
      HexByteOfDigits(b);
      assert bytes == [b] + bytes[1..];
    }
  }

  lemma {:induction false} FullHexConcat(a: seq<byte>, b: seq<byte>)
    ensures FullHex(a + b) == FullHex(a) + FullHex(b)
    decreases |a|
  {
    if |a| > 0 {
      assert (a + b)[0] == a[0] && (a + b)[1..] == a[1..] + b;
      FullHexConcat(a[1..], b);
    } else {
      assert a + b == b;
    }
  }

  function Zeros(n: nat): (s: string)
    ensures |s| == n
    ensures forall i :: 0 <= i < n ==> s[i] == '0'
  {
    seq(n, _ => '0')
  }

  /** Drop leading `'0'` characters. */
  function TrimLeadingZeros(s: string): (t: string)
    ensures |t| <= |s|
    ensures |t| > 0 ==> t[0] != '0'
    decreases |s|
  {
    if |s| > 0 && s[0] == '0' then TrimLeadingZeros(s[1..]) else s
  }

  /** Put back `'0'`s in front of `s` up to length `n`. */
  function LeftPad(s: string, n: nat): (t: string)
    requires |s| <= n
    ensures |t| == n
  {
    Zeros(n - |s|) + s
  }

  lemma {:induction false} PadUndoesTrim(s: string)
    ensures LeftPad(TrimLeadingZeros(s), |s|) == s
    decreases |s|
  {
    if |s| > 0 && s[0] == '0' {
      var t := TrimLeadingZeros(s[1..]);
      PadUndoesTrim(s[1..]);
      assert Zeros(|s| - |t|) == ['0'] + Zeros(|s| - 1 - |t|);
      assert s == [s[0]] + s[1..];
    } else {
      assert Zeros(0) == [];
    }
  }

  lemma {:induction false} TrimZerosPrefix(n: nat, s: string)
    ensures TrimLeadingZeros(Zeros(n) + s) == TrimLeadingZeros(s)
    decreases n
  {
    if n > 0 {
      assert (Zeros(n) + s)[1..] == Zeros(n - 1) + s;
      TrimZerosPrefix(n - 1, s);
    } else {
      assert Zeros(n) + s == s;
    }
  }

  /** `AccountAddress::to_hex_literal`: `0x` followed by the address's hex
      digits without leading zeros, or `0x0` for the zero address. */
  function HexLiteral(address: PeerId): (s: string)
    ensures |s| >= 3 && s[..2] == "0x"
    ensures |s| <= 2 + 2 * ADDRESS_LENGTH
  {
    var digits := TrimLeadingZeros(FullHex(address));
    "0x" + (if |digits| == 0 then "0" else digits)
  }

  /** Parse a `0x` hex literal of at most 64 digits back into an address. */
  function ParseHexLiteral(s: string): (r: Option<PeerId>)
  {
    if |s| < 3 || s[..2] != "0x" || |s| - 2 > 2 * ADDRESS_LENGTH then None
    else match DecodeHex(LeftPad(s[2..], 2 * ADDRESS_LENGTH))
      case Some(bytes) => Some(bytes)
      case None => None
  }

  /** The short hex literal of an address determines the address. */
  lemma HexLiteralRoundTrip(address: PeerId)
    ensures ParseHexLiteral(HexLiteral(address)) == Some(address)
  {
    var full := FullHex(address);
    var digits := TrimLeadingZeros(full);
    var s := HexLiteral(address);
    PadUndoesTrim(full);
    if |digits| == 0 {
      assert s[2..] == "0";
      assert LeftPad("0", |full|) == Zeros(|full|) == LeftPad(digits, |full|);
    } else {
      assert s[2..] == digits;
    }
    DecodeFullHex(address);
  }

  lemma HexLiteralInjective(a: PeerId, b: PeerId)
    ensures HexLiteral(a) == HexLiteral(b) ==> a == b
  {
    HexLiteralRoundTrip(a);
    HexLiteralRoundTrip(b);
  }
}
