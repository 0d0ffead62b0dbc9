/** 16-bit service class identifiers of the Bluetooth SIG Assigned Numbers, expanded
    to 128-bit UUID strings on the Bluetooth Base UUID
    00000000-0000-1000-8000-00805F9B34FB (Bluetooth Core Specification, Vol 3,
    Part B, section 2.5.1), written in the lower-case textual form BlueZ sends. */
module BluetoothUuid {
  import opened DBusTypes

  /** The part of the Base UUID that follows the 32-bit field. */
  const BASE_UUID_TAIL: string := "-0000-1000-8000-00805f9b34fb"

  /** Advanced Audio Distribution, service class 0x110D. */
  const ADVANCED_AUDIO_DISTRIBUTION: u16 := 0x110D

  function Pow16(n: nat): (p: nat)
    ensures p >= 1
  {
    if n == 0 then 1 else 16 * Pow16(n - 1)
  }

  /** A digit of the lower-case hexadecimal alphabet. */
  predicate IsHexDigit(c: char) {
    '0' <= c <= '9' || 'a' <= c <= 'f'
  }

  /** A character that only an upper-case spelling of a UUID contains. */
  predicate IsUpperHexLetter(c: char) {
    'A' <= c <= 'F'
  }

  function HexDigit(d: nat): (c: char)
    requires d < 16
    ensures IsHexDigit(c) && !IsUpperHexLetter(c)
  {
    if d < 10 then (d + '0' as int) as char else (d - 10 + 'a' as int) as char
  }

  /** The value of a lower-case hexadecimal digit: the inverse of HexDigit. */
  function HexValue(c: char): (d: nat)
    requires IsHexDigit(c)
    ensures d < 16
  {
    if c <= '9' then c as int - '0' as int else c as int - 'a' as int + 10
  }

  lemma HexValueOfHexDigit(d: nat)
    requires d < 16
    ensures HexValue(HexDigit(d)) == d
  {
  }

  lemma HexDigitInjective(a: nat, b: nat)
    requires a < 16 && b < 16
    requires HexDigit(a) == HexDigit(b)
    ensures a == b
  {
    HexValueOfHexDigit(a);
    HexValueOfHexDigit(b);
  }

  /** The lowest `width` hexadecimal digits of `v`, most significant first. */
  function ToHex(v: nat, width: nat): (s: string)
    ensures |s| == width
    ensures forall i :: 0 <= i < |s| ==> IsHexDigit(s[i])
  {
    if width == 0 then [] else ToHex(v / 16, width - 1) + [HexDigit(v % 16)]
  }

  /** The number a string of hexadecimal digits spells, most significant first. */
  function FromHex(s: string): nat
    requires forall i :: 0 <= i < |s| ==> IsHexDigit(s[i])
  {
    if s == [] then 0 else 16 * FromHex(s[..|s| - 1]) + HexValue(s[|s| - 1])
  }

  lemma DivModSplit(v: nat, p: nat)
    requires p >= 1
    ensures 16 * ((v / 16) % p) + v % 16 == v % (16 * p)
  {
    var q, r := v / 16, v % 16;
    var a, b := q / p, q % p;
    assert v == 16 * q + r;
    assert q == p * a + b;
    assert v == (16 * p) * a + (16 * b + r);
    assert 0 <= 16 * b + r < 16 * p;
    ModUnique(v, 16 * p, a, 16 * b + r);
  }

  lemma ModUnique(v: nat, m: nat, a: nat, c: nat)
    requires m >= 1 && c < m && v == m * a + c
    ensures v % m == c
  {
    var a', c' := v / m, v % m;
    assert v == m * a' + c';
    if a' < a {
      MulGap(m, a', a);
    } else if a' > a {
      MulGap(m, a, a');
    }
  }

  lemma MulGap(m: nat, x: nat, y: nat)
    requires x < y
    ensures m * x + m <= m * y
  {
    var d := y - x - 1;
    assert m * y == m * x + m + m * d;
  }

  /** Reading back the `width`-digit spelling of `v` gives `v` modulo 16^width. */
  lemma {:induction false} FromHexOfToHex(v: nat, width: nat)
    ensures FromHex(ToHex(v, width)) == v % Pow16(width)
  {
    if width > 0 {
      var s := ToHex(v, width);
      assert s[..width - 1] == ToHex(v / 16, width - 1);
      FromHexOfToHex(v / 16, width - 1);
      HexValueOfHexDigit(v % 16);
      DivModSplit(v, Pow16(width - 1));
    }
  }

  /** Two numbers below 16^width have the same `width`-digit spelling only if they are equal. */
  lemma {:induction false} ToHexInjective(v: nat, w: nat, width: nat)
    requires v < Pow16(width) && w < Pow16(width)
    requires ToHex(v, width) == ToHex(w, width)
    ensures v == w
  {
    if width > 0 {
      var a, b := ToHex(v / 16, width - 1), ToHex(w / 16, width - 1);
      assert ToHex(v, width) == a + [HexDigit(v % 16)];
      assert ToHex(w, width) == b + [HexDigit(w % 16)];
      assert a == ToHex(v, width)[..width - 1] == ToHex(w, width)[..width - 1] == b;
      assert HexDigit(v % 16) == ToHex(v, width)[width - 1] == HexDigit(w % 16);
      HexDigitInjective(v % 16, w % 16);
      ToHexInjective(v / 16, w / 16, width - 1);
    }
  }

  /** The 128-bit UUID string of a 16-bit SIG-assigned identifier. */
  function ShortToUuid(v: u16): (s: string)
    ensures |s| == 36
    ensures s[..4] == "0000" && s[8..] == BASE_UUID_TAIL
    ensures forall i :: 4 <= i < 8 ==> IsHexDigit(s[i])
  {
    "0000" + ToHex(v as nat, 4) + BASE_UUID_TAIL
  }

  /** Every expansion is spelled in lower case. */
  lemma ShortToUuidIsLowerCase(v: u16)
    ensures forall i :: 0 <= i < 36 ==> !IsUpperHexLetter(ShortToUuid(v)[i])
  {
    var s := ShortToUuid(v);
    assert forall i :: 8 <= i < 36 ==> s[i] == BASE_UUID_TAIL[i - 8];
    assert forall i :: 0 <= i < |BASE_UUID_TAIL| ==> !IsUpperHexLetter(BASE_UUID_TAIL[i]);
  }

  /** Positions 4 to 7 of an expansion spell the 16-bit identifier in hexadecimal. */
  lemma ShortToUuidSpellsIdentifier(v: u16)
    ensures FromHex(ShortToUuid(v)[4..8]) == v as nat
  {
    var digits := ToHex(v as nat, 4);
    MiddleOfJoin("0000", digits, BASE_UUID_TAIL);
    FromHexOfToHex(v as nat, 4);
    Pow16Four();
  }

  lemma Pow16Four()
    ensures Pow16(4) == 0x1_0000
  {
    assert Pow16(2) == 0x100;
  }

  lemma MiddleOfJoin(a: string, b: string, c: string)
    ensures (a + b + c)[|a|..|a| + |b|] == b
  {
  }

  /** Distinct short identifiers expand to distinct UUID strings. */
  lemma ShortToUuidInjective(v: u16, w: u16)
    requires ShortToUuid(v) == ShortToUuid(w)
    ensures v == w
  {
    assert ToHex(v as nat, 4) == ShortToUuid(v)[4..8] == ShortToUuid(w)[4..8] == ToHex(w as nat, 4);
    ToHexInjective(v as nat, w as nat, 4);
  }

  /** The four hex digits of 0x110D. */
  lemma AdvancedAudioDistributionDigits()
    ensures ToHex(ADVANCED_AUDIO_DISTRIBUTION as nat, 4) == "110d"
  {
    assert HexDigit(13) == 'd' && HexDigit(0) == '0' && HexDigit(1) == '1';
    assert 0x110D / 16 == 0x110 && 0x110D % 16 == 13;
    assert 0x110 / 16 == 0x11 && 0x110 % 16 == 0;
    assert 0x11 / 16 == 0x1 && 0x11 % 16 == 1;
    assert 0x1 / 16 == 0 && 0x1 % 16 == 1;
    assert ToHex(0x1, 1) == "1";
    assert ToHex(0x11, 2) == "11";
    assert ToHex(0x110, 3) == "110";
  }

  /** The expansion of 0x110D: "0000110d-0000-1000-8000-00805f9b34fb". */
  lemma AdvancedAudioDistributionUuid()
    ensures ShortToUuid(ADVANCED_AUDIO_DISTRIBUTION) == "0000110d" + BASE_UUID_TAIL
  {
    AdvancedAudioDistributionDigits();
    assert "0000" + "110d" == "0000110d";
  }
}
