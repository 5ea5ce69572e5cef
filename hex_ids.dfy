/**
 * The deterministic FROST identifier the coordinator gives each DKG participant when Round 1
 * starts: `BigInt(uid).toString(16).padStart(64, '0')` (ts-fserver/dist/server.js:631-632),
 * i.e. the roster slot number as lowercase hexadecimal, left-padded with '0' to 64 characters
 * (a 32-byte scalar). The test client derives the same string (ts-fserver/test/signing_test.ts:168).
 */
module HexIds {
  import opened Wrappers

  /** The width of a serialized identifier: 32 bytes, two hex characters each. */
  const IdHexWidth: nat := 64

  function Pow16(k: nat): nat {
    if k == 0 then 1 else 16 * Pow16(k - 1)
  }

  /** The lowercase hexadecimal digit for `d`, as `toString(16)` writes it. */
  function DigitChar(d: nat): char
    requires d < 16
  {
    if d < 10 then ('0' as int + d) as char else ('a' as int + d - 10) as char
  }

  /** The value of a lowercase hexadecimal digit. */
  function DigitValue(c: char): Option<nat> {
    if '0' <= c <= '9' then Some(c as int - '0' as int)
    else if 'a' <= c <= 'f' then Some(c as int - 'a' as int + 10)
    else None
  }

  predicate AllHex(s: string) {
    forall i :: 0 <= i < |s| ==> DigitValue(s[i]).Some?
  }

  /** The value of a string of lowercase hex digits, most significant first. */
  function HexValue(s: string): nat
    requires AllHex(s)
  {
    if s == [] then 0 else HexValue(s[..|s| - 1]) * 16 + DigitValue(s[|s| - 1]).value
  }

  /** `n.toString(16)` for a non-negative `n`: no leading zeros, "0" for zero. */
  function NatToHex(n: nat): string
    decreases n
  {
    if n < 16 then [DigitChar(n)] else NatToHex(n / 16) + [DigitChar(n % 16)]
  }

  /** `BigInt(u).toString(16)`: a minus sign in front of the magnitude for negative `u`. */
  function BigIntToHex(u: int): string {
    if u < 0 then "-" + NatToHex(-u) else NatToHex(u)
  }

  function Zeros(k: nat): (r: string)
    ensures |r| == k
    ensures forall i :: 0 <= i < k ==> r[i] == '0'
  {
    if k == 0 then "" else "0" + Zeros(k - 1)
  }

  /** `s.padStart(width, '0')`: zeros in front up to `width`; a longer string is kept whole. */
  function PadStartZeros(s: string, width: nat): (r: string)
    ensures |r| == if |s| >= width then |s| else width
    ensures r == Zeros(|r| - |s|) + s
  {
    if |s| >= width then s else Zeros(width - |s|) + s
  }

  /** The identifier `startDKGRound1` assigns to the participant in roster slot `uid`. */
  function UidToIdHex(uid: int): (r: string)
    ensures |r| >= IdHexWidth
  {
    PadStartZeros(BigIntToHex(uid), IdHexWidth)
  }

  function LeadingZeros(s: string): (k: nat)
    ensures k <= |s|
  {
    if s != [] && s[0] == '0' then 1 + LeadingZeros(s[1..]) else 0
  }

  /**
   * Reads an identifier back into the slot number it was derived from: leading zeros, then
   * either hex digits or a minus sign and hex digits.
   */
  function ParseIdHex(s: string): Option<int> {
    var rest := s[LeadingZeros(s)..];
    if rest != [] && rest[0] == '-' then
      if AllHex(rest[1..]) then Some(0 - HexValue(rest[1..])) else None
    else if AllHex(s) then Some(HexValue(s))
    else None
  }

  lemma {:induction false} NatToHexValue(n: nat)
    ensures AllHex(NatToHex(n))
    ensures HexValue(NatToHex(n)) == n
    decreases n
  {
    if n >= 16 {
      NatToHexValue(n / 16);
      var s := NatToHex(n);
      assert s[..|s| - 1] == NatToHex(n / 16);
    }
  }

  lemma {:induction false} ZerosValue(k: nat)
    ensures AllHex(Zeros(k)) && HexValue(Zeros(k)) == 0
  {
    if k > 0 {
      ZerosValue(k - 1);
      var z := Zeros(k);
      assert z[..k - 1] == Zeros(k - 1);
    }
  }

  /** Leading zeros do not change the value of a hex string. */
  lemma {:induction false} LeadingZerosKeepValue(k: nat, s: string)
    requires AllHex(s)
    ensures AllHex(Zeros(k) + s)
    ensures HexValue(Zeros(k) + s) == HexValue(s)
  {
    if s == [] {
      ZerosValue(k);
      assert Zeros(k) + s == Zeros(k);
    } else {
      var t := s[..|s| - 1];
      LeadingZerosKeepValue(k, t);
      var zs := Zeros(k) + s;
      assert zs[..|zs| - 1] == Zeros(k) + t;
    }
  }

  lemma {:induction false} LeadingZerosOf(k: nat, t: string)
    requires t != [] && t[0] != '0'
    ensures LeadingZeros(Zeros(k) + t) == k
  {
    if k > 0 {
      LeadingZerosOf(k - 1, t);
      assert (Zeros(k) + t)[1..] == Zeros(k - 1) + t;
    }
  }

  lemma {:induction false} NegativeRoundTrip(k: nat, n: nat)
    requires n > 0
    ensures ParseIdHex(Zeros(k) + ("-" + NatToHex(n))) == Some(0 - n)
  {
    var m := NatToHex(n);
    var h := "-" + m;
    var s := Zeros(k) + h;
    NatToHexValue(n);
    LeadingZerosOf(k, h);
    var rest := s[LeadingZeros(s)..];
    assert rest == h;
    assert rest[1..] == m;
  }

  lemma {:induction false} NonNegativeRoundTrip(k: nat, n: nat)
    ensures ParseIdHex(Zeros(k) + NatToHex(n)) == Some(n)
  {
    var m := NatToHex(n);
    var s := Zeros(k) + m;
    NatToHexValue(n);
    LeadingZerosKeepValue(k, m);
    var rest := s[LeadingZeros(s)..];
    if rest != [] {
      assert rest[0] == s[LeadingZeros(s)];
      assert DigitValue(rest[0]).Some?;
    }
  }

  /** Parsing an identifier gives back the slot number it was derived from, for every integer. */
  lemma {:induction false} IdHexRoundTrip(uid: int)
    ensures ParseIdHex(UidToIdHex(uid)) == Some(uid)
  {
    var h := BigIntToHex(uid);
    var k := |UidToIdHex(uid)| - |h|;
    assert UidToIdHex(uid) == Zeros(k) + h;
    if uid < 0 {
      NegativeRoundTrip(k, -uid);
    } else {
      NonNegativeRoundTrip(k, uid);
    }
  }

  /** Distinct slot numbers get distinct identifiers. */
  lemma IdHexInjective(a: int, b: int)
    requires UidToIdHex(a) == UidToIdHex(b)
    ensures a == b
  {
    IdHexRoundTrip(a);
    IdHexRoundTrip(b);
  }

  lemma {:induction false} NatToHexLength(n: nat, w: nat)
    requires 1 <= w && n < Pow16(w)
    ensures |NatToHex(n)| <= w
    decreases n
  {
    if n >= 16 {
      NatToHexLength(n / 16, w - 1);
    }
  }

  /**
   * For every slot number that fits in a 32-byte scalar (and for negative numbers whose hex
   * form fits in 63 characters) the identifier is exactly 64 characters long; wider numbers
   * keep their full, longer hex form because `padStart` never truncates.
   */
  lemma IdHexWidthExact(uid: int)
    requires -(Pow16(IdHexWidth - 1) as int) < uid < Pow16(IdHexWidth)
    ensures |UidToIdHex(uid)| == IdHexWidth
  {
    if uid < 0 {
      NatToHexLength(-uid, IdHexWidth - 1);
    } else {
      NatToHexLength(uid, IdHexWidth);
    }
  }

  /** A non-negative slot number yields only lowercase hex digits. */
  lemma IdHexIsLowercaseHex(uid: int)
    requires uid >= 0
    ensures AllHex(UidToIdHex(uid))
  {
    NatToHexValue(uid);
    LeadingZerosKeepValue(|UidToIdHex(uid)| - |NatToHex(uid)|, NatToHex(uid));
  }

  /** The identifiers of slots 1 and 2 are "00...01" and "00...02". */
  lemma FirstSlotsIds()
    ensures UidToIdHex(1) == Zeros(63) + "1"
    ensures UidToIdHex(2) == Zeros(63) + "2"
  {
  }
}
