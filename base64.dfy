/**
  The standard base64 encoding of section 4 of RFC 4648 ("base64", with the
  alphabet of Table 1 and '=' padding), as Go's `base64.StdEncoding.EncodeToString`
  produces it, together with its decoder, which the round-trip lemma relates to it.
 */
module Base64 {
  import opened Common

  const Pad: char := '='

  /** The character that encodes the 6-bit value `v`: Table 1 of RFC 4648, "A"-"Z", "a"-"z", "0"-"9", "+", "/". */
  function Symbol(v: int): char
    requires 0 <= v < 64
  {
    if v < 26 then ('A' as int + v) as char
    else if v < 52 then ('a' as int + (v - 26)) as char
    else if v < 62 then ('0' as int + (v - 52)) as char
    else if v == 62 then '+'
    else '/'
  }

  /** The 6-bit value a character encodes, if it is in the alphabet. */
  function Value(c: char): Option<int> {
    if 'A' <= c <= 'Z' then Some(c as int - 'A' as int)
    else if 'a' <= c <= 'z' then Some(c as int - 'a' as int + 26)
    else if '0' <= c <= '9' then Some(c as int - '0' as int + 52)
    else if c == '+' then Some(62)
    else if c == '/' then Some(63)
    else None
  }

  lemma ValueOfSymbol(v: int)
    requires 0 <= v < 64
    ensures Value(Symbol(v)) == Some(v)
  {
  }

  /** Encodes three bytes as four characters (RFC 4648 section 4: 24-bit groups, most significant bit first). */
  function Quantum(b0: byte, b1: byte, b2: byte): string {
    [Symbol(b0 / 4), Symbol((b0 % 4) * 16 + b1 / 16), Symbol((b1 % 16) * 4 + b2 / 64), Symbol(b2 % 64)]
  }

  /** `base64.StdEncoding.EncodeToString(b)`. */
  function Encode(b: seq<byte>): (s: string)
    ensures |s| == 4 * ((|b| + 2) / 3)
    decreases |b|
  {
    if |b| == 0 then ""
    else if |b| == 1 then [Symbol(b[0] / 4), Symbol((b[0] % 4) * 16), Pad, Pad]
    else if |b| == 2 then [Symbol(b[0] / 4), Symbol((b[0] % 4) * 16 + b[1] / 16), Symbol((b[1] % 16) * 4), Pad]
    else Quantum(b[0], b[1], b[2]) + Encode(b[3..])
  }

  /** Three or more bytes: one full group, then the encoding of the rest. */
  lemma EncodeCons(b: seq<byte>)
    requires |b| >= 3
    ensures Encode(b) == Quantum(b[0], b[1], b[2]) + Encode(b[3..])
  {
  }

  /** A positive multiple of three is at least three, and three less is still a multiple. */
  lemma DropGroup(n: int)
    requires n > 0 && n % 3 == 0
    ensures n >= 3 && (n - 3) % 3 == 0
  {
  }

  /** The first group of an encoding of at least three bytes does not depend on what follows them. */
  lemma EncodeHead(a: seq<byte>, c: seq<byte>)
    requires |a| >= 3
    ensures Encode(a + c) == Encode(a)[..4] + Encode(a[3..] + c)
    ensures Encode(a) == Encode(a)[..4] + Encode(a[3..])
  {
    var ac := a + c;
    assert ac[..3] == a[..3] && ac[3..] == a[3..] + c;
    EncodeCons(ac);
    EncodeCons(a);
  }

  /** Reassociates a concatenation of three strings. */
  lemma Regroup(whole: string, left: string, h: string, t: string, u: string)
    requires whole == h + (t + u) && left == h + t
    ensures whole == left + u
  {
  }

  /** Encoding splits after any whole number of three-byte groups. */
  lemma {:induction false} EncodeSplit(a: seq<byte>, c: seq<byte>)
    requires |a| % 3 == 0
    ensures Encode(a + c) == Encode(a) + Encode(c)
    decreases |a|
  {
    if a == [] {
      assert a + c == c;
    } else {
      DropGroup(|a|);
      EncodeHead(a, c);
      EncodeSplit(a[3..], c);
      Regroup(Encode(a + c), Encode(a), Encode(a)[..4], Encode(a[3..]), Encode(c));
    }
  }

  /** A value shifted up by two or four bits has those low bits zero. */
  lemma ShiftedUp(k: nat)
    ensures (k * 4) % 4 == 0 && (k * 16) % 16 == 0
  {
  }

  /**
    The bits of the last symbol before the padding that no input byte fills
    are zero (RFC 4648 section 3.5). With one byte `x` left over after whole
    groups, the final group is `x`'s high six bits, then its low two bits
    followed by four zero bits, then two pads.
   */
  lemma PadBitsOne(a: seq<byte>, x: byte)
    requires |a| % 3 == 0
    ensures Encode(a + [x]) == Encode(a) + [Symbol(x / 4), Symbol((x % 4) * 16), Pad, Pad]
    ensures Value(Symbol((x % 4) * 16)) == Some((x % 4) * 16) && (x % 4) * 16 % 16 == 0
  {
    EncodeSplit(a, [x]);
    EncodeOneByte(x);
    ValueOfSymbol((x % 4) * 16);
    ShiftedUp(x % 4);
  }

  /**
    With two bytes `x`, `y` left over, the third symbol holds `y`'s low four
    bits followed by two zero bits, then one pad.
   */
  lemma PadBitsTwo(a: seq<byte>, x: byte, y: byte)
    requires |a| % 3 == 0
    ensures Encode(a + [x, y]) == Encode(a) + [Symbol(x / 4), Symbol((x % 4) * 16 + y / 16), Symbol((y % 16) * 4), Pad]
    ensures Value(Symbol((y % 16) * 4)) == Some((y % 16) * 4) && (y % 16) * 4 % 4 == 0
  {
    EncodeSplit(a, [x, y]);
    EncodeTwoBytes(x, y);
    ValueOfSymbol((y % 16) * 4);
    ShiftedUp(y % 16);
  }

  /** Decodes one group of four characters; '=' may stand only in the last one or two places. */
  function DecodeGroup(c0: char, c1: char, c2: char, c3: char): Option<seq<byte>> {
    var v0, v1, v2, v3 := Value(c0), Value(c1), Value(c2), Value(c3);
    if v0.None? || v1.None? then None
    else if c2 == Pad && c3 == Pad then
      Some([v0.value * 4 + v1.value / 16])
    else if v2.None? then None
    else if c3 == Pad then
      Some([v0.value * 4 + v1.value / 16, (v1.value % 16) * 16 + v2.value / 4])
    else if v3.None? then None
    else
      Some([v0.value * 4 + v1.value / 16, (v1.value % 16) * 16 + v2.value / 4, (v2.value % 4) * 64 + v3.value])
  }

  /** Decodes padded base64: whole groups of four, padding only in the final group. */
  function Decode(s: string): Option<seq<byte>>
    decreases |s|
  {
    if |s| == 0 then Some([])
    else if |s| < 4 then None
    else
      var g := DecodeGroup(s[0], s[1], s[2], s[3]);
      if g.None? || (|g.value| < 3 && |s| > 4) then None
      else
        var rest := Decode(s[4..]);
        if rest.None? then None else Some(g.value + rest.value)
  }

  /** The second sextet carries the low two bits of the first byte and the high four of the second. */
  lemma SecondSextet(b0: byte, b1: byte)
    ensures ((b0 % 4) * 16 + b1 / 16) / 16 == b0 % 4
    ensures ((b0 % 4) * 16 + b1 / 16) % 16 == b1 / 16
  {
  }

  /** The third sextet carries the low four bits of the second byte and the high two of the third. */
  lemma ThirdSextet(b1: byte, b2: byte)
    ensures ((b1 % 16) * 4 + b2 / 64) / 4 == b1 % 16
    ensures ((b1 % 16) * 4 + b2 / 64) % 4 == b2 / 64
  {
  }

  lemma QuantumDecodes(b0: byte, b1: byte, b2: byte)
    ensures var q := Quantum(b0, b1, b2); DecodeGroup(q[0], q[1], q[2], q[3]) == Some([b0, b1, b2])
  {
    SecondSextet(b0, b1);
    ThirdSextet(b1, b2);
    ValueOfSymbol(b0 / 4);
    ValueOfSymbol((b0 % 4) * 16 + b1 / 16);
    ValueOfSymbol((b1 % 16) * 4 + b2 / 64);
    ValueOfSymbol(b2 % 64);
  }

  lemma EncodeOneByte(x: byte)
    ensures Encode([x]) == [Symbol(x / 4), Symbol((x % 4) * 16), Pad, Pad]
  {
  }

  lemma EncodeTwoBytes(x: byte, y: byte)
    ensures Encode([x, y]) == [Symbol(x / 4), Symbol((x % 4) * 16 + y / 16), Symbol((y % 16) * 4), Pad]
  {
  }

  /** A final group of four characters decodes to that group's bytes. */
  lemma DecodeLastGroup(s: string, g: seq<byte>)
    requires |s| == 4 && DecodeGroup(s[0], s[1], s[2], s[3]) == Some(g)
    ensures Decode(s) == Some(g)
  {
    assert s[4..] == [];
    assert g + [] == g;
  }

  /** A group ending in two pads decodes to one byte. */
  lemma TwoPadsDecode(v0: int, v1: int)
    requires 0 <= v0 < 64 && 0 <= v1 < 64
    ensures DecodeGroup(Symbol(v0), Symbol(v1), Pad, Pad) == Some([v0 * 4 + v1 / 16])
  {
    ValueOfSymbol(v0);
    ValueOfSymbol(v1);
  }

  /** A group ending in one pad decodes to two bytes. */
  lemma OnePadDecodes(v0: int, v1: int, v2: int)
    requires 0 <= v0 < 64 && 0 <= v1 < 64 && 0 <= v2 < 64
    ensures DecodeGroup(Symbol(v0), Symbol(v1), Symbol(v2), Pad) == Some([v0 * 4 + v1 / 16, (v1 % 16) * 16 + v2 / 4])
  {
    ValueOfSymbol(v0);
    ValueOfSymbol(v1);
    ValueOfSymbol(v2);
  }

  /** The two sextets of a single byte give it back. */
  lemma OneByteSextets(x: byte)
    ensures (x / 4) * 4 + ((x % 4) * 16) / 16 == x
  {
  }

  /** The padded group of one byte decodes to it. */
  lemma OneByteGroup(x: byte)
    ensures DecodeGroup(Symbol(x / 4), Symbol((x % 4) * 16), Pad, Pad) == Some([x])
  {
    TwoPadsDecode(x / 4, (x % 4) * 16);
    OneByteSextets(x);
  }

  /** A single byte comes back from its padded group. */
  lemma DecodeEncodeOne(x: byte)
    ensures Decode(Encode([x])) == Some([x])
  {
    EncodeOneByte(x);
    OneByteGroup(x);
    DecodeLastGroup(Encode([x]), [x]);
  }

  /** The three sextets of two bytes give them back. */
  lemma TwoByteSextets(x: byte, y: byte)
    ensures (x / 4) * 4 + ((x % 4) * 16 + y / 16) / 16 == x
    ensures (((x % 4) * 16 + y / 16) % 16) * 16 + ((y % 16) * 4) / 4 == y
  {
    SecondSextet(x, y);
  }

  /** The padded group of two bytes decodes to them. */
  lemma TwoByteGroup(x: byte, y: byte)
    ensures DecodeGroup(Symbol(x / 4), Symbol((x % 4) * 16 + y / 16), Symbol((y % 16) * 4), Pad) == Some([x, y])
  {
    OnePadDecodes(x / 4, (x % 4) * 16 + y / 16, (y % 16) * 4);
    TwoByteSextets(x, y);
  }

  /** Two bytes come back from their padded group. */
  lemma DecodeEncodeTwo(x: byte, y: byte)
    ensures Decode(Encode([x, y])) == Some([x, y])
  {
    EncodeTwoBytes(x, y);
    TwoByteGroup(x, y);
    DecodeLastGroup(Encode([x, y]), [x, y]);
  }

  /** A full group in front decodes to its three bytes in front of whatever the rest decodes to. */
  lemma DecodeFullGroup(q: string, tail: string, g: seq<byte>)
    requires |q| == 4 && DecodeGroup(q[0], q[1], q[2], q[3]) == Some(g) && |g| == 3
    ensures Decode(q + tail) == if Decode(tail).None? then None else Some(g + Decode(tail).value)
  {
    var s := q + tail;
    assert s[0] == q[0] && s[1] == q[1] && s[2] == q[2] && s[3] == q[3];
    assert s[4..] == tail;
  }

  lemma FirstThree(b: seq<byte>)
    requires |b| >= 3
    ensures b == [b[0], b[1], b[2]] + b[3..]
  {
  }

  /** Decoding undoes encoding, for every byte string. */
  lemma {:induction false} DecodeEncode(b: seq<byte>)
    ensures Decode(Encode(b)) == Some(b)
    decreases |b|
  {
    if |b| == 1 {
      DecodeEncodeOne(b[0]);
      assert [b[0]] == b;
    } else if |b| == 2 {
      DecodeEncodeTwo(b[0], b[1]);
      assert [b[0], b[1]] == b;
    } else if |b| > 2 {
      var q, t := Quantum(b[0], b[1], b[2]), Encode(b[3..]);
      FirstThree(b);
      assert Encode(b) == q + t;
      QuantumDecodes(b[0], b[1], b[2]);
      DecodeFullGroup(q, t, [b[0], b[1], b[2]]);
      DecodeEncode(b[3..]);
    }
  }

  /** Every character of an encoding is in the alphabet, except '=' in the last two places. */
  lemma {:induction false} EncodeCharacters(b: seq<byte>)
    ensures var s := Encode(b);
      forall i | 0 <= i < |s| :: Value(s[i]).Some? || (s[i] == Pad && i >= |s| - 2)
    decreases |b|
  {
    var s := Encode(b);
    if |b| == 0 {
    } else if |b| == 1 {
      ValueOfSymbol(b[0] / 4);
      ValueOfSymbol((b[0] % 4) * 16);
    } else if |b| == 2 {
      ValueOfSymbol(b[0] / 4);
      ValueOfSymbol((b[0] % 4) * 16 + b[1] / 16);
      ValueOfSymbol((b[1] % 16) * 4);
    } else {
      EncodeCharacters(b[3..]);
      var q := Quantum(b[0], b[1], b[2]);
      ValueOfSymbol(b[0] / 4);
      ValueOfSymbol((b[0] % 4) * 16 + b[1] / 16);
      ValueOfSymbol((b[1] % 16) * 4 + b[2] / 64);
      ValueOfSymbol(b[2] % 64);
      assert forall i | 0 <= i < 4 :: Value(q[i]).Some?;
      assert forall i | 4 <= i < |s| :: s[i] == Encode(b[3..])[i - 4];
    }
  }
}
