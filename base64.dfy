/**
 * Base 64 encoding as in section 4 of RFC 4648 (the standard alphabet, `=` padding), as
 * `Buffer.toString('base64')` produces it, with a decoder to state the round trip.
 */
module Base64 {
  import opened Wrappers

  type Byte = b: int | 0 <= b < 256

  /** The alphabet's characters: upper-case letters, lower-case letters, digits, `+` and `/`. */
  predicate InAlphabet(c: char)
  {
    'A' <= c <= 'Z' || 'a' <= c <= 'z' || '0' <= c <= '9' || c == '+' || c == '/'
  }

  /** The character of a 6-bit value: values 0 to 63 map in order onto `A`-`Z`, `a`-`z`, `0`-`9`, `+`, `/`. */
  function Char(v: int): (c: char)
    requires 0 <= v < 64
    ensures InAlphabet(c) && c != '='
  {
    if v < 26 then ('A' as int + v) as char
    else if v < 52 then ('a' as int + (v - 26)) as char
    else if v < 62 then ('0' as int + (v - 52)) as char
    else if v == 62 then '+' else '/'
  }

  /** The 6-bit value of an alphabet character. */
  function Value(c: char): (r: Option<int>)
    ensures r.Some? <==> InAlphabet(c)
    ensures r.Some? ==> 0 <= r.value < 64
  {
    if 'A' <= c <= 'Z' then Some(c as int - 'A' as int)
    else if 'a' <= c <= 'z' then Some(c as int - 'a' as int + 26)
    else if '0' <= c <= '9' then Some(c as int - '0' as int + 52)
    else if c == '+' then Some(62)
    else if c == '/' then Some(63)
    else None
  }

  /** The two tables are inverse to each other. */
  lemma ValueOfChar(v: int)
    requires 0 <= v < 64
    ensures Value(Char(v)) == Some(v)
  {
  }

  lemma CharOfValue(c: char)
    requires InAlphabet(c)
    ensures Char(Value(c).value) == c
  {
  }

  /** Three bytes as four characters: each carries six of the 24 bits, most significant first. */
  function EncodeGroup(b0: Byte, b1: Byte, b2: Byte): (r: string)
    ensures |r| == 4 && forall i :: 0 <= i < 4 ==> InAlphabet(r[i])
  {
    [Char(b0 / 4), Char((b0 % 4) * 16 + b1 / 16), Char((b1 % 16) * 4 + b2 / 64), Char(b2 % 64)]
  }

  /** A last group of one byte: two characters and two pads. */
  function EncodeOne(b0: Byte): (r: string)
    ensures |r| == 4 && InAlphabet(r[0]) && InAlphabet(r[1]) && r[2] == '=' && r[3] == '='
  {
    [Char(b0 / 4), Char((b0 % 4) * 16), '=', '=']
  }

  /** A last group of two bytes: three characters and one pad. */
  function EncodeTwo(b0: Byte, b1: Byte): (r: string)
    ensures |r| == 4 && InAlphabet(r[0]) && InAlphabet(r[1]) && InAlphabet(r[2]) && r[3] == '='
  {
    [Char(b0 / 4), Char((b0 % 4) * 16 + b1 / 16), Char((b1 % 16) * 4), '=']
  }

  /** `Buffer.toString('base64')`: full groups of three bytes, then a padded group for what is left. */
  function Encode(bs: seq<Byte>): (r: string)
    decreases |bs|
  {
    if |bs| == 0 then ""
    else if |bs| == 1 then EncodeOne(bs[0])
    else if |bs| == 2 then EncodeTwo(bs[0], bs[1])
    else EncodeGroup(bs[0], bs[1], bs[2]) + Encode(bs[3..])
  }

  /** Four characters back to the bytes they carry; a padded group is only allowed at the end. */
  function DecodeGroup(s: string, last: bool): Option<seq<Byte>>
    requires |s| == 4
  {
    match (Value(s[0]), Value(s[1]))
    case (Some(v0), Some(v1)) =>
      var b0 := v0 * 4 + v1 / 16;
      if last && s[2] == '=' && s[3] == '=' then Some([b0])
      else
        (match Value(s[2])
         case None => None
         case Some(v2) =>
           var b1 := (v1 % 16) * 16 + v2 / 4;
           if last && s[3] == '=' then Some([b0, b1])
           else
             (match Value(s[3])
              case None => None
              case Some(v3) => Some([b0, b1, (v2 % 4) * 64 + v3])))
    case _ => None
  }

  /** Text of a length that is a multiple of four, decoded group by group. */
  function Decode(s: string): (r: Option<seq<Byte>>)
    decreases |s|
  {
    if |s| == 0 then Some([])
    else if |s| < 4 then None
    else
      match DecodeGroup(s[..4], |s| == 4)
      case None => None
      case Some(g) =>
        match Decode(s[4..])
        case None => None
        case Some(rest) => Some(g + rest)
  }

  lemma DivMod16(b: Byte, x: int)
    requires 0 <= x < 16
    ensures ((b % 16) * 16 + x) / 16 == b % 16 && ((b % 16) * 16 + x) % 16 == x
  {
  }

  lemma DivMod4(b: int, x: int)
    requires 0 <= b < 64 && 0 <= x < 4
    ensures (b * 4 + x) / 4 == b && (b * 4 + x) % 4 == x
  {
  }

  lemma GroupRoundTrip(b0: Byte, b1: Byte, b2: Byte, last: bool)
    ensures DecodeGroup(EncodeGroup(b0, b1, b2), last) == Some([b0, b1, b2])
  {
    var v0, v1, v2, v3 := b0 / 4, (b0 % 4) * 16 + b1 / 16, (b1 % 16) * 4 + b2 / 64, b2 % 64;
    ValueOfChar(v0); ValueOfChar(v1); ValueOfChar(v2); ValueOfChar(v3);
    assert v1 / 16 == b0 % 4 && v1 % 16 == b1 / 16;
    assert v0 * 4 + v1 / 16 == b0;
    assert v2 / 4 == b1 % 16 && v2 % 4 == b2 / 64;
    assert (v1 % 16) * 16 + v2 / 4 == b1;
    assert (v2 % 4) * 64 + v3 == b2;
  }

  lemma OneByteRoundTrip(b0: Byte)
    ensures DecodeGroup(EncodeOne(b0), true) == Some([b0])
  {
    var v0, v1 := b0 / 4, (b0 % 4) * 16;
    ValueOfChar(v0); ValueOfChar(v1);
    assert v1 / 16 == b0 % 4;
    assert v0 * 4 + v1 / 16 == b0;
  }

  lemma TwoBytesRoundTrip(b0: Byte, b1: Byte)
    ensures DecodeGroup(EncodeTwo(b0, b1), true) == Some([b0, b1])
  {
    var v0, v1, v2 := b0 / 4, (b0 % 4) * 16 + b1 / 16, (b1 % 16) * 4;
    ValueOfChar(v0); ValueOfChar(v1); ValueOfChar(v2);
    assert v1 / 16 == b0 % 4 && v1 % 16 == b1 / 16;
    assert v0 * 4 + v1 / 16 == b0;
    assert v2 / 4 == b1 % 16;
    assert (v1 % 16) * 16 + v2 / 4 == b1;
  }

  /** The encoding is four characters per started group of three bytes. */
  lemma {:induction false} EncodeLength(bs: seq<Byte>)
    ensures |Encode(bs)| == 4 * ((|bs| + 2) / 3)
    decreases |bs|
  {
    if |bs| >= 3 {
      EncodeLength(bs[3..]);
    }
  }

  /** Every character of an encoding is in the alphabet or is padding, and padding ends it. */
  lemma {:induction false} EncodeAlphabet(bs: seq<Byte>)
    ensures forall i :: 0 <= i < |Encode(bs)| ==> InAlphabet(Encode(bs)[i]) || Encode(bs)[i] == '='
    ensures forall i :: 0 <= i < |Encode(bs)| && Encode(bs)[i] == '=' ==> |Encode(bs)| - 2 <= i
    decreases |bs|
  {
    var e := Encode(bs);
    if |bs| >= 3 {
      var g := EncodeGroup(bs[0], bs[1], bs[2]);
      EncodeAlphabet(bs[3..]);
      var t := Encode(bs[3..]);
      assert e == g + t;
      forall i | 0 <= i < |e| ensures (InAlphabet(e[i]) || e[i] == '=') && (e[i] == '=' ==> |e| - 2 <= i) {
        if i < 4 {
          assert e[i] == g[i];
        } else {
          assert e[i] == t[i - 4];
        }
      }
    }
  }

  lemma DecodeCons(g: string, t: string, group: seq<Byte>, rest: seq<Byte>)
    requires |g| == 4 && DecodeGroup(g, |t| == 0) == Some(group) && Decode(t) == Some(rest)
    ensures Decode(g + t) == Some(group + rest)
  {
    var e := g + t;
    assert e[..4] == g && e[4..] == t;
  }

  /** A text of one group decodes as that group, read as the last one. */
  lemma DecodeLastGroup(g: string, group: seq<Byte>)
    requires |g| == 4 && DecodeGroup(g, true) == Some(group)
    ensures Decode(g) == Some(group)
  {
    DecodeCons(g, "", group, []);
    assert g + "" == g;
    assert group + [] == group;
  }

  lemma DecodeEncodeOne(b0: Byte)
    ensures Decode(Encode([b0])) == Some([b0])
  {
    var e := EncodeOne(b0);
    assert Encode([b0]) == e;
    OneByteRoundTrip(b0);
    DecodeLastGroup(e, [b0]);
  }

  lemma DecodeEncodeTwo(b0: Byte, b1: Byte)
    ensures Decode(Encode([b0, b1])) == Some([b0, b1])
  {
    var e := EncodeTwo(b0, b1);
    assert Encode([b0, b1]) == e;
    TwoBytesRoundTrip(b0, b1);
    DecodeLastGroup(e, [b0, b1]);
  }

  lemma DecodeGroupThen(b0: Byte, b1: Byte, b2: Byte, t: string, rest: seq<Byte>)
    requires Decode(t) == Some(rest)
    ensures Decode(EncodeGroup(b0, b1, b2) + t) == Some([b0, b1, b2] + rest)
  {
    GroupRoundTrip(b0, b1, b2, |t| == 0);
    DecodeCons(EncodeGroup(b0, b1, b2), t, [b0, b1, b2], rest);
  }

  /** Three or more bytes encode as their first group followed by the encoding of the rest. */
  lemma EncodeCons(bs: seq<Byte>)
    requires |bs| >= 3
    ensures Encode(bs) == EncodeGroup(bs[0], bs[1], bs[2]) + Encode(bs[3..])
  {
  }

  /** A full group in front of a text that decodes to the rest decodes to the group and the rest. */
  lemma DecodeFullGroup(bs: seq<Byte>, e: string, t: string)
    requires |bs| >= 3 && e == EncodeGroup(bs[0], bs[1], bs[2]) + t && Decode(t) == Some(bs[3..])
    ensures Decode(e) == Some(bs)
  {
    DecodeGroupThen(bs[0], bs[1], bs[2], t, bs[3..]);
    assert bs == [bs[0], bs[1], bs[2]] + bs[3..];
  }

  /** Decoding an encoding gives back the bytes. */
  lemma {:induction false} DecodeEncode(bs: seq<Byte>)
    ensures Decode(Encode(bs)) == Some(bs)
    decreases |bs|
  {
    if |bs| == 1 {
      assert bs == [bs[0]];
      DecodeEncodeOne(bs[0]);
    } else if |bs| == 2 {
      assert bs == [bs[0], bs[1]];
      DecodeEncodeTwo(bs[0], bs[1]);
    } else if |bs| >= 3 {
      DecodeEncode(bs[3..]);
      EncodeCons(bs);
      DecodeFullGroup(bs, Encode(bs), Encode(bs[3..]));
    }
  }

  /** Different byte strings have different encodings. */
  lemma EncodeInjective(a: seq<Byte>, b: seq<Byte>)
    requires Encode(a) == Encode(b)
    ensures a == b
  {
    DecodeEncode(a);
    DecodeEncode(b);
  }
}
