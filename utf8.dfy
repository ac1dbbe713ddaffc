/** UTF-8 as Python's `str.encode()` (strict `"utf-8"`) produces it, and the
    strict decoder `bytes.decode("utf-8")` that accepts exactly the
    well-formed sequences of the Unicode standard (table 3-7): no overlong
    forms, no surrogates, nothing above U+10FFFF. */
module Utf8 {
  import opened Wrappers

  /** An octet. */
  type Byte = b: int | 0 <= b < 256

  /** A continuation byte `10xxxxxx` carrying the six bits `v`. */
  function Cont(v: int): Byte
    requires 0 <= v < 64
  {
    0x80 + v
  }

  /** The encoding of one Unicode scalar value, one to four bytes. */
  function EncodeChar(ch: char): (r: seq<Byte>)
    ensures 1 <= |r| <= 4
  {
    var cp := ch as int;
    if cp < 0x80 then [cp]
    else if cp < 0x800 then [0xC0 + cp / 64, Cont(cp % 64)]
    else if cp < 0x10000 then [0xE0 + cp / 4096, Cont(cp / 64 % 64), Cont(cp % 64)]
    else [0xF0 + cp / 262144, Cont(cp / 4096 % 64), Cont(cp / 64 % 64), Cont(cp % 64)]
  }

  /** `s.encode()`: the encodings of the characters of `s`, in order. */
  function Encode(s: string): seq<Byte>
  {
    if s == [] then [] else EncodeChar(s[0]) + Encode(s[1..])
  }

  predicate IsCont(b: Byte) { 0x80 <= b < 0xC0 }

  /** The scalar value that the well-formed sequence at the head of `bs`
      encodes, with the number of bytes it takes; `None` if the head of `bs`
      is not well formed. */
  function DecodeChar(bs: seq<Byte>): (r: Option<(char, nat)>)
    ensures r.Some? ==> 1 <= r.value.1 <= |bs|
  {
    if bs == [] then None
    else
      var b0: int := bs[0];
      if b0 < 0x80 then Some((b0 as char, 1))
      else if 0xC2 <= b0 < 0xE0 then
        if |bs| >= 2 && IsCont(bs[1])
        then Some((((b0 - 0xC0) * 64 + (bs[1] as int - 0x80)) as char, 2))
        else None
      else if 0xE0 <= b0 < 0xF0 then
        var lo := if b0 == 0xE0 then 0xA0 else 0x80;
        var hi := if b0 == 0xED then 0xA0 else 0xC0;
        if |bs| >= 3 && lo <= bs[1] < hi && IsCont(bs[2])
        then Some((((b0 - 0xE0) * 4096 + (bs[1] as int - 0x80) * 64 + (bs[2] as int - 0x80)) as char, 3))
        else None
      else if 0xF0 <= b0 < 0xF5 then
        var lo := if b0 == 0xF0 then 0x90 else 0x80;
        var hi := if b0 == 0xF4 then 0x90 else 0xC0;
        if |bs| >= 4 && lo <= bs[1] < hi && IsCont(bs[2]) && IsCont(bs[3])
        then Some((((b0 - 0xF0) * 262144 + (bs[1] as int - 0x80) * 4096
                    + (bs[2] as int - 0x80) * 64 + (bs[3] as int - 0x80)) as char, 4))
        else None
      else None
  }

  /** `bs.decode("utf-8")`: the text, or `None` where Python raises
      `UnicodeDecodeError`. */
  function Decode(bs: seq<Byte>): Option<string>
    decreases |bs|
  {
    if bs == [] then Some("")
    else match DecodeChar(bs)
      case None => None
      case Some((ch, n)) =>
        match Decode(bs[n..])
        case None => None
        case Some(rest) => Some([ch] + rest)
  }

  /** The decoder reads back exactly the character the encoder wrote, and
      takes exactly the bytes the encoder produced. */
  lemma {:induction false} DecodeEncodeChar(ch: char, rest: seq<Byte>)
    ensures DecodeChar(EncodeChar(ch) + rest) == Some((ch, |EncodeChar(ch)|))
  {
    var cp := ch as int;
    var bs := EncodeChar(ch) + rest;
    if cp < 0x80 {
      assert bs[0] == cp;
    } else if cp < 0x800 {
      DecodeTwo(ch, rest);
    } else if cp < 0x10000 {
      DecodeThree(ch, rest);
    } else {
      DecodeFour(ch, rest);
    }
  }

  lemma {:induction false} DecodeTwo(ch: char, rest: seq<Byte>)
    requires 0x80 <= ch as int < 0x800
    ensures DecodeChar(EncodeChar(ch) + rest) == Some((ch, 2))
  {
    var cp := ch as int;
    var bs := EncodeChar(ch) + rest;
    assert bs[0] == 0xC0 + cp / 64 && bs[1] == 0x80 + cp % 64;
  }

  lemma {:induction false} DecodeThree(ch: char, rest: seq<Byte>)
    requires 0x800 <= ch as int < 0x10000
    ensures DecodeChar(EncodeChar(ch) + rest) == Some((ch, 3))
  {
    var cp := ch as int;
    var bs := EncodeChar(ch) + rest;
    var q1 := cp / 64;
    assert cp == q1 * 64 + cp % 64;
    assert q1 == cp / 64 / 64 * 64 + cp / 64 % 64;
    assert bs[0] == 0xE0 + cp / 4096 && bs[1] == 0x80 + q1 % 64 && bs[2] == 0x80 + cp % 64;
    assert cp / 4096 == q1 / 64;
  }

  lemma {:induction false} DecodeFour(ch: char, rest: seq<Byte>)
    requires 0x10000 <= ch as int
    ensures DecodeChar(EncodeChar(ch) + rest) == Some((ch, 4))
  {
    var cp := ch as int;
    var bs := EncodeChar(ch) + rest;
    var q1 := cp / 64;
    var q2 := q1 / 64;
    assert cp == q1 * 64 + cp % 64;
    assert q1 == q2 * 64 + q1 % 64;
    assert q2 == q2 / 64 * 64 + q2 % 64;
    assert cp / 4096 == q2;
    assert cp / 262144 == q2 / 64;
    assert bs[0] == 0xF0 + q2 / 64 && bs[1] == 0x80 + q2 % 64;
    assert bs[2] == 0x80 + q1 % 64 && bs[3] == 0x80 + cp % 64;
  }

  /** Decoding undoes encoding: `s.encode().decode("utf-8") == s`. */
  lemma {:induction false} DecodeEncode(s: string)
    ensures Decode(Encode(s)) == Some(s)
  {
    if s != [] {
      var bs := Encode(s);
      DecodeEncodeChar(s[0], Encode(s[1..]));
      assert bs[|EncodeChar(s[0])|..] == Encode(s[1..]);
      DecodeEncode(s[1..]);
      assert [s[0]] + s[1..] == s;
    }
  }

  /** The encoding of a string is at least as long as the string and at most
      four times as long. */
  lemma {:induction false} EncodeLength(s: string)
    ensures |s| <= |Encode(s)| <= 4 * |s|
  {
    if s != [] {
      EncodeLength(s[1..]);
    }
  }
}
