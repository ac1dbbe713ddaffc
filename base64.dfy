/** Base64 as defined in section 4 of RFC 4648 (the standard alphabet with
    `=` padding), which Python's `base64.b64encode` produces, and a decoder
    for what it produces. */
module Base64 {
  import opened Wrappers
  import opened Utf8

  /** A six-bit group. */
  type Sextet = v: int | 0 <= v < 64

  /** Table 1 of RFC 4648: `A`-`Z`, `a`-`z`, `0`-`9`, `+`, `/`. */
  function Symbol(v: Sextet): char
  {
    if v < 26 then ('A' as int + v) as char
    else if v < 52 then ('a' as int + (v - 26)) as char
    else if v < 62 then ('0' as int + (v - 52)) as char
    else if v == 62 then '+'
    else '/'
  }

  /** The value of an alphabet character, `None` for any other character
      (padding included). */
  function Value(ch: char): (r: Option<Sextet>)
    ensures r.Some? ==> Symbol(r.value) == ch
  {
    if 'A' <= ch <= 'Z' then Some(ch as int - 'A' as int)
    else if 'a' <= ch <= 'z' then Some(ch as int - 'a' as int + 26)
    else if '0' <= ch <= '9' then Some(ch as int - '0' as int + 52)
    else if ch == '+' then Some(62)
    else if ch == '/' then Some(63)
    else None
  }

  lemma ValueSymbol(v: Sextet)
    ensures Value(Symbol(v)) == Some(v)
  {
  }

  /** The four symbols of a group of three octets. */
  function Quantum3(x: Byte, y: Byte, z: Byte): string
  {
    [Symbol(x / 4), Symbol(x % 4 * 16 + y / 16), Symbol(y % 16 * 4 + z / 64), Symbol(z % 64)]
  }

  /** A final group of two octets: three symbols and one `=`. */
  function Quantum2(x: Byte, y: Byte): string
  {
    [Symbol(x / 4), Symbol(x % 4 * 16 + y / 16), Symbol(y % 16 * 4), '=']
  }

  /** A final group of one octet: two symbols and `==`. */
  function Quantum1(x: Byte): string
  {
    [Symbol(x / 4), Symbol(x % 4 * 16), '=', '=']
  }

  /** Encoding: each group of three octets becomes four symbols; a final
      group of one octet becomes two symbols and `==`, of two octets three
      symbols and `=` (section 4 of RFC 4648). */
  function Encode(bs: seq<Byte>): string
  {
    if |bs| == 0 then ""
    else if |bs| == 1 then Quantum1(bs[0])
    else if |bs| == 2 then Quantum2(bs[0], bs[1])
    else Quantum3(bs[0], bs[1], bs[2]) + Encode(bs[3..])
  }

  /** The first, second and third octet that a quantum's sextets carry. */
  function First(a: Sextet, b: Sextet): Byte { (a as int) * 4 + (b as int) / 16 }
  function Second(b: Sextet, c: Sextet): Byte { (b as int) % 16 * 16 + (c as int) / 4 }
  function Third(c: Sextet, d: Sextet): Byte { (c as int) % 4 * 64 + (d as int) }

  /** The octets a quantum of four characters stands for, or `None` if it is
      not a well-formed quantum; `last` tells whether padding may appear. */
  function DecodeQuantum(q: string, last: bool): (r: Option<seq<Byte>>)
    requires |q| == 4
    ensures r.Some? ==> 1 <= |r.value| <= 3
  {
    match (Value(q[0]), Value(q[1]), Value(q[2]), Value(q[3]))
    case (Some(a), Some(b), Some(c), Some(d)) =>
      Some([First(a, b), Second(b, c), Third(c, d)])
    case (Some(a), Some(b), Some(c), None) =>
      if last && q[3] == '=' then Some([First(a, b), Second(b, c)]) else None
    case (Some(a), Some(b), None, None) =>
      if last && q[2..] == "==" then Some([First(a, b)]) else None
    case _ => None
  }

  /** Decoding of a padded Base64 text; `None` for text that is not a whole
      number of well-formed quanta with padding only at the end. */
  function Decode(s: string): Option<seq<Byte>>
    decreases |s|
  {
    if s == [] then Some([])
    else if |s| < 4 then None
    else match DecodeQuantum(s[..4], |s| == 4)
      case None => None
      case Some(head) =>
        match Decode(s[4..])
        case None => None
        case Some(tail) => Some(head + tail)
  }

  lemma Digits4(hi: nat, lo: nat)
    requires lo < 4
    ensures (hi * 4 + lo) / 4 == hi && (hi * 4 + lo) % 4 == lo
  {
  }

  lemma Digits16(hi: nat, lo: nat)
    requires lo < 16
    ensures (hi * 16 + lo) / 16 == hi && (hi * 16 + lo) % 16 == lo
  {
  }

  /** The sextets of three octets carry the octets back. */
  lemma OctetsOfThree(x: Byte, y: Byte, z: Byte)
    ensures First(x / 4, x % 4 * 16 + y / 16) == x
    ensures Second(x % 4 * 16 + y / 16, y % 16 * 4 + z / 64) == y
    ensures Third(y % 16 * 4 + z / 64, z % 64) == z
  {
    Digits16(x % 4, y / 16);
    Digits4(y % 16, z / 64);
  }

  /** The encoding of three octets is read back by one unpadded quantum. */
  lemma QuantumOfThree(x: Byte, y: Byte, z: Byte, last: bool)
    ensures DecodeQuantum(Quantum3(x, y, z), last) == Some([x, y, z])
  {
    ValueSymbol(x / 4);
    ValueSymbol(x % 4 * 16 + y / 16);
    ValueSymbol(y % 16 * 4 + z / 64);
    ValueSymbol(z % 64);
    OctetsOfThree(x, y, z);
  }

  /** The encoding of two final octets is read back by one quantum ending in `=`. */
  lemma QuantumOfTwo(x: Byte, y: Byte)
    ensures DecodeQuantum(Quantum2(x, y), true) == Some([x, y])
  {
    var q := Quantum2(x, y);
    ValueSymbol(x / 4);
    ValueSymbol(x % 4 * 16 + y / 16);
    ValueSymbol(y % 16 * 4);
    assert Value(q[3]).None?;
    OctetsOfTwo(x, y);
  }

  /** The three sextets of two octets carry the octets back. */
  lemma OctetsOfTwo(x: Byte, y: Byte)
    ensures First(x / 4, x % 4 * 16 + y / 16) == x
    ensures Second(x % 4 * 16 + y / 16, y % 16 * 4) == y
  {
    Digits16(x % 4, y / 16);
    Digits4(y % 16, 0);
    assert (y % 16 * 4) / 4 == y % 16;
    assert y / 16 * 16 + y % 16 == y;
  }

  /** The encoding of one final octet is read back by one quantum ending in `==`. */
  lemma QuantumOfOne(x: Byte)
    ensures DecodeQuantum(Quantum1(x), true) == Some([x])
  {
    ValueSymbol(x / 4);
    ValueSymbol(x % 4 * 16);
    Digits16(x % 4, 0);
    assert Quantum1(x)[2..] == "==";
  }

  /** Decoding of one whole final quantum. */
  lemma DecodeLast(q: string, bs: seq<Byte>)
    requires |q| == 4 && DecodeQuantum(q, true) == Some(bs)
    ensures Decode(q) == Some(bs)
  {
    assert q[..4] == q && q[4..] == [];
    assert Decode(q[4..]) == Some([]);
    assert bs + [] == bs;
  }

  /** Decoding of a quantum followed by more text. */
  lemma DecodeFirst(q: string, rest: string, head: seq<Byte>, tail: seq<Byte>)
    requires |q| == 4 && rest != []
    requires DecodeQuantum(q, false) == Some(head)
    requires Decode(rest) == Some(tail)
    ensures Decode(q + rest) == Some(head + tail)
  {
    var s := q + rest;
    assert s[..4] == q && s[4..] == rest;
  }

  lemma DecodeQuantum1(x: Byte)
    ensures Decode(Quantum1(x)) == Some([x])
  {
    QuantumOfOne(x);
    DecodeLast(Quantum1(x), [x]);
  }

  lemma DecodeQuantum2(x: Byte, y: Byte)
    ensures Decode(Quantum2(x, y)) == Some([x, y])
  {
    QuantumOfTwo(x, y);
    DecodeLast(Quantum2(x, y), [x, y]);
  }

  lemma DecodeQuantum3(x: Byte, y: Byte, z: Byte)
    ensures Decode(Quantum3(x, y, z)) == Some([x, y, z])
  {
    QuantumOfThree(x, y, z, true);
    DecodeLast(Quantum3(x, y, z), [x, y, z]);
  }

  /** Decoding recovers the octets that were encoded. */
  lemma {:induction false} DecodeEncode(bs: seq<Byte>)
    ensures Decode(Encode(bs)) == Some(bs)
  {
    if |bs| == 1 {
      DecodeQuantum1(bs[0]);
      assert [bs[0]] == bs;
    } else if |bs| == 2 {
      DecodeQuantum2(bs[0], bs[1]);
      assert [bs[0], bs[1]] == bs;
    } else if |bs| == 3 {
      DecodeQuantum3(bs[0], bs[1], bs[2]);
      assert [bs[0], bs[1], bs[2]] == bs;
      assert Encode(bs) == Quantum3(bs[0], bs[1], bs[2]) + Encode([]);
    } else if |bs| > 3 {
      assert bs[..3] == [bs[0], bs[1], bs[2]];
      QuantumOfThree(bs[0], bs[1], bs[2], false);
      DecodeEncode(bs[3..]);
      assert Encode(bs[3..]) != [];
      DecodeFirst(Quantum3(bs[0], bs[1], bs[2]), Encode(bs[3..]), bs[..3], bs[3..]);
      assert bs[..3] + bs[3..] == bs;
    }
  }

  /** Four output characters for every started group of three octets. */
  lemma {:induction false} EncodeLength(bs: seq<Byte>)
    ensures |Encode(bs)| == 4 * ((|bs| + 2) / 3)
  {
    if |bs| >= 3 {
      var n := |bs[3..]|;
      EncodeLength(bs[3..]);
      assert |Encode(bs)| == 4 + |Encode(bs[3..])|;
      assert (n + 3 + 2) / 3 == (n + 2) / 3 + 1;
    }
  }

  /** The encoder only writes alphabet characters and the padding `=`. */
  lemma {:induction false} EncodeAlphabet(bs: seq<Byte>)
    ensures forall i :: 0 <= i < |Encode(bs)| ==> Value(Encode(bs)[i]).Some? || Encode(bs)[i] == '='
  {
    var s := Encode(bs);
    if |bs| > 0 {
      ValueSymbol(bs[0] / 4);
    }
    if |bs| == 1 {
      ValueSymbol(bs[0] % 4 * 16);
    } else if |bs| == 2 {
      ValueSymbol(bs[0] % 4 * 16 + bs[1] / 16);
      ValueSymbol(bs[1] % 16 * 4);
    } else if |bs| >= 3 {
      ValueSymbol(bs[0] % 4 * 16 + bs[1] / 16);
      ValueSymbol(bs[1] % 16 * 4 + bs[2] / 64);
      ValueSymbol(bs[2] % 64);
      EncodeAlphabet(bs[3..]);
      forall i | 4 <= i < |s|
        ensures Value(s[i]).Some? || s[i] == '='
      {
        assert s[i] == Encode(bs[3..])[i - 4];
      }
    }
  }
}
