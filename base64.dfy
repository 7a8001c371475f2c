/** Base64 with padding, as in section 4 of RFC 4648 (`Data.base64EncodedString()`). */
module Base64 {
  import opened Wrappers
  import opened Bytes

  /** The character for a 6-bit value: A-Z, a-z, 0-9, '+', '/'. */
  function Sextet(v: int): (c: char)
    requires 0 <= v < 64
  {
    if v < 26 then ('A' as int + v) as char
    else if v < 52 then ('a' as int + (v - 26)) as char
    else if v < 62 then ('0' as int + (v - 52)) as char
    else if v == 62 then '+'
    else '/'
  }

  /** The 6-bit value of an alphabet character; None for anything else, '=' included. */
  function SextetValue(c: char): (r: Option<int>)
    ensures r.Some? ==> 0 <= r.value < 64 && Sextet(r.value) == c
  {
    if 'A' <= c <= 'Z' then Some(c as int - 'A' as int)
    else if 'a' <= c <= 'z' then Some(c as int - 'a' as int + 26)
    else if '0' <= c <= '9' then Some(c as int - '0' as int + 52)
    else if c == '+' then Some(62)
    else if c == '/' then Some(63)
    else None
  }

  lemma SextetRoundTrip(v: int)
    requires 0 <= v < 64
    ensures SextetValue(Sextet(v)) == Some(v)
  {
  }

  predicate InAlphabet(c: char) {
    SextetValue(c).Some? || c == '='
  }

  // The four 6-bit values of a 3-byte group, and the three bytes of a 4-sextet group.
  function Split0(b0: int): int { b0 / 4 }
  function Split1(b0: int, b1: int): int { b0 % 4 * 16 + b1 / 16 }
  function Split2(b1: int, b2: int): int { b1 % 16 * 4 + b2 / 64 }
  function Split3(b2: int): int { b2 % 64 }
  function Join0(x0: int, x1: int): int { x0 * 4 + x1 / 16 }
  function Join1(x1: int, x2: int): int { x1 % 16 * 16 + x2 / 4 }
  function Join2(x2: int, x3: int): int { x2 % 4 * 64 + x3 }

  lemma Split0Join(b0: int, b1: int)
    requires 0 <= b0 < 256 && 0 <= b1 < 256
    ensures 0 <= Split0(b0) < 64 && 0 <= Split1(b0, b1) < 64
    ensures Join0(Split0(b0), Split1(b0, b1)) == b0
  {
  }

  lemma Split1Join(b0: int, b1: int, b2: int)
    requires 0 <= b0 < 256 && 0 <= b1 < 256 && 0 <= b2 < 256
    ensures 0 <= Split2(b1, b2) < 64
    ensures Join1(Split1(b0, b1), Split2(b1, b2)) == b1
  {
    var hi, lo := b1 / 16, b1 % 16;
    var x1, x2 := b0 % 4 * 16 + hi, lo * 4 + b2 / 64;
    assert x1 % 16 == hi;
    assert x2 / 4 == lo;
  }

  lemma Split2Join(b1: int, b2: int)
    requires 0 <= b1 < 256 && 0 <= b2 < 256
    ensures 0 <= Split3(b2) < 64
    ensures Join2(Split2(b1, b2), Split3(b2)) == b2
  {
  }

  /** Four characters for three bytes. */
  function Quad(b0: byte, b1: byte, b2: byte): (s: string)
    ensures |s| == 4
  {
    var x0, x1, x2 := b0 as int, b1 as int, b2 as int;
    Split0Join(x0, x1);
    Split1Join(x0, x1, x2);
    Split2Join(x1, x2);
    [Sextet(Split0(x0)), Sextet(Split1(x0, x1)), Sextet(Split2(x1, x2)), Sextet(Split3(x2))]
  }

  /** The padded final group for one or two remaining bytes. */
  function Tail(d: Bytes): (s: string)
    requires 1 <= |d| <= 2
    ensures |s| == 4
  {
    var x0 := d[0] as int;
    var x1 := if |d| == 2 then d[1] as int else 0;
    Split0Join(x0, x1);
    Split1Join(x0, x1, 0);
    if |d| == 1 then [Sextet(Split0(x0)), Sextet(Split1(x0, 0)), '=', '=']
    else [Sextet(Split0(x0)), Sextet(Split1(x0, x1)), Sextet(Split2(x1, 0)), '=']
  }

  function Encode(d: Bytes): (s: string)
    ensures |s| == (|d| + 2) / 3 * 4
    decreases |d|
  {
    if |d| == 0 then ""
    else if |d| < 3 then Tail(d)
    else Quad(d[0], d[1], d[2]) + Encode(d[3..])
  }

  function ToByte(v: int): byte {
    if 0 <= v < 256 then v as byte else 0
  }

  /** Decodes one group of four characters; `last` allows the '=' padding of the final group. */
  function DecodeGroup(g: string, last: bool): (r: Option<Bytes>)
    requires |g| == 4
    ensures r.Some? ==> 1 <= |r.value| <= 3 && (!last ==> |r.value| == 3)
  {
    var v0, v1, v2, v3 := SextetValue(g[0]), SextetValue(g[1]), SextetValue(g[2]), SextetValue(g[3]);
    if v0.None? || v1.None? then None
    else if last && g[2] == '=' && g[3] == '=' then
      Some([ToByte(Join0(v0.value, v1.value))])
    else if v2.None? then None
    else if last && g[3] == '=' then
      Some([ToByte(Join0(v0.value, v1.value)), ToByte(Join1(v1.value, v2.value))])
    else if v3.None? then None
    else
      Some([ToByte(Join0(v0.value, v1.value)), ToByte(Join1(v1.value, v2.value)),
            ToByte(Join2(v2.value, v3.value))])
  }

  /** The inverse of Encode: None for text that is not padded Base64. */
  function Decode(s: string): (r: Option<Bytes>)
    decreases |s|
  {
    if |s| == 0 then Some([])
    else if |s| < 4 then None
    else if |s| == 4 then DecodeGroup(s, true)
    else
      match DecodeGroup(s[..4], false)
      case None => None
      case Some(head) =>
        match Decode(s[4..])
        case None => None
        case Some(tail) => Some(head + tail)
  }

  lemma QuadRoundTrip(b0: byte, b1: byte, b2: byte, last: bool)
    ensures DecodeGroup(Quad(b0, b1, b2), last) == Some([b0, b1, b2])
  {
    var x0, x1, x2 := b0 as int, b1 as int, b2 as int;
    Split0Join(x0, x1);
    Split1Join(x0, x1, x2);
    Split2Join(x1, x2);
    SextetRoundTrip(Split0(x0));
    SextetRoundTrip(Split1(x0, x1));
    SextetRoundTrip(Split2(x1, x2));
    SextetRoundTrip(Split3(x2));
  }

  lemma TailRoundTrip(d: Bytes)
    requires 1 <= |d| <= 2
    ensures DecodeGroup(Tail(d), true) == Some(d)
  {
    var x0 := d[0] as int;
    var x1 := if |d| == 2 then d[1] as int else 0;
    Split0Join(x0, x1);
    Split1Join(x0, x1, 0);
    SextetRoundTrip(Split0(x0));
    SextetRoundTrip(Split1(x0, x1));
    SextetRoundTrip(Split2(x1, 0));
    if |d| == 1 {
      Split0Join(x0, 0);
      SextetRoundTrip(Split1(x0, 0));
      assert [d[0]] == d;
    } else {
      assert [d[0], d[1]] == d;
    }
  }

  /** Decoding a full group followed by more text decodes the group, then the rest. */
  lemma DecodeCons(q: string, rest: string, head: Bytes, tail: Bytes)
    requires |q| == 4 && |rest| >= 4
    requires DecodeGroup(q, false) == Some(head) && Decode(rest) == Some(tail)
    ensures Decode(q + rest) == Some(head + tail)
  {
    var s := q + rest;
    assert s[..4] == q;
    assert s[4..] == rest;
  }

  /** Decoding what Encode produced gives back the original bytes (RFC 4648 section 4). */
  lemma {:induction false} RoundTrip(d: Bytes)
    ensures Decode(Encode(d)) == Some(d)
    decreases |d|
  {
    if 1 <= |d| < 3 {
      TailRoundTrip(d);
    } else if |d| == 3 {
      ThreeByteRoundTrip(d);
    } else if |d| > 3 {
      RoundTrip(d[3..]);
      GroupThenRest(d);
    }
  }

  lemma ThreeByteRoundTrip(d: Bytes)
    requires |d| == 3
    ensures Decode(Encode(d)) == Some(d)
  {
    QuadRoundTrip(d[0], d[1], d[2], true);
    assert Encode(d[3..]) == "";
    assert Encode(d) == Quad(d[0], d[1], d[2]);
    assert [d[0], d[1], d[2]] == d;
  }

  lemma FirstThree(d: Bytes)
    requires |d| >= 3
    ensures [d[0], d[1], d[2]] == d[..3] && d[..3] + d[3..] == d
  {
  }

  lemma GroupThenRest(d: Bytes)
    requires |d| > 3
    requires Decode(Encode(d[3..])) == Some(d[3..])
    ensures Decode(Encode(d)) == Some(d)
  {
    var q, rest := Quad(d[0], d[1], d[2]), Encode(d[3..]);
    assert |rest| >= 4 by {
      assert |d[3..]| >= 1;
      assert (|d[3..]| + 2) / 3 >= 1;
    }
    FirstThree(d);
    QuadRoundTrip(d[0], d[1], d[2], false);
    assert Encode(d) == q + rest;
    DecodeCons(q, rest, d[..3], d[3..]);
  }

  /** Every character of an encoding is in the Base64 alphabet or is the '=' pad. */
  lemma {:induction false} EncodeAlphabet(d: Bytes)
    ensures forall i :: 0 <= i < |Encode(d)| ==> InAlphabet(Encode(d)[i])
    decreases |d|
  {
    if 1 <= |d| < 3 {
      var x0 := d[0] as int;
      var x1 := if |d| == 2 then d[1] as int else 0;
      Split0Join(x0, x1);
      Split1Join(x0, x1, 0);
      SextetRoundTrip(Split0(x0));
      SextetRoundTrip(Split1(x0, x1));
      SextetRoundTrip(Split1(x0, 0));
      SextetRoundTrip(Split2(x1, 0));
    } else if |d| >= 3 {
      EncodeAlphabet(d[3..]);
      var x0, x1, x2 := d[0] as int, d[1] as int, d[2] as int;
      Split0Join(x0, x1);
      Split1Join(x0, x1, x2);
      Split2Join(x1, x2);
      SextetRoundTrip(Split0(x0));
      SextetRoundTrip(Split1(x0, x1));
      SextetRoundTrip(Split2(x1, x2));
      SextetRoundTrip(Split3(x2));
      forall i | 4 <= i < |Encode(d)| ensures InAlphabet(Encode(d)[i]) {
        assert Encode(d)[i] == Encode(d[3..])[i - 4];
      }
    }
  }

  /** An encoding is ASCII text, so its UTF-8 bytes are its characters, one byte each. */
  lemma EncodeIsAscii(d: Bytes)
    ensures IsAscii(Encode(d))
  {
    EncodeAlphabet(d);
  }
}
