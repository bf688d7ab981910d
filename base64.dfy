/**
 * Base64 as defined in section 4 of RFC 4648 (the standard alphabet, with `=` padding):
 * the encoding `btoa` applies to a string of byte-valued characters.
 */
module Base64 {
  import opened Wrappers

  newtype byte = x: int | 0 <= x < 256

  /** A 6-bit group. */
  type Sextet = x: int | 0 <= x < 64

  /** The character that encodes sextet `v` (Table 1 of section 4 of RFC 4648). */
  function Char(v: Sextet): (c: char)
    ensures c != '='
  {
    if v < 26 then ('A' as int + v) as char
    else if v < 52 then ('a' as int + (v - 26)) as char
    else if v < 62 then ('0' as int + (v - 52)) as char
    else if v == 62 then '+'
    else '/'
  }

  /** The sextet a character encodes, or `None` for a character outside the alphabet. */
  function Value(c: char): (r: Option<Sextet>)
    ensures r.Some? ==> Char(r.value) == c
  {
    if 'A' <= c <= 'Z' then Some(c as int - 'A' as int)
    else if 'a' <= c <= 'z' then Some(c as int - 'a' as int + 26)
    else if '0' <= c <= '9' then Some(c as int - '0' as int + 52)
    else if c == '+' then Some(62)
    else if c == '/' then Some(63)
    else None
  }

  lemma ValueChar(v: Sextet)
    ensures Value(Char(v)) == Some(v)
  {
  }

  /** The four characters of three bytes (24 bits, most significant bit first). */
  function EncodeGroup(x: byte, y: byte, z: byte): (s: string)
    ensures |s| == 4
  {
    var a, b, c := x as int, y as int, z as int;
    [Char(a / 4), Char(a % 4 * 16 + b / 16), Char(b % 16 * 4 + c / 64), Char(c % 64)]
  }

  /**
   * The encoding of `data`: each three bytes become four characters; a final one or two
   * bytes are zero-padded to whole sextets and the group is filled up with `=`.
   */
  function Encode(data: seq<byte>): (s: string)
    ensures |s| == (|data| + 2) / 3 * 4
    decreases |data|
  {
    if |data| == 0 then []
    else if |data| == 1 then EncodeGroup(data[0], 0, 0)[..2] + "=="
    else if |data| == 2 then EncodeGroup(data[0], data[1], 0)[..3] + "="
    else EncodeGroup(data[0], data[1], data[2]) + Encode(data[3..])
  }

  /** The three bytes that four sextets carry. */
  function DecodeGroup(a: Sextet, b: Sextet, c: Sextet, d: Sextet): seq<byte> {
    [(a * 4 + b / 16) as byte, (b % 16 * 16 + c / 4) as byte, (c % 4 * 64 + d) as byte]
  }

  /**
   * The bytes of one group of four characters; padding is accepted only in the `last`
   * group, as `xx==` (one byte) or `xxx=` (two bytes).
   */
  function DecodeQuantum(q0: char, q1: char, q2: char, q3: char, last: bool): Option<seq<byte>> {
    var a, b := Value(q0), Value(q1);
    var c := if last && q2 == '=' && q3 == '=' then Some(0) else Value(q2);
    var d := if last && q3 == '=' then Some(0) else Value(q3);
    if a.None? || b.None? || c.None? || d.None? then None
    else
      var group := DecodeGroup(a.value, b.value, c.value, d.value);
      if last && q2 == '=' && q3 == '=' then Some(group[..1])
      else if last && q3 == '=' then Some(group[..2])
      else Some(group)
  }

  /**
   * The inverse of `Encode`: `None` for a length that is not a multiple of four, a
   * character outside the alphabet, or padding anywhere but at the very end.
   */
  function Decode(s: string): (r: Option<seq<byte>>)
    decreases |s|
  {
    if |s| == 0 then Some([])
    else if |s| < 4 then None
    else
      match DecodeQuantum(s[0], s[1], s[2], s[3], |s| == 4)
      case None => None
      case Some(group) =>
        if |s| == 4 then Some(group)
        else
          match Decode(s[4..])
          case None => None
          case Some(rest) => Some(group + rest)
  }

  lemma DecodeOneByte(x: byte)
    ensures var g := EncodeGroup(x, 0, 0); DecodeQuantum(g[0], g[1], '=', '=', true) == Some([x])
  {
    var a := x as int;
    var g := EncodeGroup(x, 0, 0);
    ValueChar(a / 4);
    ValueChar(a % 4 * 16);
    assert Value(g[0]) == Some(a / 4) && Value(g[1]) == Some(a % 4 * 16);
    GroupArithmetic(a, 0, 0);
    var group := DecodeGroup(a / 4, a % 4 * 16, 0, 0);
    assert group[0] == x;
    assert group[..1] == [x];
  }

  lemma DecodeTwoBytes(x: byte, y: byte)
    ensures var g := EncodeGroup(x, y, 0); DecodeQuantum(g[0], g[1], g[2], '=', true) == Some([x, y])
  {
    var a, b := x as int, y as int;
    var g := EncodeGroup(x, y, 0);
    var s0, s1, s2 := a / 4, a % 4 * 16 + b / 16, b % 16 * 4;
    ValueChar(s0);
    ValueChar(s1);
    ValueChar(s2);
    assert Value(g[0]) == Some(s0) && Value(g[1]) == Some(s1) && Value(g[2]) == Some(s2);
    GroupArithmetic(a, b, 0);
    var group := DecodeGroup(s0, s1, s2, 0);
    assert group[0] == x && group[1] == y;
    assert group[..2] == [x, y];
  }

  lemma DecodeThreeBytes(x: byte, y: byte, z: byte, last: bool)
    ensures var g := EncodeGroup(x, y, z); DecodeQuantum(g[0], g[1], g[2], g[3], last) == Some([x, y, z])
  {
    var a, b, c := x as int, y as int, z as int;
    var g := EncodeGroup(x, y, z);
    var s0, s1, s2, s3 := a / 4, a % 4 * 16 + b / 16, b % 16 * 4 + c / 64, c % 64;
    ValueChar(s0);
    ValueChar(s1);
    ValueChar(s2);
    ValueChar(s3);
    assert Value(g[0]) == Some(s0) && Value(g[1]) == Some(s1) && Value(g[2]) == Some(s2) && Value(g[3]) == Some(s3);
    GroupArithmetic(a, b, c);
  }

  /** Regrouping 24 bits from sextets back into bytes. */
  lemma GroupArithmetic(a: int, b: int, c: int)
    requires 0 <= a < 256 && 0 <= b < 256 && 0 <= c < 256
    ensures a / 4 * 4 + (a % 4 * 16 + b / 16) / 16 == a
    ensures (a % 4 * 16 + b / 16) % 16 * 16 + (b % 16 * 4 + c / 64) / 4 == b
    ensures (b % 16 * 4 + c / 64) % 4 * 64 + c % 64 == c
  {
    assert (a % 4 * 16 + b / 16) / 16 == a % 4;
    assert (a % 4 * 16 + b / 16) % 16 == b / 16;
    assert (b % 16 * 4 + c / 64) / 4 == b % 16;
    assert (b % 16 * 4 + c / 64) % 4 == c / 64;
  }

  /** A final group of four characters decodes on its own. */
  lemma DecodeLast(s: string)
    requires |s| == 4
    ensures Decode(s) == DecodeQuantum(s[0], s[1], s[2], s[3], true)
  {
  }

  /** A group followed by more characters decodes to its bytes followed by theirs. */
  lemma DecodeCons(s: string, group: seq<byte>, rest: seq<byte>)
    requires |s| > 4
    requires DecodeQuantum(s[0], s[1], s[2], s[3], false) == Some(group)
    requires Decode(s[4..]) == Some(rest)
    ensures Decode(s) == Some(group + rest)
  {
  }

  lemma DecodeEncodeOne(x: byte)
    ensures Decode(Encode([x])) == Some([x])
  {
    var g := EncodeGroup(x, 0, 0);
    var s := Encode([x]);
    assert s == [g[0], g[1], '=', '='];
    DecodeOneByte(x);
    DecodeLast(s);
  }

  lemma DecodeEncodeTwo(x: byte, y: byte)
    ensures Decode(Encode([x, y])) == Some([x, y])
  {
    var g := EncodeGroup(x, y, 0);
    var s := Encode([x, y]);
    assert s == [g[0], g[1], g[2], '='];
    DecodeTwoBytes(x, y);
    DecodeLast(s);
  }

  lemma SplitFirstGroup(data: seq<byte>)
    requires |data| >= 3
    ensures data[..3] == [data[0], data[1], data[2]] && data == data[..3] + data[3..]
  {
  }

  /** A group of four characters in front of a decodable string. */
  lemma DecodeAppendGroup(g: string, t: string, group: seq<byte>, rest: seq<byte>)
    requires |g| == 4 && DecodeQuantum(g[0], g[1], g[2], g[3], |t| == 0) == Some(group)
    requires Decode(t) == Some(rest)
    ensures Decode(g + t) == Some(group + rest)
  {
    var s := g + t;
    assert s[0] == g[0] && s[1] == g[1] && s[2] == g[2] && s[3] == g[3];
    if |t| == 0 {
      assert rest == [] && group + rest == group;
      DecodeLast(s);
    } else {
      assert s[4..] == t;
      DecodeCons(s, group, rest);
    }
  }

  /** Three or more bytes: the first group decodes, and so does the encoding of the rest. */
  lemma DecodeEncodeLong(data: seq<byte>)
    requires |data| >= 3
    requires Decode(Encode(data[3..])) == Some(data[3..])
    ensures Decode(Encode(data)) == Some(data)
  {
    SplitFirstGroup(data);
    var t := Encode(data[3..]);
    var g := EncodeGroup(data[0], data[1], data[2]);
    assert Encode(data) == g + t;
    DecodeThreeBytes(data[0], data[1], data[2], |t| == 0);
    DecodeAppendGroup(g, t, data[..3], data[3..]);
  }

  /** Decoding undoes encoding. */
  lemma {:induction false} DecodeEncode(data: seq<byte>)
    ensures Decode(Encode(data)) == Some(data)
    decreases |data|
  {
    if |data| == 0 {
    } else if |data| == 1 {
      DecodeEncodeOne(data[0]);
      assert data == [data[0]];
    } else if |data| == 2 {
      DecodeEncodeTwo(data[0], data[1]);
      assert data == [data[0], data[1]];
    } else {
      DecodeEncode(data[3..]);
      DecodeEncodeLong(data);
    }
  }
}
