/** The base 64 encoding of section 4 of RFC 4648 (standard alphabet, `=`
    padding), which Python's `base64.b64encode` implements. */
module Base64 {
  import opened Results
  import opened Bytes

  type sextet = x: int | 0 <= x < 64

  const Pad: char := '='

  /** Table 1 of RFC 4648: `A`-`Z`, `a`-`z`, `0`-`9`, `+`, `/`. */
  function SextetChar(v: sextet): (c: char)
    ensures c != Pad
  {
    if v < 26 then ('A' as int + v) as char
    else if v < 52 then ('a' as int + (v - 26)) as char
    else if v < 62 then ('0' as int + (v - 52)) as char
    else if v == 62 then '+'
    else '/'
  }

  /** The inverse lookup in Table 1; `None` for a character outside it. */
  function CharSextet(c: char): Option<sextet> {
    if 'A' <= c <= 'Z' then Some(c as int - 'A' as int)
    else if 'a' <= c <= 'z' then Some(c as int - 'a' as int + 26)
    else if '0' <= c <= '9' then Some(c as int - '0' as int + 52)
    else if c == '+' then Some(62)
    else if c == '/' then Some(63)
    else None
  }

  lemma SextetRoundTrip(v: sextet)
    ensures CharSextet(SextetChar(v)) == Some(v)
  {
  }

  /** Three octets become four characters. */
  function EncodeBlock(b0: byte, b1: byte, b2: byte): string {
    [SextetChar(b0 / 4), SextetChar((b0 % 4) * 16 + b1 / 16),
     SextetChar((b1 % 16) * 4 + b2 / 64), SextetChar(b2 % 64)]
  }

  /** A final group of one or two octets is padded to four characters. */
  function EncodeTail(bs: seq<byte>): string
    requires 1 <= |bs| <= 2
  {
    if |bs| == 1 then [SextetChar(bs[0] / 4), SextetChar((bs[0] % 4) * 16), Pad, Pad]
    else [SextetChar(bs[0] / 4), SextetChar((bs[0] % 4) * 16 + bs[1] / 16),
          SextetChar((bs[1] % 16) * 4), Pad]
  }

  /** `base64.b64encode(bs).decode()`. */
  function Encode(bs: seq<byte>): (r: string)
    ensures |r| == (|bs| + 2) / 3 * 4
    decreases |bs|
  {
    if |bs| == 0 then ""
    else if |bs| <= 2 then EncodeTail(bs)
    else EncodeBlock(bs[0], bs[1], bs[2]) + Encode(bs[3..])
  }

  /** Decodes one group of four characters; padding is accepted only in the
      last group. */
  function DecodeBlock(q: string, last: bool): Option<seq<byte>>
    requires |q| == 4
  {
    var s0 :- CharSextet(q[0]);
    var s1 :- CharSextet(q[1]);
    if last && q[2] == Pad && q[3] == Pad then
      Some([s0 * 4 + s1 / 16])
    else
      var s2 :- CharSextet(q[2]);
      if last && q[3] == Pad then
        Some([s0 * 4 + s1 / 16, (s1 % 16) * 16 + s2 / 4])
      else
        var s3 :- CharSextet(q[3]);
        Some([s0 * 4 + s1 / 16, (s1 % 16) * 16 + s2 / 4, (s2 % 4) * 64 + s3])
  }

  /** Decoding per section 4 of RFC 4648; `None` for text that is not a
      padded base 64 string. */
  function Decode(s: string): Option<seq<byte>>
    decreases |s|
  {
    if |s| == 0 then Some([])
    else if |s| < 4 then None
    else
      var block :- DecodeBlock(s[..4], |s| == 4);
      var rest :- Decode(s[4..]);
      Some(block + rest)
  }

  /** Packing `lo` below `hi` is undone by `/` and `%`. */
  lemma Unpack16(hi: int, lo: int)
    requires 0 <= lo < 16
    ensures (hi * 16 + lo) / 16 == hi && (hi * 16 + lo) % 16 == lo
  {
  }

  lemma Unpack4(hi: int, lo: int)
    requires 0 <= lo < 4
    ensures (hi * 4 + lo) / 4 == hi && (hi * 4 + lo) % 4 == lo
  {
  }

  lemma BlockRoundTrip(b0: byte, b1: byte, b2: byte, last: bool)
    ensures DecodeBlock(EncodeBlock(b0, b1, b2), last) == Some([b0, b1, b2])
  {
    var s0, s1, s2, s3 := b0 / 4, (b0 % 4) * 16 + b1 / 16, (b1 % 16) * 4 + b2 / 64, b2 % 64;
    SextetRoundTrip(s0);
    SextetRoundTrip(s1);
    SextetRoundTrip(s2);
    SextetRoundTrip(s3);
    Unpack16(b0 % 4, b1 / 16);
    Unpack4(b1 % 16, b2 / 64);
    assert s0 * 4 + s1 / 16 == b0;
    assert (s1 % 16) * 16 + s2 / 4 == b1;
    assert (s2 % 4) * 64 + s3 == b2;
  }

  lemma TailRoundTrip(bs: seq<byte>)
    requires 1 <= |bs| <= 2
    ensures DecodeBlock(EncodeTail(bs), true) == Some(bs)
  {
    SextetRoundTrip(bs[0] / 4);
    if |bs| == 1 {
      SextetRoundTrip((bs[0] % 4) * 16);
      assert bs[0] / 4 * 4 + (bs[0] % 4) * 16 / 16 == bs[0];
      assert bs == [bs[0]];
    } else {
      SextetRoundTrip((bs[0] % 4) * 16 + bs[1] / 16);
      SextetRoundTrip((bs[1] % 16) * 4);
      assert bs == [bs[0], bs[1]];
    }
  }

  /** Decoding an encoding gives back the octets. */
  lemma {:induction false} RoundTrip(bs: seq<byte>)
    ensures Decode(Encode(bs)) == Some(bs)
    decreases |bs|
  {
    if |bs| == 0 {
    } else if |bs| <= 2 {
      TailRoundTrip(bs);
      assert Encode(bs)[..4] == EncodeTail(bs);
      assert Encode(bs)[4..] == "";
      assert Decode(Encode(bs)[4..]) == Some([]);
      assert bs + [] == bs;
    } else {
      var head := EncodeBlock(bs[0], bs[1], bs[2]);
      var e := Encode(bs);
      assert e == head + Encode(bs[3..]);
      assert e[..4] == head;
      assert e[4..] == Encode(bs[3..]);
      BlockRoundTrip(bs[0], bs[1], bs[2], |e| == 4);
      RoundTrip(bs[3..]);
      assert [bs[0], bs[1], bs[2]] + bs[3..] == bs;
    }
  }
}
