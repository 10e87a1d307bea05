/** UTF-8 (RFC 3629), the encoding Python's `str.encode()` uses by default.
    A Dafny `char` is a Unicode scalar value, so every string encodes. */
module Utf8 {
  import opened Results
  import opened Bytes

  predicate IsContinuation(b: byte) {
    0x80 <= b < 0xC0
  }

  /** The one to four octets of one scalar value. */
  function EncodeChar(c: char): (r: seq<byte>)
    ensures 1 <= |r| <= 4
  {
    var n := c as int;
    if n < 0x80 then [n]
    else if n < 0x800 then [0xC0 + n / 64, 0x80 + n % 64]
    else if n < 0x10000 then [0xE0 + n / 4096, 0x80 + (n / 64) % 64, 0x80 + n % 64]
    else [0xF0 + n / 262144, 0x80 + (n / 4096) % 64, 0x80 + (n / 64) % 64, 0x80 + n % 64]
  }

  function Encode(s: string): seq<byte> {
    if |s| == 0 then [] else EncodeChar(s[0]) + Encode(s[1..])
  }

  /** The scalar value at the front of `bs` and the number of octets it
      takes; `None` for a malformed, overlong or surrogate sequence. */
  function DecodeChar(bs: seq<byte>): (r: Option<(char, nat)>)
    ensures r.Some? ==> 1 <= r.value.1 <= |bs|
  {
    if |bs| == 0 then None
    else if bs[0] < 0x80 then Some((bs[0] as char, 1))
    else if 0xC0 <= bs[0] < 0xE0 then
      if |bs| < 2 || !IsContinuation(bs[1]) then None
      else
        var n := (bs[0] as int - 0xC0) * 64 + (bs[1] as int - 0x80);
        if n < 0x80 then None else Some((n as char, 2))
    else if 0xE0 <= bs[0] < 0xF0 then
      if |bs| < 3 || !IsContinuation(bs[1]) || !IsContinuation(bs[2]) then None
      else
        var n := (bs[0] as int - 0xE0) * 4096 + (bs[1] as int - 0x80) * 64 + (bs[2] as int - 0x80);
        if n < 0x800 || (0xD800 <= n < 0xE000) then None else Some((n as char, 3))
    else if 0xF0 <= bs[0] < 0xF8 then
      if |bs| < 4 || !IsContinuation(bs[1]) || !IsContinuation(bs[2]) || !IsContinuation(bs[3]) then None
      else
        var n := (bs[0] as int - 0xF0) * 262144 + (bs[1] as int - 0x80) * 4096 + (bs[2] as int - 0x80) * 64 + (bs[3] as int - 0x80);
        if n < 0x10000 || n >= 0x110000 then None else Some((n as char, 4))
    else None
  }

  /** `bs.decode()`: `None` when `bs` is not well-formed UTF-8. */
  function Decode(bs: seq<byte>): Option<string>
    decreases |bs|
  {
    if |bs| == 0 then Some([])
    else
      var (c, k) :- DecodeChar(bs);
      var rest :- Decode(bs[k..]);
      Some([c] + rest)
  }

  lemma Split64(n: int)
    requires 0 <= n
    ensures n == (n / 64) * 64 + n % 64
    ensures n / 64 == (n / 4096) * 64 + (n / 64) % 64
    ensures n / 4096 == (n / 262144) * 64 + (n / 4096) % 64
  {
  }

  lemma {:induction false} DecodeEncodeChar(c: char, rest: seq<byte>)
    ensures DecodeChar(EncodeChar(c) + rest) == Some((c, |EncodeChar(c)|))
  {
    var n := c as int;
    var bs := EncodeChar(c) + rest;
    Split64(n);
    if n < 0x80 {
    } else if n < 0x800 {
      assert bs[0] == 0xC0 + n / 64 && bs[1] == 0x80 + n % 64;
      assert (bs[0] as int - 0xC0) * 64 + (bs[1] as int - 0x80) == n;
    } else if n < 0x10000 {
      assert bs[0] == 0xE0 + n / 4096 && bs[1] == 0x80 + (n / 64) % 64 && bs[2] == 0x80 + n % 64;
      assert (bs[0] as int - 0xE0) * 4096 + (bs[1] as int - 0x80) * 64 + (bs[2] as int - 0x80) == n;
    } else {
      assert bs[0] == 0xF0 + n / 262144 && bs[1] == 0x80 + (n / 4096) % 64;
      assert bs[2] == 0x80 + (n / 64) % 64 && bs[3] == 0x80 + n % 64;
      assert (bs[0] as int - 0xF0) * 262144 + (bs[1] as int - 0x80) * 4096 + (bs[2] as int - 0x80) * 64 + (bs[3] as int - 0x80) == n;
    }
  }

  /** Decoding an encoding gives back the string. */
  lemma {:induction false} RoundTrip(s: string)
    ensures Decode(Encode(s)) == Some(s)
  {
    if |s| > 0 {
      var head := EncodeChar(s[0]);
      var bs := Encode(s);
      assert bs == head + Encode(s[1..]);
      DecodeEncodeChar(s[0], Encode(s[1..]));
      assert bs[|head|..] == Encode(s[1..]);
      RoundTrip(s[1..]);
      assert [s[0]] + s[1..] == s;
    }
  }
}
