/** String operations the Python code relies on: `str.split(sep, 1)`,
    `str.rstrip(c)`, `str.split(sep)[-1]`, `str(int)` and `", ".join`. */
module Text {
  import opened Results

  /** `s.split(c, 1)`: `Some((head, tail))` when `c` occurs, splitting at its
      first occurrence, and `None` (a one-element split) when it does not. */
  function SplitFirst(s: string, c: char): (r: Option<(string, string)>)
    ensures r.None? <==> c !in s
    ensures r.Some? ==> s == r.value.0 + [c] + r.value.1 && c !in r.value.0
  {
    if |s| == 0 then None
    else if s[0] == c then Some(([], s[1..]))
    else
      match SplitFirst(s[1..], c)
      case None => None
      case Some((head, tail)) =>
        assert s == [s[0]] + s[1..];
        Some(([s[0]] + head, tail))
  }

  /** Splitting at the first separator is the only split with a separator-free
      head: the tail may itself contain the separator. */
  lemma {:induction false} SplitFirstUnique(head: string, tail: string, c: char)
    requires c !in head
    ensures SplitFirst(head + [c] + tail, c) == Some((head, tail))
  {
    if |head| == 0 {
      assert head + [c] + tail == [c] + tail;
    } else {
      assert (head + [c] + tail)[1..] == head[1..] + [c] + tail;
      SplitFirstUnique(head[1..], tail, c);
      assert [head[0]] + head[1..] == head;
    }
  }

  /** `s.rstrip(c)`: the longest prefix that does not end in `c`. */
  function RStrip(s: string, c: char): (r: string)
    ensures r <= s
    ensures |r| == 0 || r[|r| - 1] != c
    ensures forall i :: |r| <= i < |s| ==> s[i] == c
  {
    if |s| == 0 || s[|s| - 1] != c then s
    else RStrip(s[..|s| - 1], c)
  }

  /** `s.split(c)[-1]`: everything after the last `c`, or all of `s`. */
  function AfterLast(s: string, c: char): (r: string)
    ensures c !in r
    ensures |r| <= |s| && s[|s| - |r|..] == r
    ensures |r| < |s| ==> s[|s| - |r| - 1] == c
  {
    if |s| == 0 then ""
    else if s[|s| - 1] == c then ""
    else AfterLast(s[..|s| - 1], c) + [s[|s| - 1]]
  }

  /** `s.split(c)[0]`: everything before the first `c`, or all of `s`. */
  function BeforeFirst(s: string, c: char): (r: string)
    ensures c !in r && r <= s
    ensures |r| < |s| ==> s[|r|] == c
  {
    match SplitFirst(s, c)
    case None => s
    case Some((head, _)) => head
  }

  function DigitChar(d: int): char
    requires 0 <= d < 10
  {
    ('0' as int + d) as char
  }

  /** The decimal digits of a natural number, most significant first. */
  function NatDigits(n: nat): (r: string)
    ensures |r| > 0
    ensures forall i :: 0 <= i < |r| ==> '0' <= r[i] <= '9'
    decreases n
  {
    if n < 10 then [DigitChar(n)] else NatDigits(n / 10) + [DigitChar(n % 10)]
  }

  /** `str(n)` for a Python `int`. */
  function Decimal(n: int): (r: string)
    ensures |r| > 0
  {
    if n < 0 then "-" + NatDigits(-n) else NatDigits(n)
  }

  /** `sep.join(parts)`. */
  function Join(parts: seq<string>, sep: string): string {
    if |parts| == 0 then ""
    else if |parts| == 1 then parts[0]
    else parts[0] + sep + Join(parts[1..], sep)
  }
}
