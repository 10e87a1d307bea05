/** The `Authorization` value both clients send: the Basic scheme of
    section 2 of RFC 7617, whose credentials are the base 64 encoding
    (section 4 of RFC 4648) of the UTF-8 octets of `user-id ":" password`. */
module BasicAuth {
  import opened Results
  import Utf8
  import Base64
  import Text

  const Scheme: string := "Basic "

  /** `f"Basic {base64.b64encode(f'{key}:{secret}'.encode()).decode()}"`. */
  function Header(key: string, secret: string): (h: string)
    ensures |h| >= |Scheme| && h[..|Scheme|] == Scheme
  {
    Scheme + Base64.Encode(Utf8.Encode(key + ":" + secret))
  }

  /** What a server does with the header: strip the scheme, decode the
      token, and split the user-pass at its first colon. */
  function Credentials(h: string): Option<(string, string)> {
    if |h| < |Scheme| || h[..|Scheme|] != Scheme then None
    else
      var octets :- Base64.Decode(h[|Scheme|..]);
      var userPass :- Utf8.Decode(octets);
      Text.SplitFirst(userPass, ':')
  }

  /** The token after the scheme decodes to exactly `key:secret`. */
  lemma TokenDecodes(key: string, secret: string)
    ensures Base64.Decode(Header(key, secret)[|Scheme|..]) == Some(Utf8.Encode(key + ":" + secret))
    ensures Utf8.Decode(Utf8.Encode(key + ":" + secret)) == Some(key + ":" + secret)
  {
    var h := Header(key, secret);
    assert h[|Scheme|..] == Base64.Encode(Utf8.Encode(key + ":" + secret));
    Base64.RoundTrip(Utf8.Encode(key + ":" + secret));
    Utf8.RoundTrip(key + ":" + secret);
  }

  /** A key without a colon (section 2 of RFC 7617 forbids one in a
      user-id) is recovered together with the secret. */
  lemma HeaderRoundTrip(key: string, secret: string)
    requires ':' !in key
    ensures Credentials(Header(key, secret)) == Some((key, secret))
  {
    TokenDecodes(key, secret);
    assert key + ":" + secret == key + [':'] + secret;
    Text.SplitFirstUnique(key, secret, ':');
  }

  /** A colon in the key makes the header ambiguous: it cannot be told apart
      from a shorter key whose secret starts with the rest of it. */
  lemma ColonInKeyIsAmbiguous(k1: string, k2: string, secret: string)
    ensures Header(k1 + ":" + k2, secret) == Header(k1, k2 + ":" + secret)
  {
    assert (k1 + ":" + k2) + ":" + secret == k1 + ":" + (k2 + ":" + secret);
  }
}
