/** Just enough of URL syntax (section 3.2 of RFC 3986) to name the host a
    request URL sends to: the authority follows `https://` and ends before
    the next `/`, `?` or `#`. */
module Url {

  import opened Text
  import opened Wrappers

  const Scheme: string := "https://"

  predicate IsDelimiter(c: char) {
    c == '/' || c == '?' || c == '#'
  }

  predicate NoDelimiter(s: string) {
    forall i :: 0 <= i < |s| ==> !IsDelimiter(s[i])
  }

  /** The longest prefix of `s` that holds no delimiter. */
  function TakeAuthority(s: string): (r: string)
    ensures StartsWith(s, r)
    ensures NoDelimiter(r)
    ensures |r| < |s| ==> IsDelimiter(s[|r|])
  {
    if |s| == 0 || IsDelimiter(s[0]) then ""
    else
      var rest := TakeAuthority(s[1..]);
      assert s[..|rest| + 1] == [s[0]] + s[1..][..|rest|];
      [s[0]] + rest
  }

  /** The host an `https` URL addresses; None for any other scheme. */
  function Authority(url: string): Option<string> {
    if StartsWith(url, Scheme) then Some(TakeAuthority(url[|Scheme|..])) else None
  }

  /** Whatever follows a delimiter cannot change the authority before it. */
  lemma {:induction false} TakeAuthorityStops(host: string, rest: string)
    requires NoDelimiter(host)
    requires |rest| > 0 && IsDelimiter(rest[0])
    ensures TakeAuthority(host + rest) == host
  {
    if |host| > 0 {
      assert (host + rest)[1..] == host[1..] + rest;
      TakeAuthorityStops(host[1..], rest);
    } else {
      assert host + rest == rest;
    }
  }

  /** The authority of an `https` URL is everything up to the first
      delimiter after the scheme, whatever follows it. */
  lemma AuthorityOf(host: string, rest: string)
    requires NoDelimiter(host)
    requires |rest| > 0 && IsDelimiter(rest[0])
    ensures Authority(Scheme + host + rest) == Some(host)
  {
    var url := Scheme + host + rest;
    assert url[..|Scheme|] == Scheme;
    assert url[|Scheme|..] == host + rest;
    TakeAuthorityStops(host, rest);
  }
}
