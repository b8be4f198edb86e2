/** Reading the query URL back into its parts. `GetUrl` places the raw
    values in the query string without escaping, so the parts can be
    recovered exactly when the scheme has no ':' and the IP, the contact
    email and the check flag have no '&'. */
module UrlQuery {
  import opened Wrappers
  import opened Ipintel

  /** The values `GetUrl` places in the URL. */
  datatype UrlParts = UrlParts(scheme: string, ip: string, contact: string, flags: string)

  /** Splits `s` at the first occurrence of `d`. */
  function SplitAt(s: string, d: char): (r: Option<(string, string)>)
    ensures r.None? <==> d !in s
    ensures r.Some? ==> s == r.value.0 + [d] + r.value.1 && d !in r.value.0
  {
    if |s| == 0 then None
    else if s[0] == d then Some(([], s[1..]))
    else
      match SplitAt(s[1..], d)
      case None => None
      case Some((before, after)) =>
        assert s == [s[0]] + s[1..];
        Some(([s[0]] + before, after))
  }

  /** `s` with the prefix `p` removed, if `s` starts with `p`. */
  function StripPrefix(p: string, s: string): (r: Option<string>)
    ensures r.Some? <==> p <= s
    ensures r.Some? ==> s == p + r.value
  {
    if p <= s then Some(s[|p|..]) else None
  }

  /** Prefix of the query string up to the IP. */
  const IpPrefix: string := "//" + UrlBase + "?ip="

  /** The inverse of `GetUrl`: the scheme up to the first ':', then the fixed
      host and path, then each query value up to the next '&'. */
  function ParseUrl(url: string): Option<UrlParts> {
    var (scheme, rest) :- SplitAt(url, ':');
    var (ip, contact, flags) :- ParseQuery(rest);
    Some(UrlParts(scheme, ip, contact, flags))
  }

  /** Reads `//<host and path>?ip=<ip>&contact=<email>&flags=<flag>&format=json`. */
  function ParseQuery(s: string): Option<(string, string, string)> {
    var rest :- StripPrefix(IpPrefix, s);
    var (ip, rest) :- SplitAt(rest, '&');
    var (contact, flags) :- ParseContact(rest);
    Some((ip, contact, flags))
  }

  /** Reads `contact=<email>&flags=<flag>&format=json`. */
  function ParseContact(s: string): Option<(string, string)> {
    var rest :- StripPrefix("contact=", s);
    var (contact, rest) :- SplitAt(rest, '&');
    var flags :- ParseFlags(rest);
    Some((contact, flags))
  }

  /** Reads `flags=<flag>&format=json`. */
  function ParseFlags(s: string): Option<string> {
    var rest :- StripPrefix("flags=", s);
    var (flags, rest) :- SplitAt(rest, '&');
    if rest == "format=json" then Some(flags) else None
  }

  /** A string split at the first `d` splits at the `d` placed after a
      `d`-free prefix. */
  lemma {:induction false} SplitAtJoin(a: string, d: char, b: string)
    requires d !in a
    ensures SplitAt(a + [d] + b, d) == Some((a, b))
  {
    if |a| == 0 {
      assert a + [d] + b == [d] + b;
    } else {
      assert (a + [d] + b)[0] == a[0] != d;
      assert (a + [d] + b)[1..] == a[1..] + [d] + b;
      SplitAtJoin(a[1..], d, b);
      assert [a[0]] + a[1..] == a;
    }
  }

  lemma StripPrefixJoin(p: string, t: string)
    ensures StripPrefix(p, p + t) == Some(t)
  {
    assert (p + t)[|p|..] == t;
  }

  /** The parts a URL carries can be read back when no value contains the
      delimiter that ends it. */
  predicate Recoverable(c: Client, ip: string) {
    ':' !in c.scheme && '&' !in ip && '&' !in c.email && '&' !in c.check.flag
  }

  lemma ParseFlagsJoin(flag: string)
    requires '&' !in flag
    ensures ParseFlags("flags=" + flag + "&format=json") == Some(flag)
  {
    assert "flags=" + flag + "&format=json" == "flags=" + (flag + "&format=json");
    StripPrefixJoin("flags=", flag + "&format=json");
    assert flag + "&format=json" == flag + ['&'] + "format=json";
    SplitAtJoin(flag, '&', "format=json");
  }

  lemma ParseContactJoin(email: string, flag: string)
    requires '&' !in email && '&' !in flag
    ensures ParseContact("contact=" + email + "&flags=" + flag + "&format=json") == Some((email, flag))
  {
    var tail := "flags=" + flag + "&format=json";
    assert "contact=" + email + "&flags=" + flag + "&format=json" == "contact=" + (email + ['&'] + tail);
    StripPrefixJoin("contact=", email + ['&'] + tail);
    SplitAtJoin(email, '&', tail);
    ParseFlagsJoin(flag);
  }

  lemma ParseQueryJoin(ip: string, email: string, flag: string)
    requires '&' !in ip && '&' !in email && '&' !in flag
    ensures ParseQuery(IpPrefix + ip + "&contact=" + email + "&flags=" + flag + "&format=json")
         == Some((ip, email, flag))
  {
    var tail := "contact=" + email + "&flags=" + flag + "&format=json";
    assert IpPrefix + ip + "&contact=" + email + "&flags=" + flag + "&format=json"
        == IpPrefix + (ip + ['&'] + tail);
    StripPrefixJoin(IpPrefix, ip + ['&'] + tail);
    SplitAtJoin(ip, '&', tail);
    ParseContactJoin(email, flag);
  }

  /** Reading back the URL of a query yields the client's scheme, the IP, the
      contact email and the check flag. */
  lemma ParseGetUrl(c: Client, ip: string)
    requires Recoverable(c, ip)
    ensures ParseUrl(GetUrl(c, ip)) == Some(UrlParts(c.scheme, ip, c.email, c.check.flag))
  {
    var query := IpPrefix + ip + "&contact=" + c.email + "&flags=" + c.check.flag + "&format=json";
    assert GetUrl(c, ip) == c.scheme + [':'] + query;
    SplitAtJoin(c.scheme, ':', query);
    ParseQueryJoin(ip, c.email, c.check.flag);
  }

  /** Within the recoverable inputs, distinct queries have distinct URLs. */
  lemma GetUrlInjective(c1: Client, ip1: string, c2: Client, ip2: string)
    requires Recoverable(c1, ip1) && Recoverable(c2, ip2)
    requires GetUrl(c1, ip1) == GetUrl(c2, ip2)
    ensures c1.scheme == c2.scheme && ip1 == ip2 && c1.email == c2.email && c1.check == c2.check
  {
    ParseGetUrl(c1, ip1);
    ParseGetUrl(c2, ip2);
  }

  /** Without escaping, a '&' in the IP or the email can make two different
      queries share one URL: the IP "1.2.3.4" with contact "x&contact=y" and
      the IP "1.2.3.4&contact=x" with contact "y". */
  lemma AmbiguousWithoutEscaping(scheme: string, check: CheckType, maxWait: Duration)
    ensures GetUrl(Client("x&contact=y", scheme, check, maxWait), "1.2.3.4")
         == GetUrl(Client("y", scheme, check, maxWait), "1.2.3.4&contact=x")
  {
    assert "1.2.3.4" + "&contact=" + "x&contact=y" == "1.2.3.4&contact=x" + "&contact=" + "y";
  }

  /** A client made by `NewClient` has a scheme the parser can read back,
      and its URL names "https" exactly when `ssl` is set. */
  lemma NewClientUrlScheme(email: string, ssl: bool, check: CheckType, maxWait: Duration, ip: string)
    requires '&' !in email && '&' !in check.flag && '&' !in ip
    ensures var c := NewClient(email, ssl, check, maxWait);
            Recoverable(c, ip) &&
            ParseUrl(GetUrl(c, ip)).Some? &&
            (ParseUrl(GetUrl(c, ip)).value.scheme == "https" <==> ssl)
  {
    ParseGetUrl(NewClient(email, ssl, check, maxWait), ip);
  }

  /** The example URL for a plain-HTTP client with the static check. */
  lemma StaticHttpExample()
    ensures GetUrl(NewClient("a@b.com", false, Static, 0), "1.2.3.4")
         == "http://check.getipintel.net/check.php?ip=1.2.3.4&contact=a@b.com&flags=m&format=json"
  {
    assert NewClient("a@b.com", false, Static, 0) == Client("a@b.com", "http", CheckType("m"), 0);
    ExampleConcat();
  }

  /** The scheme, separator, host, path and "?ip=" of that example. */
  lemma ExampleHead()
    ensures "http" + "://" + UrlBase + "?ip=" == "http://check.getipintel.net/check.php?ip="
  {
    assert UrlBase == "check.getipintel.net/check.php";
  }

  /** The concatenation `GetUrl` performs for that example, one piece at a
      time. */
  lemma ExampleConcat()
    ensures "http" + "://" + UrlBase + "?ip=" + "1.2.3.4" + "&contact=" + "a@b.com" + "&flags=" + "m" + "&format=json"
         == "http://check.getipintel.net/check.php?ip=1.2.3.4&contact=a@b.com&flags=m&format=json"
  {
    ExampleHead();
    assert "http://check.getipintel.net/check.php?ip=" + "1.2.3.4" + "&contact=" + "a@b.com"
        == "http://check.getipintel.net/check.php?ip=1.2.3.4&contact=a@b.com";
    assert "http://check.getipintel.net/check.php?ip=1.2.3.4&contact=a@b.com" + "&flags=" + "m"
        == "http://check.getipintel.net/check.php?ip=1.2.3.4&contact=a@b.com&flags=m";
    assert "http://check.getipintel.net/check.php?ip=1.2.3.4&contact=a@b.com&flags=m" + "&format=json"
        == "http://check.getipintel.net/check.php?ip=1.2.3.4&contact=a@b.com&flags=m&format=json";
  }
}
