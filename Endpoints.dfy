/** Endpoint values: a host, a port and an optional user, parsed from the
    compact form [user@]host[:port] and rendered back as host:port.
    Parsing never fails; text it cannot split into host and port is kept
    whole as the host, with port 0. */
module Endpoints {
  import opened Wrappers
  import opened GoLib

  /** A network address. Port 0 means no port was given; User "" means no
      user was given. */
  datatype Endpoint = Endpoint(Host: string, Port: int, User: string)
  {
    /** The dialable address "host:port" (the %s:%d rendering). The user
        is not part of it, and a host holding ':' is not re-bracketed. */
    function String(): (r: string)
      ensures |r| > |Host| && r[..|Host|] == Host && r[|Host|] == ':'
      ensures ':' !in r[|Host| + 1..] && '@' !in r[|Host| + 1..]
    {
      var r := Host + ":" + FormatInt(Port);
      assert r[|Host| + 1..] == FormatInt(Port);
      r
    }
  }

  /** Parses [user@]host[:port]. The text is split at every '@': with more
      than one piece, the first is the user and the second the host[:port]
      text, and any further pieces are ignored. When that text splits into
      host and port, the host replaces it and the port text is converted
      with its conversion error thrown away. */
  function NewEndpoint(s: string): (e: Endpoint)
    ensures '@' !in e.User
    ensures e.User != "" ==> '@' in s
  {
    var parts := Split(s, '@');
    assert parts[0] in parts;
    var named := if |parts| > 1 then Endpoint(parts[1], 0, parts[0]) else Endpoint(s, 0, "");
    match SplitHostPort(named.Host)
    case None => named
    case Some(hp) => named.(Host := hp.host, Port := Atoi(hp.port))
  }

  /** What the parser makes of the host[:port] text `hp`: the split host
      and converted port when net.SplitHostPort accepts it, otherwise `hp`
      itself as the host and port 0. */
  ghost predicate AddressFrom(e: Endpoint, hp: string)
  {
    match SplitHostPort(hp)
    case None => e.Host == hp && e.Port == 0
    case Some(r) => e.Host == r.host && e.Port == Atoi(r.port)
  }

  /** The host[:port] text of an input that holds '@': what lies between
      the first '@' and the next one, or the end. */
  function AddressText(s: string): (hp: string)
    requires '@' in s
    ensures '@' !in hp
  {
    var rest := s[IndexOf(s, '@').value + 1..];
    match IndexOf(rest, '@')
    case None => rest
    case Some(j) => rest[..j]
  }

  // ---------------------------------------------------------------------
  // Lemmas

  /** Without '@' there is no user and the whole input is host[:port]. */
  lemma WithoutUser(s: string)
    requires '@' !in s
    ensures NewEndpoint(s).User == ""
    ensures AddressFrom(NewEndpoint(s), s)
  {
  }

  /** With '@' the user is the text before the first '@', and only the
      text up to the next '@' is parsed as host[:port]. */
  lemma WithUser(s: string)
    requires '@' in s
    ensures NewEndpoint(s).User == s[..IndexOf(s, '@').value]
    ensures AddressFrom(NewEndpoint(s), AddressText(s))
  {
    SplitAtFirst(s);
  }

  /** Splitting at '@' puts the text before the first '@' first and the
      host[:port] text second. */
  lemma SplitAtFirst(s: string)
    requires '@' in s
    ensures var parts := Split(s, '@');
      |parts| > 1 && parts[0] == s[..IndexOf(s, '@').value] && parts[1] == AddressText(s)
  {
    var i := IndexOf(s, '@').value;
    var rest := s[i + 1..];
    assert Split(s, '@') == [s[..i]] + Split(rest, '@');
    match IndexOf(rest, '@')
    case None =>
    case Some(j) =>
      assert Split(rest, '@') == [rest[..j]] + Split(rest[j + 1..], '@');
  }

  /** Anything after a second '@' is dropped. */
  lemma TextAfterSecondAtIgnored(s: string, t: string)
    requires '@' in s
    ensures NewEndpoint(s + "@" + t) == NewEndpoint(s)
  {
    SplitAppend(s, t, '@');
    assert s + "@" + t == s + ['@'] + t;
  }

  /** A bare host with no ':' keeps the whole text as the host, port 0. */
  lemma HostWithoutPort(host: string)
    requires '@' !in host && ':' !in host
    ensures NewEndpoint(host) == Endpoint(host, 0, "")
  {
  }

  /** A user prefix without '@' in front of host[:port] text without '@'
      becomes the user and changes nothing else. */
  lemma UserPrefix(user: string, hp: string)
    requires '@' !in user && '@' !in hp
    ensures NewEndpoint(user + "@" + hp) == NewEndpoint(hp).(User := user)
  {
    SplitAppend(user, hp, '@');
    assert user + "@" + hp == user + ['@'] + hp;
  }

  /** user@host with no ':' in the host: the user, the host, port 0. */
  lemma UserAndHostWithoutPort(user: string, host: string)
    requires '@' !in user && '@' !in host && ':' !in host
    ensures NewEndpoint(user + "@" + host) == Endpoint(host, 0, user)
  {
    UserPrefix(user, host);
  }

  /** host:port with a plain host: the host and the converted port. */
  lemma HostAndPort(host: string, port: string)
    requires '@' !in host && ':' !in host && '[' !in host && ']' !in host
    requires '@' !in port && ':' !in port && '[' !in port && ']' !in port
    ensures NewEndpoint(host + ":" + port) == Endpoint(host, Atoi(port), "")
  {
    SplitHostPortPlain(host, port);
  }

  /** user@host:port with a plain host. */
  lemma UserHostAndPort(user: string, host: string, port: string)
    requires '@' !in user
    requires '@' !in host && ':' !in host && '[' !in host && ']' !in host
    requires '@' !in port && ':' !in port && '[' !in port && ']' !in port
    ensures NewEndpoint(user + "@" + host + ":" + port) == Endpoint(host, Atoi(port), user)
  {
    assert user + "@" + host + ":" + port == user + "@" + (host + ":" + port);
    UserPrefix(user, host + ":" + port);
    HostAndPort(host, port);
  }

  /** [host]:port: a bracketed host such as an IPv6 literal comes out
      without brackets, with its inner ':' kept. */
  lemma BracketedHost(host: string, port: string)
    requires '@' !in host && '[' !in host && ']' !in host
    requires '@' !in port && ':' !in port && '[' !in port && ']' !in port
    ensures NewEndpoint("[" + host + "]:" + port) == Endpoint(host, Atoi(port), "")
  {
    SplitHostPortBracketed(host, port);
  }

  /** user@[host]:port. */
  lemma UserBracketedHost(user: string, host: string, port: string)
    requires '@' !in user
    requires '@' !in host && '[' !in host && ']' !in host
    requires '@' !in port && ':' !in port && '[' !in port && ']' !in port
    ensures NewEndpoint(user + "@[" + host + "]:" + port) == Endpoint(host, Atoi(port), user)
  {
    assert user + "@[" + host + "]:" + port == user + "@" + ("[" + host + "]:" + port);
    UserPrefix(user, "[" + host + "]:" + port);
    BracketedHost(host, port);
  }

  /** When the text splits into host and port but the port is not a
      number, the host is still replaced by the split host and the port
      stays 0 (the conversion error is discarded). */
  lemma NonNumericPort(s: string, j: nat)
    requires '@' !in s && SplitHostPort(s).Some?
    requires var port := Unsigned(SplitHostPort(s).value.port);
      && j < |port| && !IsDigit(port[j])
      && AllDigits(port[..j]) && DecimalValue(port[..j]) <= MaxUint64
    ensures NewEndpoint(s) == Endpoint(SplitHostPort(s).value.host, 0, "")
  {
    AtoiSyntaxError(SplitHostPort(s).value.port, j);
  }

  /** Rendering then parsing gives back the host and port, and no user,
      for every host free of ':', '@', '[' and ']' and every port that
      fits a 64-bit int. A host holding ':' (IPv6) is not re-bracketed by
      String, so it does not come back. */
  lemma RoundTrip(e: Endpoint)
    requires ':' !in e.Host && '@' !in e.Host && '[' !in e.Host && ']' !in e.Host
    requires MinInt64 <= e.Port <= MaxInt64
    ensures NewEndpoint(e.String()) == Endpoint(e.Host, e.Port, "")
  {
    HostAndPort(e.Host, FormatInt(e.Port));
    AtoiFormatInt(e.Port);
  }

  /** A host holding ':', such as an IPv6 literal, does not come back:
      String does not bracket it, so the rendering has more than one ':'
      outside brackets, net.SplitHostPort rejects it, and the whole
      address is kept as the host with port 0. */
  lemma ColonHostNotRoundTrip(e: Endpoint)
    requires ':' in e.Host && '@' !in e.Host && '[' !in e.Host
    ensures NewEndpoint(e.String()) == Endpoint(e.String(), 0, "")
  {
    var s := e.String();
    var n := |e.Host|;
    assert '@' !in s by {
      forall k | 0 <= k < |s|
        ensures s[k] != '@'
      {
        if k < n {
          assert s[k] == s[..n][k];
        } else if k > n {
          assert s[k] == s[n + 1..][k - n - 1];
        }
      }
    }
    NoSplitOfColonHost(s, e.Host);
  }

  /** net.SplitHostPort rejects `host` + ":" + text when `host` holds ':'
      and is not bracketed: such a text has two ':' or more, where a
      host:port split has exactly one, and it does not start with '['. */
  lemma NoSplitOfColonHost(s: string, host: string)
    requires ':' in host && '[' !in host
    requires |s| > |host| && s[..|host|] == host && s[|host|] == ':' && ':' !in s[|host| + 1..]
    ensures SplitHostPort(s).None?
  {
    var rest := s[|host| + 1..];
    assert s == host + ":" + rest;
    OccurrencesAppend(host, ":", ':');
    OccurrencesAppend(host + ":", rest, ':');
    assert s[0] == host[0];
    forall h: string, p: string | ':' !in h && ':' !in p
      ensures s != h + ":" + p
    {
      OccurrencesAppend(h, ":", ':');
      OccurrencesAppend(h + ":", p, ':');
    }
  }

  /** How many times `c` occurs in `s`. */
  function Occurrences(s: string, c: char): (n: nat)
    ensures n == 0 <==> c !in s
  {
    if s == [] then 0
    else
      assert s == s[..|s| - 1] + [s[|s| - 1]];
      Occurrences(s[..|s| - 1], c) + (if s[|s| - 1] == c then 1 else 0)
  }

  lemma {:induction false} OccurrencesAppend(a: string, b: string, c: char)
    ensures Occurrences(a + b, c) == Occurrences(a, c) + Occurrences(b, c)
  {
    if b == [] {
      assert a + b == a;
    } else {
      OccurrencesAppend(a, b[..|b| - 1], c);
      assert (a + b)[..|a + b| - 1] == a + b[..|b| - 1];
    }
  }

  /** The IPv6 loopback on port 22 renders as "::1:22", which parses
      back as that whole text with port 0. */
  lemma IPv6LoopbackCase()
    ensures NewEndpoint(Endpoint("::1", 22, "").String()) == Endpoint("::1:22", 0, "")
  {
    assert Endpoint("::1", 22, "").String() == "::1:22";
    ColonHostNotRoundTrip(Endpoint("::1", 22, ""));
  }

  /** The rendering does not depend on the user. */
  lemma StringOmitsUser(e: Endpoint, user: string)
    ensures e.(User := user).String() == e.String()
  {
  }

  /** The inputs of the repository's endpoint test table, one by one,
      each written as the pieces the parser separates. */
  lemma HostPortCase()
    ensures NewEndpoint("localhost" + ":" + "9000") == Endpoint("localhost", 9000, "")
  {
    AtoiDigits("9000");
    HostAndPort("localhost", "9000");
  }

  lemma UserHostCase()
    ensures NewEndpoint("ec2-user" + "@" + "jumpbox.us-east-1.mydomain.com")
         == Endpoint("jumpbox.us-east-1.mydomain.com", 0, "ec2-user")
  {
    UserAndHostWithoutPort("ec2-user", "jumpbox.us-east-1.mydomain.com");
  }

  lemma UserIPv4Case()
    ensures NewEndpoint("admin" + "@" + "1.2.3.4" + ":" + "22") == Endpoint("1.2.3.4", 22, "admin")
  {
    AtoiDigits("22");
    UserHostAndPort("admin", "1.2.3.4", "22");
  }

  lemma UserIPv6Case()
    ensures NewEndpoint("admin" + "@[" + "2001:db8:1::ab9:C0A8:102" + "]:" + "22")
         == Endpoint("2001:db8:1::ab9:C0A8:102", 22, "admin")
  {
    AtoiDigits("22");
    UserBracketedHost("admin", "2001:db8:1::ab9:C0A8:102", "22");
  }
}
