/** The behaviour of the Go library calls that endpoint parsing rests on:
    strings.IndexByte and strings.LastIndexByte, strings.Split with a
    one-character separator, net.SplitHostPort, strconv.Atoi and the
    decimal rendering of fmt's %d verb. Strings are sequences of
    characters; every input the parser sees is ASCII text. */
module GoLib {
  import opened Wrappers

  // ---------------------------------------------------------------------
  // strings

  /** Position of the first `c` in `s`, as strings.IndexByte. */
  function IndexOf(s: string, c: char): (r: Option<nat>)
    ensures r.None? <==> c !in s
    ensures r.Some? ==> r.value < |s| && s[r.value] == c && c !in s[..r.value]
  {
    if |s| == 0 then None
    else if s[0] == c then Some(0)
    else
      match IndexOf(s[1..], c)
      case None => None
      case Some(i) =>
        assert s[..i + 1] == [s[0]] + s[1..][..i];
        Some(i + 1)
  }

  /** Position of the last `c` in `s`, as strings.LastIndexByte. */
  function LastIndexOf(s: string, c: char): (r: Option<nat>)
    ensures r.None? <==> c !in s
    ensures r.Some? ==> r.value < |s| && s[r.value] == c && c !in s[r.value + 1..]
  {
    if |s| == 0 then None
    else if s[|s| - 1] == c then Some(|s| - 1)
    else
      var r := LastIndexOf(s[..|s| - 1], c);
      assert s == s[..|s| - 1] + [s[|s| - 1]];
      assert r.Some? ==> s[r.value + 1..] == s[..|s| - 1][r.value + 1..] + [s[|s| - 1]];
      r
  }

  /** The pieces joined back with `sep` between them (strings.Join). */
  function Join(parts: seq<string>, sep: char): string
  {
    if |parts| == 0 then ""
    else if |parts| == 1 then parts[0]
    else parts[0] + [sep] + Join(parts[1..], sep)
  }

  /** strings.Split with a one-character separator: the maximal runs of
      text between separators, so joining them back gives the input. */
  function Split(s: string, sep: char): (parts: seq<string>)
    ensures |parts| >= 1
    ensures |parts| > 1 <==> sep in s
    ensures forall p :: p in parts ==> sep !in p
    ensures Join(parts, sep) == s
    decreases |s|
  {
    match IndexOf(s, sep)
    case None => [s]
    case Some(i) =>
      var rest := Split(s[i + 1..], sep);
      assert ([s[..i]] + rest)[1..] == rest;
      assert s == s[..i] + [sep] + s[i + 1..];
      [s[..i]] + rest
  }

  /** Splitting text that has a separator in it splits each side apart. */
  lemma {:induction false} SplitAppend(a: string, b: string, sep: char)
    ensures Split(a + [sep] + b, sep) == Split(a, sep) + Split(b, sep)
    decreases |a|
  {
    match IndexOf(a, sep)
    case None =>
      var s := a + [sep] + b;
      assert s[..|a|] == a;
      IndexAt(s, sep, |a|);
      assert s[|a| + 1..] == b;
    case Some(i) =>
      SplitAppendUnfold(a, b, sep, i);
      SplitAppend(a[i + 1..], b, sep);
      SplitUnfold(a, sep, i);
      ConsAppend(a[..i], Split(a[i + 1..], sep), Split(b, sep));
  }

  lemma SplitAppendUnfold(a: string, b: string, sep: char, i: nat)
    requires IndexOf(a, sep) == Some(i)
    ensures Split(a + [sep] + b, sep) == [a[..i]] + Split(a[i + 1..] + [sep] + b, sep)
  {
    var s := a + [sep] + b;
    assert s[..i] == a[..i];
    assert s[i + 1..] == a[i + 1..] + [sep] + b;
    IndexAt(s, sep, i);
    SplitUnfold(s, sep, i);
  }

  lemma SplitUnfold(s: string, sep: char, i: nat)
    requires IndexOf(s, sep) == Some(i)
    ensures Split(s, sep) == [s[..i]] + Split(s[i + 1..], sep)
  {
  }

  lemma ConsAppend<T>(h: T, xs: seq<T>, ys: seq<T>)
    ensures [h] + (xs + ys) == ([h] + xs) + ys
  {
  }

  // ---------------------------------------------------------------------
  // net

  /** The two halves net.SplitHostPort returns. */
  datatype HostPort = HostPort(host: string, port: string)

  /** net.SplitHostPort: the port is the text after the last ':'. A host
      that starts with '[' must end with the first ']', and that ']' must
      stand right before the last ':'; it is returned without brackets.
      Otherwise the host is the text before the last ':' and may hold no
      ':' of its own. A '[' or ']' anywhere else is refused. The error
      text is not modelled, only that there is an error (None). */
  function SplitHostPort(hostport: string): (r: Option<HostPort>)
    ensures ':' !in hostport ==> r.None?
    ensures r.Some? ==> ':' !in r.value.port && '[' !in r.value.port && ']' !in r.value.port
    ensures r.Some? ==> '[' !in r.value.host && ']' !in r.value.host
    ensures r.Some? ==>
      || (':' !in r.value.host && hostport == r.value.host + ":" + r.value.port)
      || (hostport == "[" + r.value.host + "]:" + r.value.port)
  {
    match LastIndexOf(hostport, ':')
    case None => None
    case Some(i) =>
      if hostport[0] == '[' then
        match IndexOf(hostport, ']')
        case None => None
        case Some(end) =>
          if end + 1 != i then None
          else if '[' in hostport[1..] || ']' in hostport[end + 1..] then None
          else
            BracketedSplit(hostport, end);
            Some(HostPort(hostport[1..end], hostport[i + 1..]))
      else
        var host := hostport[..i];
        if ':' in host || '[' in hostport || ']' in hostport then None
        else
          assert hostport == host + ":" + hostport[i + 1..];
          Some(HostPort(host, hostport[i + 1..]))
  }

  /** "[host]:port" taken apart where the first ']' stands before ':'. */
  lemma BracketedSplit(hp: string, end: nat)
    requires end + 1 < |hp| && hp[0] == '[' && hp[end] == ']' && hp[end + 1] == ':'
    requires ']' !in hp[..end] && '[' !in hp[1..] && ']' !in hp[end + 1..]
    ensures hp == "[" + hp[1..end] + "]:" + hp[end + 2..]
    ensures '[' !in hp[1..end] && ']' !in hp[1..end]
    ensures '[' !in hp[end + 2..] && ']' !in hp[end + 2..]
  {
    assert 0 < end;
    assert hp[1..end] == hp[1..][..end - 1];
    assert hp[1..end] == hp[..end][1..];
    assert hp[end + 2..] == hp[1..][end + 1..];
    assert hp[end + 2..] == hp[end + 1..][1..];
    assert hp == [hp[0]] + hp[1..end] + [hp[end], hp[end + 1]] + hp[end + 2..];
  }

  /** Every host without brackets or ':' and port without brackets or ':'
      come back out of "host:port". */
  lemma SplitHostPortPlain(host: string, port: string)
    requires ':' !in host && '[' !in host && ']' !in host
    requires ':' !in port && '[' !in port && ']' !in port
    ensures SplitHostPort(host + ":" + port) == Some(HostPort(host, port))
  {
    PlainParts(host, port);
    var hp := host + ":" + port;
    LastIndexAt(hp, ':', |host|);
  }

  /** The pieces of "host:port" that SplitHostPort inspects. */
  lemma PlainParts(host: string, port: string)
    requires '[' !in host && ']' !in host
    requires '[' !in port && ']' !in port
    ensures var hp := host + ":" + port;
      && hp[..|host|] == host && hp[|host|] == ':' && hp[|host| + 1..] == port
      && hp[0] != '[' && '[' !in hp && ']' !in hp
  {
    var hp := host + ":" + port;
    assert |host| > 0 ==> hp[0] == host[0];
  }

  /** A bracketed host, which may hold ':' (an IPv6 literal, section 3.2.2
      of RFC 3986), comes back out of "[host]:port" without its brackets. */
  lemma SplitHostPortBracketed(host: string, port: string)
    requires '[' !in host && ']' !in host
    requires ':' !in port && '[' !in port && ']' !in port
    ensures SplitHostPort("[" + host + "]:" + port) == Some(HostPort(host, port))
  {
    BracketedSearch(host, port);
    BracketedParts(host, port);
  }

  /** Where the searches of SplitHostPort land in "[host]:port". */
  lemma BracketedSearch(host: string, port: string)
    requires '[' !in host && ']' !in host
    requires ':' !in port
    ensures var hp := "[" + host + "]:" + port;
      LastIndexOf(hp, ':') == Some(|host| + 2) && IndexOf(hp, ']') == Some(|host| + 1)
  {
    var hp := "[" + host + "]:" + port;
    var colon := |host| + 2;
    assert hp[colon - 1] == ']' && hp[colon] == ':' && hp[colon + 1..] == port;
    LastIndexAt(hp, ':', colon);
    assert hp[..colon - 1] == "[" + host;
    IndexAt(hp, ']', colon - 1);
  }

  /** The pieces of "[host]:port" that SplitHostPort inspects. */
  lemma BracketedParts(host: string, port: string)
    requires '[' !in host && ']' !in host
    requires '[' !in port && ']' !in port
    ensures var hp := "[" + host + "]:" + port;
      && hp[0] == '[' && hp[1..|host| + 1] == host && hp[|host| + 3..] == port
      && '[' !in hp[1..] && ']' !in hp[|host| + 2..]
  {
    var hp := "[" + host + "]:" + port;
    assert hp[1..] == host + "]:" + port;
    assert hp[|host| + 2..] == ":" + port;
  }

  /** The first `c` is where `c` occurs with none before it. */
  lemma IndexAt(s: string, c: char, i: nat)
    requires i < |s| && s[i] == c && c !in s[..i]
    ensures IndexOf(s, c) == Some(i)
  {
    var j := IndexOf(s, c).value;
    forall k | 0 <= k < i ensures s[k] != c { assert s[k] == s[..i][k]; }
    forall k | 0 <= k < j ensures s[k] != c { assert s[k] == s[..j][k]; }
  }

  /** The last `c` is where `c` occurs with none after it. */
  lemma LastIndexAt(s: string, c: char, i: nat)
    requires i < |s| && s[i] == c && c !in s[i + 1..]
    ensures LastIndexOf(s, c) == Some(i)
  {
    var j := LastIndexOf(s, c).value;
    forall k | i < k < |s| ensures s[k] != c { assert s[k] == s[i + 1..][k - i - 1]; }
    forall k | j < k < |s| ensures s[k] != c { assert s[k] == s[j + 1..][k - j - 1]; }
  }

  // ---------------------------------------------------------------------
  // strconv and fmt

  const MaxInt64: int := 0x7FFF_FFFF_FFFF_FFFF
  const MinInt64: int := -0x8000_0000_0000_0000
  const MaxUint64: int := 0xFFFF_FFFF_FFFF_FFFF

  predicate IsDigit(c: char) { '0' <= c <= '9' }

  predicate AllDigits(s: string) { forall i :: 0 <= i < |s| ==> IsDigit(s[i]) }

  /** A digit string holds no character other than a digit. */
  lemma DigitsExclude(s: string, c: char)
    requires AllDigits(s) && !IsDigit(c)
    ensures c !in s
  {
  }

  function DigitValue(c: char): nat
    requires IsDigit(c)
  {
    (c as int) - ('0' as int)
  }

  function DigitChar(d: nat): (c: char)
    requires d < 10
    ensures IsDigit(c) && DigitValue(c) == d
  {
    (('0' as int) + d) as char
  }

  /** The number that the digits in `s` denote after the digits already
      read into `acc`: acc * 10^|s| + value(s). */
  function Fold(acc: nat, s: string): nat
    requires AllDigits(s)
    decreases |s|
  {
    if s == [] then acc else Fold(acc * 10 + DigitValue(s[0]), s[1..])
  }

  /** The value of a string of decimal digits. */
  function DecimalValue(s: string): nat
    requires AllDigits(s)
  {
    Fold(0, s)
  }

  /** What strconv.ParseUint(s, 10, 64) reports. */
  datatype ParseOutcome = Value(n: nat) | SyntaxError | RangeError

  /** The digit loop of strconv.ParseUint(s, 10, 64), reading left to right:
      a non-digit is a syntax error, and an accumulator that would pass
      2^64 - 1 stops the scan with a range error on the spot, even if a
      non-digit follows later. */
  function Scan(s: string, acc: nat): (r: ParseOutcome)
    requires acc <= MaxUint64
    ensures r.Value? ==> r.n <= MaxUint64
  {
    if s == [] then Value(acc)
    else if !IsDigit(s[0]) then SyntaxError
    else if acc >= MaxUint64 / 10 + 1 then RangeError
    else
      var next := acc * 10 + DigitValue(s[0]);
      if next > MaxUint64 then RangeError else Scan(s[1..], next)
  }

  function ParseUint(s: string): ParseOutcome
  {
    if s == [] then SyntaxError else Scan(s, 0)
  }

  /** The text strconv.ParseInt hands to ParseUint: `s` without one
      leading sign. */
  function Unsigned(s: string): (d: string)
    ensures |d| <= |s|
  {
    if |s| > 0 && (s[0] == '+' || s[0] == '-') then s[1..] else s
  }

  /** strconv.Atoi with its error thrown away, on a 64-bit int: a syntax
      error gives 0, a value out of range saturates at the nearer bound. */
  function Atoi(s: string): (n: int)
    ensures MinInt64 <= n <= MaxInt64
    ensures Unsigned(s) == [] ==> n == 0
  {
    if s == [] then 0
    else
      var negative := s[0] == '-';
      match ParseUint(Unsigned(s))
      case SyntaxError => 0
      case RangeError => if negative then MinInt64 else MaxInt64
      case Value(u) =>
        if !negative && u > MaxInt64 then MaxInt64
        else if negative && u > -MinInt64 then MinInt64
        else if negative then -(u as int)
        else u
  }

  /** The decimal digits of `n`, most significant first, no leading zero. */
  function Decimal(n: nat): (s: string)
    ensures |s| >= 1 && AllDigits(s)
    ensures |s| > 1 ==> s[0] != '0'
  {
    if n < 10 then [DigitChar(n)] else Decimal(n / 10) + [DigitChar(n % 10)]
  }

  /** fmt's %d verb on an int. */
  function FormatInt(n: int): (s: string)
    ensures |s| >= 1 && ':' !in s && '@' !in s && '[' !in s && ']' !in s
  {
    if n < 0 then "-" + Decimal(-n) else Decimal(n)
  }

  // ---------------------------------------------------------------------
  // Lemmas

  lemma {:induction false} FoldAtLeast(acc: nat, s: string)
    requires AllDigits(s)
    ensures Fold(acc, s) >= acc
    ensures |s| > 0 ==> Fold(acc, s) >= acc * 10
    decreases |s|
  {
    if s != [] {
      FoldAtLeast(acc * 10 + DigitValue(s[0]), s[1..]);
    }
  }

  lemma {:induction false} FoldSnoc(acc: nat, s: string, c: char)
    requires AllDigits(s) && IsDigit(c)
    ensures AllDigits(s + [c])
    ensures Fold(acc, s + [c]) == Fold(acc, s) * 10 + DigitValue(c)
    decreases |s|
  {
    if s == [] {
      assert s + [c] == [c];
    } else {
      assert (s + [c])[1..] == s[1..] + [c];
      FoldSnoc(acc * 10 + DigitValue(s[0]), s[1..], c);
    }
  }

  /** ParseUint's scan yields the denoted value whenever that value fits
      in 64 bits. */
  lemma {:induction false} ScanDigits(s: string, acc: nat)
    requires AllDigits(s) && acc <= MaxUint64
    requires Fold(acc, s) <= MaxUint64
    ensures Scan(s, acc) == Value(Fold(acc, s))
    decreases |s|
  {
    if s != [] {
      var next := acc * 10 + DigitValue(s[0]);
      FoldAtLeast(next, s[1..]);
      ScanDigits(s[1..], next);
    }
  }

  /** A scan reads through a run of digits and then continues from their
      value; it stops at the first non-digit when no overflow came first. */
  lemma {:induction false} ScanStopsAtNonDigit(s: string, j: nat, acc: nat)
    requires j < |s| && !IsDigit(s[j]) && AllDigits(s[..j])
    requires acc <= MaxUint64 && Fold(acc, s[..j]) <= MaxUint64
    ensures Scan(s, acc) == SyntaxError
    decreases j
  {
    if j > 0 {
      var next := acc * 10 + DigitValue(s[0]);
      assert s[..j][1..] == s[1..][..j - 1];
      assert s[..j][0] == s[0];
      FoldAtLeast(next, s[1..][..j - 1]);
      ScanStopsAtNonDigit(s[1..], j - 1, next);
    }
  }

  lemma {:induction false} DecimalValueOfDecimal(n: nat)
    ensures DecimalValue(Decimal(n)) == n
    decreases n
  {
    if n < 10 {
      var d := Decimal(n);
      assert d == [DigitChar(n)] && d[1..] == [];
      assert Fold(0, d) == Fold(DigitValue(d[0]), d[1..]);
    } else {
      DecimalValueOfDecimal(n / 10);
      FoldSnoc(0, Decimal(n / 10), DigitChar(n % 10));
    }
  }

  /** Atoi reads back what %d writes, for every 64-bit int. */
  lemma AtoiFormatInt(n: int)
    requires MinInt64 <= n <= MaxInt64
    ensures Atoi(FormatInt(n)) == n
  {
    var m: nat := if n < 0 then -n else n;
    DecimalValueOfDecimal(m);
    ScanDigits(Decimal(m), 0);
    if n < 0 {
      assert Unsigned(FormatInt(n)) == Decimal(m);
    } else {
      assert IsDigit(Decimal(m)[0]);
      assert Unsigned(FormatInt(n)) == Decimal(m);
    }
  }

  /** A string of digits (no sign) whose value fits an int is read as
      that value. */
  lemma AtoiDigits(s: string)
    requires |s| > 0 && AllDigits(s) && DecimalValue(s) <= MaxInt64
    ensures Atoi(s) == DecimalValue(s)
  {
    assert IsDigit(s[0]);
    assert Unsigned(s) == s;
    ScanDigits(s, 0);
  }

  /** Atoi's discarded syntax error: when, after an optional sign, a
      non-digit comes before the digits read so far could overflow, the
      result is 0. */
  lemma AtoiSyntaxError(s: string, j: nat)
    requires j < |Unsigned(s)| && !IsDigit(Unsigned(s)[j])
    requires AllDigits(Unsigned(s)[..j]) && DecimalValue(Unsigned(s)[..j]) <= MaxUint64
    ensures Atoi(s) == 0
  {
    ScanStopsAtNonDigit(Unsigned(s), j, 0);
  }
}
