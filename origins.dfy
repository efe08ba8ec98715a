/** The server's CORS allow-list: expansion of the configured origins
    (wildcard ports, loopback mirroring), the choice between expansion and
    the universal `"*"`, and the per-request admission decision. */
module Origins {
  import opened Common

  /** The three parts of a parsed URL that the expansion reads.
      `protocol` carries its trailing colon, as in `"http:"`. */
  datatype Url = Url(protocol: string, hostname: string, port: string)

  /** A URL scheme: a letter followed by letters, digits, `+`, `-` or `.`. */
  predicate IsScheme(s: string)
  {
    && |s| > 0
    && (('a' <= s[0] <= 'z') || ('A' <= s[0] <= 'Z'))
    && forall i :: 0 <= i < |s| ==>
         ('a' <= s[i] <= 'z') || ('A' <= s[i] <= 'Z') || IsDigit(s[i]) || s[i] in "+-."
  }

  /** The largest port the URL constructor accepts. */
  const MaxPort: nat := 65535

  function Pow10(n: nat): (r: nat)
    ensures r >= 1
  {
    if n == 0 then 1 else 10 * Pow10(n - 1)
  }

  lemma DigitTimesPower(d: int, p: nat, rest: nat)
    requires 0 <= d <= 9 && rest < p
    ensures 0 <= d * p + rest < 10 * p
  {
    assert d * p <= 9 * p;
  }

  /** The number a string of decimal digits denotes. */
  function PortValue(digits: string): (v: nat)
    requires AllDigits(digits)
    ensures v < Pow10(|digits|)
  {
    if digits == [] then 0
    else
      var d := digits[0] as int - '0' as int;
      var rest := PortValue(digits[1..]);
      var p := Pow10(|digits| - 1);
      DigitTimesPower(d, p, rest);
      d * p + rest
  }

  /** Leading zeros removed, keeping a lone `0`. */
  function StripLeadingZeros(digits: string): (r: string)
    requires AllDigits(digits)
    ensures AllDigits(r) && PortValue(r) == PortValue(digits)
    ensures |r| <= 1 || r[0] != '0'
    ensures r == "" <==> digits == ""
  {
    if |digits| > 1 && digits[0] == '0' then StripLeadingZeros(digits[1..]) else digits
  }

  /** The default port of a special scheme, which the constructor drops. */
  function DefaultPort(protocol: string): string
  {
    if protocol == "http:" || protocol == "ws:" then "80"
    else if protocol == "https:" || protocol == "wss:" then "443"
    else if protocol == "ftp:" then "21"
    else ""
  }

  /** A value the `port` property of a parsed URL can take: empty, or the
      decimal digits of a port in range, without leading zeros, that is
      not the scheme's default. */
  predicate IsPortProperty(protocol: string, port: string)
  {
    port == "" ||
    (&& AllDigits(port)
     && (|port| == 1 || port[0] != '0')
     && PortValue(port) <= MaxPort
     && port != DefaultPort(protocol))
  }

  /** The `port` property for the digits written after the host, once the
      constructor has checked the range: the number without leading zeros,
      or nothing when it is the scheme's default. */
  function SerializedPort(protocol: string, digits: string): (p: string)
    requires AllDigits(digits) && PortValue(digits) <= MaxPort
    ensures IsPortProperty(protocol, p)
    ensures p != "" ==> PortValue(p) == PortValue(digits)
    ensures IsPortProperty(protocol, digits) ==> p == digits
    ensures p == "" <==> digits == "" || StripLeadingZeros(digits) == DefaultPort(protocol)
  {
    var c := StripLeadingZeros(digits);
    if c == DefaultPort(protocol) then "" else c
  }

  /** `new URL(s)` on the shape `scheme://host[:port][/path]`; `None` stands
      for the constructor throwing. Scheme and host are lower-cased, the
      host taken as written otherwise; a port must be all digits and at
      most 65535, and it is kept without leading zeros and dropped when it
      is the scheme's default. */
  function Parse(s: string): (u: Option<Url>)
    ensures FirstIndex(s, ':') == |s| ==> u.None?
    ensures u.Some? ==> IsScheme(s[..FirstIndex(s, ':')]) && "://" <= s[FirstIndex(s, ':')..]
    ensures u.Some? ==> |u.value.protocol| > 1 && u.value.protocol[|u.value.protocol| - 1] == ':'
    ensures u.Some? ==> IsLowerCase(u.value.hostname) && AllDigits(u.value.port)
    ensures u.Some? ==> IsPortProperty(u.value.protocol, u.value.port)
  {
    var i := FirstIndex(s, ':');
    if i == |s| || !IsScheme(s[..i]) || !("://" <= s[i..]) then None
    else
      var rest := s[i + 3..];
      ParseAuthority(Lower(s[..i]) + ":", rest[..FirstIndex(rest, '/')])
  }

  /** The part of `new URL(s)` after `scheme://`: the authority splits at
      its first `:` into host and port. */
  function ParseAuthority(protocol: string, authority: string): (u: Option<Url>)
    ensures u.Some? ==> u.value.protocol == protocol
    ensures u.Some? ==> IsLowerCase(u.value.hostname) && IsPortProperty(protocol, u.value.port)
  {
    var c := FirstIndex(authority, ':');
    var port := if c < |authority| then authority[c + 1..] else "";
    if !AllDigits(port) || PortValue(port) > MaxPort then None
    else
      LowerIsLowerCase(authority[..c]);
      Some(Url(protocol, Lower(authority[..c]), SerializedPort(protocol, port)))
  }

  predicate IsLoopback(hostname: string)
  {
    hostname == "localhost" || hostname == "127.0.0.1"
  }

  /** The development ports a wildcard entry expands to, in the order they
      are added. */
  const DevPorts: seq<string> := ["3000", "5173", "5501", "5000", "5001", "8080", "8081"]

  /** `base + port` for every development port. */
  function WildcardExpansion(base: string): (r: seq<string>)
    ensures |r| == |DevPorts|
    ensures forall k :: 0 <= k < |DevPorts| ==> r[k] == base + DevPorts[k]
  {
    seq(|DevPorts|, k requires 0 <= k < |DevPorts| => base + DevPorts[k])
  }

  /** `:port` when the URL has a port, nothing otherwise. */
  function PortSegment(u: Url): string
  {
    if u.port != "" then ":" + u.port else ""
  }

  /** What one configured entry adds to the set, in the order it adds it. */
  function Contribution(origin: string): seq<string>
  {
    if '*' in origin then WildcardExpansion(RemoveFirst(origin, '*'))
    else
      match Parse(origin)
      // The constructor threw. The callback's catch tests `origin === "*"`, but an
      // entry holding `*` never reaches this branch; both arms add `origin`.
      case None => [origin]
      case Some(u) => ParsedContribution(origin, u)
  }

  /** What an entry that parsed to `u` adds. */
  function ParsedContribution(origin: string, u: Url): seq<string>
  {
    if u.protocol == "" || u.hostname == "" then []
    else if IsLoopback(u.hostname) then
      [u.protocol + "//localhost" + PortSegment(u), u.protocol + "//127.0.0.1" + PortSegment(u)]
    else [origin]
  }

  /** Every contribution of `origins`, entry by entry. */
  function AllContributions(origins: seq<string>): seq<string>
  {
    if origins == [] then []
    else AllContributions(origins[..|origins| - 1]) + Contribution(origins[|origins| - 1])
  }

  predicate NoDuplicates(s: seq<string>)
  {
    forall i, j :: 0 <= i < j < |s| ==> s[i] != s[j]
  }

  /** `Set.prototype.add` on an insertion-ordered set held as a sequence. */
  function Add(acc: seq<string>, x: string): seq<string>
  {
    if x in acc then acc else acc + [x]
  }

  /** Adding every element of `xs` in order. */
  function AddAll(acc: seq<string>, xs: seq<string>): seq<string>
  {
    if xs == [] then acc else Add(AddAll(acc, xs[..|xs| - 1]), xs[|xs| - 1])
  }

  /** The array the expansion returns: `new Set(origins)` followed by every
      entry's contribution, in insertion order. */
  function ExpandSpec(origins: seq<string>): seq<string>
  {
    AddAll(AddAll([], origins), AllContributions(origins))
  }

  lemma {:induction false} AddAllConcat(acc: seq<string>, xs: seq<string>, ys: seq<string>)
    ensures AddAll(acc, xs + ys) == AddAll(AddAll(acc, xs), ys)
  {
    if ys == [] {
      assert xs + ys == xs;
    } else {
      assert (xs + ys)[..|xs + ys| - 1] == xs + ys[..|ys| - 1];
      AddAllConcat(acc, xs, ys[..|ys| - 1]);
    }
  }

  /** Adding a sequence adds exactly its elements and never a duplicate. */
  lemma {:induction false} AddAllElements(acc: seq<string>, xs: seq<string>)
    requires NoDuplicates(acc)
    ensures NoDuplicates(AddAll(acc, xs))
    ensures forall x :: x in AddAll(acc, xs) <==> x in acc || x in xs
  {
    if xs != [] {
      var prefix := xs[..|xs| - 1];
      AddAllElements(acc, prefix);
      assert xs == prefix + [xs[|xs| - 1]];
    }
  }

  lemma {:induction false} AllContributionsStep(origins: seq<string>, i: nat)
    requires i < |origins|
    ensures AllContributions(origins[..i + 1]) == AllContributions(origins[..i]) + Contribution(origins[i])
  {
    assert origins[..i + 1][..i] == origins[..i];
  }

  lemma {:induction false} ContributionIncluded(origins: seq<string>, i: nat, x: string)
    requires i < |origins| && x in Contribution(origins[i])
    ensures x in AllContributions(origins)
  {
    var prefix := origins[..|origins| - 1];
    if i < |origins| - 1 {
      assert prefix[i] == origins[i];
      ContributionIncluded(prefix, i, x);
    }
  }

  lemma {:induction false} ContributionSource(origins: seq<string>, x: string) returns (i: nat)
    requires x in AllContributions(origins)
    ensures i < |origins| && x in Contribution(origins[i])
  {
    assert origins != [];
    var prefix := origins[..|origins| - 1];
    var last := Contribution(origins[|origins| - 1]);
    assert AllContributions(origins) == AllContributions(prefix) + last;
    assert x in AllContributions(prefix) + last;
    if x in last {
      i := |origins| - 1;
    } else {
      i := ContributionSource(prefix, x);
      assert prefix[i] == origins[i];
    }
  }

  /** An element of the contributions comes from some entry, and every
      entry's contribution is there. */
  lemma AllContributionsElements(origins: seq<string>)
    ensures forall i, x :: 0 <= i < |origins| && x in Contribution(origins[i]) ==> x in AllContributions(origins)
    ensures forall x :: x in AllContributions(origins) ==>
              exists i :: 0 <= i < |origins| && x in Contribution(origins[i])
  {
    forall i, x | 0 <= i < |origins| && x in Contribution(origins[i])
      ensures x in AllContributions(origins)
    {
      ContributionIncluded(origins, i, x);
    }
    forall x | x in AllContributions(origins)
      ensures exists i :: 0 <= i < |origins| && x in Contribution(origins[i])
    {
      var i := ContributionSource(origins, x);
    }
  }

  /** The inner `forEach` of a wildcard entry: adds `base` followed by each
      development port, in order. */
  method AddWildcardPorts(expanded: seq<string>, base: string) returns (r: seq<string>)
    ensures r == AddAll(expanded, WildcardExpansion(base))
  {
    r := expanded;
    ghost var ports := WildcardExpansion(base);
    var j := 0;
    while j < |DevPorts|
      invariant 0 <= j <= |DevPorts|
      invariant r == AddAll(expanded, ports[..j])
    {
      assert ports[..j + 1] == ports[..j] + [base + DevPorts[j]];
      AddAllConcat(expanded, ports[..j], [base + DevPorts[j]]);
      r := Add(r, base + DevPorts[j]);
      j := j + 1;
    }
    assert ports[..j] == ports;
  }

  /** The part of the `forEach` callback after the URL constructor
      succeeded: nothing for an empty protocol or host, both spellings for
      a loopback host, else the entry itself. */
  method AddParsed(expanded: seq<string>, origin: string, u: Url) returns (r: seq<string>)
    ensures r == AddAll(expanded, ParsedContribution(origin, u))
  {
    r := expanded;
    if u.protocol == "" || u.hostname == "" {
      return;
    }
    var portSegment := if u.port != "" then ":" + u.port else "";
    if u.hostname == "localhost" || u.hostname == "127.0.0.1" {
      var local, loop := u.protocol + "//localhost" + portSegment, u.protocol + "//127.0.0.1" + portSegment;
      r := Add(r, local);
      r := Add(r, loop);
      assert [local, loop] == ParsedContribution(origin, u);
      AddAllConcat(expanded, [local], [loop]);
      AddAllConcat(expanded, [], [local]);
    } else {
      r := Add(r, origin);
      AddAllConcat(expanded, [], [origin]);
    }
  }

  /** The `forEach` callback of `expandAllowedOrigins`: adds the entry's
      contribution to the set, returning early once the entry is handled. */
  method AddEntry(expanded: seq<string>, origin: string) returns (r: seq<string>)
    ensures r == AddAll(expanded, Contribution(origin))
  {
    if '*' in origin {
      r := AddWildcardPorts(expanded, RemoveFirst(origin, '*'));
      return;
    }
    var url := Parse(origin);
    if url.None? {
      // The constructor threw: the entry is kept as it is.
      r := Add(expanded, origin);
      AddAllConcat(expanded, [], [origin]);
      return;
    }
    r := AddParsed(expanded, origin, url.value);
  }

  /** `expandAllowedOrigins`: start from the set of configured entries and
      add, entry by entry, the ports of a wildcard entry, both loopback
      spellings of a loopback URL, or the entry itself. */
  method ExpandAllowedOrigins(origins: seq<string>) returns (expanded: seq<string>)
    ensures expanded == ExpandSpec(origins)
    ensures NoDuplicates(expanded)
    ensures forall o :: o in origins ==> o in expanded
  {
    expanded := AddAll([], origins);
    var i := 0;
    while i < |origins|
      invariant 0 <= i <= |origins|
      invariant expanded == AddAll(AddAll([], origins), AllContributions(origins[..i]))
    {
      expanded := AddEntry(expanded, origins[i]);
      AllContributionsStep(origins, i);
      AddAllConcat(AddAll([], origins), AllContributions(origins[..i]), Contribution(origins[i]));
      i := i + 1;
    }
    assert origins[..i] == origins;
    AddAllElements([], origins);
    AddAllElements(AddAll([], origins), AllContributions(origins));
  }

  /** The expanded array holds exactly the configured entries and their
      contributions, with no duplicate. */
  lemma ExpandSpecElements(origins: seq<string>)
    ensures NoDuplicates(ExpandSpec(origins))
    ensures forall x :: x in ExpandSpec(origins) <==>
              x in origins || exists i :: 0 <= i < |origins| && x in Contribution(origins[i])
  {
    AddAllElements([], origins);
    AddAllElements(AddAll([], origins), AllContributions(origins));
    AllContributionsElements(origins);
  }

  /** An entry holding `*` yields the entry with its first `*` removed,
      followed by each development port. */
  lemma WildcardEntryAddsPorts(origins: seq<string>, i: nat, k: nat)
    requires i < |origins| && '*' in origins[i] && k < |DevPorts|
    ensures RemoveFirst(origins[i], '*') + DevPorts[k] in ExpandSpec(origins)
  {
    ExpandSpecElements(origins);
    assert RemoveFirst(origins[i], '*') + DevPorts[k] in Contribution(origins[i]);
  }

  /** What a loopback URL contributes: both loopback spellings with its
      own protocol and port. */
  lemma LoopbackContribution(origin: string)
    requires '*' !in origin
    requires Parse(origin).Some? && IsLoopback(Parse(origin).value.hostname)
    ensures var u := Parse(origin).value;
            Contribution(origin) == [u.protocol + "//localhost" + PortSegment(u), u.protocol + "//127.0.0.1" + PortSegment(u)]
  {
  }

  /** A loopback URL in the list puts both loopback spellings, with its
      protocol and port, in the expansion. */
  lemma LoopbackEntryMirrored(origins: seq<string>, i: nat)
    requires i < |origins| && '*' !in origins[i]
    requires Parse(origins[i]).Some? && IsLoopback(Parse(origins[i]).value.hostname)
    ensures var u := Parse(origins[i]).value;
            && u.protocol + "//localhost" + PortSegment(u) in ExpandSpec(origins)
            && u.protocol + "//127.0.0.1" + PortSegment(u) in ExpandSpec(origins)
  {
    var u := Parse(origins[i]).value;
    LoopbackContribution(origins[i]);
    assert u.protocol + "//localhost" + PortSegment(u) in Contribution(origins[i]);
    assert u.protocol + "//127.0.0.1" + PortSegment(u) in Contribution(origins[i]);
    ExpandSpecElements(origins);
  }

  /** An entry with no wildcard that is not a loopback URL adds nothing but
      itself. */
  lemma PlainEntryAddsItself(origin: string)
    requires '*' !in origin
    requires Parse(origin).Some? ==> !IsLoopback(Parse(origin).value.hostname)
    ensures forall x :: x in Contribution(origin) ==> x == origin
  {
  }

  /** A list with no wildcard entry and no loopback URL expands to exactly
      its own entries. */
  lemma PlainListUnchanged(origins: seq<string>)
    requires forall o :: o in origins ==> '*' !in o
    requires forall o :: o in origins && Parse(o).Some? ==> !IsLoopback(Parse(o).value.hostname)
    ensures forall x :: x in ExpandSpec(origins) <==> x in origins
  {
    ExpandSpecElements(origins);
    forall x | x in ExpandSpec(origins) ensures x in origins {
      if exists i :: 0 <= i < |origins| && x in Contribution(origins[i]) {
        var i :| 0 <= i < |origins| && x in Contribution(origins[i]);
        PlainEntryAddsItself(origins[i]);
      }
    }
  }

  lemma {:induction false} FirstIndexIs(s: string, c: char, i: nat)
    requires i < |s| && s[i] == c && c !in s[..i]
    ensures FirstIndex(s, c) == i
  {
    if i > 0 {
      assert s[1..][..i - 1] == s[1..i];
      FirstIndexIs(s[1..], c, i - 1);
    }
  }

  /** A wildcard entry `base*` contributes `base` followed by each port. */
  lemma WildcardContribution(base: string)
    requires '*' !in base
    ensures Contribution(base + "*") == WildcardExpansion(base)
  {
    var entry := base + "*";
    assert entry[..|base|] == base && entry[|base| + 1..] == [];
    FirstIndexIs(entry, '*', |base|);
    assert RemoveFirst(entry, '*') == base;
  }

  /** The text after `http://` when the host holds no `:` or `/` and the
      port is all digits: the authority is all of it, split at the `:`. */
  lemma {:induction false} HostPortAuthority(rest: string, host: string, port: string)
    requires rest == host + ":" + port
    requires ':' !in host && '/' !in host && AllDigits(port)
    ensures FirstIndex(rest, '/') == |rest|
    ensures FirstIndex(rest, ':') == |host|
    ensures rest[..|host|] == host && rest[|host| + 1..] == port
  {
    assert '/' !in rest by {
      forall k | 0 <= k < |rest| ensures rest[k] != '/' {
        if k < |host| { assert rest[k] == host[k]; }
        else if k > |host| { assert rest[k] == port[k - |host| - 1]; }
      }
    }
    assert rest[..|host|] == host;
    FirstIndexIs(rest, ':', |host|);
  }

  /** `http://` followed by anything splits at index 4 into the scheme
      `http` and `://`. */
  lemma {:induction false} HttpScheme(s: string, rest: string)
    requires s == "http://" + rest
    ensures FirstIndex(s, ':') == 4 && IsScheme(s[..4]) && "://" <= s[4..]
    ensures s[7..] == rest && Lower(s[..4]) + ":" == "http:"
  {
    var scheme := s[..4];
    assert scheme == "http";
    FirstIndexIs(s, ':', 4);
    assert s[4..][..3] == "://";
    LowerOfLowerCase(scheme);
  }

  /** `http://host:port` parses to its parts when the host holds no `:` or
      `/` and the port is all digits. */
  lemma ParseHttpHostPort(host: string, port: string)
    requires ':' !in host && '/' !in host && AllDigits(port)
    ensures PortValue(port) > MaxPort ==> Parse("http://" + host + ":" + port).None?
    ensures PortValue(port) <= MaxPort ==>
              Parse("http://" + host + ":" + port) == Some(Url("http:", Lower(host), SerializedPort("http:", port)))
  {
    var rest := host + ":" + port;
    var s := "http://" + rest;
    assert s == "http://" + host + ":" + port;
    HttpScheme(s, rest);
    HostPortAuthority(rest, host, port);
    assert rest[..|rest|] == rest;
    assert Parse(s) == ParseAuthority("http:", rest);
    HostPortSplit(rest, host, port);
  }

  /** The authority `host:port` splits into the host and the port. */
  lemma HostPortSplit(rest: string, host: string, port: string)
    requires rest == host + ":" + port
    requires ':' !in host && '/' !in host && AllDigits(port)
    ensures PortValue(port) > MaxPort ==> ParseAuthority("http:", rest).None?
    ensures PortValue(port) <= MaxPort ==>
              ParseAuthority("http:", rest) == Some(Url("http:", Lower(host), SerializedPort("http:", port)))
  {
    HostPortAuthority(rest, host, port);
  }

  /** Leading zeros of a port make no difference: the constructor reads
      the number. */
  lemma LeadingZeroPortDropped(host: string, port: string)
    requires ':' !in host && '/' !in host && AllDigits(port) && port != ""
    ensures Parse("http://" + host + ":" + "0" + port) == Parse("http://" + host + ":" + port)
  {
    var zeroed := "0" + port;
    assert AllDigits(zeroed) by {
      forall k | 0 <= k < |zeroed| ensures IsDigit(zeroed[k]) {
        if k > 0 { assert zeroed[k] == port[k - 1]; }
      }
    }
    assert zeroed[1..] == port;
    assert PortValue(zeroed) == PortValue(port);
    assert StripLeadingZeros(zeroed) == StripLeadingZeros(port);
    assert "http://" + host + ":" + "0" + port == "http://" + host + ":" + zeroed;
    ParseHttpHostPort(host, zeroed);
    ParseHttpHostPort(host, port);
  }

  /** The scheme's default port is dropped, so `http://host:80` mirrors
      to the port-less spellings. The port is a parameter fixed by
      `requires` so that the literal is not unfolded in the proof. */
  lemma DefaultPortDropped(host: string, port: string)
    requires ':' !in host && '/' !in host && port == "80"
    ensures Parse("http://" + host + ":" + port) == Some(Url("http:", Lower(host), ""))
  {
    assert AllDigits(port) && PortValue(port) == 80;
    assert StripLeadingZeros(port) == port;
    ParseHttpHostPort(host, port);
  }

  /** A port above 65535 makes the constructor throw, so the entry is kept
      as written and nothing is mirrored. */
  lemma OutOfRangePortKeptVerbatim(host: string, port: string)
    requires ':' !in host && '/' !in host && '*' !in host
    requires AllDigits(port) && PortValue(port) > MaxPort
    ensures Contribution("http://" + host + ":" + port) == ["http://" + host + ":" + port]
  {
    ParseHttpHostPort(host, port);
    HostPortHasNoStar(host, port);
  }

  /** An authority `host:port` splits at its only `:` into the host and
      the port, which the constructor range-checks and rewrites. */
  lemma AuthorityParts(protocol: string, host: string, port: string)
    requires ':' !in host && AllDigits(port)
    ensures ParseAuthority(protocol, host + ":" + port) ==
              if PortValue(port) > MaxPort then None
              else Some(Url(protocol, Lower(host), SerializedPort(protocol, port)))
  {
    var a := host + ":" + port;
    assert a[..|host|] == host && a[|host| + 1..] == port;
    FirstIndexIs(a, ':', |host|);
  }

  /** An authority without `:` is all host, with no port. */
  lemma AuthorityNoPort(protocol: string, host: string)
    requires ':' !in host
    ensures ParseAuthority(protocol, host) == Some(Url(protocol, Lower(host), ""))
  {
    assert host[..|host|] == host;
    assert AllDigits("") && PortValue("") == 0;
  }

  /** `scheme://authority` with no path parses its authority under the
      lower-cased scheme. */
  lemma SchemeAuthority(scheme: string, authority: string)
    requires IsScheme(scheme) && '/' !in authority
    ensures Parse(scheme + "://" + authority) == ParseAuthority(Lower(scheme) + ":", authority)
  {
    var s := scheme + "://" + authority;
    assert ':' !in scheme by {
      forall k | 0 <= k < |scheme| ensures scheme[k] != ':' {
        assert IsDigit(scheme[k]) || scheme[k] in "+-." || ('a' <= scheme[k] <= 'z') || ('A' <= scheme[k] <= 'Z');
      }
    }
    assert s[..|scheme|] == scheme && s[|scheme|] == ':';
    FirstIndexIs(s, ':', |scheme|);
    assert s[|scheme|..][..3] == "://";
    var rest := s[|scheme| + 3..];
    assert rest == authority;
    assert rest[..|rest|] == rest;
  }

  lemma SingleEntryElements(entry: string, x: string)
    requires x in ExpandSpec([entry])
    ensures x == entry || x in Contribution(entry)
  {
    ExpandSpecElements([entry]);
  }

  lemma NotPrefixAt(p: string, s: string, k: nat)
    requires k < |p| && k < |s| && p[k] != s[k]
    ensures !(p <= s)
  {
  }

  /** Everything a lone wildcard entry expands to starts with its base. */
  lemma WildcardEntryPrefix(entry: string, base: string)
    requires Contribution(entry) == WildcardExpansion(base) && base <= entry
    ensures forall x :: x in ExpandSpec([entry]) ==> base <= x
  {
    forall x | x in ExpandSpec([entry]) ensures base <= x {
      SingleEntryElements(entry, x);
      if x != entry {
        var k :| 0 <= k < |DevPorts| && x == WildcardExpansion(base)[k];
        assert x == base + DevPorts[k];
      }
    }
  }

  /** One pass over `http://localhost:*` does not admit the `127.0.0.1`
      spelling of any port. The host is a parameter fixed by `requires` so
      that the literal is not unfolded. */
  lemma WildcardLoopbackNotMirrored(host: string, port: string)
    requires host == "localhost"
    ensures "http:" + "//127.0.0.1" + ":" + port !in ExpandSpec(["http://" + host + ":" + "*"])
  {
    var base := "http://" + host + ":";
    var mirrored := "http:" + "//127.0.0.1" + ":" + port;
    assert '*' !in base;
    assert base + "*" == "http://" + host + ":" + "*";
    WildcardContribution(base);
    WildcardEntryPrefix(base + "*", base);
    assert mirrored[7] == '1' && base[7] == 'l';
    NotPrefixAt(base, mirrored, 7);
  }

  /** What the proofs need to know of the literal `localhost`, passed as
      a parameter so that it is unfolded only here. */
  lemma LocalhostHost(host: string)
    requires host == "localhost"
    ensures IsLoopback(host) && IsLowerCase(host)
    ensures ':' !in host && '/' !in host && '*' !in host
  {
  }

  /** The expansion of `http://host:*` holds `http://host:port` for every
      development port. */
  lemma WildcardHostPort(host: string, k: nat)
    requires '*' !in host && k < |DevPorts|
    ensures "http://" + host + ":" + DevPorts[k] in ExpandSpec(["http://" + host + ":" + "*"])
  {
    var base := "http://" + host + ":";
    assert base + "*" == "http://" + host + ":" + "*";
    assert base + DevPorts[k] == "http://" + host + ":" + DevPorts[k];
    WildcardEntryAddsPorts([base + "*"], 0, k);
    WildcardContribution(base);
    assert RemoveFirst(base + "*", '*') == base;
  }

  /** A second pass over the expansion of `http://host:*`, for a loopback
      host, admits both loopback spellings of every development port. */
  lemma WildcardLoopbackMirroredTwice(host: string, k: nat)
    requires IsLoopback(host) && IsLowerCase(host)
    requires ':' !in host && '/' !in host && '*' !in host
    requires k < |DevPorts|
    ensures var twice := ExpandSpec(ExpandSpec(["http://" + host + ":" + "*"]));
            && "http:" + "//localhost" + ":" + DevPorts[k] in twice
            && "http:" + "//127.0.0.1" + ":" + DevPorts[k] in twice
  {
    var port := DevPorts[k];
    DevPortsAreNumbers(k);
    var once := ExpandSpec(["http://" + host + ":" + "*"]);
    var local := "http://" + host + ":" + port;
    WildcardHostPort(host, k);
    var j :| 0 <= j < |once| && once[j] == local;
    LoopbackHostPortMirrored(once, j, host, port);
  }

  /** Every development port is a four-digit number, so the constructor
      keeps it as written. */
  lemma DevPortsAreNumbers(k: nat)
    requires k < |DevPorts|
    ensures DevPorts[k] != "" && IsPortProperty("http:", DevPorts[k])
  {
    var p := DevPorts[k];
    assert |p| == 4 && p[0] != '0' && AllDigits(p);
    assert PortValue(p) < Pow10(4) == 10000;
  }

  /** `http://host:port` holds no `*` when neither part does. */
  lemma HostPortHasNoStar(host: string, port: string)
    requires '*' !in host && AllDigits(port)
    ensures '*' !in "http://" + host + ":" + port
  {
    var s := "http://" + host + ":" + port;
    forall k | 0 <= k < |s| ensures s[k] != '*' {
      if 7 <= k < 7 + |host| {
        assert s[k] == host[k - 7];
      } else if k > 7 + |host| {
        assert s[k] == port[k - 8 - |host|];
      }
    }
  }

  /** The two spellings the expansion builds for `http:` and a port. */
  lemma LoopbackSpellings(u: Url, port: string)
    requires u.protocol == "http:" && u.port == port && port != ""
    ensures u.protocol + "//localhost" + PortSegment(u) == "http:" + "//localhost" + ":" + port
    ensures u.protocol + "//127.0.0.1" + PortSegment(u) == "http:" + "//127.0.0.1" + ":" + port
  {
    assert PortSegment(u) == ":" + port;
  }

  /** A list entry `http://host:port` with a loopback host puts both
      loopback spellings of that port in the next expansion. */
  lemma LoopbackHostPortMirrored(origins: seq<string>, j: nat, host: string, port: string)
    requires j < |origins| && origins[j] == "http://" + host + ":" + port
    requires IsLoopback(host) && IsLowerCase(host)
    requires ':' !in host && '/' !in host && '*' !in host
    requires port != "" && IsPortProperty("http:", port)
    ensures "http:" + "//localhost" + ":" + port in ExpandSpec(origins)
    ensures "http:" + "//127.0.0.1" + ":" + port in ExpandSpec(origins)
  {
    ParseHttpHostPort(host, port);
    LowerOfLowerCase(host);
    HostPortHasNoStar(host, port);
    LoopbackEntryMirrored(origins, j);
    LoopbackSpellings(Parse(origins[j]).value, port);
  }

  /** Expansion is not idempotent: a second pass mirrors the ports a
      wildcard loopback entry produced. The list is a parameter fixed by
      `requires` so that the literal is not unfolded. */
  lemma ExpansionNotIdempotent(config: seq<string>)
    requires config == ["http://localhost:*"]
    ensures ExpandSpec(ExpandSpec(config)) != ExpandSpec(config)
  {
    var e := config[0];
    var host := e[7..16];
    assert e == e[..7] + host + e[16..17] + e[17..];
    assert e[..7] == "http://" && e[16..17] == ":" && e[17..] == "*";
    assert config == ["http://" + host + ":" + "*"];
    WildcardLoopbackNotMirrored(host, DevPorts[0]);
    LocalhostHost(host);
    WildcardLoopbackMirroredTwice(host, 0);
  }

  /** A bare `"*"` entry takes the wildcard branch: it adds the port
      numbers themselves. */
  lemma BareStarExpandsToPorts()
    ensures Contribution("*") == DevPorts
  {
    assert RemoveFirst("*", '*') == "";
    assert WildcardExpansion("") == DevPorts by {
      forall k | 0 <= k < |DevPorts| ensures WildcardExpansion("")[k] == DevPorts[k] {
        assert "" + DevPorts[k] == DevPorts[k];
      }
    }
  }

  lemma WildcardHasNoStar(base: string)
    ensures "*" !in WildcardExpansion(base)
  {
    var w := WildcardExpansion(base);
    forall k | 0 <= k < |w| ensures w[k] != "*" {
      DevPortsAreNumbers(k);
      assert |w[k]| >= |DevPorts[k]| == 4;
    }
  }

  lemma ParsedHasNoStar(origin: string, u: Url)
    requires origin != "*"
    ensures "*" !in ParsedContribution(origin, u)
  {
    if u.protocol != "" && u.hostname != "" && IsLoopback(u.hostname) {
      assert |u.protocol + "//localhost" + PortSegment(u)| > 1;
      assert |u.protocol + "//127.0.0.1" + PortSegment(u)| > 1;
    }
  }

  /** No entry other than `"*"` itself contributes `"*"`: ports are four
      digits long, loopback spellings are long, and anything else is the
      entry. */
  lemma NoStarContribution(origin: string)
    requires origin != "*"
    ensures "*" !in Contribution(origin)
  {
    if '*' in origin {
      WildcardHasNoStar(RemoveFirst(origin, '*'));
    } else if Parse(origin).Some? {
      ParsedHasNoStar(origin, Parse(origin).value);
    }
  }

  /** The allow-list the server uses: `["*"]` when `"*"` is configured,
      otherwise the expansion, which keeps every entry and never holds
      `"*"`. */
  function EffectiveOrigins(config: seq<string>): (r: seq<string>)
    ensures "*" in config ==> r == ["*"]
    ensures "*" !in config ==> r == ExpandSpec(config) && "*" !in r
    ensures "*" !in config ==> forall o :: o in config ==> o in r
  {
    if "*" in config then ["*"]
    else
      ExpandSpecElements(config);
      forall i | 0 <= i < |config| ensures "*" !in Contribution(config[i]) {
        NoStarContribution(config[i]);
      }
      ExpandSpec(config)
  }

  /** The origin setting of the socket server. */
  datatype SocketOrigin = AnyOrigin | OriginList(list: seq<string>)

  function SocketOriginFor(expanded: seq<string>): (r: SocketOrigin)
    ensures r.AnyOrigin? <==> "*" in expanded
    ensures r.OriginList? ==> r.list == expanded
  {
    if "*" in expanded then AnyOrigin else OriginList(expanded)
  }

  datatype CorsVerdict = Allow | Reject(message: string)

  /** The CORS `origin` callback; the empty string stands for a request
      without an `Origin` header. The first guard that matches decides. */
  function CorsDecision(origin: string, allowed: seq<string>): (v: CorsVerdict)
    ensures v.Reject? ==> v.message == "Not allowed by CORS"
    ensures v == Allow <==>
              || origin == ""
              || "http://localhost:" <= origin
              || "http://127.0.0.1:" <= origin
              || "*" in allowed
              || origin in allowed
  {
    if origin == "" then Allow
    else if "http://localhost:" <= origin || "http://127.0.0.1:" <= origin then Allow
    else if "*" in allowed then Allow
    else if origin in allowed then Allow
    else Reject("Not allowed by CORS")
  }

  /** When `"*"` is configured every request origin is admitted. */
  lemma StarConfigAdmitsAll(config: seq<string>, origin: string)
    requires "*" in config
    ensures CorsDecision(origin, EffectiveOrigins(config)) == Allow
  {
  }

  /** Every configured origin is admitted by the server's allow-list. */
  lemma ConfiguredOriginAdmitted(config: seq<string>, origin: string)
    requires origin in config
    ensures CorsDecision(origin, EffectiveOrigins(config)) == Allow
  {
  }

  /** Configuring one loopback spelling admits the other, with the same
      protocol and port, whatever the protocol. */
  lemma LoopbackSiblingAdmitted(config: seq<string>, i: nat)
    requires "*" !in config
    requires i < |config| && '*' !in config[i]
    requires Parse(config[i]).Some? && IsLoopback(Parse(config[i]).value.hostname)
    ensures var u := Parse(config[i]).value;
            && CorsDecision(u.protocol + "//localhost" + PortSegment(u), EffectiveOrigins(config)) == Allow
            && CorsDecision(u.protocol + "//127.0.0.1" + PortSegment(u), EffectiveOrigins(config)) == Allow
  {
    LoopbackEntryMirrored(config, i);
  }
}
