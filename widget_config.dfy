/** The widget-config routes: domain normalisation, the domain-to-project
    resolution chain behind `GET /api/widget-config/domain/:domain`, and the
    default record `GET /api/widget-config/:projectId` answers with when the
    store has nothing. */
module WidgetConfigRoutes {
  import opened Common
  import Validation

  // ---------------------------------------------------------------- normalizeDomain

  /** `replace(/^https?:\/\//, '')`. */
  function StripScheme(s: string): (r: string)
    ensures "https://" <= s ==> r == s[8..]
    ensures !("https://" <= s) && "http://" <= s ==> r == s[7..]
    ensures !("https://" <= s) && !("http://" <= s) ==> r == s
  {
    if "https://" <= s then s[8..] else if "http://" <= s then s[7..] else s
  }

  /** `replace(/^www\./, '')`: the result is what follows a leading
      `www.`, or the whole text when it has none. */
  function StripWww(s: string): (r: string)
    ensures "www." <= s ==> r == s[4..]
    ensures !("www." <= s) ==> r == s
  {
    if "www." <= s then s[4..] else s
  }

  /** `replace(/\/$/, '')`: at most one trailing slash goes. */
  function StripTrailingSlash(s: string): (r: string)
    ensures s != [] && s[|s| - 1] == '/' ==> r == s[..|s| - 1]
    ensures s == [] || s[|s| - 1] != '/' ==> r == s
  {
    if s != [] && s[|s| - 1] == '/' then s[..|s| - 1] else s
  }

  /** `normalizeDomain`: `None` for a missing or empty domain; otherwise the
      scheme, a leading `www.` and one trailing slash are removed (each test
      is case-sensitive and made once, in that order), then the text is
      lower-cased and trimmed. */
  function NormalizeDomain(domain: string): (r: Option<string>)
    ensures r.None? <==> domain == ""
    ensures r.Some? ==> IsLowerCase(r.value) && IsTrimmed(r.value) && |r.value| <= |domain|
  {
    if domain == "" then None
    else
      var stripped := StripTrailingSlash(StripWww(StripScheme(domain)));
      LowerIsLowerCase(stripped);
      TrimKeepsLowerCase(Lower(stripped));
      Some(Trim(Lower(stripped)))
  }

  /** A domain in the form the normaliser produces and keeps: non-empty,
      lower-case, trimmed, without scheme, `www.` or trailing slash. */
  predicate IsCanonical(d: string)
  {
    && d != ""
    && IsLowerCase(d)
    && IsTrimmed(d)
    && !("http://" <= d)
    && !("https://" <= d)
    && !("www." <= d)
    && d[|d| - 1] != '/'
  }

  lemma CanonicalKeptByLowerTrim(d: string)
    requires IsCanonical(d)
    ensures Trim(Lower(d)) == d
  {
    LowerOfLowerCase(d);
    TrimOfTrimmed(d);
  }

  /** A canonical domain is its own normal form. */
  lemma {:induction false} NormalizeCanonical(d: string)
    requires IsCanonical(d)
    ensures NormalizeDomain(d) == Some(d)
  {
    assert !("https://" <= d) && !("http://" <= d);
    assert StripScheme(d) == d;
    assert StripWww(d) == d;
    assert StripTrailingSlash(d) == d;
    CanonicalKeptByLowerTrim(d);
  }

  /** A canonical domain followed by an optional slash does not start with
      `www.` or a scheme. */
  lemma SlashedHasNoPrefix(d: string, slash: string)
    requires IsCanonical(d) && (slash == "" || slash == "/")
    ensures !("www." <= d + slash)
    ensures !("http://" <= d + slash) && !("https://" <= d + slash)
  {
    var s := d + slash;
    assert s[..|d|] == d;
    if |d| >= 4 {
      assert s[..4] == d[..4];
    } else if slash == "/" {
      assert s[|d|] == '/';
    }
  }

  lemma StripKnownScheme(scheme: string, rest: string)
    requires scheme == "http://" || scheme == "https://"
    ensures StripScheme(scheme + rest) == rest
  {
    var s := scheme + rest;
    if scheme == "https://" {
      assert s[..8] == scheme;
      assert s[8..] == rest;
    } else {
      assert s[4] == ':';
      assert s[..7] == scheme;
      assert s[7..] == rest;
    }
  }

  /** `www.` comes off any tail. The prefix is a parameter fixed by
      `requires` so that the literal is not unfolded. */
  lemma StripWwwOf(www: string, tail: string)
    requires www == "www."
    ensures StripWww(www + tail) == tail
  {
    assert (www + tail)[..4] == www;
    assert (www + tail)[4..] == tail;
  }

  lemma StripSlashOf(d: string, slash: string)
    requires IsCanonical(d) && (slash == "" || slash == "/")
    ensures StripTrailingSlash(d + slash) == d
  {
    if slash == "/" {
      assert (d + slash)[..|d|] == d;
    } else {
      assert d + slash == d;
    }
  }

  /** After the scheme is gone, the `www.` and slash steps leave `d`. */
  lemma StripWwwAndSlash(d: string, www: string, slash: string)
    requires IsCanonical(d)
    requires www == "" || www == "www."
    requires slash == "" || slash == "/"
    ensures StripTrailingSlash(StripWww(www + (d + slash))) == d
  {
    if www == "www." {
      StripWwwOf(www, d + slash);
    } else {
      SlashedHasNoPrefix(d, slash);
      assert www + (d + slash) == d + slash;
    }
    StripSlashOf(d, slash);
  }

  /** The scheme step removes exactly the given scheme from a variant. */
  lemma SchemeOfVariant(d: string, scheme: string, www: string, slash: string)
    requires IsCanonical(d)
    requires scheme == "" || scheme == "http://" || scheme == "https://"
    requires www == "" || www == "www."
    requires slash == "" || slash == "/"
    ensures StripScheme(scheme + (www + (d + slash))) == www + (d + slash)
  {
    var afterScheme := www + (d + slash);
    if scheme != "" {
      StripKnownScheme(scheme, afterScheme);
    } else if www == "" {
      SlashedHasNoPrefix(d, slash);
      assert scheme + afterScheme == d + slash;
    } else {
      assert (scheme + afterScheme)[0] == 'w';
    }
  }

  /** The lower-case spellings of one site that a page or an admin may
      send (with or without `http://` or `https://`, with or without
      `www.`, with or without a trailing slash) all normalise to the same
      key. */
  lemma {:induction false} NormalizeVariants(d: string, scheme: string, www: string, slash: string)
    requires IsCanonical(d)
    requires scheme == "" || scheme == "http://" || scheme == "https://"
    requires www == "" || www == "www."
    requires slash == "" || slash == "/"
    ensures NormalizeDomain(scheme + www + d + slash) == Some(d)
  {
    var afterScheme := www + (d + slash);
    assert scheme + www + d + slash == scheme + afterScheme;
    SchemeOfVariant(d, scheme, www, slash);
    StripWwwAndSlash(d, www, slash);
    CanonicalKeptByLowerTrim(d);
  }

  /** The scheme test is case-sensitive, so an upper-case scheme survives
      as a lower-case one. */
  lemma UpperCaseSchemeKept(d: string)
    requires IsCanonical(d)
    ensures NormalizeDomain("HTTPS://" + d) == Some("https://" + d)
  {
    var s := "HTTPS://" + d;
    assert s[0] == 'H';
    assert StripScheme(s) == s;
    assert StripWww(s) == s;
    assert StripTrailingSlash(s) == s by { assert s[|s| - 1] == d[|d| - 1]; }
    var l := "https://" + d;
    assert Lower(s) == l by {
      forall i | 0 <= i < |s| ensures LowerChar(s[i]) == l[i] {
        if i >= 8 {
          assert s[i] == d[i - 8] && l[i] == d[i - 8];
        }
      }
    }
    assert IsTrimmed(l) by { assert l[0] == 'h' && l[|l| - 1] == d[|d| - 1]; }
    TrimOfTrimmed(l);
  }

  /** A mixed-case address keeps its scheme, its `www.` and everything but
      the trailing slash, lower-cased. The address is a parameter fixed by
      `requires` so that the literal is not unfolded in every proof. */
  lemma MixedCaseAddressKept(s: string)
    requires s == "HTTPS://WWW.Example.com/"
    ensures NormalizeDomain(s) == Some("https://www.example.com")
  {
    assert s[0] == 'H';
    assert StripScheme(s) == s;
    assert StripWww(s) == s;
    var body := s[..|s| - 1];
    assert StripTrailingSlash(s) == body;
    var l := "https://www.example.com";
    MixedCaseLowered(body, l);
    TrimOfTrimmed(l);
  }

  lemma MixedCaseLowered(body: string, l: string)
    requires body == "HTTPS://WWW.Example.com" && l == "https://www.example.com"
    ensures Lower(body) == l && IsTrimmed(l)
  {
    forall i | 0 <= i < |body| ensures LowerChar(body[i]) == l[i] { }
    assert l[0] == 'h' && l[|l| - 1] == 'm';
  }

  /** The scheme is a parameter fixed by `requires` so that the literal is
      not unfolded. */
  lemma LowerCaseSchemeStripped(d: string, scheme: string)
    requires IsCanonical(d) && scheme == "https://"
    ensures NormalizeDomain(scheme + d) == Some(d)
  {
    StripKnownScheme(scheme, d);
    assert StripWww(d) == d;
    assert StripTrailingSlash(d) == d;
    CanonicalKeptByLowerTrim(d);
  }

  /** Normalising is not idempotent: an upper-case scheme is removed only by
      a second pass. */
  lemma NormalizeNotIdempotent(d: string)
    requires IsCanonical(d)
    ensures NormalizeDomain("HTTPS://" + d).Some?
    ensures NormalizeDomain(NormalizeDomain("HTTPS://" + d).value) != NormalizeDomain("HTTPS://" + d)
  {
    UpperCaseSchemeKept(d);
    LowerCaseSchemeStripped(d, "https://");
    assert |d| != |"https://" + d|;
  }

  // ---------------------------------------------------------------- domain route

  /** The `source` field of a resolved domain. */
  datatype Source = StaticMap | Database | AutoDetected

  /** What the configuration store's `findOne` gave for the normalised
      domain: a document carrying `projectId` (empty when the document has
      none), no document, or an error (including a failed module load). */
  datatype StoreLookup = Matched(projectId: string) | NoMatch | Failed

  /** The reply of `GET /domain/:domain`. */
  datatype DomainReply =
    | InvalidDomain
    | Resolved(projectId: string, domain: string, source: Source)

  /** `GET /domain/:domain`. The static map is consulted first, then, when
      the server runs on the document store, the store; otherwise the
      normalised domain itself becomes the project identifier. `queried`
      says whether the store was asked. */
  method ResolveDomain(domain: string, staticMap: map<string, string>, useStore: bool, lookup: StoreLookup)
    returns (reply: DomainReply, queried: bool)
    ensures reply.InvalidDomain? <==> NormalizeDomain(domain).None? || NormalizeDomain(domain).value == ""
    ensures reply.Resolved? ==> NormalizeDomain(domain) == Some(reply.domain) && reply.projectId != ""
    ensures reply.Resolved? ==>
              (reply.source == StaticMap <==> reply.domain in staticMap && staticMap[reply.domain] != "")
    ensures reply.Resolved? && reply.source == StaticMap ==> reply.projectId == staticMap[reply.domain]
    ensures queried <==> reply.Resolved? && reply.source != StaticMap && useStore
    ensures reply.Resolved? && reply.source == Database ==> queried && lookup == Matched(reply.projectId)
    ensures queried && lookup.Matched? && lookup.projectId != "" ==> reply.source == Database
    ensures reply.Resolved? && reply.source == AutoDetected ==> reply.projectId == reply.domain
  {
    queried := false;
    var normalized := NormalizeDomain(domain);
    if normalized.None? || normalized.value == "" {
      return InvalidDomain, false;
    }
    var key := normalized.value;
    var projectId := if key in staticMap then staticMap[key] else "";
    var source := StaticMap;
    if projectId == "" {
      if useStore {
        queried := true;
        if lookup.Matched? {
          projectId := lookup.projectId;
          source := Database;
        }
      }
    }
    if projectId == "" {
      projectId := key;
      source := AutoDetected;
    }
    reply := Resolved(projectId, key, source);
  }

  // ---------------------------------------------------------------- config route

  /** The welcome text of the default record, character for character as
      the route spells it: the wave emoji's UTF-8 bytes read back as
      Windows-1252 text. */
  const DefaultWelcomeMessage: string :=
    "Hi, I'm Riya from Homesfy \U{00F0}\U{0178}\U{2018}\U{2039}\nHow can I help you today?"

  const DefaultPrimaryColor: string := "#6158ff"

  const DefaultAutoOpenDelayMs: int := 4000

  /** The record served for a project the store knows nothing about. */
  function DefaultConfig(projectId: string): (c: map<string, Json>)
    ensures "projectId" in c && c["projectId"] == JStr(projectId)
    ensures "primaryColor" in c && c["primaryColor"] == JStr(DefaultPrimaryColor)
    ensures "propertyInfo" in c && c["propertyInfo"] == JObj(map[])
    ensures "welcomeMessage" in c && c["welcomeMessage"] == JStr(DefaultWelcomeMessage)
    ensures "autoOpenDelayMs" in c && c["autoOpenDelayMs"] == JNum(4000)
    ensures c.Keys == {"projectId", "primaryColor", "welcomeMessage", "autoOpenDelayMs", "propertyInfo"}
  {
    map["projectId" := JStr(projectId),
        "primaryColor" := JStr(DefaultPrimaryColor),
        "welcomeMessage" := JStr(DefaultWelcomeMessage),
        "autoOpenDelayMs" := JNum(DefaultAutoOpenDelayMs),
        "propertyInfo" := JObj(map[])]
  }

  /** What the store's `getWidgetConfig` gave: a record or nothing, or an
      error. */
  datatype ConfigLookup = Stored(config: Option<map<string, Json>>) | LookupFailed

  /** `GET /:projectId`: the stored record when there is a non-empty one,
      the default record otherwise; the route answers 200 in every case. */
  function ConfigReply(projectId: string, lookup: ConfigLookup): (body: map<string, Json>)
    ensures body != map[]
    ensures lookup.Stored? && lookup.config.Some? && lookup.config.value != map[] ==>
              body == lookup.config.value
    ensures lookup.LookupFailed? || lookup.config.None? || lookup.config.value == map[] ==>
              body == DefaultConfig(projectId) && body["projectId"] == JStr(projectId)
  {
    match lookup
    case Stored(Some(c)) => if c != map[] then c else DefaultConfig(projectId)
    case _ => DefaultConfig(projectId)
  }

  /** The default colour and property record, posted back as an update,
      pass the widget-config validation chain. The colour is a parameter
      fixed by `requires` so that the literal is not unfolded. */
  lemma DefaultConfigPassesValidation(color: string)
    requires color == DefaultPrimaryColor
    ensures Validation.ValidateWidgetConfig(
              Validation.WidgetConfigBody(None, Some(color), Some(JObj(map[])))) == []
  {
    assert Validation.IsHexColor(color) by {
      assert color[0] == '#' && color[1] == '6' && color[2] == '1' && color[3] == '5';
      assert color[4] == '8' && color[5] == 'f' && color[6] == 'f';
    }
    assert IsTrimmed(color) by { assert color[0] == '#' && color[6] == 'f'; }
    TrimOfTrimmed(color);
  }
}
