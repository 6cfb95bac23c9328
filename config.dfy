/**
 * Billy::Config: the proxy's policy. The fields are the ones the request
 * pipeline reads; `Reset` gives them their defaults, and the two scans
 * `WhitelistedUrl` and `BlacklistedPath` decide whether a host is trusted
 * and whether a path must always be cached.
 */
module BillyConfig {
  import opened Wrappers
  import opened Text
  import opened Urls

  /**
   * A Ruby Regexp. Its matching (`s =~ re` finds a match somewhere in `s`)
   * is left abstract: `accepts` is any predicate on strings.
   */
  class Regexp {
    const source: string
    const accepts: string -> bool

    constructor (source: string, accepts: string -> bool)
      ensures this.source == source && this.accepts == accepts
    {
      this.source := source;
      this.accepts := accepts;
    }
  }

  /** A whitelist or path-blacklist entry: a literal string or a regexp. */
  datatype Entry = Literal(text: string) | Pattern(re: Regexp)

  /** Logger severities; `nonSuccessfulErrorLevel` is one of them too. */
  datatype Level = Debug | Info | Warn | Error | Fatal | Unknown

  /** DEFAULT_WHITELIST. */
  const DefaultWhitelist: seq<Entry> := [Literal("127.0.0.1"), Literal("localhost")]

  /** What `#{url.port}` interpolates to: the digits, or "" when no port is written. */
  function PortText(port: Option<nat>): string
  {
    match port
    case None => ""
    case Some(p) => NatToString(p)
  }

  /** One character of the unescaped host inside a regexp: `.` is any character but a newline. */
  predicate CharMatches(pattern: char, ch: char)
  {
    if pattern == '.' then ch != '\n' else ch == pattern
  }

  /** `s` matches the host read as a regexp, character for character. */
  predicate HostPatternMatches(host: Host, s: string)
  {
    |s| == |host| && forall i :: 0 <= i < |s| ==> CharMatches(host[i], s[i])
  }

  /**
   * `entry =~ /^host(?::port)?$/`: the entry is the host (read as a regexp),
   * optionally followed by `:` and the URL's explicit port text.
   */
  predicate LiteralMatches(entry: string, host: Host, port: Option<nat>)
    ensures entry == host ==> LiteralMatches(entry, host, port)
    ensures LiteralMatches(entry, host, port) ==> |host| <= |entry|
  {
    HostPatternReflexive(host);
    HostPatternMatches(host, entry)
    || (|entry| == |host| + 1 + |PortText(port)|
        && HostPatternMatches(host, entry[..|host|])
        && entry[|host|..] == ":" + PortText(port))
  }

  /** One whitelist entry admits the URL. */
  predicate Admits(e: Entry, url: Uri)
    ensures e == Literal(url.host) ==> Admits(e, url)
    ensures e.Literal? && |e.text| < |url.host| ==> !Admits(e, url)
  {
    match e
    case Pattern(re) => re.accepts(ToString(url)) || re.accepts(ToString(OmitPort(url)))
    case Literal(text) => LiteralMatches(text, url.host, url.port)
  }

  /** `whitelist.any? { ... }`. */
  predicate AnyAdmits(entries: seq<Entry>, url: Uri)
  {
    |entries| > 0 && (Admits(entries[0], url) || AnyAdmits(entries[1..], url))
  }

  lemma {:induction false} AnyAdmitsIff(entries: seq<Entry>, url: Uri)
    ensures AnyAdmits(entries, url) <==> exists i :: 0 <= i < |entries| && Admits(entries[i], url)
  {
    if |entries| > 0 {
      AnyAdmitsIff(entries[1..], url);
      if exists i :: 0 <= i < |entries| && Admits(entries[i], url) {
        var i :| 0 <= i < |entries| && Admits(entries[i], url);
        if i > 0 {
          assert entries[1..][i - 1] == entries[i];
        }
      }
    }
  }

  /** One blacklist entry hits the path: pattern match, or substring for a string. */
  predicate Hits(e: Entry, path: string)
    ensures e == Literal([]) ==> Hits(e, path)
    ensures e == Literal(path) ==> Hits(e, path)
    ensures e.Literal? && |path| < |e.text| ==> !Hits(e, path)
  {
    match e
    case Pattern(re) => re.accepts(path)
    case Literal(text) => Contains(path, text)
  }

  /** `path_blacklist.index { ... }`: the first entry that hits the path. */
  function FirstHit(entries: seq<Entry>, path: string): (r: Option<nat>)
    ensures r.Some? ==> r.value < |entries| && Hits(entries[r.value], path)
    ensures r.Some? ==> forall j :: 0 <= j < r.value ==> !Hits(entries[j], path)
    ensures r.None? ==> forall j :: 0 <= j < |entries| ==> !Hits(entries[j], path)
  {
    if |entries| == 0 then None
    else if Hits(entries[0], path) then Some(0)
    else match FirstHit(entries[1..], path)
      case None => None
      case Some(i) => Some(i + 1)
  }

  /** A literal entry never admits a host it does not span whole: it is as long as the host, or as long as `host:port`. */
  lemma LiteralIsAnchored(entry: string, host: Host, port: Option<nat>)
    requires LiteralMatches(entry, host, port)
    ensures |entry| == |host| || (|entry| == |host| + 1 + |PortText(port)| && entry[|host|] == ':')
    ensures '.' !in host ==> entry == host || entry == host + ":" + PortText(port)
  {
    if '.' !in host {
      if HostPatternMatches(host, entry) {
        assert forall i :: 0 <= i < |host| ==> entry[i] == host[i];
      } else {
        var h := entry[..|host|];
        assert forall i :: 0 <= i < |host| ==> h[i] == host[i];
        assert h == host;
        assert entry == h + entry[|host|..];
      }
    }
    if !HostPatternMatches(host, entry) {
      assert entry[|host|] == entry[|host|..][0];
    }
  }

  /** Every host read as a regexp matches its own text. */
  lemma HostPatternReflexive(host: Host)
    ensures HostPatternMatches(host, host)
  {
    forall i | 0 <= i < |host| ensures CharMatches(host[i], host[i]) {
      assert IsHostChar(host[i]);
    }
  }

  /**
   * A literal entry equal to the host admits it with any explicit port or
   * none, and so does `host:` followed by the URL's port text.
   */
  lemma LiteralAdmitsOwnHost(host: Host, port: Option<nat>)
    ensures LiteralMatches(host, host, port)
    ensures LiteralMatches(host + ":" + PortText(port), host, port)
  {
    HostPatternReflexive(host);
    var e := host + ":" + PortText(port);
    assert e[..|host|] == host;
    assert e[|host|..] == ":" + PortText(port);
  }

  /**
   * The host is not escaped, so each `.` in it is a wildcard: an entry of the
   * host's length that agrees with it wherever the host has no `.`, and has
   * no newline where it has one, admits the URL.
   */
  lemma UnescapedDotIsWildcard(entry: string, url: Uri)
    requires |entry| == |url.host|
    requires forall i :: 0 <= i < |entry| ==> if url.host[i] == '.' then entry[i] != '\n' else entry[i] == url.host[i]
    ensures Admits(Literal(entry), url)
  {
    assert HostPatternMatches(url.host, entry);
  }

  /** Under the default whitelist, look-alike hosts such as `l.calhost` or nine dots are admitted. */
  lemma DefaultWhitelistAdmitsDottedLookalikes(url: Uri)
    requires url.host == "l.calhost" || url.host == "........."
    ensures AnyAdmits(DefaultWhitelist, url)
  {
    UnescapedDotIsWildcard("localhost", url);
    assert Admits(DefaultWhitelist[1], url);
  }

  /** The default whitelist admits `localhost` and `127.0.0.1` under any scheme, path and port. */
  lemma DefaultWhitelistAdmitsLoopback(url: Uri)
    requires url.host == "localhost" || url.host == "127.0.0.1"
    ensures AnyAdmits(DefaultWhitelist, url)
  {
    LiteralAdmitsOwnHost(url.host, url.port);
    assert Admits(DefaultWhitelist[if url.host == "localhost" then 1 else 0], url);
    AnyAdmitsIff(DefaultWhitelist, url);
  }

  /** The default whitelist admits no host longer than its entries. */
  lemma DefaultWhitelistRejectsLongHosts(url: Uri)
    requires |url.host| > 9
    ensures !AnyAdmits(DefaultWhitelist, url)
  {
    AnyAdmitsIff(DefaultWhitelist, url);
    forall i | 0 <= i < |DefaultWhitelist| ensures !Admits(DefaultWhitelist[i], url) {
      if LiteralMatches(DefaultWhitelist[i].text, url.host, url.port) {
        LiteralIsAnchored(DefaultWhitelist[i].text, url.host, url.port);
      }
    }
  }

  class Config {
    var cache: bool
    var whitelist: seq<Entry>
    var pathBlacklist: seq<Entry>
    var nonSuccessfulCacheDisabled: bool
    var nonSuccessfulErrorLevel: Level
    var nonWhitelistedRequestsDisabled: bool
    var proxiedRequestInactivityTimeout: int
    var proxiedRequestConnectTimeout: int
    var proxiedRequestHost: Option<string>
    var proxiedRequestPort: int

    /** The documented defaults. */
    predicate IsDefault()
      reads this
    {
      && cache
      && whitelist == DefaultWhitelist
      && pathBlacklist == []
      && !nonSuccessfulCacheDisabled
      && nonSuccessfulErrorLevel == Warn
      && !nonWhitelistedRequestsDisabled
      && proxiedRequestInactivityTimeout == 10
      && proxiedRequestConnectTimeout == 5
      && proxiedRequestHost == None
      && proxiedRequestPort == 80
    }

    constructor ()
      ensures IsDefault()
    {
      new;
      Reset();
    }

    /**
     * Assigns every field its default. The postcondition does not depend on
     * the state before, so a second reset leaves every field as the first did.
     */
    method Reset()
      modifies this
      ensures IsDefault()
    {
      cache := true;
      whitelist := DefaultWhitelist;
      pathBlacklist := [];
      nonSuccessfulCacheDisabled := false;
      nonSuccessfulErrorLevel := Warn;
      nonWhitelistedRequestsDisabled := false;
      proxiedRequestInactivityTimeout := 10;
      proxiedRequestConnectTimeout := 5;
      proxiedRequestHost := None;
      proxiedRequestPort := 80;
    }

    /** `whitelisted_url?`: some whitelist entry admits the URL. */
    function WhitelistedUrl(url: Uri): (r: bool)
      reads this
      ensures r <==> exists i :: 0 <= i < |whitelist| && Admits(whitelist[i], url)
    {
      AnyAdmitsIff(whitelist, url);
      AnyAdmits(whitelist, url)
    }

    /** `blacklisted_path?`: some blacklist entry hits the path. */
    function BlacklistedPath(path: string): (r: bool)
      reads this
      ensures r <==> exists i :: 0 <= i < |pathBlacklist| && Hits(pathBlacklist[i], path)
      ensures pathBlacklist == [] ==> !r
    {
      FirstHit(pathBlacklist, path).Some?
    }
  }

  /** After a reset, every URL on a loopback host is whitelisted. */
  lemma ResetWhitelistsLoopback(c: Config, url: Uri)
    requires c.IsDefault()
    requires url.host == "localhost" || url.host == "127.0.0.1"
    ensures c.WhitelistedUrl(url)
  {
    DefaultWhitelistAdmitsLoopback(url);
  }

  /** A string blacklist entry hits exactly the paths that contain it at some offset. */
  lemma LiteralHitIsSubstring(text: string, path: string)
    ensures Hits(Literal(text), path) <==> exists i :: 0 <= i <= |path| && text <= path[i..]
  {
    ContainsIff(path, text);
  }
}
