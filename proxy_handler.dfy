/**
 * Billy::ProxyHandler: decides whether a request is forwarded, forwards it
 * through the transport, normalises the response, classifies its status and
 * stores it in the cache when the policy says so.
 *
 * The configuration is passed explicitly. The transport's reply is an input;
 * the calls made to the transport, the cache store and the logger are
 * returned as traces, so that what the handler did is part of its result.
 */
module ProxyHandler {
  import opened Wrappers
  import opened Text
  import opened Urls
  import opened BillyConfig

  /** Bodies are opaque bytes (`force_encoding('BINARY')`). */
  type Bytes = seq<bv8>

  /** A request header value: a string, or the `[user, password]` pair handed to the transport. */
  datatype HeaderValue = Plain(text: string) | Credentials(user: string, password: Option<string>)

  /** Options of the transport request (`build_request_options`). */
  datatype RequestOptions = RequestOptions(
    redirects: nat,
    keepalive: bool,
    head: map<string, HeaderValue>,
    sslVerify: bool,
    body: Option<Bytes>)

  datatype UpstreamProxy = UpstreamProxy(host: string, port: int)

  /** Connection options of the transport (`get_opts`). */
  datatype ConnectionOptions = ConnectionOptions(
    inactivityTimeout: int,
    connectTimeout: int,
    proxy: Option<UpstreamProxy>)

  /** What the transport saw of a response: status line, raw headers, body. */
  datatype RawResponse = RawResponse(status: int, headers: map<string, string>, body: Bytes)

  /** What the transport returned: an error text, and the response if there is one. */
  datatype Reply = Reply(error: Option<string>, response: Option<RawResponse>)

  /** The response hash handed back to the caller. */
  datatype Response = Response(status: int, headers: map<string, string>, content: Bytes)

  /**
   * A non-nil result of `handle_request`: a response, `{error: ...}`, or the
   * NoMethodError raised when the method names no request the transport defines.
   */
  datatype Outcome = Served(response: Response) | Failed(error: string) | Unsupported(name: string)

  /** The request methods the transport defines (em-http's `get`, `head`, ...). */
  datatype Verb = Get | Head | Delete | Put | Post | Patch | Options

  /** The Ruby method name of a verb. */
  function VerbName(v: Verb): string
  {
    match v
    case Get => "get"
    case Head => "head"
    case Delete => "delete"
    case Put => "put"
    case Post => "post"
    case Patch => "patch"
    case Options => "options"
  }

  /** The verb that `send(name, ...)` dispatches to, if the transport defines one. */
  function ParseVerb(name: string): (v: Option<Verb>)
    ensures v.Some? ==> VerbName(v.value) == name
    ensures v.None? ==> forall w :: VerbName(w) != name
  {
    if name == "get" then Some(Get)
    else if name == "head" then Some(Head)
    else if name == "delete" then Some(Delete)
    else if name == "put" then Some(Put)
    else if name == "post" then Some(Post)
    else if name == "patch" then Some(Patch)
    else if name == "options" then Some(Options)
    else None
  }

  /** Every verb's name is lower-case and names that verb back. */
  lemma VerbNameRoundTrip(v: Verb)
    ensures IsLower(VerbName(v))
    ensures ParseVerb(VerbName(v)) == Some(v)
  {
  }

  datatype TransportCall = TransportCall(verb: Verb, url: string, connection: ConnectionOptions, request: RequestOptions)

  /** The arguments of `Billy::Cache#store`, less the key and scope the cache derives itself. */
  datatype StoreCall = StoreCall(
    verb: string,
    url: string,
    requestHeaders: seq<(string, string)>,
    requestBody: Option<Bytes>,
    responseHeaders: map<string, string>,
    status: int,
    content: Bytes)

  datatype LogEntry = LogEntry(level: Level, message: string)

  // ---------------------------------------------------------------------
  // Classifiers

  /** `disabled_request?`: in strict mode, a blacklisted path or a host not on the whitelist. */
  function DisabledRequest(c: Config, url: Uri): (r: bool)
    reads c
    ensures r <==> c.nonWhitelistedRequestsDisabled
                   && ((exists i :: 0 <= i < |c.pathBlacklist| && Hits(c.pathBlacklist[i], url.path))
                       || (forall i :: 0 <= i < |c.whitelist| ==> !Admits(c.whitelist[i], url)))
  {
    c.nonWhitelistedRequestsDisabled && (c.BlacklistedPath(url.path) || !c.WhitelistedUrl(url))
  }

  /** `handles_request?`: everything is handled unless strict mode rejects it. */
  function HandlesRequest(c: Config, url: Uri): (r: bool)
    reads c
    ensures !c.nonWhitelistedRequestsDisabled ==> r
    ensures c.nonWhitelistedRequestsDisabled ==>
      (r <==> (forall i :: 0 <= i < |c.pathBlacklist| ==> !Hits(c.pathBlacklist[i], url.path))
              && (exists i :: 0 <= i < |c.whitelist| && Admits(c.whitelist[i], url)))
  {
    !DisabledRequest(c, url)
  }

  /** `successful_status?`: any 2xx, or 304 Not Modified. */
  function Successful(status: int): (r: bool)
    ensures status / 100 == 2 ==> r
    ensures 300 <= status < 400 ==> (r <==> status == 304)
    ensures r ==> 200 <= status < 400
  {
    (200 <= status <= 299) || status == 304
  }

  /** `cacheable_status?`: every status, unless non-successful caching is disabled. */
  function CacheableStatus(c: Config, status: int): (r: bool)
    reads c
    ensures Successful(status) ==> r
    ensures !r <==> c.nonSuccessfulCacheDisabled && !Successful(status)
  {
    if c.nonSuccessfulCacheDisabled then Successful(status) else true
  }

  /**
   * `cacheable?`: with caching on and a cacheable status, a response is
   * stored unless its host is whitelisted and its path is not blacklisted.
   */
  function Cacheable(c: Config, url: Uri, status: int): (r: bool)
    reads c
    ensures !c.cache ==> !r
    ensures r ==> CacheableStatus(c, status)
    ensures r <==> c.cache && CacheableStatus(c, status)
                   && ((forall i :: 0 <= i < |c.whitelist| ==> !Admits(c.whitelist[i], url))
                       || (exists i :: 0 <= i < |c.pathBlacklist| && Hits(c.pathBlacklist[i], url.path)))
  {
    if !c.cache then false
    else CacheableStatus(c, status) && (!c.WhitelistedUrl(url) || c.BlacklistedPath(url.path))
  }

  /**
   * `bypass_internal_proxy?`: a substring heuristic on the URL text, not a
   * host parse; it is kept as written.
   */
  function BypassInternalProxy(url: string): (r: bool)
    ensures r <==> exists i :: 0 <= i <= |url|
                     && ("localhost" <= url[i..] || "127." <= url[i..] || ".dev" <= url[i..] || ".fin" <= url[i..])
  {
    ContainsIff(url, "localhost");
    ContainsIff(url, "127.");
    ContainsIff(url, ".dev");
    ContainsIff(url, ".fin");
    Contains(url, "localhost") || Contains(url, "127.") || Contains(url, ".dev") || Contains(url, ".fin")
  }

  /** The heuristic also fires on hosts that merely contain `.dev`, such as `www.devices.com`. */
  lemma BypassMatchesInfixes(a: string, b: string)
    ensures BypassInternalProxy(a + "localhost" + b)
    ensures BypassInternalProxy(a + "127." + b)
    ensures BypassInternalProxy(a + ".dev" + b)
    ensures BypassInternalProxy(a + ".fin" + b)
  {
    ContainsInfix(a, "localhost", b);
    ContainsInfix(a, "127.", b);
    ContainsInfix(a, ".dev", b);
    ContainsInfix(a, ".fin", b);
  }

  /**
   * In strict mode a handled request is never cached: it is handled only
   * when its host is whitelisted and its path is not blacklisted, which is
   * exactly when `cacheable?` refuses it.
   */
  lemma StrictModeNeverCachesHandled(c: Config, url: Uri, status: int)
    requires c.nonWhitelistedRequestsDisabled && HandlesRequest(c, url)
    ensures !Cacheable(c, url, status)
  {
  }

  /** With the defaults, a response from a loopback host is never cached. */
  lemma DefaultsNeverCacheLoopback(c: Config, url: Uri, status: int)
    requires c.IsDefault()
    requires url.host == "localhost" || url.host == "127.0.0.1"
    ensures !Cacheable(c, url, status)
  {
    ResetWhitelistsLoopback(c, url);
  }

  /** With the defaults, a request to another long-named host is handled and any response to it is cached. */
  lemma DefaultsCacheForeignHosts(c: Config, url: Uri, status: int)
    requires c.IsDefault()
    requires |url.host| > 9
    ensures HandlesRequest(c, url)
    ensures Cacheable(c, url, status)
  {
    DefaultWhitelistRejectsLongHosts(url);
  }

  // ---------------------------------------------------------------------
  // Builders

  /** `Hash[headers.map { |k, v| [k.downcase, v] }]`: a later pair wins over an earlier one with the same lower-cased key. */
  function LowerKeys(headers: seq<(string, string)>): (r: map<string, HeaderValue>)
    ensures forall k :: k in r ==> IsLower(k)
    ensures forall i :: 0 <= i < |headers| ==> Downcase(headers[i].0) in r
    decreases |headers|
  {
    if headers == [] then map[]
    else
      var n := |headers| - 1;
      LowerKeys(headers[..n])[Downcase(headers[n].0) := Plain(headers[n].1)]
  }

  /** `j` is the last pair of `headers` whose lower-cased key is `k`. */
  predicate LastFor(headers: seq<(string, string)>, k: string, j: int)
  {
    0 <= j < |headers| && Downcase(headers[j].0) == k
    && forall j' :: j < j' < |headers| ==> Downcase(headers[j'].0) != k
  }

  lemma {:induction false} LowerKeysAt(headers: seq<(string, string)>, k: string)
    ensures k in LowerKeys(headers) <==> exists i :: 0 <= i < |headers| && Downcase(headers[i].0) == k
    ensures k in LowerKeys(headers) ==> exists j :: LastFor(headers, k, j) && LowerKeys(headers)[k] == Plain(headers[j].1)
    decreases |headers|
  {
    if headers != [] {
      var n := |headers| - 1;
      var prefix := headers[..n];
      LowerKeysAt(prefix, k);
      assert forall i :: 0 <= i < n ==> prefix[i] == headers[i];
      if Downcase(headers[n].0) == k {
        assert LastFor(headers, k, n);
      } else if k in LowerKeys(headers) {
        var j :| LastFor(prefix, k, j) && LowerKeys(prefix)[k] == Plain(prefix[j].1);
        assert LastFor(headers, k, j);
      }
    }
  }

  /** What `build_request_options` promises about the options it returns. */
  ghost predicate RequestOptionsFor(url: Uri, headers: seq<(string, string)>, body: Option<Bytes>, o: RequestOptions)
  {
    && o.redirects == 0 && !o.keepalive && !o.sslVerify
    && o.body == body
    && "accept-encoding" !in o.head
    && (forall k :: k in o.head ==> IsLower(k))
    && (url.userinfo.Some? ==>
          "authorization" in o.head
          && o.head["authorization"] == Credentials(url.userinfo.value.user, url.userinfo.value.password))
    && (forall k :: k != "accept-encoding" && !(url.userinfo.Some? && k == "authorization") ==>
          && (k in o.head <==> exists i :: 0 <= i < |headers| && Downcase(headers[i].0) == k)
          && (k in o.head ==> exists j :: LastFor(headers, k, j) && o.head[k] == Plain(headers[j].1)))
  }

  /**
   * `build_request_options`: lower-cases the header keys, drops
   * `accept-encoding`, adds the URL's credentials as `authorization`, turns
   * off redirects, keep-alive and certificate checks, and passes the body on
   * when there is one.
   */
  method BuildRequestOptions(url: Uri, headers: seq<(string, string)>, body: Option<Bytes>) returns (o: RequestOptions)
    ensures RequestOptionsFor(url, headers, body, o)
  {
    var head := LowerKeys(headers);
    head := head - {"accept-encoding"};
    if url.userinfo.Some? {
      head := head["authorization" := Credentials(url.userinfo.value.user, url.userinfo.value.password)];
    }
    o := RequestOptions(0, false, head, false, None);
    if body.Some? {
      o := o.(body := body);
    }
    forall k | k != "accept-encoding" && !(url.userinfo.Some? && k == "authorization")
      ensures k in o.head <==> exists i :: 0 <= i < |headers| && Downcase(headers[i].0) == k
      ensures k in o.head ==> exists j :: LastFor(headers, k, j) && o.head[k] == Plain(headers[j].1)
    {
      LowerKeysAt(headers, k);
    }
  }

  /** What `get_opts` promises: both timeouts, and the upstream proxy when one applies. */
  predicate ConnectionOptionsFor(c: Config, url: string, o: ConnectionOptions)
    reads c
  {
    && o.inactivityTimeout == c.proxiedRequestInactivityTimeout
    && o.connectTimeout == c.proxiedRequestConnectTimeout
    && (o.proxy.Some? <==> c.proxiedRequestHost.Some? && !BypassInternalProxy(url))
    && (o.proxy.Some? ==> o.proxy.value == UpstreamProxy(c.proxiedRequestHost.value, c.proxiedRequestPort))
  }

  /** `get_opts`: the timeouts, plus the upstream proxy unless the URL bypasses it. */
  method GetOpts(c: Config, url: string) returns (o: ConnectionOptions)
    ensures ConnectionOptionsFor(c, url, o)
  {
    o := ConnectionOptions(c.proxiedRequestInactivityTimeout, c.proxiedRequestConnectTimeout, None);
    if c.proxiedRequestHost.Some? && !BypassInternalProxy(url) {
      o := o.(proxy := Some(UpstreamProxy(c.proxiedRequestHost.value, c.proxiedRequestPort)));
    }
  }

  /** `resp` is `raw` with `Connection: close` forced and everything else kept. */
  ghost predicate ProcessedFrom(raw: RawResponse, resp: Response)
  {
    && resp.status == raw.status
    && resp.content == raw.body
    && "Connection" in resp.headers && resp.headers["Connection"] == "close"
    && (forall k :: k != "Connection" ==>
          (k in resp.headers <==> k in raw.headers)
          && (k in raw.headers ==> resp.headers[k] == raw.headers[k]))
  }

  /** `process_response`. */
  method ProcessResponse(raw: RawResponse) returns (resp: Response)
    ensures ProcessedFrom(raw, resp)
  {
    resp := Response(raw.status, raw.headers, raw.body);
    resp := resp.(headers := resp.headers["Connection" := "close"]);
  }

  // ---------------------------------------------------------------------
  // Messages

  /** The error of a failed transport call. */
  function TransportFailure(url: string, error: string): (msg: string)
    ensures Contains(msg, url) && Contains(msg, error)
  {
    var head := "Request to " + url;
    var msg := head + " failed with error: " + error;
    ContainsSuffix("Request to ", url);
    ContainsExtend(head, " failed with error: ", url);
    ContainsExtend(head + " failed with error: ", error, url);
    ContainsSuffix(head + " failed with error: ", error);
    msg
  }

  /** The error of a status that is not allowed. */
  function DisallowedStatus(verb: string, url: string, status: int): (msg: string)
    ensures Contains(msg, verb) && Contains(msg, url) && Contains(msg, IntToString(status))
  {
    var code := IntToString(status);
    var tail := " for '" + url + "' which was not allowed.";
    var a := "[" + verb;
    var b := a + "] " + url;
    var d := b + " " + code;
    var msg := d + tail;
    ContainsSuffix("[", verb);
    ContainsExtend(a, "] ", verb);
    ContainsExtend(a + "] ", url, verb);
    ContainsSuffix(a + "] ", url);
    ContainsExtend(b, " ", verb);
    ContainsExtend(b, " ", url);
    ContainsExtend(b + " ", code, verb);
    ContainsExtend(b + " ", code, url);
    ContainsSuffix(b + " ", code);
    ContainsExtend(d, tail, verb);
    ContainsExtend(d, tail, url);
    ContainsExtend(d, tail, code);
    msg
  }

  /** The warning logged for a status that is not successful under a lenient level. */
  function ReceivedStatusWarning(url: string, status: int): (msg: string)
    ensures Contains(msg, url) && Contains(msg, IntToString(status))
  {
    var code := IntToString(status);
    var a := "puffing-billy: Received response status code " + code;
    var b := a + " for '" + url;
    var msg := b + "'";
    ContainsSuffix("puffing-billy: Received response status code ", code);
    ContainsExtend(a, " for '", code);
    ContainsExtend(a + " for '", url, code);
    ContainsSuffix(a + " for '", url);
    ContainsExtend(b, "'", code);
    ContainsExtend(b, "'", url);
    msg
  }

  /** The message logged when a request was proxied. */
  function ProxySucceeded(verb: string, url: string): (msg: string)
    ensures Contains(msg, verb) && Contains(msg, url)
  {
    var a := "puffing-billy: PROXY " + verb;
    var b := a + " succeeded for '" + url;
    var msg := b + "'";
    ContainsSuffix("puffing-billy: PROXY ", verb);
    ContainsExtend(a, " succeeded for '", verb);
    ContainsExtend(a + " succeeded for '", url, verb);
    ContainsSuffix(a + " succeeded for '", url);
    ContainsExtend(b, "'", verb);
    ContainsExtend(b, "'", url);
    msg
  }

  // ---------------------------------------------------------------------
  // The pipeline

  /** The one transport call made for a handled request. */
  ghost predicate SentAsConfigured(c: Config, m: string, url: Uri, headers: seq<(string, string)>, body: Option<Bytes>, call: TransportCall)
    reads c
  {
    && VerbName(call.verb) == Downcase(m)
    && call.url == ToString(url)
    && ConnectionOptionsFor(c, ToString(url), call.connection)
    && RequestOptionsFor(url, headers, body, call.request)
  }

  /** The request is handled and its method names a request the transport defines. */
  predicate Dispatched(c: Config, m: string, url: Uri)
    reads c
  {
    HandlesRequest(c, url) && ParseVerb(Downcase(m)).Some?
  }

  /** The transport delivered a response without an error. */
  predicate Delivered(reply: Reply)
  {
    reply.error.None? && reply.response.Some?
  }

  /** The status check lets the response through: it succeeded, or failures only warn. */
  function StatusPasses(c: Config, status: int): (r: bool)
    reads c
    ensures c.nonSuccessfulErrorLevel != Error ==> r
    ensures 200 <= status <= 299 || status == 304 ==> r
    ensures !r <==> c.nonSuccessfulErrorLevel == Error && (status < 200 || 400 <= status || (300 <= status < 400 && status != 304))
  {
    Successful(status) || c.nonSuccessfulErrorLevel != Error
  }

  /**
   * `handle_request`. `reply` is what the transport answers to the call in
   * `sent`; `stores` and `logs` are the calls made to the cache and logger.
   */
  method HandleRequest(c: Config, m: string, url: Uri, headers: seq<(string, string)>, body: Option<Bytes>, reply: Reply)
    returns (r: Option<Outcome>, sent: seq<TransportCall>, stores: seq<StoreCall>, logs: seq<LogEntry>)
    ensures !HandlesRequest(c, url) ==> r == None && sent == [] && stores == [] && logs == []
    ensures HandlesRequest(c, url) && ParseVerb(Downcase(m)).None? ==>
      r == Some(Unsupported(Downcase(m))) && sent == [] && stores == [] && logs == []
    ensures Dispatched(c, m, url) ==> |sent| == 1 && SentAsConfigured(c, m, url, headers, body, sent[0])
    ensures Dispatched(c, m, url) && reply.error.Some? ==>
      r == Some(Failed(TransportFailure(ToString(url), reply.error.value))) && stores == [] && logs == []
    ensures Dispatched(c, m, url) && reply.error.None? && reply.response.None? ==>
      r == None && stores == [] && logs == []
    ensures Dispatched(c, m, url) && Delivered(reply) && !StatusPasses(c, reply.response.value.status) ==>
      r == Some(Failed(DisallowedStatus(Downcase(m), ToString(url), reply.response.value.status)))
      && stores == [] && logs == []
    ensures Dispatched(c, m, url) && Delivered(reply) && StatusPasses(c, reply.response.value.status) ==>
      var raw := reply.response.value;
      && r.Some? && r.value.Served? && ProcessedFrom(raw, r.value.response)
      && stores == (if Cacheable(c, url, raw.status)
                    then [StoreCall(Downcase(m), ToString(url), headers, body, r.value.response.headers, raw.status, raw.body)]
                    else [])
      && logs == (if Successful(raw.status) then [] else [LogEntry(Warn, ReceivedStatusWarning(ToString(url), raw.status))])
                 + [LogEntry(Info, ProxySucceeded(Downcase(m), ToString(url)))]
    ensures |stores| <= 1
    ensures |stores| == 1 <==>
      Dispatched(c, m, url) && Delivered(reply)
      && StatusPasses(c, reply.response.value.status) && Cacheable(c, url, reply.response.value.status)
    ensures |stores| == 1 ==> IsLower(stores[0].verb) && stores[0].url == ToString(url)
  {
    var verb := Downcase(m);
    var text := ToString(url);
    r, sent, stores, logs := None, [], [], [];
    if !HandlesRequest(c, url) {
      return;
    }

    var connection := GetOpts(c, text);
    var request := BuildRequestOptions(url, headers, body);
    var dispatched := ParseVerb(verb);
    if dispatched.None? {
      r := Some(Unsupported(verb));
      return;
    }
    sent := [TransportCall(dispatched.value, text, connection, request)];

    if reply.error.Some? {
      r := Some(Failed(TransportFailure(text, reply.error.value)));
      return;
    }
    if reply.response.None? {
      return;
    }

    var response := ProcessResponse(reply.response.value);
    var status := response.status;
    if !Successful(status) {
      if c.nonSuccessfulErrorLevel == Error {
        r := Some(Failed(DisallowedStatus(Downcase(verb), text, status)));
        DowncaseIdempotent(m);
        return;
      } else {
        logs := logs + [LogEntry(Warn, ReceivedStatusWarning(text, status))];
      }
    }

    if Cacheable(c, url, status) {
      DowncaseIdempotent(m);
      stores := [StoreCall(Downcase(verb), text, headers, body, response.headers, status, response.content)];
    }

    logs := logs + [LogEntry(Info, ProxySucceeded(verb, text))];
    r := Some(Served(response));
  }
}
