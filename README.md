# puffing-billy request-decision core, in Dafny

puffing-billy is an intercepting HTTP proxy for tests. It records live
responses and replays them, so that tests which touch the network behave the
same on every run. This project models the part that makes its decisions.

- **`Billy::Config`** (`config.dfy`, module `BillyConfig`) is the policy.
  - It is a class `Config` whose fields `Reset` sets to their defaults.
  - `WhitelistedUrl` decides whether a URL's host is trusted.
    - A pattern entry (a `Regexp` object with an abstract match predicate) is tried on the URL text and on the URL text without its port.
    - A literal entry is tested against the regexp `/^host(?::port)?$/`, which is built from the URL's host without escaping it. So each `.` of the host matches any one character. When no port is written, the entry must be `host` or `host:`.
  - `BlacklistedPath` tests the path. A pattern entry must match it; a string entry must be a substring of it.
- **`Billy::ProxyHandler`** (`proxy_handler.dfy`, module `ProxyHandler`) is the pipeline.
  - Pure classifiers: `HandlesRequest`, `Successful`, `CacheableStatus`, `Cacheable`, `BypassInternalProxy`.
  - Option builders: `BuildRequestOptions`, `GetOpts`, `ProcessResponse`.
  - `HandleRequest` runs the request with early exits. It takes the global configuration as an explicit `Config` argument and the transport's reply as an input. The transport calls, cache stores and log lines it makes come back as traces.

Supporting modules:

- `text.dfy` holds ASCII `downcase`, `include?` and integer rendering.
- `urls.dfy` holds the parsed URL record, with `to_s` and `omit(:port)`.
- `wrappers.dfy` holds `Option`, which stands for Ruby's `nil`.

## Model

| member | source | states |
|---|---|---|
| `BillyConfig.Config.constructor` | lib/billy/config.rb:16-19 | a new configuration holds every default, as after `reset` |
| `BillyConfig.Config.Reset` | lib/billy/config.rb:21-52 | afterwards `whitelist` is exactly `['127.0.0.1', 'localhost']`, `path_blacklist` is empty, caching is on, non-successful caching is not disabled, the error level is `:warn`, strict mode is off, the timeouts are 10 (inactivity) and 5 (connect), `proxied_request_host` is nil and `proxied_request_port` is 80, whatever the fields held before; since nothing of the old state enters the postcondition, a second reset leaves every field as the first did |
| `BillyConfig.Config.WhitelistedUrl` | lib/billy/config.rb:54-62 | true iff some whitelist entry admits the URL; it is a function of the fields, so it changes none of them |
| `BillyConfig.Admits` | lib/billy/config.rb:56-59 | a literal entry equal to the URL's host admits it; a literal entry shorter than the host never does |
| `BillyConfig.LiteralMatches` | lib/billy/config.rb:59 | the entry equal to the host always matches the regexp built from it; no entry shorter than the host matches |
| `BillyConfig.AnyAdmitsIff` | lib/billy/config.rb:55-61 | the `any?` scan succeeds iff some entry at some index admits the URL |
| `BillyConfig.LiteralIsAnchored` | lib/billy/config.rb:59 | a literal entry that admits a host is exactly as long as the host or as `host:port`, with the `:` right after the host, so it never matches a substring; for a host without `.` the entry is exactly `host` or `host:` followed by the explicit port's digits |
| `BillyConfig.LiteralAdmitsOwnHost` | lib/billy/config.rb:59 | a literal equal to the host admits it with or without a port, and so does `host:` followed by the port text (`host:` alone when no port is written) |
| `BillyConfig.UnescapedDotIsWildcard` | lib/billy/config.rb:59 | because the host is not escaped, every literal entry of the host's length admits the URL when it agrees with the host wherever the host has no `.`, and has no newline where the host has one |
| `BillyConfig.DefaultWhitelistAdmitsDottedLookalikes` | lib/billy/config.rb:6 | under the default whitelist, the look-alike hosts `l.calhost` and `.........` are admitted |
| `BillyConfig.DefaultWhitelistAdmitsLoopback` | lib/billy/config.rb:6 | the default whitelist admits every URL whose host is `localhost` or `127.0.0.1`, for any scheme, path and port, written or not |
| `BillyConfig.DefaultWhitelistRejectsLongHosts` | lib/billy/config.rb:6 | the default whitelist admits no host longer than nine characters |
| `BillyConfig.ResetWhitelistsLoopback` | lib/billy/config.rb:24 | after `reset`, `whitelisted_url?` holds for every loopback URL |
| `BillyConfig.Config.BlacklistedPath` | lib/billy/config.rb:64-66 | true iff some blacklist entry hits the path, where a pattern hits by matching and a string by being contained; always false for an empty blacklist; changes no field |
| `BillyConfig.Hits` | lib/billy/config.rb:65 | an empty string entry hits every path; a string entry hits the path equal to it; a string entry longer than the path never hits it |
| `BillyConfig.FirstHit` | lib/billy/config.rb:65 | `index` returns the first entry that hits the path, with no earlier entry hitting, or nil when none does |
| `BillyConfig.LiteralHitIsSubstring` | lib/billy/config.rb:65 | a string entry hits a path iff it occurs in the path at some offset |
| `Text.Contains` | lib/billy/config.rb:65 | `include?` holds when the substring is a prefix, and only when it is no longer than the string |
| `Text.ContainsIff` | lib/billy/config.rb:65 | the `include?` scan succeeds iff the substring starts at some offset |
| `Text.Downcase` | lib/billy/handlers/proxy_handler.rb:15 | the result has the input's length, each character lower-cased, and no upper-case ASCII letter |
| `Text.NatToString` | lib/billy/handlers/proxy_handler.rb:35 | the rendered digits spell the number exactly, and a rendering longer than one digit has no leading zero, so 0 is `0` |
| `Text.DowncaseIdempotent` | lib/billy/handlers/proxy_handler.rb:106 | lower-casing the already lower-cased method again, as `cache` does, changes nothing |
| `ProxyHandler.DisabledRequest` | lib/billy/handlers/proxy_handler.rb:77-84 | disabled iff strict mode is on and either some blacklist entry hits the path or no whitelist entry admits the URL |
| `ProxyHandler.HandlesRequest` | lib/billy/handlers/proxy_handler.rb:77-84 | when strict mode is off, every request is handled, whatever the lists hold; when it is on, a request is handled iff no blacklist entry hits its path and some whitelist entry admits its URL |
| `ProxyHandler.Successful` | lib/billy/handlers/proxy_handler.rb:132-134 | every 2xx status is successful; among 3xx statuses only 304 is; nothing outside 200-399 is |
| `ProxyHandler.CacheableStatus` | lib/billy/handlers/proxy_handler.rb:136-138 | a successful status is always cacheable; a status is refused iff non-successful caching is disabled and the status is not successful |
| `ProxyHandler.Cacheable` | lib/billy/handlers/proxy_handler.rb:121-130 | false when caching is off; otherwise true iff the status is cacheable and either no whitelist entry admits the URL or some blacklist entry hits its path |
| `ProxyHandler.StrictModeNeverCachesHandled` | lib/billy/handlers/proxy_handler.rb:121-130 | in strict mode, a request that is handled is never cached |
| `ProxyHandler.DefaultsNeverCacheLoopback` | lib/billy/handlers/proxy_handler.rb:121-130 | with the defaults, no response from `localhost` or `127.0.0.1` is cached |
| `ProxyHandler.DefaultsCacheForeignHosts` | lib/billy/handlers/proxy_handler.rb:121-130 | with the defaults, a request to a host such as `api.example.com` is handled and its response is cached, whatever the status |
| `ProxyHandler.BypassInternalProxy` | lib/billy/handlers/proxy_handler.rb:140-145 | true iff one of `localhost`, `127.`, `.dev`, `.fin` starts at some offset of the URL text |
| `ProxyHandler.BypassMatchesInfixes` | lib/billy/handlers/proxy_handler.rb:140-145 | the upstream proxy is bypassed for any URL text containing `localhost`, `127.`, `.dev` or `.fin`, anywhere in the URL |
| `ProxyHandler.LowerKeys` | lib/billy/handlers/proxy_handler.rb:50 | every key is lower-case, and every incoming header's lower-cased key is present |
| `ProxyHandler.LowerKeysAt` | lib/billy/handlers/proxy_handler.rb:50 | the re-keyed header hash holds a key iff some header lower-cases to it, and the value is that of the last such header |
| `ProxyHandler.BuildRequestOptions` | lib/billy/handlers/proxy_handler.rb:49-64 | every header key is lower-case and `accept-encoding` is absent. When the URL has userinfo, `authorization` is its `[user, password]`. Every other key is present iff some incoming header lower-cases to it, with the last such value. Redirects are 0, keep-alive and certificate checks are off, and the body is passed iff it is non-nil |
| `ProxyHandler.GetOpts` | lib/billy/handlers/proxy_handler.rb:90-102 | carries both configured timeouts; sets the upstream proxy (configured host and port) iff `proxied_request_host` is set and the URL text contains none of `localhost`, `127.`, `.dev`, `.fin` |
| `ProxyHandler.ProcessResponse` | lib/billy/handlers/proxy_handler.rb:66-75 | copies status and body, sets `Connection` to `close`, leaves every other header entry as received |
| `ProxyHandler.ParseVerb` | lib/billy/handlers/proxy_handler.rb:21-22 | the verb `send` dispatches to has exactly the given name; no verb is returned for a name the transport does not define |
| `ProxyHandler.VerbNameRoundTrip` | lib/billy/handlers/proxy_handler.rb:21-22 | each verb's name is lower-case and parses back to that verb |
| `ProxyHandler.StatusPasses` | lib/billy/handlers/proxy_handler.rb:33-39 | a status passes whenever the level is not `:error` and whenever it is successful; it fails exactly when the level is `:error` and the status is outside 2xx and 304 |
| `ProxyHandler.TransportFailure` | lib/billy/handlers/proxy_handler.rb:24-26 | the transport error message contains the URL and the transport's error text |
| `ProxyHandler.DisallowedStatus` | lib/billy/handlers/proxy_handler.rb:33-35 | the disallowed-status message contains the method, the URL and the status code |
| `ProxyHandler.ReceivedStatusWarning` | lib/billy/handlers/proxy_handler.rb:37 | the warning for a non-successful status contains the URL and the status code |
| `ProxyHandler.ProxySucceeded` | lib/billy/handlers/proxy_handler.rb:43 | the info message contains the method and the URL |
| `ProxyHandler.HandleRequest` | lib/billy/handlers/proxy_handler.rb:14-45 | see the list below |

`ProxyHandler.HandleRequest` promises the following:

- A request that is not handled returns nil. It makes no transport call, no store and no log entry.
- A handled request whose lower-cased method names none of the transport's verbs (`get`, `head`, `delete`, `put`, `post`, `patch`, `options`) ends in the NoMethodError outcome `Unsupported`. It makes no transport call, no store and no log entry.
- Any other handled request makes exactly one transport call. The call carries the verb named by the lower-cased method, the URL, and the options that `get_opts` and `build_request_options` promise.
- A transport error returns an error built from the URL and the error text. There is no store.
- A missing response returns nil, with no store.
- A non-successful status under the `:error` level returns an error naming the method, URL and status. There is no store.
- Otherwise:
  - the result is the processed response;
  - there is one warning log entry when the status is not successful, then one info entry;
  - there is at most one store. It happens iff the status check passes and `cacheable?` holds. It records the lower-cased method, the URL, the request headers and body, and the processed response's headers, status and content (`cache`, lib/billy/handlers/proxy_handler.rb:104-119).

`allowed_response_code?` (lib/billy/handlers/proxy_handler.rb:86-88) only delegates to `successful_status?`, so `HandleRequest` calls `Successful` directly.

## Left out

- The transport: EventMachine / em-http I/O, its timeouts and TLS. The transport's reply is an input of `HandleRequest`.
- `HandleRequest`: Ruby's dynamic `send(method)` becomes a `Verb`. A name that is not a verb ends in the `Unsupported` outcome, which stands for the NoMethodError the source raises. When the name is any other method of the request object, private ones included, `send` would call that method instead; the model does not capture this.
- Timeouts: modelled as integers. Ruby also accepts a Float timeout and passes it on to the transport.
- Header order: header hashes are maps. The insertion order of a Ruby Hash is lost, including where `Connection` sits in the returned and stored headers.
- URL parsing: Addressable is not part of this model. The handler receives the parsed URL (scheme, userinfo, host, explicit port, path, query, fragment). The URL text in messages, store calls and `bypass_internal_proxy?` is the rendering `ToString` of that record, so a URL string that does not round-trip through parsing is not modelled.
- Hosts: restricted to letters, digits, `-` and `.`. Other regexp metacharacters in a host, which the source would also leave unescaped, are not modelled.
- Regexp entries: Ruby's regexp engine is not modelled. A `Regexp` carries an arbitrary match predicate on strings.
- `BillyConfig.LiteralMatches`: treats `^` and `$` as the start and end of the whole entry. Ruby treats them as line anchors, so an entry containing a newline behaves differently there.
- `Text.Downcase`: lower-cases ASCII letters only. Ruby's Unicode case mapping is not modelled.
- The cache store: key derivation, scope and persistence are delegated to the cache. A store is recorded as the arguments handed over.
- The logger: log calls are recorded as level and message. The logger chosen at start-up, and the case of having no logger, are not modelled.
- `force_encoding('BINARY')`: bodies are opaque byte sequences. Headers are string maps as received.
- `BillyConfig.Config.Reset`: models only the fields this core reads. Fields with other users are not modelled: `cache_request_headers`, `merge_cached_responses_whitelist`, `ignore_params`, `allow_params`, `persist_cache`, the JSONP settings, `ignore_cache_port`, `proxy_host`, `proxy_port`, `strip_query_params`, `cache_request_body_methods`, `after_cache_handles_request`, the network-delay settings (one of them a float), `record_stub_requests`, `use_ignore_params`. The filesystem paths `cache_path` and `certs_path` are left out too.
- Aliasing: `reset` assigns the `DEFAULT_WHITELIST` array itself, so appending to the whitelist in place would also change the constant that a later `reset` uses. The model's lists are values, so this is not captured.
- `ProcessResponse`: the Ruby code sets `Connection` in the transport's own header hash, in place. The model builds a new map.
- `Billy.configure` and the `Billy.config` singleton: the configuration is passed explicitly.
