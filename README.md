# s3proxy request routing, in Dafny

This project models the decision core of s3proxy, an HTTP front end that serves
objects from S3-compatible storage. An ordered list of location rules maps
request paths to buckets and object keys.

- **Startup validation** (`configInit`). The location rules arrive already
  decoded. An empty list is refused. Otherwise the rules are walked in order.
  Each rule's prefix pattern is compiled, its rewrite pattern is compiled when
  one is configured, and its expiry duration is parsed when one is configured.
  The results go into the rule's unexported fields, in place. The first failure
  stops the walk.
- **Request handling** (`proxyWorker`).
  - A non-GET request gets 405.
  - Otherwise the first rule whose prefix matches the path is chosen. No match
    gives 404.
  - A matched rule that drops query strings answers a request that has a query
    with a 301 to the bare path.
  - Otherwise the object key is the path, rewritten when the rule has a rewrite
    pattern. The object is fetched from the rule's backend and bucket.
  - A failure to build the client or to fetch gives 500. An empty object gives
    404. Anything else gives 200 with Content-Type, Content-Length and the
    optional Cache-Control and Expires headers.
- **Content-type inference** (`getFileExtensionFromUrl`,
  `getContentTypeForExt`). The extension is the text after the last `.` of the
  parsed path. It is looked up in the MIME registry, with
  `application/octet-stream` as the fallback.

Modules:

- `Wrappers`: Option and Result.
- `Decimal`: the Content-Length rendering (`strconv.Itoa`) and reading it back.
- `ContentType`: the extension and the content type.
- `Config`: the location record and the validation loop. The loop is a method
  over an `array` of rules, proved equal to the function `ConfigInitSpec`.
- `Proxy`: the handler. `Handle` is a function returning a response. The
  imperative `ProxyWorker` loops over the rules and writes into a
  `ResponseWriter` object step by step. It is proved to write exactly what
  `Handle` decides.

External collaborators are parameters.

- `Parsers` holds whether `regexp.Compile` accepts a pattern, and what
  `time.ParseDuration` returns.
- `Env` holds:
  - regular-expression matching (`MatchString`) and replacement
    (`ReplaceAllString`);
  - the path component `url.Parse` yields;
  - the MIME registry, as a map keyed by `.ext`;
  - the object store, as a function from (backend, bucket, key) to
    `ClientErr | FetchErr | Body(bytes)`;
  - the current time;
  - the HTTP-date formatter.

A compiled regular expression is known only by its pattern text.
`Handle` also records the storage call it made, if any, so the statement
"no storage call is made" can be written down.

## Model

| member | source | states |
|---|---|---|
| `Decimal.Itoa` | proxy.go:123 | the Content-Length value is a non-empty string of decimal digits with no leading zero |
| `Decimal.AtoiItoa` | proxy.go:123 | the Content-Length value reads back as exactly the body length |
| `Decimal.ItoaInjective` | proxy.go:123 | different body lengths give different Content-Length values |
| `ContentType.LastIndex` | proxy.go:49-50 | gives -1 exactly when the character does not occur; otherwise a position holding it, with no occurrence after it |
| `ContentType.Extension` | proxy.go:49-53 | no extension exactly when the path has no `.`; otherwise the extension has no `.` and the path is a prefix, a `.`, then the extension |
| `ContentType.FileExtension` | proxy.go:44-54 | a path `url.Parse` refuses is an error; a parsed path succeeds exactly when it contains a `.`, and otherwise gives the "no period" error; a success is the extension of the parsed path |
| `ContentType.TypeByExtension` | proxy.go:64 | the lookup is empty exactly when the registry has no entry, or an empty entry, for `.ext` |
| `ContentType.ContentTypeFor` | proxy.go:56-71 | never empty; either the default `application/octet-stream` or a value the registry holds |
| `ContentType.RegistryEntryUsed` | proxy.go:56-71 | for a key whose parsed path ends in `.ext`: the registry's non-empty entry for `.ext` is used, and the default otherwise |
| `ContentType.NoPeriodDefault` | proxy.go:58-62 | an unparsable key, or a parsed path without `.`, gets the default type |
| `ContentType.ExtensionSpansSegments` | proxy.go:49-53 | the period search spans the whole path, so `/a.b/c` has extension `b/c` |
| `Config.FaultOf` | config.go:59-79 | a rule has no fault exactly when it is valid: its prefix compiles, its non-empty rewrite pattern compiles and its non-empty expiry parses |
| `Config.InitRule` | config.go:59-79 | one loop body. It keeps the settings and always writes the compiled prefix (nil on failure). It writes the translation only when a rewrite pattern is set, and the duration only when an expiry is set. It writes nothing after the failing step. A valid rule ends ready for the handler |
| `Config.InitFromFacts` | config.go:57-80 | the loop from index i keeps the length and the rules before i. It succeeds iff every rule from i is valid. On an error it stops at the lowest invalid rule, reports that rule's fault, processes the rules up to it and leaves later rules untouched |
| `Config.EmptyRejected` | config.go:52-55 | an empty rule list is refused and nothing is written |
| `Config.SucceedsIff` | config.go:52-82 | validation succeeds iff the list is non-empty and every rule is valid |
| `Config.SettingsKept` | config.go:57-80 | validation keeps the length, the order and every exported field of every rule |
| `Config.SuccessFillsDerived` | config.go:57-82 | after success on decoded rules, every prefix is compiled. The translation is set iff a rewrite pattern is configured. The expiry is parsed when configured and zero otherwise. Every rule is ready for the handler |
| `Config.FirstFailureStops` | config.go:57-79 | on failure the reported rule is the lowest invalid one, the fault names the first failing step, the earlier rules are ready and the later rules are untouched |
| `Config.ConfigInit` | config.go:52-82 | the in-place loop over the rule array leaves exactly the rules and the error that `ConfigInitSpec` gives |
| `Proxy.FirstMatch` | proxy.go:80-82 | gives the lowest index whose prefix matches the path, or none when no rule matches |
| `Proxy.NonGetRejected` | proxy.go:75-78 | a non-GET request gets 405 with no storage call, whatever the rules are |
| `Proxy.NoMatchNotFound` | proxy.go:144 | a GET matching no rule gets 404 with no storage call |
| `Proxy.FirstMatchWins` | proxy.go:80-82 | the lowest matching rule is the one served |
| `Proxy.NoFallThrough` | proxy.go:82-140 | once rule i matches, replacing every later rule changes nothing, whatever storage returns |
| `Proxy.QueryRedirect` | proxy.go:85-88 | a query-dropping rule with a query gets a 301 whose target, as passed to the redirect helper, is exactly the request path; no storage call is made |
| `Proxy.StorageKey` | proxy.go:90-108 | otherwise one storage call goes to the matched rule's endpoint, access key, secret key, TLS flag and bucket. The key is the request path verbatim without a rewrite pattern, and its rewrite with one |
| `Proxy.StorageOutcome` | proxy.go:103-132 | a client or fetch failure gives 500 and an empty object 404, without success headers. Otherwise 200 with the body unchanged. Content-Type comes from the resolved key. Content-Length reads back as the body length. Cache-Control and Expires appear exactly when configured, and no other header appears |
| `Proxy.OutcomeShapes` | proxy.go:73-145 | the status is one of 405, 404, 301, 500 or 200; 405 is given exactly for non-GET; 405 and 301 make no storage call; 500 and 200 make one |
| `Proxy.ResponseWriter.Set` | proxy.go:122-132 | setting a header replaces that one entry and changes nothing else |
| `Proxy.ResponseWriter.Write` | proxy.go:134 | writing appends the body and sends status 200 if no status was sent yet |
| `Proxy.ResponseWriter.WriteHeader` | proxy.go:24-42 | only the first status written counts; headers and body are left alone |
| `Proxy.ResponseWriter.HttpError` | proxy.go:24-42 | an error helper sends its status and leaves the headers and body alone |
| `Proxy.ResponseWriter.HttpRedirect` | proxy.go:86 | the redirect sets the Location header and the redirect status |
| `Proxy.ProxyWorker` | proxy.go:73-145 | the imperative handler writes exactly the response `Handle` decides and makes exactly the storage call `Handle` records |

## Left out

- Opening and JSON-decoding the configuration file (config.go:38-50). This is
  I/O and a foreign decoder; the model starts from decoded rules.
- main.go: flags, TLS setup, the listeners and the graceful shutdown. These are
  I/O and concurrency with no decision logic.
- The semantics of Go's regular expressions (`regexp.Compile`, `MatchString`,
  `ReplaceAllString`). They are opaque parameters, and a compiled expression is
  represented by its pattern text.
- `time.ParseDuration` and `time.Now`. They are parameters.
  - The Expires value is the parameter formatter applied to now plus the
    duration. The RFC 1123 layout itself (section 7.1.1.1 of RFC 7231) is not
    modelled.
- `url.Parse` is an opaque function giving the path component, or refusing the
  key.
- `mime.TypeByExtension` is an abstract map. No fixed extension table is built
  in, so the examples `.png → image/png` and `.svg` depend on the registry
  given.
- The minio client, `GetObject` and `bytes.Buffer.ReadFrom` are collapsed into
  one storage function from (backend, bucket, key) to an outcome.
  - The read error that proxy.go:115 ignores shows up only as whatever bytes
    `Body` carries.
  - The bucket location field is carried but unused, as in the handler.
- Logging, the message text written by the error helpers, and the headers
  that `http.Error` and `http.Redirect` add on their own (a text
  Content-Type, nosniff, an HTML redirect body).
- Proxy.ResponseWriter.HttpRedirect: does not model how `http.Redirect` turns
  its target into the Location header. It skips the `path.Clean`
  normalisation and the percent-escaping of non-ASCII bytes. A request for
  `/café?x=1` is sent `Location: /caf%C3%A9`, but the model writes `/café`.
  So the "exactly the request path" of `Proxy.QueryRedirect` describes the
  target passed at proxy.go:86, not the header the client receives.
- A failing `w.Write` (proxy.go:134-137) is only logged in the source and
  changes nothing observable, so the model's `Write` always succeeds.
- The unused helpers `badrequest` and `forbiden` (proxy.go:19-32).
- Concurrent requests. The rule list is read-only after validation, so each
  request is modelled on its own.
- The handler (`Proxy.Handle`) requires every rule to be ready for the handler: a compiled
  prefix, and a compiled rewrite pattern when one is configured. In the source,
  a nil pattern would make the handler panic. It is only ever called after
  validation succeeds, and `Config.SuccessFillsDerived` proves that validation
  establishes this.
