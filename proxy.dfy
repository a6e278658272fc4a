/** The request decision of proxyWorker: method check, first-match rule
    selection, query-drop redirect, key rewrite, storage outcome and the
    success headers; first as a function, then as the imperative handler that
    writes into a response writer. */
module Proxy {
  import opened Wrappers
  import opened Config
  import Decimal
  import ContentType

  newtype Byte = b: int | 0 <= b < 256

  datatype Request = Request(verb: string, path: string, rawQuery: string)

  /** The storage backend a rule serves from (the arguments of minio.New). */
  datatype Backend = Backend(endpoint: string, accessKey: string, secretKey: string, useSSL: bool)

  /** One storage call: the backend, the bucket and the object key. */
  datatype ObjectRef = ObjectRef(backend: Backend, bucket: string, key: string)

  /** What a storage call yields: the client could not be built, the fetch
      failed, or the bytes that were read. */
  datatype Fetch = ClientErr | FetchErr | Body(bytes: seq<Byte>)

  /** Everything the handler consults besides the request and the rules:
      regular-expression matching and replacement, the content-type registry,
      the object store, the clock and the HTTP date formatter. */
  datatype Env = Env(
    matches: (Regex, string) -> bool,
    replaceAll: (Regex, string, string) -> string,
    registry: ContentType.Registry,
    storage: ObjectRef -> Fetch,
    now: int,
    httpDate: int -> string)

  /** The response the handler produces: an error status, a permanent
      redirect, or 200 with headers and body. */
  datatype Response =
    | Error(code: nat)
    | Redirect(location: string)
    | Content(headers: map<string, string>, body: seq<Byte>)
  {
    function Status(): nat {
      match this
      case Error(c) => c
      case Redirect(_) => 301
      case Content(_, _) => 200
    }
  }

  /** The response together with the storage call made on the way, if any. */
  datatype Handled = Handled(response: Response, storageCall: Option<ObjectRef>)

  const MethodGet := "GET"

  predicate Matches(env: Env, l: Location, path: string)
    requires l.derived.prefix.Some?
  {
    env.matches(l.derived.prefix.value, path)
  }

  /** The first rule from index `from` on whose prefix matches the path. */
  function FirstMatch(rules: seq<Location>, path: string, env: Env, from: nat): (r: Option<nat>)
    requires AllReady(rules) && from <= |rules|
    ensures r.Some? ==>
      from <= r.value < |rules| && Matches(env, rules[r.value], path) &&
      forall j :: from <= j < r.value ==> !Matches(env, rules[j], path)
    ensures r.None? ==> forall j :: from <= j < |rules| ==> !Matches(env, rules[j], path)
    decreases |rules| - from
  {
    if from == |rules| then None
    else if Matches(env, rules[from], path) then Some(from)
    else FirstMatch(rules, path, env, from + 1)
  }

  /** The storage key: the rewritten path when a rewrite pattern is configured,
      the request path verbatim otherwise. */
  function ObjectKey(l: Location, path: string, env: Env): (key: string)
    requires Ready(l)
  {
    if |l.settings.regExpMatch| > 0 then
      env.replaceAll(l.derived.translation.value, path, l.settings.regExpSub)
    else path
  }

  function StorageRef(l: Location, key: string): (ref: ObjectRef) {
    var s := l.settings;
    ObjectRef(Backend(s.storageEndpoint, s.storageAccessKey, s.storageSecretAccessKey, s.storageUseSSL),
              s.storageBucketName, key)
  }

  /** The headers of a successful response for `key`, a body of n bytes and rule l. */
  function SuccessHeaders(l: Location, key: string, n: nat, env: Env): (headers: map<string, string>) {
    var h := map["Content-Type" := ContentType.ContentTypeFor(key, env.registry),
                 "Content-Length" := Decimal.Itoa(n)];
    var h := if |l.settings.cacheControl| > 0 then h["Cache-Control" := l.settings.cacheControl] else h;
    if |l.settings.expires| > 0 then h["Expires" := env.httpDate(env.now + l.derived.expires)] else h
  }

  /** The branch of the loop body taken once rule l has matched: every path returns. */
  function Serve(req: Request, l: Location, env: Env): (h: Handled)
    requires Ready(l)
  {
    if l.settings.dropParams && |req.rawQuery| > 0 then Handled(Redirect(req.path), None)
    else
      var key := ObjectKey(l, req.path, env);
      var ref := StorageRef(l, key);
      var response := match env.storage(ref)
        case ClientErr => Error(500)
        case FetchErr => Error(500)
        case Body(b) => if |b| == 0 then Error(404) else Content(SuccessHeaders(l, key, |b|, env), b);
      Handled(response, Some(ref))
  }

  /** proxyWorker as a function of the request, the validated rules and the environment. */
  function Handle(req: Request, rules: seq<Location>, env: Env): (h: Handled)
    requires AllReady(rules)
  {
    if req.verb != MethodGet then Handled(Error(405), None)
    else
      match FirstMatch(rules, req.path, env, 0)
      case None => Handled(Error(404), None)
      case Some(i) => Serve(req, rules[i], env)
  }

  /** A non-GET request is refused with 405 without looking at any rule or at storage. */
  lemma NonGetRejected(req: Request, rules: seq<Location>, env: Env, others: seq<Location>)
    requires AllReady(rules) && AllReady(others)
    requires req.verb != MethodGet
    ensures Handle(req, rules, env) == Handled(Error(405), None)
    ensures Handle(req, rules, env) == Handle(req, others, env)
  {
  }

  /** A GET whose path matches no rule gets 404 and makes no storage call. */
  lemma NoMatchNotFound(req: Request, rules: seq<Location>, env: Env)
    requires AllReady(rules) && req.verb == MethodGet
    requires forall j :: 0 <= j < |rules| ==> !Matches(env, rules[j], req.path)
    ensures Handle(req, rules, env) == Handled(Error(404), None)
  {
  }

  /** First match wins: the lowest matching rule is the one served. */
  lemma FirstMatchWins(req: Request, rules: seq<Location>, env: Env, i: nat)
    requires AllReady(rules) && req.verb == MethodGet
    requires i < |rules| && Matches(env, rules[i], req.path)
    requires forall j :: 0 <= j < i ==> !Matches(env, rules[j], req.path)
    ensures FirstMatch(rules, req.path, env, 0) == Some(i)
    ensures Handle(req, rules, env) == Serve(req, rules[i], env)
  {
  }

  /** No fall-through: once rule i matches, the rules after it never matter,
      whatever storage does. */
  lemma NoFallThrough(req: Request, rules: seq<Location>, rest: seq<Location>, env: Env, i: nat)
    requires AllReady(rules) && AllReady(rest) && req.verb == MethodGet
    requires i < |rules| && Matches(env, rules[i], req.path)
    requires forall j :: 0 <= j < i ==> !Matches(env, rules[j], req.path)
    ensures AllReady(rules[..i + 1] + rest)
    ensures Handle(req, rules, env) == Handle(req, rules[..i + 1] + rest, env)
  {
    var other := rules[..i + 1] + rest;
    assert forall j :: 0 <= j <= i ==> other[j] == rules[j];
    FirstMatchWins(req, rules, env, i);
    FirstMatchWins(req, other, env, i);
  }

  /** A matched rule that drops query strings answers a request with a query by
      a 301 to exactly the request path, before any key resolution or storage call. */
  lemma QueryRedirect(req: Request, rules: seq<Location>, env: Env, i: nat)
    requires AllReady(rules) && req.verb == MethodGet
    requires i < |rules| && Matches(env, rules[i], req.path)
    requires forall j :: 0 <= j < i ==> !Matches(env, rules[j], req.path)
    requires rules[i].settings.dropParams && |req.rawQuery| > 0
    ensures Handle(req, rules, env) == Handled(Redirect(req.path), None)
    ensures Handle(req, rules, env).response.Status() == 301
  {
    FirstMatchWins(req, rules, env, i);
  }

  /** Otherwise exactly one storage call is made, to the matched rule's backend
      (endpoint, credentials, TLS flag) and bucket, for the request path verbatim when no rewrite pattern is
      configured and for its rewrite otherwise. */
  lemma StorageKey(req: Request, rules: seq<Location>, env: Env, i: nat)
    requires AllReady(rules) && req.verb == MethodGet
    requires i < |rules| && Matches(env, rules[i], req.path)
    requires forall j :: 0 <= j < i ==> !Matches(env, rules[j], req.path)
    requires !(rules[i].settings.dropParams && |req.rawQuery| > 0)
    ensures var call := Handle(req, rules, env).storageCall;
      call.Some? &&
      call.value.bucket == rules[i].settings.storageBucketName &&
      call.value.backend.endpoint == rules[i].settings.storageEndpoint &&
      call.value.backend.useSSL == rules[i].settings.storageUseSSL &&
      call.value.backend.accessKey == rules[i].settings.storageAccessKey &&
      call.value.backend.secretKey == rules[i].settings.storageSecretAccessKey &&
      (|rules[i].settings.regExpMatch| == 0 ==> call.value.key == req.path) &&
      (|rules[i].settings.regExpMatch| > 0 ==>
        call.value.key == env.replaceAll(rules[i].derived.translation.value, req.path, rules[i].settings.regExpSub))
  {
    FirstMatchWins(req, rules, env, i);
  }

  /** After the storage call: a client or fetch failure gives 500 and an empty
      object 404, neither with success headers; otherwise 200 with the body
      unchanged, a Content-Type inferred from the resolved key (not the request
      path), a Content-Length that reads back as the body length, Cache-Control
      exactly when configured, Expires exactly when configured, and no other header. */
  lemma StorageOutcome(req: Request, rules: seq<Location>, env: Env, i: nat)
    requires AllReady(rules) && req.verb == MethodGet
    requires i < |rules| && Matches(env, rules[i], req.path)
    requires forall j :: 0 <= j < i ==> !Matches(env, rules[j], req.path)
    requires !(rules[i].settings.dropParams && |req.rawQuery| > 0)
    ensures var h := Handle(req, rules, env);
      var l := rules[i].settings;
      h.storageCall.Some? &&
      match env.storage(h.storageCall.value)
      case ClientErr => h.response == Error(500)
      case FetchErr => h.response == Error(500)
      case Body(b) =>
        (|b| == 0 ==> h.response == Error(404)) &&
        (|b| > 0 ==>
          h.response.Content? && h.response.body == b &&
          var hs := h.response.headers;
          hs.Keys <= {"Content-Type", "Content-Length", "Cache-Control", "Expires"} &&
          "Content-Type" in hs && hs["Content-Type"] == ContentType.ContentTypeFor(h.storageCall.value.key, env.registry) &&
          "Content-Length" in hs && Decimal.Atoi(hs["Content-Length"]) == |b| &&
          ("Cache-Control" in hs <==> |l.cacheControl| > 0) &&
          ("Cache-Control" in hs ==> hs["Cache-Control"] == l.cacheControl) &&
          ("Expires" in hs <==> |l.expires| > 0) &&
          ("Expires" in hs ==> hs["Expires"] == env.httpDate(env.now + rules[i].derived.expires)))
  {
    FirstMatchWins(req, rules, env, i);
    var h := Handle(req, rules, env);
    match env.storage(h.storageCall.value)
    case Body(b) =>
      Decimal.AtoiItoa(|b|);
    case _ =>
  }

  /** Every outcome is one of the five responses the handler can give, and a
      storage call is made exactly when the answer is 200, 500 or the 404 of an
      empty object. */
  lemma OutcomeShapes(req: Request, rules: seq<Location>, env: Env)
    requires AllReady(rules)
    ensures var h := Handle(req, rules, env);
      h.response.Status() in {405, 404, 301, 500, 200} &&
      (h.response.Status() in {405, 301} ==> h.storageCall.None?) &&
      (h.response.Status() in {500, 200} ==> h.storageCall.Some?) &&
      (h.response.Status() == 405 <==> req.verb != MethodGet)
  {
  }

  /** The parts of http.ResponseWriter the handler uses: the status written
      (0 until one is), the header map and the body written so far. */
  class ResponseWriter {
    var status: nat
    var header: map<string, string>
    var body: seq<Byte>

    constructor ()
      ensures status == 0 && header == map[] && body == []
    {
      status, header, body := 0, map[], [];
    }

    /** The writer holds exactly response r. */
    predicate Shows(r: Response)
      reads this
    {
      status == r.Status() &&
      header == (match r
        case Content(h, _) => h
        case Redirect(u) => map["Location" := u]
        case Error(_) => map[]) &&
      body == (if r.Content? then r.body else [])
    }

    /** Header().Set */
    method Set(key: string, value: string)
      modifies this
      ensures header == old(header)[key := value]
      ensures status == old(status) && body == old(body)
    {
      header := header[key := value];
    }

    /** WriteHeader: only the first status written counts. */
    method WriteHeader(code: nat)
      modifies this
      ensures status == if old(status) == 0 then code else old(status)
      ensures header == old(header) && body == old(body)
    {
      if status == 0 {
        status := code;
      }
    }

    /** Write: sends status 200 first if no status was written. */
    method Write(b: seq<Byte>)
      modifies this
      ensures status == if old(status) == 0 then 200 else old(status)
      ensures header == old(header) && body == old(body) + b
    {
      if status == 0 {
        status := 200;
      }
      body := body + b;
    }

    /** http.Error, by its status; the message text it writes is not modelled. */
    method HttpError(code: nat)
      modifies this
      ensures status == if old(status) == 0 then code else old(status)
      ensures header == old(header) && body == old(body)
    {
      WriteHeader(code);
    }

    /** http.Redirect: a Location header and the redirect status. */
    method HttpRedirect(url: string, code: nat)
      modifies this
      ensures status == if old(status) == 0 then code else old(status)
      ensures header == old(header)["Location" := url] && body == old(body)
    {
      Set("Location", url);
      WriteHeader(code);
    }
  }

  /** proxyWorker: the loop over the rules with its early returns, writing the
      response into w step by step; it writes exactly what Handle decides and
      makes exactly the storage call Handle records. */
  method ProxyWorker(w: ResponseWriter, req: Request, rules: seq<Location>, env: Env)
    returns (storageCall: Option<ObjectRef>)
    requires AllReady(rules)
    requires w.status == 0 && w.header == map[] && w.body == []
    modifies w
    ensures w.Shows(Handle(req, rules, env).response)
    ensures storageCall == Handle(req, rules, env).storageCall
  {
    storageCall := None;
    if req.verb != MethodGet {
      w.HttpError(405);
      return;
    }
    for i := 0 to |rules|
      invariant FirstMatch(rules, req.path, env, i) == FirstMatch(rules, req.path, env, 0)
      invariant w.status == 0 && w.header == map[] && w.body == [] && storageCall == None
    {
      var rule := rules[i];
      if env.matches(rule.derived.prefix.value, req.path) {
        if rule.settings.dropParams && |req.rawQuery| > 0 {
          w.HttpRedirect(req.path, 301);
          return;
        }
        var url := req.path;
        if |rule.settings.regExpMatch| > 0 {
          url := env.replaceAll(rule.derived.translation.value, url, rule.settings.regExpSub);
        }
        var ref := StorageRef(rule, url);
        storageCall := Some(ref);
        var fetched := env.storage(ref);
        if fetched.ClientErr? {
          w.HttpError(500);
          return;
        }
        if fetched.FetchErr? {
          w.HttpError(500);
          return;
        }
        var buffer := fetched.bytes;
        if |buffer| == 0 {
          w.HttpError(404);
          return;
        }
        w.Set("Content-Type", ContentType.ContentTypeFor(url, env.registry));
        w.Set("Content-Length", Decimal.Itoa(|buffer|));
        if |rule.settings.cacheControl| > 0 {
          w.Set("Cache-Control", rule.settings.cacheControl);
        }
        if |rule.settings.expires| > 0 {
          w.Set("Expires", env.httpDate(env.now + rule.derived.expires));
        }
        w.Write(buffer);
        return;
      }
    }
    w.HttpError(404);
  }
}
