/** The direct-fetch broker of main.go: the API store with its two HTTP
    handlers, `registerAPI` (publish a local API under a fresh key) and
    `proxyRequest` (look the key up and relay the local API's body), plus
    the CORS and preflight helpers they share.

    The JSON decoding of the registration body is an input (`decoded`:
    None when decoding fails, else the `local_api` field), and the outbound
    `http.Get` is an input too: `fetch` maps a URL to what the GET yields. */
module Broker {
  import opened Http
  import opened Registry
  import Decimal

  datatype Option<T> = None | Some(value: T)

  /** What `http.Get(url)` followed by `io.Copy` yields: an error, or the
      whole response body. The upstream status and headers are not used. */
  datatype Fetch = FetchFailed | Fetched(body: string)

  /** The branch `proxyRequest` takes. */
  datatype ProxyOutcome = Preflight | NotFound | Unreachable | Relayed(body: string)

  /** The branch `registerAPI` takes. */
  datatype RegisterOutcome = RegisterPreflight | InvalidInput | Published(key: string)

  /** The three permissive cross-origin header values are present. */
  predicate HasCors(h: Header) {
    && AllowOrigin in h && h[AllowOrigin] == "*"
    && AllowMethods in h && h[AllowMethods] == "GET, POST, OPTIONS"
    && AllowHeaders in h && h[AllowHeaders] == "Content-Type"
  }

  /** The header map after `enableCORS`: the three CORS values set and
      every other header left as it was. */
  function WithCors(h: Header): (r: Header)
    ensures HasCors(r)
  {
    h[AllowOrigin := "*"]
     [AllowMethods := "GET, POST, OPTIONS"]
     [AllowHeaders := "Content-Type"]
  }

  /** `enableCORS` adds only the three CORS fields and leaves every other
      field as it was. */
  lemma WithCorsKeepsOthers(h: Header, k: HeaderName)
    ensures k in WithCors(h) <==> k in h || k in {AllowOrigin, AllowMethods, AllowHeaders}
    ensures k in h && k !in {AllowOrigin, AllowMethods, AllowHeaders} ==> WithCors(h)[k] == h[k]
  {
  }

  /** `enableCORS(w)` */
  method EnableCors(w: ResponseWriter)
    modifies w
    ensures w.header == WithCors(old(w.header))
    ensures w.status == old(w.status) && w.committed == old(w.committed) && w.body == old(w.body)
  {
    w.SetHeader(AllowOrigin, "*");
    w.SetHeader(AllowMethods, "GET, POST, OPTIONS");
    w.SetHeader(AllowHeaders, "Content-Type");
  }

  /** `handleOptions(w, r)`: CORS headers, then 204 with no body. */
  method HandleOptions(w: ResponseWriter)
    modifies w
    ensures w.header == WithCors(old(w.header)) && w.body == old(w.body)
    ensures old(w.status) == 0 ==> w.status == StatusNoContent && w.committed == w.header
    ensures old(w.status) != 0 ==> w.status == old(w.status) && w.committed == old(w.committed)
  {
    EnableCors(w);
    w.WriteHeader(StatusNoContent);
  }

  /** The reply to a preflight request on a new writer. */
  function PreflightReply(): Reply {
    Reply(StatusNoContent, WithCors(map[]), "")
  }

  /** `r.URL.Path[len("/api/"):]`: the key is the path minus its prefix. */
  function KeyOf(path: string): string
    requires |path| >= |ApiPrefix|
  {
    path[|ApiPrefix|..]
  }

  /** The decision `proxyRequest` makes. The path is sliced only after the
      OPTIONS test, so only non-OPTIONS requests need a path that long
      (the route "/api/" guarantees it). */
  function Dispatch(verb: string, path: string, store: Store, fetch: string -> Fetch): ProxyOutcome
    requires verb == "OPTIONS" || |path| >= |ApiPrefix|
  {
    if verb == "OPTIONS" then Preflight
    else if KeyOf(path) !in store then NotFound
    else match fetch(store[KeyOf(path)])
      case FetchFailed => Unreachable
      case Fetched(body) => Relayed(body)
  }

  /** What the client of `proxyRequest` receives for each outcome.
      Every reply carries the CORS headers. */
  function ProxyReply(o: ProxyOutcome): (r: Reply)
    ensures HasCors(r.header)
  {
    match o
    case Preflight => PreflightReply()
    case NotFound => ErrorReply(WithCors(map[]), "API not found", StatusNotFound)
    case Unreachable => ErrorReply(WithCors(map[]), "Failed to reach User 1's API", StatusBadGateway)
    case Relayed(body) => Reply(StatusOK, WithCors(map[])[ContentType := "application/json"], body)
  }

  /** The decision `registerAPI` makes. */
  function RegisterDecision(verb: string, store: Store, decoded: Option<string>): RegisterOutcome {
    if verb == "OPTIONS" then RegisterPreflight
    else if decoded.None? then InvalidInput
    else Published(NextKey(store))
  }

  /** The store after `registerAPI`. */
  function StoreAfter(verb: string, store: Store, decoded: Option<string>): Store {
    if verb != "OPTIONS" && decoded.Some? then store[NextKey(store) := decoded.value] else store
  }

  /** The JSON document `{"public_api": url}` as Go's encoder writes it
      (no character of "/api/" or of a decimal key needs escaping). */
  function PublishedBody(key: string): string {
    "{\"public_api\":\"" + PublicUrl(key) + "\"}\n"
  }

  /** What the client of `registerAPI` receives for each outcome.
      Every reply carries the CORS headers. */
  function RegisterReply(o: RegisterOutcome): (r: Reply)
    ensures HasCors(r.header)
  {
    match o
    case RegisterPreflight => PreflightReply()
    case InvalidInput => ErrorReply(WithCors(map[]), "Invalid input", StatusBadRequest)
    case Published(key) => Reply(StatusOK, WithCors(map[]), PublishedBody(key))
  }

  /** The in-process API store, `apiStore` in main.go. */
  class ApiStore {
    var entries: Store

    /** Registrations are the only writes, so the keys are "1".."n". */
    predicate Valid()
      reads this
    {
      Issued(entries)
    }

    constructor ()
      ensures Valid() && entries == map[]
    {
      entries := map[];
    }

    /** `registerAPI(w, r)`, with the decoded request body as `decoded`. */
    method RegisterApi(w: ResponseWriter, verb: string, decoded: Option<string>)
      requires Valid() && w.IsNew()
      modifies this, w
      ensures Valid()
      ensures entries == StoreAfter(verb, old(entries), decoded)
      ensures w.Sent() == RegisterReply(RegisterDecision(verb, old(entries), decoded))
    {
      if verb == "OPTIONS" {
        HandleOptions(w);
        assert w.Sent() == PreflightReply();
        return;
      }
      EnableCors(w);
      if decoded.None? {
        Http.Error(w, "Invalid input", StatusBadRequest);
        assert w.Sent() == ErrorReply(WithCors(map[]), "Invalid input", StatusBadRequest);
        return;
      }
      var key := NextKey(entries);
      RegisterStep(entries, decoded.value);
      entries := entries[key := decoded.value];
      w.Write(PublishedBody(key));
      assert w.Sent() == RegisterReply(Published(key));
    }

    /** `proxyRequest(w, r)`, with the outbound GET as `fetch`. It only
        reads the store. */
    method ProxyRequest(w: ResponseWriter, verb: string, path: string, fetch: string -> Fetch)
      requires w.IsNew()
      requires verb == "OPTIONS" || |path| >= |ApiPrefix|
      modifies w
      ensures w.Sent() == ProxyReply(Dispatch(verb, path, entries, fetch))
    {
      if verb == "OPTIONS" {
        HandleOptions(w);
        assert w.Sent() == ProxyReply(Preflight);
        return;
      }
      EnableCors(w);
      var key := path[|ApiPrefix|..];
      if key !in entries {
        Http.Error(w, "API not found", StatusNotFound);
        assert w.Sent() == ProxyReply(NotFound);
        return;
      }
      var localApi := entries[key];
      var resp := fetch(localApi);
      if resp.FetchFailed? {
        Http.Error(w, "Failed to reach User 1's API", StatusBadGateway);
        assert w.Sent() == ProxyReply(Unreachable);
        return;
      }
      w.SetHeader(ContentType, "application/json");
      if resp.body != "" {
        w.Write(resp.body);
      }
      assert w.Sent() == ProxyReply(Relayed(resp.body));
    }
  }

  /** The three branches of `registerAPI`: a preflight answers 204 and an
      undecodable body answers 400, both leaving the store unchanged; a
      decoded body is stored under a fresh key, nothing else in the store
      changes, the store invariant is kept and the reply names "/api/" + key. */
  lemma RegisterOutcomes(verb: string, store: Store, decoded: Option<string>)
    requires Issued(store)
    ensures var r := RegisterReply(RegisterDecision(verb, store, decoded));
      var after := StoreAfter(verb, store, decoded);
      && (verb == "OPTIONS" ==> r.status == StatusNoContent && r.body == "" && after == store)
      && (verb != "OPTIONS" && decoded.None? ==>
            r.status == StatusBadRequest && r.body == "Invalid input\n" && after == store)
      && (verb != "OPTIONS" && decoded.Some? ==>
            && r.status == StatusOK
            && r.body == "{\"public_api\":\"/api/" + Decimal.Format(|store| + 1) + "\"}\n"
            && Decimal.Format(|store| + 1) !in store
            && |after| == |store| + 1
            && after[Decimal.Format(|store| + 1)] == decoded.value
            && (forall k :: k in store ==> k in after && after[k] == store[k]))
      && Issued(after)
  {
    if verb != "OPTIONS" && decoded.Some? {
      RegisterStep(store, decoded.value);
    }
  }

  /** For a non-preflight request the proxy answers 404 exactly when the
      key is not a canonical decimal between 1 and the store size; so the
      empty key, "01" and "1/x" are never found. */
  lemma ProxyNotFoundExactly(verb: string, path: string, store: Store, fetch: string -> Fetch)
    requires Issued(store)
    requires verb != "OPTIONS" && |path| >= |ApiPrefix|
    ensures var key := KeyOf(path);
      ProxyReply(Dispatch(verb, path, store, fetch)).status == StatusNotFound
      <==> !(Decimal.Canonical(key) && 1 <= Decimal.Parse(key) <= |store|)
  {
    IssuedKeysMember(|store|, KeyOf(path));
  }

  /** The status and body of every proxy reply: 204 for a preflight,
      404 for an unknown key, 502 when the GET fails, and otherwise 200
      with the upstream body verbatim as JSON, whatever the upstream status. */
  lemma ProxyReplies(verb: string, path: string, store: Store, fetch: string -> Fetch)
    requires verb == "OPTIONS" || |path| >= |ApiPrefix|
    ensures var r := ProxyReply(Dispatch(verb, path, store, fetch));
      && (verb == "OPTIONS" <==> r.status == StatusNoContent)
      && (verb != "OPTIONS" ==>
            && (KeyOf(path) !in store <==> r.status == StatusNotFound)
            && (KeyOf(path) in store && fetch(store[KeyOf(path)]).FetchFailed? <==> r.status == StatusBadGateway)
            && (KeyOf(path) in store && fetch(store[KeyOf(path)]).Fetched? <==>
                  r.status == StatusOK && r.header[ContentType] == "application/json")
            && (r.status == StatusOK ==> r.body == fetch(store[KeyOf(path)]).body))
  {
  }

  /** Register-then-lookup round trip: after a successful registration of
      URL u, a request for the URL it answered with reaches u. This holds on
      any store, whether or not its keys are "1".."n". */
  lemma RegisterThenProxy(regVerb: string, store: Store, u: string, verb: string, fetch: string -> Fetch)
    requires regVerb != "OPTIONS" && verb != "OPTIONS"
    ensures RegisterDecision(regVerb, store, Some(u)).Published?
    ensures var key := RegisterDecision(regVerb, store, Some(u)).key;
      var after := StoreAfter(regVerb, store, Some(u));
      && KeyOf(PublicUrl(key)) == key
      && Dispatch(verb, PublicUrl(key), after, fetch)
         == (if fetch(u).FetchFailed? then Unreachable else Relayed(fetch(u).body))
  {
  }

  /** After n registrations from an empty store, which published
      "/api/1".."/api/n", a request for "/api/i" reaches the i-th
      registered URL. */
  lemma RegisteredUrlsReachable(urls: seq<string>, i: nat, verb: string, fetch: string -> Fetch)
    requires 1 <= i <= |urls| && verb != "OPTIONS"
    ensures Dispatch(verb, PublicUrl(Decimal.Format(i)), Registered(urls), fetch)
            == (if fetch(urls[i - 1]).FetchFailed? then Unreachable else Relayed(fetch(urls[i - 1]).body))
  {
    RegisteredExactly(urls);
    assert KeyOf(PublicUrl(Decimal.Format(i))) == Decimal.Format(i);
  }
}
