/**
  The authenticated HTTP client: a request interceptor that attaches the stored
  access token, and a response interceptor that answers a first 401 with one
  token refresh and one replay, or with a forced logout.

  Browser state is held by `ApiClient`: `store` is `localStorage`, `defaultAuth`
  the instance-wide `Authorization` default, `redirect` the last value assigned
  to `window.location.href`, and `sent` the log of requests put on the wire.
  Server replies are parameters of the methods.
 */
module Client {
  import opened Wrappers
  import opened Text
  import opened Endpoints

  const AccessKey: string := "access_token"
  const RefreshKey: string := "refresh_token"
  const AuthHeader: string := "Authorization"
  const LoginPath: string := "/login"
  const Unauthorized: int := 401

  function Bearer(token: string): string
  {
    "Bearer " + token
  }

  /** `localStorage.getItem(key)`: the stored string, or null. */
  function GetItem(store: map<string, string>, key: string): Option<string>
  {
    if key in store then Some(store[key]) else None
  }

  /** JavaScript truthiness of a nullable string: present and not empty. */
  predicate Truthy(v: Option<string>)
  {
    v.Some? && v.value != ""
  }

  /** The guard of the refresh block: a 401 on a config not yet marked. */
  predicate Recovers(err: Failure, retried: bool)
  {
    err.status == Some(Unauthorized) && !retried
  }

  /** The guard of the refresh call: a truthy refresh token is stored and the
      failing request is not the refresh endpoint. */
  predicate CanRefresh(store: map<string, string>, url: Option<string>)
  {
    Truthy(GetItem(store, RefreshKey)) && !IsRefreshRequest(url)
  }

  /** `original.url?.includes('/auth/token/refresh/')`; an absent url is falsy. */
  predicate IsRefreshRequest(url: Option<string>)
  {
    url.Some? && Contains(url.value, RefreshPath)
  }

  /** Both `removeItem` calls of a logout. */
  function Cleared(store: map<string, string>): (r: map<string, string>)
    ensures GetItem(r, AccessKey) == None && GetItem(r, RefreshKey) == None
    ensures forall k :: k != AccessKey && k != RefreshKey ==> GetItem(r, k) == GetItem(store, k)
  {
    store - {AccessKey, RefreshKey}
  }

  /** The store after a successful refresh: the new access token always, the
      refresh token only when the server issued a truthy one (rotation). */
  function Rotated(store: map<string, string>, access: string, issued: Option<string>): (r: map<string, string>)
    ensures GetItem(r, AccessKey) == Some(access)
    ensures GetItem(r, RefreshKey) == if Truthy(issued) then issued else GetItem(store, RefreshKey)
    ensures forall k :: k != AccessKey && k != RefreshKey ==> GetItem(r, k) == GetItem(store, k)
  {
    var written := store[AccessKey := access];
    if Truthy(issued) then written[RefreshKey := issued.value] else written
  }

  /** The headers of a dispatched config: the instance default `Authorization`
      underneath, the config's own headers on top. */
  function Merged(defaultAuth: Option<string>, headers: map<string, string>): (r: map<string, string>)
    ensures AuthHeader in headers ==> r == headers
    ensures AuthHeader !in headers ==> GetItem(r, AuthHeader) == defaultAuth
    ensures forall k :: k != AuthHeader ==> GetItem(r, k) == GetItem(headers, k)
  {
    (if defaultAuth.Some? then map[AuthHeader := defaultAuth.value] else map[]) + headers
  }

  /** What the request interceptor makes of `headers` given the store: with a
      truthy access token `Authorization` is `Bearer <token>`, otherwise the
      headers stay as they were, a stale default included. */
  function Authorized(headers: map<string, string>, store: map<string, string>): (r: map<string, string>)
    ensures Truthy(GetItem(store, AccessKey)) ==> GetItem(r, AuthHeader) == Some(Bearer(store[AccessKey]))
    ensures !Truthy(GetItem(store, AccessKey)) ==> r == headers
    ensures forall k :: k != AuthHeader ==> GetItem(r, k) == GetItem(headers, k)
  {
    var token := GetItem(store, AccessKey);
    if Truthy(token) then headers[AuthHeader := Bearer(token.value)] else headers
  }

  /** `baseURL` joined with a config's relative url; no url means the base. */
  function FullUrl(baseUrl: string, url: Option<string>): string
  {
    if url.Some? then baseUrl + url.value else baseUrl
  }

  /** Whether a request went through the `api` instance (and its interceptors)
      or through bare `axios`. */
  datatype Channel = Intercepted | Bare

  datatype Sent = Sent(channel: Channel, verb: HttpMethod, url: string, headers: map<string, string>, body: Body)

  /** The refresh POST: bare `axios`, absolute url, no `Authorization`, the
      refresh token in the body. */
  function RefreshPost(baseUrl: string, refreshToken: string): Sent
  {
    Sent(Bare, Post, baseUrl + RefreshPath, map[], RefreshForm(refreshToken))
  }

  /** Number of requests in a log that bypassed the interceptors (refresh POSTs). */
  function BareCount(log: seq<Sent>): nat
  {
    if log == [] then 0
    else BareCount(log[..|log| - 1]) + (if log[|log| - 1].channel == Bare then 1 else 0)
  }

  /** Appending one request adds one to the count exactly when it is bare. */
  lemma BareCountSnoc(log: seq<Sent>, s: Sent)
    ensures BareCount(log + [s]) == BareCount(log) + if s.channel == Bare then 1 else 0
  {
  }

  /** A rejection: the HTTP status when a response arrived, none for a
      transport error. */
  datatype Failure = Failure(status: Option<int>, message: string)

  datatype Response = Response(status: int, data: string)

  /** The settled promise the caller sees (and the server's reply to a
      request, before the response interceptor). */
  datatype Outcome = Resolved(response: Response) | Rejected(error: Failure)

  /** The server's reply to the refresh POST: `data.access` and the optional
      `data.refresh`, or the error the POST rejected with. */
  datatype RefreshReply = Issued(access: string, refresh: Option<string>) | Refused(error: Failure)

  /** An axios request config; `retry` is the `_retry` marker. */
  class RequestConfig {
    const verb: HttpMethod
    const url: Option<string>
    const body: Body
    var headers: map<string, string>
    var retry: bool

    constructor (verb: HttpMethod, url: Option<string>, headers: map<string, string>, body: Body, retry: bool)
      ensures this.verb == verb && this.url == url && this.body == body
      ensures this.headers == headers && this.retry == retry
    {
      this.verb := verb;
      this.url := url;
      this.body := body;
      this.headers := headers;
      this.retry := retry;
    }
  }

  class ApiClient {
    const baseUrl: string
    var store: map<string, string>
    var defaultAuth: Option<string>
    var redirect: Option<string>
    var sent: seq<Sent>

    constructor (baseUrl: string, store: map<string, string>)
      ensures this.baseUrl == baseUrl && this.store == store
      ensures defaultAuth == None && redirect == None && sent == []
    {
      this.baseUrl := baseUrl;
      this.store := store;
      defaultAuth := None;
      redirect := None;
      sent := [];
    }

    /** The request interceptor: reads the access token and, when it is
        truthy, overwrites the config's `Authorization` in place. */
    method InterceptRequest(config: RequestConfig)
      modifies config`headers
      ensures config.headers == Authorized(old(config.headers), store)
    {
      var token := GetItem(store, AccessKey);
      if Truthy(token) {
        config.headers := config.headers[AuthHeader := Bearer(token.value)];
      }
    }

    /** Dispatch through the `api` instance: the config is copied over the
        instance defaults, the request interceptor runs on the copy, and the
        copy is put on the wire. The copy is what the response interceptor
        later sees as `error.config`. */
    method Send(config: RequestConfig) returns (c: RequestConfig)
      modifies this`sent
      ensures fresh(c)
      ensures c.verb == config.verb && c.url == config.url && c.body == config.body && c.retry == config.retry
      ensures c.headers == Authorized(Merged(defaultAuth, config.headers), store)
      ensures sent == old(sent) + [Sent(Intercepted, c.verb, FullUrl(baseUrl, c.url), c.headers, c.body)]
    {
      c := new RequestConfig(config.verb, config.url, Merged(defaultAuth, config.headers), config.body, config.retry);
      InterceptRequest(c);
      sent := sent + [Sent(Intercepted, c.verb, FullUrl(baseUrl, c.url), c.headers, c.body)];
    }

    /** The response interceptor's error handler for one failed request.
        `refreshReply` is the server's answer to the refresh POST and
        `replayReply` its answer to the replayed request, used only on the
        branches that make those calls. */
    method OnError(original: RequestConfig, err: Failure, refreshReply: RefreshReply, replayReply: Outcome)
      returns (out: Outcome)
      modifies this`store, this`defaultAuth, this`redirect, this`sent, original`headers, original`retry
      decreases if original.retry then 0 else 1
      // the retry marker is set on a 401 and never cleared
      ensures original.retry == (old(original.retry) || err.status == Some(Unauthorized))
      // not a 401, or already retried: the error passes through, nothing changes
      ensures !Recovers(err, old(original.retry)) ==>
        && out == Rejected(err)
        && store == old(store) && defaultAuth == old(defaultAuth) && redirect == old(redirect)
        && sent == old(sent) && original.headers == old(original.headers)
      // no truthy refresh token, or the refresh endpoint itself: logout, original error
      ensures Recovers(err, old(original.retry)) && !CanRefresh(old(store), original.url) ==>
        && out == Rejected(err)
        && store == Cleared(old(store)) && redirect == Some(LoginPath)
        && defaultAuth == old(defaultAuth) && sent == old(sent) && original.headers == old(original.headers)
      // refresh attempted and refused: logout, the refresh error
      ensures Recovers(err, old(original.retry)) && CanRefresh(old(store), original.url) && refreshReply.Refused? ==>
        && out == Rejected(refreshReply.error)
        && sent == old(sent) + [RefreshPost(baseUrl, old(store)[RefreshKey])]
        && store == Cleared(old(store)) && redirect == Some(LoginPath)
        && defaultAuth == old(defaultAuth) && original.headers == old(original.headers)
      // refresh attempted and granted: store rotated, headers updated, one replay
      // whose outcome, success or failure, is the caller's; the tokens stay
      ensures Recovers(err, old(original.retry)) && CanRefresh(old(store), original.url) && refreshReply.Issued? ==>
        && out == replayReply
        && store == Rotated(old(store), refreshReply.access, refreshReply.refresh)
        && defaultAuth == Some(Bearer(refreshReply.access))
        && original.headers == old(original.headers)[AuthHeader := Bearer(refreshReply.access)]
        && redirect == old(redirect)
        && sent == old(sent) + [RefreshPost(baseUrl, old(store)[RefreshKey]),
                                Sent(Intercepted, original.verb, FullUrl(baseUrl, original.url), original.headers, original.body)]
    {
      out := Rejected(err);
      if Recovers(err, original.retry) {
        original.retry := true;
        var refreshToken := GetItem(store, RefreshKey);
        if Truthy(refreshToken) && !IsRefreshRequest(original.url) {
          sent := sent + [RefreshPost(baseUrl, refreshToken.value)];
          match refreshReply
          case Issued(access, issued) =>
            store := store[AccessKey := access];
            if Truthy(issued) {
              store := store[RefreshKey := issued.value];
            }
            defaultAuth := Some(Bearer(access));
            original.headers := original.headers[AuthHeader := Bearer(access)];
            ReplayKeepsHeaders(original.headers, defaultAuth, store, access);
            var replayed := Send(original);
            match replayReply {
              case Resolved(_) =>
                out := replayReply;
              case Rejected(replayErr) =>
                // the replay's rejection runs through this handler again; it is
                // not caught by the refresh's try block
                out := OnError(replayed, replayErr, refreshReply, replayReply);
            }
          case Refused(refreshErr) =>
            store := store - {AccessKey, RefreshKey};
            redirect := Some(LoginPath);
            out := Rejected(refreshErr);
        } else {
          store := store - {AccessKey, RefreshKey};
          redirect := Some(LoginPath);
        }
      }
    }

    /** One request through the `api` instance, as a caller sees it: the
        request goes out, and a rejection is handed to the response
        interceptor; successes pass through untouched. The caller's config is
        never modified. */
    method Request(config: RequestConfig, first: Outcome, refreshReply: RefreshReply, replayReply: Outcome)
      returns (out: Outcome)
      modifies this`store, this`defaultAuth, this`redirect, this`sent
      ensures |old(sent)| < |sent| <= |old(sent)| + 3 && sent[..|old(sent)|] == old(sent)
      ensures sent[|old(sent)|] == Sent(Intercepted, config.verb, FullUrl(baseUrl, config.url),
                                        Authorized(Merged(old(defaultAuth), config.headers), old(store)), config.body)
      // exactly one refresh POST when the coordinator attempts one, none otherwise
      ensures BareCount(sent) == BareCount(old(sent)) +
        if first.Rejected? && Recovers(first.error, config.retry) && CanRefresh(old(store), config.url) then 1 else 0
      ensures !(first.Rejected? && Recovers(first.error, config.retry)) ==>
        && out == first && |sent| == |old(sent)| + 1
        && store == old(store) && defaultAuth == old(defaultAuth) && redirect == old(redirect)
      ensures first.Rejected? && Recovers(first.error, config.retry) && !CanRefresh(old(store), config.url) ==>
        && out == first && |sent| == |old(sent)| + 1
        && store == Cleared(old(store)) && redirect == Some(LoginPath) && defaultAuth == old(defaultAuth)
      ensures first.Rejected? && Recovers(first.error, config.retry) && CanRefresh(old(store), config.url) &&
              refreshReply.Refused? ==>
        && out == Rejected(refreshReply.error) && |sent| == |old(sent)| + 2
        && sent[|old(sent)| + 1] == RefreshPost(baseUrl, old(store)[RefreshKey])
        && store == Cleared(old(store)) && redirect == Some(LoginPath) && defaultAuth == old(defaultAuth)
      // the caller never sees the 401: it gets the replay's outcome
      ensures first.Rejected? && Recovers(first.error, config.retry) && CanRefresh(old(store), config.url) &&
              refreshReply.Issued? ==>
        && out == replayReply && |sent| == |old(sent)| + 3
        && sent[|old(sent)| + 1] == RefreshPost(baseUrl, old(store)[RefreshKey])
        && sent[|old(sent)| + 2] == Sent(Intercepted, config.verb, FullUrl(baseUrl, config.url),
                                         sent[|old(sent)|].headers[AuthHeader := Bearer(refreshReply.access)], config.body)
        && store == Rotated(old(store), refreshReply.access, refreshReply.refresh)
        && defaultAuth == Some(Bearer(refreshReply.access)) && redirect == old(redirect)
    {
      var c := Send(config);
      ghost var afterFirst := sent;
      BareCountSnoc(old(sent), sent[|old(sent)|]);
      match first
      case Resolved(_) =>
        out := first;
      case Rejected(e) =>
        out := OnError(c, e, refreshReply, replayReply);
        if |sent| > |afterFirst| {
          var refresh := sent[|afterFirst|];
          BareCountSnoc(afterFirst, refresh);
          if |sent| > |afterFirst| + 1 {
            assert sent == afterFirst + [refresh] + [sent[|afterFirst| + 1]];
            BareCountSnoc(afterFirst + [refresh], sent[|afterFirst| + 1]);
          }
        }
    }

    /** An endpoint-group operation: its call shape sent as a fresh config
        with no headers of its own and no retry marker. */
    method Invoke(e: Endpoint, first: Outcome, refreshReply: RefreshReply, replayReply: Outcome)
      returns (out: Outcome)
      modifies this`store, this`defaultAuth, this`redirect, this`sent
      ensures |old(sent)| < |sent| && sent[..|old(sent)|] == old(sent)
      ensures sent[|old(sent)|] == Sent(Intercepted, Route(e).verb, baseUrl + Route(e).path,
                                        Authorized(Merged(old(defaultAuth), map[]), old(store)), Route(e).body)
      // authAPI.refresh never triggers a refresh
      ensures e.AuthRefresh? ==> BareCount(sent) == BareCount(old(sent))
      ensures !(first.Rejected? && first.error.status == Some(Unauthorized)) ==>
        && out == first && |sent| == |old(sent)| + 1
        && store == old(store) && defaultAuth == old(defaultAuth) && redirect == old(redirect)
      // a 401 from authAPI.refresh, or with no truthy refresh token: logout and the original error
      ensures first.Rejected? && first.error.status == Some(Unauthorized) &&
              (e.AuthRefresh? || !Truthy(GetItem(old(store), RefreshKey))) ==>
        && out == first && |sent| == |old(sent)| + 1
        && store == Cleared(old(store)) && redirect == Some(LoginPath) && defaultAuth == old(defaultAuth)
      // a 401 from any other operation, with a truthy refresh token stored: exactly one refresh
      ensures !e.AuthRefresh? && first.Rejected? && first.error.status == Some(Unauthorized) &&
              Truthy(GetItem(old(store), RefreshKey)) ==>
        && BareCount(sent) == BareCount(old(sent)) + 1
        && sent[|old(sent)| + 1] == RefreshPost(baseUrl, old(store)[RefreshKey])
        && (refreshReply.Refused? ==>
              && out == Rejected(refreshReply.error) && |sent| == |old(sent)| + 2
              && store == Cleared(old(store)) && redirect == Some(LoginPath) && defaultAuth == old(defaultAuth))
        && (refreshReply.Issued? ==>
              && out == replayReply && redirect == old(redirect) && |sent| == |old(sent)| + 3
              && sent[|old(sent)| + 2] == Sent(Intercepted, Route(e).verb, baseUrl + Route(e).path,
                                               sent[|old(sent)|].headers[AuthHeader := Bearer(refreshReply.access)], Route(e).body)
              && store == Rotated(old(store), refreshReply.access, refreshReply.refresh)
              && defaultAuth == Some(Bearer(refreshReply.access)))
    {
      var call := Route(e);
      RefreshPathOnlyForRefresh(e);
      var config := new RequestConfig(call.verb, Some(call.path), map[], call.body, false);
      out := Request(config, first, refreshReply, replayReply);
    }
  }

  /** Once the replayed config's own `Authorization` is `Bearer <access>` and
      the store holds `access`, neither the instance default nor the request
      interceptor changes its headers. */
  lemma ReplayKeepsHeaders(headers: map<string, string>, defaultAuth: Option<string>,
                           store: map<string, string>, access: string)
    requires GetItem(headers, AuthHeader) == Some(Bearer(access))
    requires GetItem(store, AccessKey) == Some(access)
    ensures Authorized(Merged(defaultAuth, headers), store) == headers
  {
  }

}
