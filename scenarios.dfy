/**
  Worked request lifecycles: an expired access token recovered by one refresh
  and one replay, a refused refresh, no refresh token, a rejected replay, and
  the stale default header. Each follows from the contracts of
  `ApiClient.Request` and `ApiClient.Invoke` alone.
 */
module Scenarios {
  import opened Wrappers
  import opened Endpoints
  import opened Client

  /** Access `A1`, refresh `R1`; the patient list answers 401, the refresh
      issues `A2` without rotation, the replay succeeds. */
  method RefreshThenReplay()
  {
    var client := new ApiClient("/api", map[AccessKey := "A1", RefreshKey := "R1"]);
    var config := new RequestConfig(Get, Some("/health/patients/"), map[], NoBody, false);
    var expired := Failure(Some(Unauthorized), "token expired");
    var replayed := Resolved(Response(200, "patients"));
    var out := client.Request(config, Rejected(expired), Issued("A2", None), replayed);
    assert out == replayed;
    assert GetItem(client.store, AccessKey) == Some("A2");
    assert GetItem(client.store, RefreshKey) == Some("R1");
    assert client.sent[0].headers[AuthHeader] == Bearer("A1");
    assert client.sent[1] == RefreshPost("/api", "R1");
    assert GetItem(client.sent[2].headers, AuthHeader) == Some(Bearer("A2"));
    assert client.sent[2].url == "/api/health/patients/" && client.sent[2].verb == Get;
    assert client.redirect == None;
  }

  /** The same recovery through `patientAPI.list`: three requests go out, the
      replay is the original call with the new bearer token. */
  method InvokeRefreshThenReplay()
  {
    var client := new ApiClient("/api", map[AccessKey := "A1", RefreshKey := "R1"]);
    var expired := Failure(Some(Unauthorized), "token expired");
    var replayed := Resolved(Response(200, "patients"));
    var out := client.Invoke(PatientList, Rejected(expired), Issued("A2", None), replayed);
    assert out == replayed;
    assert |client.sent| == 3;
    assert client.sent[2].url == "/api/health/patients/";
    assert GetItem(client.sent[2].headers, AuthHeader) == Some(Bearer("A2"));
  }

  /** The same start, but the refresh POST itself is rejected with 401. */
  method RefreshRefused()
  {
    var client := new ApiClient("/api", map[AccessKey := "A1", RefreshKey := "R1"]);
    var config := new RequestConfig(Get, Some("/health/patients/"), map[], NoBody, false);
    var expired := Failure(Some(Unauthorized), "token expired");
    var refused := Failure(Some(Unauthorized), "refresh token invalid");
    var out := client.Request(config, Rejected(expired), Refused(refused), Resolved(Response(200, "")));
    assert out == Rejected(refused);
    assert GetItem(client.store, AccessKey) == None && GetItem(client.store, RefreshKey) == None;
    assert client.redirect == Some(LoginPath);
    assert |client.sent| == 2 && client.sent[1] == RefreshPost("/api", "R1");
  }

  /** No refresh token stored: a 401 logs out at once, without a refresh POST. */
  method NoRefreshToken()
  {
    var client := new ApiClient("/api", map[AccessKey := "A1"]);
    var expired := Failure(Some(Unauthorized), "token expired");
    var out := client.Invoke(PatientList, Rejected(expired), Issued("A2", None), Resolved(Response(200, "")));
    assert out == Rejected(expired);
    assert |client.sent| == 1;
    assert GetItem(client.store, AccessKey) == None;
    assert client.redirect == Some(LoginPath);
  }

  /** The replay itself is rejected with 401: the rejection reaches the caller
      and the freshly stored tokens stay; nothing is refreshed a second time. */
  method ReplayRejected()
  {
    var client := new ApiClient("/api", map[AccessKey := "A1", RefreshKey := "R1"]);
    var config := new RequestConfig(Get, Some("/health/patients/"), map[], NoBody, false);
    var expired := Failure(Some(Unauthorized), "token expired");
    var again := Failure(Some(Unauthorized), "still unauthorized");
    var out := client.Request(config, Rejected(expired), Issued("A2", Some("R2")), Rejected(again));
    assert out == Rejected(again);
    assert GetItem(client.store, AccessKey) == Some("A2");
    assert GetItem(client.store, RefreshKey) == Some("R2");
    assert client.redirect == None;
    assert BareCount(client.sent) == 1;
  }

  /** After a refresh set the instance default and a later refresh was
      refused, the store is empty, but a request the same page issues before
      the navigation to `/login` takes effect still carries the old bearer
      token through the default header. */
  method StaleDefaultAfterLogout()
  {
    var client := new ApiClient("/api", map[AccessKey := "A1", RefreshKey := "R1"]);
    var expired := Failure(Some(Unauthorized), "token expired");
    var out := client.Invoke(PatientList, Rejected(expired), Issued("A2", None), Resolved(Response(200, "")));
    out := client.Invoke(PatientList, Rejected(expired), Refused(expired), Resolved(Response(200, "")));
    assert client.store == map[];
    assert client.defaultAuth == Some(Bearer("A2"));
    var before := |client.sent|;
    out := client.Invoke(PatientGet(7), Resolved(Response(200, "patient")), Refused(expired), out);
    assert GetItem(client.sent[before].headers, AuthHeader) == Some(Bearer("A2"));
  }
}
