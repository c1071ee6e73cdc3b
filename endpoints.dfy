/**
  The endpoint groups `authAPI`, `patientAPI`, `measurementAPI` and
  `predictionAPI`: each operation is one HTTP call shape, an HTTP method, a path
  relative to the API base and a request body. Numeric ids are spliced into the
  path in decimal.
 */
module Endpoints {
  import opened Text

  datatype HttpMethod = Get | Post | Patch | Delete

  /** The JSON bodies the groups send; `Payload` is a caller-supplied object,
      passed on untouched. */
  datatype Body =
    | NoBody
    | LoginForm(username: string, password: string)
    | RegisterForm(username: string, email: string, password: string, password2: string)
    | RefreshForm(refresh: string)
    | Payload(data: string)

  datatype Call = Call(verb: HttpMethod, path: string, body: Body)

  /** The path the refresh coordinator refuses to refresh for. */
  const RefreshPath: string := "/auth/token/refresh/"

  /** One operation of an endpoint group together with its arguments. */
  datatype Endpoint =
    | AuthLogin(username: string, password: string)
    | AuthRegister(username: string, email: string, password: string, password2: string)
    | AuthRefresh(refresh: string)
    | AuthProfile
    | PatientList
    | PatientCreate(data: string)
    | PatientGet(id: nat)
    | PatientUpdate(id: nat, data: string)
    | PatientDelete(id: nat)
    | MeasurementList(patientId: nat)
    | MeasurementCreate(patientId: nat, data: string)
    | MeasurementGet(id: nat)
    | MeasurementDelete(id: nat)
    | PredictionGet(measurementId: nat)

  function PatientPath(id: nat): string
  {
    "/health/patients/" + NatToString(id) + "/"
  }

  function PatientMeasurementsPath(patientId: nat): string
  {
    "/health/patients/" + NatToString(patientId) + "/measurements/"
  }

  function MeasurementPath(id: nat): string
  {
    "/health/measurements/" + NatToString(id) + "/"
  }

  function PredictionPath(measurementId: nat): string
  {
    "/health/measurements/" + NatToString(measurementId) + "/prediction/"
  }

  /** A path relative to the API base, delimited by '/' at both ends. */
  predicate IsApiPath(p: string)
  {
    |p| >= 2 && p[0] == '/' && p[|p| - 1] == '/'
  }

  /** The call each operation makes. Reads carry no body, writes always do. */
  function Route(e: Endpoint): (c: Call)
    ensures IsApiPath(c.path)
    ensures c.body == NoBody <==> c.verb == Get || c.verb == Delete
  {
    match e
    case AuthLogin(u, p) => Call(Post, "/auth/login/", LoginForm(u, p))
    case AuthRegister(u, m, p, p2) => Call(Post, "/auth/register/", RegisterForm(u, m, p, p2))
    case AuthRefresh(r) => Call(Post, RefreshPath, RefreshForm(r))
    case AuthProfile => Call(Get, "/auth/me/", NoBody)
    case PatientList => Call(Get, "/health/patients/", NoBody)
    case PatientCreate(d) => Call(Post, "/health/patients/", Payload(d))
    case PatientGet(id) => Call(Get, PatientPath(id), NoBody)
    case PatientUpdate(id, d) => Call(Patch, PatientPath(id), Payload(d))
    case PatientDelete(id) => Call(Delete, PatientPath(id), NoBody)
    case MeasurementList(pid) => Call(Get, PatientMeasurementsPath(pid), NoBody)
    case MeasurementCreate(pid, d) => Call(Post, PatientMeasurementsPath(pid), Payload(d))
    case MeasurementGet(id) => Call(Get, MeasurementPath(id), NoBody)
    case MeasurementDelete(id) => Call(Delete, MeasurementPath(id), NoBody)
    case PredictionGet(mid) => Call(Get, PredictionPath(mid), NoBody)
  }

  /** Only `authAPI.refresh` targets a path that includes the refresh path, so
      a 401 from it is never answered with another refresh, and a 401 from any
      other operation is. */
  lemma RefreshPathOnlyForRefresh(e: Endpoint)
    ensures Contains(Route(e).path, RefreshPath) <==> e.AuthRefresh?
  {
    var p := Route(e).path;
    assert RefreshPath[8] == 'k';
    if e.AuthRefresh? {
      ContainsSelf(RefreshPath);
    } else {
      assert 'k' !in p;
      CharMissingExcludes(p, RefreshPath, 'k');
    }
  }

  /** An id-bearing path names its id: two paths built from the same template
      are equal only for equal ids. */
  lemma IdPathInjective(prefix: string, suffix: string, a: nat, b: nat)
    ensures prefix + NatToString(a) + suffix == prefix + NatToString(b) + suffix ==> a == b
  {
    var sa, sb := NatToString(a), NatToString(b);
    if prefix + sa + suffix == prefix + sb + suffix {
      var whole := prefix + sa + suffix;
      assert whole[|prefix|..|prefix| + |sa|] == sa;
      assert whole[|prefix|..|prefix| + |sb|] == sb;
      NatToStringInjective(a, b);
    }
  }

  /** Two calls of the same id-taking operation hit the same resource only
      when their ids agree. */
  lemma RouteNamesId(a: nat, b: nat)
    ensures Route(PatientGet(a)) == Route(PatientGet(b)) ==> a == b
    ensures Route(MeasurementList(a)) == Route(MeasurementList(b)) ==> a == b
    ensures Route(MeasurementGet(a)) == Route(MeasurementGet(b)) ==> a == b
    ensures Route(PredictionGet(a)) == Route(PredictionGet(b)) ==> a == b
  {
    IdPathInjective("/health/patients/", "/", a, b);
    IdPathInjective("/health/patients/", "/measurements/", a, b);
    IdPathInjective("/health/measurements/", "/", a, b);
    IdPathInjective("/health/measurements/", "/prediction/", a, b);
  }

}
