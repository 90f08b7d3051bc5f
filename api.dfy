/**
 * The API client of src/services/api.ts: the single `request` function that
 * turns an HTTP reply into a result or an error, the operations that build
 * each call's path, query and body, and the "recent appointments" call.
 *
 * The network is not modelled: `request` receives the reply as an input and
 * returns what it handed to `fetch`. A call is described by `ApiCall` (the
 * endpoint and options given to `request`); `RouteOf` reads an `ApiCall` the
 * way the remote service's routing table does, and is the partner every
 * operation is proved against.
 */
module Api {
  import opened Types
  import opened Text
  import opened Timestamp
  import opened JsonObject
  import opened FormUrlEncoded

  /** The service root (src/config/api.ts); the environment override is not modelled. */
  const ApiBaseUrl := "https://localhost:7147/api"

  type Headers = map<string, string>

  const JsonHeaders: Headers := map["Content-Type" := "application/json"]

  /** The `RequestInit` an operation passes to `request`: method, body, headers. */
  datatype RequestOptions = RequestOptions(httpMethod: Option<string>, body: Option<Object>, headers: Option<Headers>)

  /** The init object handed to `fetch`. */
  datatype FetchInit = FetchInit(httpMethod: Option<string>, body: Option<Object>, headers: Headers)

  datatype Fetch = Fetch(url: string, init: FetchInit)

  /** What came back from `fetch`: a response, or a transport failure. */
  datatype Reply =
    | Response(status: int, statusText: string, body: string)
    | NetworkFailure(message: string)

  /** The result of `request`: a thrown error, the empty object `{}`, or the parsed JSON body. */
  datatype Outcome = Failed(message: string) | EmptyResult | Parsed(json: string)

  /** Which body reader `request` called on the response. */
  datatype BodyRead = Unread | ReadText | ReadJson

  /** `Response.ok`. */
  predicate OkStatus(status: int) {
    200 <= status <= 299
  }

  // ---------------------------------------------------------------------------
  // Headers

  /**
   * The init object exactly as the source builds it: `{ headers: merged, ...options }`.
   * Because `...options` comes last, a caller's `headers` replaces the merged object.
   */
  function InitAsWritten(options: Option<RequestOptions>): FetchInit {
    match options
    case None => FetchInit(None, None, JsonHeaders)
    case Some(o) => FetchInit(o.httpMethod, o.body, if o.headers.Some? then o.headers.value else JsonHeaders)
  }

  /** A caller that passes its own headers loses the JSON content type. */
  lemma InitAsWrittenDropsContentType()
    ensures var options := Some(RequestOptions(Some("POST"), None, Some(map["Authorization" := "Bearer t"])));
      "Content-Type" !in InitAsWritten(options).headers
  {
  }

  /**
   * The init object with the caller's headers merged over the JSON default, as
   * evidently intended: the content type is always present unless the caller
   * sets its own, and every caller header arrives unchanged.
   */
  function Init(options: Option<RequestOptions>): (init: FetchInit)
    ensures "Content-Type" in init.headers
    ensures options.Some? && options.value.headers.Some? ==>
      forall k :: k in options.value.headers.value ==>
        k in init.headers && init.headers[k] == options.value.headers.value[k]
    ensures (options.None? || options.value.headers.None? || "Content-Type" !in options.value.headers.value) ==>
      init.headers["Content-Type"] == "application/json"
    ensures options.Some? ==> init.httpMethod == options.value.httpMethod && init.body == options.value.body
    ensures options.None? ==> init.httpMethod.None? && init.body.None?
  {
    match options
    case None => FetchInit(None, None, JsonHeaders)
    case Some(o) => FetchInit(o.httpMethod, o.body, JsonHeaders + o.headers.GetOr(map[]))
  }

  /** With no caller headers, which is every call in the source, both versions agree. */
  lemma InitAgreesWithoutHeaders(options: Option<RequestOptions>)
    requires options.None? || options.value.headers.None?
    ensures Init(options) == InitAsWritten(options)
  {
    if options.Some? {
      assert JsonHeaders + map[] == JsonHeaders;
    }
  }

  // ---------------------------------------------------------------------------
  // request

  /**
   * `request(endpoint, options)`: fetch `ApiBaseUrl + endpoint`, then classify the reply.
   * A 400 reply fails with its body text; any other status outside 200-299 fails
   * with "API Error: <status> <statusText>" without reading the body; 204 gives the
   * empty result without parsing; every other success parses the body as JSON.
   */
  method Request(endpoint: string, options: Option<RequestOptions>, reply: Reply)
    returns (sent: Fetch, outcome: Outcome, read: BodyRead)
    ensures sent == Fetch(ApiBaseUrl + endpoint, Init(options))
    ensures reply.NetworkFailure? ==> outcome == Failed(reply.message) && read == Unread
    ensures reply.Response? && reply.status == 400 ==> outcome == Failed(reply.body) && read == ReadText
    ensures reply.Response? && !OkStatus(reply.status) && reply.status != 400 ==>
      outcome == Failed("API Error: " + IntToString(reply.status) + " " + reply.statusText) && read == Unread
    ensures reply.Response? && reply.status == 204 ==> outcome == EmptyResult && read == Unread
    ensures reply.Response? && OkStatus(reply.status) && reply.status != 204 ==>
      outcome == Parsed(reply.body) && read == ReadJson
  {
    sent := Fetch(ApiBaseUrl + endpoint, Init(options));
    if reply.NetworkFailure? {
      return sent, Failed(reply.message), Unread;
    }
    if !OkStatus(reply.status) {
      if reply.status == 400 {
        return sent, Failed(reply.body), ReadText;
      }
      return sent, Failed("API Error: " + IntToString(reply.status) + " " + reply.statusText), Unread;
    }
    if reply.status == 204 {
      return sent, EmptyResult, Unread;
    }
    return sent, Parsed(reply.body), ReadJson;
  }

  // ---------------------------------------------------------------------------
  // Calls and the routes they reach

  datatype ApiCall = ApiCall(endpoint: string, options: Option<RequestOptions>)

  datatype Resource = Patients | Appointments

  /** The operations of the remote service, one per row of its routing table. */
  datatype Route =
    | List(resource: Resource, query: seq<Pair>)
    | Create(resource: Resource)
    | Update(resource: Resource, key: string)
    | Deactivate(resource: Resource, key: string)
    | Dashboard(resource: Resource)
    | Unrouted

  function ResourcePath(r: Resource): string {
    match r
    case Patients => "/patients"
    case Appointments => "/appointments"
  }

  /** The HTTP method `fetch` uses: the given one, else GET. */
  function MethodOf(call: ApiCall): string {
    if call.options.Some? && call.options.value.httpMethod.Some? then call.options.value.httpMethod.value else "GET"
  }

  function BodyOf(call: ApiCall): Option<Object> {
    if call.options.Some? then call.options.value.body else None
  }

  function ResourceOf(path: string): Option<(Resource, string)> {
    if ResourcePath(Patients) <= path then Some((Patients, path[|ResourcePath(Patients)|..]))
    else if ResourcePath(Appointments) <= path then Some((Appointments, path[|ResourcePath(Appointments)|..]))
    else None
  }

  /** The part of a URL before any fragment, split at its first `?` into path and query string. */
  function SplitUrl(e: string): (string, Option<string>) {
    var url := e[..IndexOf(e, '#')];
    var qi := IndexOf(url, '?');
    (url[..qi], if qi < |url| then Some(url[qi + 1..]) else None)
  }

  /** The collection routes: GET /r[?q] lists, POST /r creates. */
  function CollectionRoute(m: string, r: Resource, query: Option<string>): Route {
    if m == "GET" then List(r, if query.Some? then Parse(query.value) else [])
    else if m == "POST" && query.None? then Create(r)
    else Unrouted
  }

  /** The item routes below /r/: GET dashboard, PUT {key}, PATCH {key}/deactivate. */
  function ItemRouteOf(m: string, r: Resource, seg: string): Route {
    var j := IndexOf(seg, '/');
    if m == "GET" && seg == "dashboard" then Dashboard(r)
    else if m == "PUT" && j == |seg| then Update(r, seg)
    else if m == "PATCH" && j < |seg| && seg[j..] == "/deactivate" then Deactivate(r, seg[..j])
    else Unrouted
  }

  /**
   * The service's reading of a call: drop any fragment, split the query off at
   * the first `?`, then match method and path against
   * GET /r[?q], POST /r, GET /r/dashboard, PUT /r/{key}, PATCH /r/{key}/deactivate.
   */
  function RouteOf(call: ApiCall): Route {
    var (path, query) := SplitUrl(call.endpoint);
    match ResourceOf(path)
    case None => Unrouted
    case Some((r, rest)) =>
      if rest == "" then CollectionRoute(MethodOf(call), r, query)
      else if rest[0] != '/' || query.Some? then Unrouted
      else ItemRouteOf(MethodOf(call), r, rest[1..])
  }

  /**
   * A key that the URL parser leaves intact as one path segment: the source
   * inserts CPFs and ids into paths without escaping them. Besides the
   * delimiters `/ ? # %`, an https URL's parser reads a backslash as `/`, strips tab,
   * LF and CR, and drops or folds the segments "." and "..", and an empty key
   * is no segment at all; `RouteOf` models none of that, so such keys are excluded.
   */
  predicate SafeSegment(key: string) {
    Lacks(key, '/') && Lacks(key, '?') && Lacks(key, '#') && Lacks(key, '%')
    && Lacks(key, '\\') && Lacks(key, '\t') && Lacks(key, '\n') && Lacks(key, '\r')
    && key != "" && key != "." && key != ".."
  }

  /**
   * A safe segment that can also end the URL: the parser strips trailing
   * spaces and C0 controls from the whole URL, so a key that ends the path
   * (the update calls) must not end in one.
   */
  predicate SafeFinalSegment(key: string) {
    SafeSegment(key) && key[|key| - 1] > ' '
  }

  lemma ResourceOfPath(r: Resource, rest: string)
    ensures ResourceOf(ResourcePath(r) + rest) == Some((r, rest))
  {
    var p := ResourcePath(r) + rest;
    if r == Appointments {
      assert p[1] == 'a';
      assert !(ResourcePath(Patients) <= p);
    }
    assert p[|ResourcePath(r)|..] == rest;
  }

  lemma ResourcePathLacks(r: Resource)
    ensures Lacks(ResourcePath(r), '?') && Lacks(ResourcePath(r), '#')
  {
  }

  /** A path without `?` or `#` is read as a path with no query. */
  lemma SplitUrlPlain(e: string)
    requires Lacks(e, '?') && Lacks(e, '#')
    ensures SplitUrl(e) == (e, None)
  {
    IndexOfAbsent(e, '#');
    assert e[..|e|] == e;
    IndexOfAbsent(e, '?');
  }

  /** A path, `?` and a query string without `#` or another earlier `?` splits back into the two. */
  lemma SplitUrlQuery(p: string, q: string)
    requires Lacks(p, '?') && Lacks(p, '#') && Lacks(q, '#')
    ensures SplitUrl(p + "?" + q) == (p, Some(q))
  {
    var e := p + "?" + q;
    assert e == p + ['?'] + q;
    LacksAppend(p, "?", '#');
    LacksAppend(p + "?", q, '#');
    IndexOfAbsent(e, '#');
    assert e[..|e|] == e;
    IndexOfAppend(p, '?', q);
    assert e[..|p|] == p;
    assert e[|p| + 1..] == q;
  }

  lemma ItemPathLacks(r: Resource, key: string, suffix: string)
    requires SafeSegment(key) && Lacks(suffix, '?') && Lacks(suffix, '#')
    ensures var e := ResourcePath(r) + "/" + key + suffix; Lacks(e, '?') && Lacks(e, '#')
  {
    ResourcePathLacks(r);
    LacksAppend(ResourcePath(r), "/", '?');
    LacksAppend(ResourcePath(r), "/", '#');
    LacksAppend(ResourcePath(r) + "/", key, '?');
    LacksAppend(ResourcePath(r) + "/", key, '#');
    LacksAppend(ResourcePath(r) + "/" + key, suffix, '?');
    LacksAppend(ResourcePath(r) + "/" + key, suffix, '#');
  }

  function Send(verb: string, body: Option<Object>): Option<RequestOptions> {
    Some(RequestOptions(Some(verb), body, None))
  }

  function CreateCall(r: Resource, body: Object): ApiCall {
    ApiCall(ResourcePath(r), Send("POST", Some(body)))
  }

  function UpdateCall(r: Resource, key: string, body: Object): ApiCall {
    ApiCall(ResourcePath(r) + "/" + key, Send("PUT", Some(body)))
  }

  function DeactivateCall(r: Resource, key: string): ApiCall {
    ApiCall(ResourcePath(r) + "/" + key + "/deactivate", Send("PATCH", None))
  }

  function DashboardCall(r: Resource): ApiCall {
    ApiCall(ResourcePath(r) + "/" + "dashboard", None)
  }

  /** A call on the collection path itself, with or without a query. */
  lemma CollectionCall(call: ApiCall, r: Resource, query: Option<string>)
    requires SplitUrl(call.endpoint) == (ResourcePath(r), query)
    ensures RouteOf(call) == CollectionRoute(MethodOf(call), r, query)
  {
    ResourceOfPath(r, "");
    assert ResourcePath(r) + "" == ResourcePath(r);
  }

  lemma CreateRoute(r: Resource, body: Object)
    ensures RouteOf(CreateCall(r, body)) == Create(r) && BodyOf(CreateCall(r, body)) == Some(body)
  {
    ResourcePathLacks(r);
    SplitUrlPlain(ResourcePath(r));
    CollectionCall(CreateCall(r, body), r, None);
  }

  /** A path with one more segment below a resource and no query or fragment. */
  lemma ItemRoute(call: ApiCall, r: Resource, seg: string)
    requires call.endpoint == ResourcePath(r) + "/" + seg
    requires Lacks(call.endpoint, '?') && Lacks(call.endpoint, '#')
    ensures RouteOf(call) == ItemRouteOf(MethodOf(call), r, seg)
  {
    SplitUrlPlain(call.endpoint);
    assert call.endpoint == ResourcePath(r) + ("/" + seg);
    ResourceOfPath(r, "/" + seg);
    assert ("/" + seg)[1..] == seg;
  }

  lemma UpdateRoute(r: Resource, key: string, body: Object)
    requires SafeFinalSegment(key)
    ensures RouteOf(UpdateCall(r, key, body)) == Update(r, key) && BodyOf(UpdateCall(r, key, body)) == Some(body)
  {
    var c := UpdateCall(r, key, body);
    ItemPathLacks(r, key, "");
    assert c.endpoint == ResourcePath(r) + "/" + key + "";
    IndexOfAbsent(key, '/');
    ItemRoute(c, r, key);
  }

  /** Splitting `key + suffix` at its first `/` gives back `key` when `key` has none and `suffix` starts with one. */
  lemma {:induction false} SplitAtSlash(key: string, suffix: string)
    requires Lacks(key, '/') && |suffix| > 0 && suffix[0] == '/'
    ensures var seg := key + suffix;
      IndexOf(seg, '/') == |key| && seg[..|key|] == key && seg[|key|..] == suffix
  {
    var seg := key + suffix;
    if key != [] {
      assert seg[1..] == key[1..] + suffix;
      SplitAtSlash(key[1..], suffix);
    }
    assert seg[..|key|] == key;
    assert seg[|key|..] == suffix;
  }

  lemma DeactivateRoute(r: Resource, key: string)
    requires SafeSegment(key)
    ensures RouteOf(DeactivateCall(r, key)) == Deactivate(r, key) && BodyOf(DeactivateCall(r, key)).None?
  {
    var c := DeactivateCall(r, key);
    ItemPathLacks(r, key, "/deactivate");
    assert c.endpoint == ResourcePath(r) + "/" + (key + "/deactivate");
    SplitAtSlash(key, "/deactivate");
    ItemRoute(c, r, key + "/deactivate");
  }

  lemma DashboardRoute(r: Resource)
    ensures RouteOf(DashboardCall(r)) == Dashboard(r) && BodyOf(DashboardCall(r)).None?
  {
    var c := DashboardCall(r);
    ResourcePathLacks(r);
    LacksAppend(ResourcePath(r), "/", '?');
    LacksAppend(ResourcePath(r), "/", '#');
    LacksAppend(ResourcePath(r) + "/", "dashboard", '?');
    LacksAppend(ResourcePath(r) + "/", "dashboard", '#');
    assert c.endpoint == ResourcePath(r) + "/" + "dashboard";
    ItemRoute(c, r, "dashboard");
  }

  /** `createPatient`: POST /patients with the patient as body. */
  function CreatePatient(patient: Object): ApiCall {
    CreateCall(Patients, patient)
  }

  /** `updatePatient`: PUT /patients/{cpf} with the patient as body. */
  function UpdatePatient(cpf: string, patient: Object): ApiCall {
    UpdateCall(Patients, cpf, patient)
  }

  /** `deactivatePatient`: PATCH /patients/{cpf}/deactivate, no body. */
  function DeactivatePatient(cpf: string): ApiCall {
    DeactivateCall(Patients, cpf)
  }

  /** `getPatientDashboard`: GET /patients/dashboard. */
  function GetPatientDashboard(): ApiCall {
    DashboardCall(Patients)
  }

  /**
   * Each patient operation reaches its own route of the service, carrying the
   * body it was given; a CPF reaches the path intact when it has no `/`, `?`,
   * `#` or `%`, since the source inserts it unescaped.
   */
  lemma PatientCalls(cpf: string, patient: Object)
    ensures RouteOf(CreatePatient(patient)) == Create(Patients) && BodyOf(CreatePatient(patient)) == Some(patient)
    ensures SafeFinalSegment(cpf) ==>
      RouteOf(UpdatePatient(cpf, patient)) == Update(Patients, cpf) && BodyOf(UpdatePatient(cpf, patient)) == Some(patient)
    ensures SafeSegment(cpf) ==>
      RouteOf(DeactivatePatient(cpf)) == Deactivate(Patients, cpf) && BodyOf(DeactivatePatient(cpf)).None?
    ensures RouteOf(GetPatientDashboard()) == Dashboard(Patients) && BodyOf(GetPatientDashboard()).None?
  {
    CreateRoute(Patients, patient);
    if SafeFinalSegment(cpf) {
      UpdateRoute(Patients, cpf, patient);
    }
    if SafeSegment(cpf) {
      DeactivateRoute(Patients, cpf);
    }
    DashboardRoute(Patients);
  }

  /** `createAppointment`: POST /appointments with the appointment as body. */
  function CreateAppointment(appointment: Object): ApiCall {
    CreateCall(Appointments, appointment)
  }

  /** `{ id, ...appointment }` */
  function UpdateAppointmentBody(id: string, appointment: Object): (body: Object)
    ensures DistinctKeys(appointment) && "id" !in Keys(appointment) ==>
      body == [("id", JString(id))] + appointment
  {
    var body := Spread([("id", JString(id))], appointment);
    if DistinctKeys(appointment) && "id" !in Keys(appointment) then
      SpreadDisjoint([("id", JString(id))], appointment);
      body
    else body
  }

  /** `updateAppointment`: PUT /appointments/{id} with `{ id, ...appointment }`. */
  function UpdateAppointment(id: string, appointment: Object): ApiCall {
    UpdateCall(Appointments, id, UpdateAppointmentBody(id, appointment))
  }

  /** `deactivateAppointment`: PATCH /appointments/{id}/deactivate, no body. */
  function DeactivateAppointment(id: string): ApiCall {
    DeactivateCall(Appointments, id)
  }

  /** `getAppointmentDashboard`: GET /appointments/dashboard. */
  function GetAppointmentDashboard(): ApiCall {
    DashboardCall(Appointments)
  }

  /**
   * Each appointment operation reaches its own route; an update sends `id`
   * equal to the path id, followed by the payload's fields unchanged.
   */
  lemma AppointmentCalls(id: string, appointment: Object)
    ensures RouteOf(CreateAppointment(appointment)) == Create(Appointments)
      && BodyOf(CreateAppointment(appointment)) == Some(appointment)
    ensures SafeFinalSegment(id) ==> RouteOf(UpdateAppointment(id, appointment)) == Update(Appointments, id)
    ensures DistinctKeys(appointment) && "id" !in Keys(appointment) ==>
      BodyOf(UpdateAppointment(id, appointment)) == Some([("id", JString(id))] + appointment)
    ensures SafeSegment(id) ==>
      RouteOf(DeactivateAppointment(id)) == Deactivate(Appointments, id) && BodyOf(DeactivateAppointment(id)).None?
    ensures RouteOf(GetAppointmentDashboard()) == Dashboard(Appointments) && BodyOf(GetAppointmentDashboard()).None?
  {
    CreateRoute(Appointments, appointment);
    if SafeFinalSegment(id) {
      UpdateRoute(Appointments, id, UpdateAppointmentBody(id, appointment));
    }
    if SafeSegment(id) {
      DeactivateRoute(Appointments, id);
    }
    DashboardRoute(Appointments);
  }

  // ---------------------------------------------------------------------------
  // Queries

  function BoolToString(b: bool): string {
    if b then "true" else "false"
  }

  /** `params.toString() ? `?${params.toString()}` : ''` */
  function QuerySuffix(ps: seq<Pair>): (q: string)
    ensures q == "" <==> ps == []
    ensures ps != [] ==> q == "?" + Serialize(ps)
  {
    SerializeEmpty(ps);
    var s := Serialize(ps);
    if s != "" then "?" + s else ""
  }

  lemma QuerySuffixInjective(ps: seq<Pair>, qs: seq<Pair>)
    requires QuerySuffix(ps) == QuerySuffix(qs)
    ensures ps == qs
  {
    if ps != [] && qs != [] {
      assert QuerySuffix(ps)[1..] == Serialize(ps);
      assert QuerySuffix(qs)[1..] == Serialize(qs);
      SerializeInjective(ps, qs);
    }
  }

  /** A list call reaches the list route with exactly the pairs that were appended. */
  lemma ListRoute(r: Resource, ps: seq<Pair>)
    ensures RouteOf(ApiCall(ResourcePath(r) + QuerySuffix(ps), None)) == List(r, ps)
  {
    var call := ApiCall(ResourcePath(r) + QuerySuffix(ps), None);
    ResourcePathLacks(r);
    if ps == [] {
      assert call.endpoint == ResourcePath(r);
      SplitUrlPlain(ResourcePath(r));
      CollectionCall(call, r, None);
    } else {
      SerializeLacksDelimiters(ps);
      QueryListRoute(call, r, Serialize(ps));
      ParseSerialize(ps);
    }
  }

  /** The call `getPatients` and `getAppointments` build from their serialized parameters `s`. */
  lemma ListCall(r: Resource, ps: seq<Pair>, s: string, call: ApiCall)
    requires s == Serialize(ps)
    requires call == ApiCall(ResourcePath(r) + (if s != "" then "?" + s else ""), None)
    ensures call == ApiCall(ResourcePath(r) + QuerySuffix(ps), None)
    ensures RouteOf(call) == List(r, ps)
  {
    ListRoute(r, ps);
  }

  lemma QueryListRoute(call: ApiCall, r: Resource, q: string)
    requires call == ApiCall(ResourcePath(r) + "?" + q, None) && Lacks(q, '#')
    ensures RouteOf(call) == List(r, Parse(q))
  {
    ResourcePathLacks(r);
    SplitUrlQuery(ResourcePath(r), q);
    CollectionCall(call, r, Some(q));
  }

  /** `getPatients`: the pairs appended, in order: `name`, `cpf` when truthy, `isActive` when defined. */
  function PatientQuery(filters: Option<PatientFilters>): seq<Pair> {
    var f := filters.GetOr(NoPatientFilters);
    (if Truthy(f.name) then [("name", f.name.value)] else [])
    + (if Truthy(f.cpf) then [("cpf", f.cpf.value)] else [])
    + (if f.isActive.Some? then [("isActive", BoolToString(f.isActive.value))] else [])
  }

  function PatientsEndpoint(filters: Option<PatientFilters>): string {
    ResourcePath(Patients) + QuerySuffix(PatientQuery(filters))
  }

  /** `getPatients(filters)`, building its parameters by successive appends. */
  method GetPatients(filters: Option<PatientFilters>) returns (call: ApiCall)
    ensures call == ApiCall(PatientsEndpoint(filters), None)
    ensures RouteOf(call) == List(Patients, PatientQuery(filters))
  {
    var params := new SearchParams();
    var f := if filters.Some? then filters.value else NoPatientFilters;
    if Truthy(f.name) {
      params.Append("name", f.name.value);
    }
    if Truthy(f.cpf) {
      params.Append("cpf", f.cpf.value);
    }
    if f.isActive.Some? {
      params.Append("isActive", BoolToString(f.isActive.value));
    }
    assert params.pairs == PatientQuery(filters);
    var s := params.ToString();
    var query := if s != "" then "?" + s else "";
    call := ApiCall("/patients" + query, None);
    ListCall(Patients, PatientQuery(filters), s, call);
  }

  /** Position of a patient filter key in the fixed order name, cpf, isActive (3: any other key). */
  function PatientKeyRank(k: string): nat {
    if k == "name" then 0 else if k == "cpf" then 1 else if k == "isActive" then 2 else 3
  }

  /**
   * The patient query lists only its three keys, in the order name, cpf,
   * isActive, each at most once; a field is sent exactly when it is truthy
   * (`isActive`: when defined, `false` included), with its own value.
   */
  lemma PatientQueryShape(filters: Option<PatientFilters>)
    ensures var ps, f := PatientQuery(filters), filters.GetOr(NoPatientFilters);
      (forall i, j :: 0 <= i < j < |ps| ==> PatientKeyRank(ps[i].0) < PatientKeyRank(ps[j].0))
      && (forall i :: 0 <= i < |ps| ==> PatientKeyRank(ps[i].0) < 3)
      && GetParam(ps, "name") == (if Truthy(f.name) then f.name else None)
      && GetParam(ps, "cpf") == (if Truthy(f.cpf) then f.cpf else None)
      && GetParam(ps, "isActive") == (if f.isActive.Some? then Some(BoolToString(f.isActive.value)) else None)
  {
    PatientQueryOrder(filters);
    PatientQueryParams(filters);
  }

  /** The three optional runs the patient query is made of. */
  function PatientRuns(f: PatientFilters): (seq<Pair>, seq<Pair>, seq<Pair>) {
    (if Truthy(f.name) then [("name", f.name.value)] else [],
     if Truthy(f.cpf) then [("cpf", f.cpf.value)] else [],
     if f.isActive.Some? then [("isActive", BoolToString(f.isActive.value))] else [])
  }

  lemma PatientQueryOrder(filters: Option<PatientFilters>)
    ensures var ps := PatientQuery(filters);
      (forall i, j :: 0 <= i < j < |ps| ==> PatientKeyRank(ps[i].0) < PatientKeyRank(ps[j].0))
      && (forall i :: 0 <= i < |ps| ==> PatientKeyRank(ps[i].0) < 3)
  {
    var (a, b, c) := PatientRuns(filters.GetOr(NoPatientFilters));
    assert PatientQuery(filters) == a + b + c;
  }

  lemma PatientQueryParams(filters: Option<PatientFilters>)
    ensures var ps, f := PatientQuery(filters), filters.GetOr(NoPatientFilters);
      GetParam(ps, "name") == (if Truthy(f.name) then f.name else None)
      && GetParam(ps, "cpf") == (if Truthy(f.cpf) then f.cpf else None)
      && GetParam(ps, "isActive") == (if f.isActive.Some? then Some(BoolToString(f.isActive.value)) else None)
  {
    var f := filters.GetOr(NoPatientFilters);
    var (a, b, c) := PatientRuns(f);
    assert PatientQuery(filters) == a + b + c;
    GetParamAppend(a + b, c, "name");
    GetParamAppend(a, b, "name");
    GetParamAppend(a + b, c, "cpf");
    GetParamAppend(a, b, "cpf");
    GetParamAppend(a + b, c, "isActive");
    GetParamAppend(a, b, "isActive");
  }

  /** The filters as the query sees them: an empty string is the same as an absent field. */
  function NormalPatientFilters(filters: Option<PatientFilters>): PatientFilters {
    var f := filters.GetOr(NoPatientFilters);
    PatientFilters(if Truthy(f.name) then f.name else None, if Truthy(f.cpf) then f.cpf else None, f.isActive)
  }

  lemma PrefixCancel(p: string, a: string, b: string)
    requires p + a == p + b
    ensures a == b
  {
    assert a == (p + a)[|p|..];
    assert b == (p + b)[|p|..];
  }

  /**
   * Two patient filters give the same URL exactly when they agree once empty
   * strings are read as absent fields.
   */
  lemma PatientsEndpointEqual(f: Option<PatientFilters>, g: Option<PatientFilters>)
    ensures PatientsEndpoint(f) == PatientsEndpoint(g) <==> NormalPatientFilters(f) == NormalPatientFilters(g)
  {
    if PatientsEndpoint(f) == PatientsEndpoint(g) {
      PrefixCancel(ResourcePath(Patients), QuerySuffix(PatientQuery(f)), QuerySuffix(PatientQuery(g)));
      QuerySuffixInjective(PatientQuery(f), PatientQuery(g));
      PatientQueryShape(f);
      PatientQueryShape(g);
      var nf, ng := NormalPatientFilters(f), NormalPatientFilters(g);
      assert nf.isActive == ng.isActive by {
        var ff, gg := f.GetOr(NoPatientFilters), g.GetOr(NoPatientFilters);
        if ff.isActive.Some? && gg.isActive.Some? {
          assert BoolToString(ff.isActive.value) == BoolToString(gg.isActive.value);
        }
      }
    }
  }

  /** `getAppointments`: `start`, `end`, `patientCpf` when truthy, `isActive` when defined, in that order. */
  function AppointmentQuery(filters: Option<AppointmentFilters>): seq<Pair> {
    var f := filters.GetOr(NoAppointmentFilters);
    (if Truthy(f.start) then [("start", f.start.value)] else [])
    + (if Truthy(f.end) then [("end", f.end.value)] else [])
    + (if Truthy(f.patientCpf) then [("patientCpf", f.patientCpf.value)] else [])
    + (if f.isActive.Some? then [("isActive", BoolToString(f.isActive.value))] else [])
  }

  function AppointmentsEndpoint(filters: Option<AppointmentFilters>): string {
    ResourcePath(Appointments) + QuerySuffix(AppointmentQuery(filters))
  }

  /** `getAppointments(filters)`, building its parameters by successive appends. */
  method GetAppointments(filters: Option<AppointmentFilters>) returns (call: ApiCall)
    ensures call == ApiCall(AppointmentsEndpoint(filters), None)
    ensures RouteOf(call) == List(Appointments, AppointmentQuery(filters))
  {
    var params := new SearchParams();
    var f := if filters.Some? then filters.value else NoAppointmentFilters;
    ghost var (a, b, c, d) := AppointmentRuns(f);
    if Truthy(f.start) {
      params.Append("start", f.start.value);
    }
    assert params.pairs == a;
    if Truthy(f.end) {
      params.Append("end", f.end.value);
    }
    assert params.pairs == a + b;
    if Truthy(f.patientCpf) {
      params.Append("patientCpf", f.patientCpf.value);
    }
    assert params.pairs == a + b + c;
    if f.isActive.Some? {
      params.Append("isActive", BoolToString(f.isActive.value));
    }
    assert params.pairs == AppointmentQuery(filters);
    var s := params.ToString();
    var query := if s != "" then "?" + s else "";
    call := ApiCall("/appointments" + query, None);
    ListCall(Appointments, AppointmentQuery(filters), s, call);
  }

  function AppointmentKeyRank(k: string): nat {
    if k == "start" then 0 else if k == "end" then 1 else if k == "patientCpf" then 2 else if k == "isActive" then 3 else 4
  }

  /** The four optional runs the appointment query is made of. */
  function AppointmentRuns(f: AppointmentFilters): (seq<Pair>, seq<Pair>, seq<Pair>, seq<Pair>) {
    (if Truthy(f.start) then [("start", f.start.value)] else [],
     if Truthy(f.end) then [("end", f.end.value)] else [],
     if Truthy(f.patientCpf) then [("patientCpf", f.patientCpf.value)] else [],
     if f.isActive.Some? then [("isActive", BoolToString(f.isActive.value))] else [])
  }

  /**
   * The appointment query lists only its four keys, in the order start, end,
   * patientCpf, isActive, each at most once, under the same omission rules.
   */
  lemma AppointmentQueryShape(filters: Option<AppointmentFilters>)
    ensures var ps, f := AppointmentQuery(filters), filters.GetOr(NoAppointmentFilters);
      (forall i, j :: 0 <= i < j < |ps| ==> AppointmentKeyRank(ps[i].0) < AppointmentKeyRank(ps[j].0))
      && (forall i :: 0 <= i < |ps| ==> AppointmentKeyRank(ps[i].0) < 4)
      && GetParam(ps, "start") == (if Truthy(f.start) then f.start else None)
      && GetParam(ps, "end") == (if Truthy(f.end) then f.end else None)
      && GetParam(ps, "patientCpf") == (if Truthy(f.patientCpf) then f.patientCpf else None)
      && GetParam(ps, "isActive") == (if f.isActive.Some? then Some(BoolToString(f.isActive.value)) else None)
  {
    AppointmentQueryOrder(filters);
    AppointmentQueryParams(filters);
  }

  lemma AppointmentQueryOrder(filters: Option<AppointmentFilters>)
    ensures var ps := AppointmentQuery(filters);
      (forall i, j :: 0 <= i < j < |ps| ==> AppointmentKeyRank(ps[i].0) < AppointmentKeyRank(ps[j].0))
      && (forall i :: 0 <= i < |ps| ==> AppointmentKeyRank(ps[i].0) < 4)
  {
    var (a, b, c, d) := AppointmentRuns(filters.GetOr(NoAppointmentFilters));
    assert AppointmentQuery(filters) == a + b + c + d;
    RankedRun(a, b, c, d);
  }

  lemma AppointmentQueryParams(filters: Option<AppointmentFilters>)
    ensures var ps, f := AppointmentQuery(filters), filters.GetOr(NoAppointmentFilters);
      GetParam(ps, "start") == (if Truthy(f.start) then f.start else None)
      && GetParam(ps, "end") == (if Truthy(f.end) then f.end else None)
      && GetParam(ps, "patientCpf") == (if Truthy(f.patientCpf) then f.patientCpf else None)
      && GetParam(ps, "isActive") == (if f.isActive.Some? then Some(BoolToString(f.isActive.value)) else None)
  {
    var f := filters.GetOr(NoAppointmentFilters);
    var (a, b, c, d) := AppointmentRuns(f);
    assert AppointmentQuery(filters) == a + b + c + d;
    AppointmentRunParams(f);
    QueryParam4(a, b, c, d, "start");
    QueryParam4(a, b, c, d, "end");
    QueryParam4(a, b, c, d, "patientCpf");
    QueryParam4(a, b, c, d, "isActive");
  }

  /** What each run answers for each of the four keys. */
  lemma AppointmentRunParams(f: AppointmentFilters)
    ensures var (a, b, c, d) := AppointmentRuns(f);
      GetParam(a, "start") == (if Truthy(f.start) then f.start else None)
      && GetParam(b, "start") == None && GetParam(c, "start") == None && GetParam(d, "start") == None
      && GetParam(a, "end") == None && GetParam(b, "end") == (if Truthy(f.end) then f.end else None)
      && GetParam(c, "end") == None && GetParam(d, "end") == None
      && GetParam(a, "patientCpf") == None && GetParam(b, "patientCpf") == None
      && GetParam(c, "patientCpf") == (if Truthy(f.patientCpf) then f.patientCpf else None)
      && GetParam(d, "patientCpf") == None
      && GetParam(a, "isActive") == None && GetParam(b, "isActive") == None && GetParam(c, "isActive") == None
      && GetParam(d, "isActive") == (if f.isActive.Some? then Some(BoolToString(f.isActive.value)) else None)
  {
  }

  /** Four runs of at most one pair each, whose keys rank 0, 1, 2 and 3, are in rank order. */
  lemma RankedRun(a: seq<Pair>, b: seq<Pair>, c: seq<Pair>, d: seq<Pair>)
    requires |a| <= 1 && |b| <= 1 && |c| <= 1 && |d| <= 1
    requires a != [] ==> AppointmentKeyRank(a[0].0) == 0
    requires b != [] ==> AppointmentKeyRank(b[0].0) == 1
    requires c != [] ==> AppointmentKeyRank(c[0].0) == 2
    requires d != [] ==> AppointmentKeyRank(d[0].0) == 3
    ensures var ps := a + b + c + d;
      (forall i, j :: 0 <= i < j < |ps| ==> AppointmentKeyRank(ps[i].0) < AppointmentKeyRank(ps[j].0))
      && (forall i :: 0 <= i < |ps| ==> AppointmentKeyRank(ps[i].0) < 4)
  {
    var ps := a + b + c + d;
    forall i, j | 0 <= i < j < |ps|
      ensures AppointmentKeyRank(ps[i].0) < AppointmentKeyRank(ps[j].0)
    {
      RunRank(a, b, c, d, i);
      RunRank(a, b, c, d, j);
    }
    forall i | 0 <= i < |ps|
      ensures AppointmentKeyRank(ps[i].0) < 4
    {
      RunRank(a, b, c, d, i);
    }
  }

  /** The rank of the pair at position `i` counts the non-empty runs before it. */
  lemma RunRank(a: seq<Pair>, b: seq<Pair>, c: seq<Pair>, d: seq<Pair>, i: nat)
    requires |a| <= 1 && |b| <= 1 && |c| <= 1 && |d| <= 1
    requires a != [] ==> AppointmentKeyRank(a[0].0) == 0
    requires b != [] ==> AppointmentKeyRank(b[0].0) == 1
    requires c != [] ==> AppointmentKeyRank(c[0].0) == 2
    requires d != [] ==> AppointmentKeyRank(d[0].0) == 3
    requires i < |a + b + c + d|
    ensures var r := AppointmentKeyRank((a + b + c + d)[i].0);
      r < 4
      && (i < |a| ==> r == 0)
      && (|a| <= i < |a| + |b| ==> r == 1)
      && (|a| + |b| <= i < |a| + |b| + |c| ==> r == 2)
      && (|a| + |b| + |c| <= i ==> r == 3)
  {
  }

  lemma QueryParam4(a: seq<Pair>, b: seq<Pair>, c: seq<Pair>, d: seq<Pair>, n: string)
    ensures GetParam(a + b + c + d, n) ==
      if GetParam(a, n).Some? then GetParam(a, n)
      else if GetParam(b, n).Some? then GetParam(b, n)
      else if GetParam(c, n).Some? then GetParam(c, n)
      else GetParam(d, n)
  {
    GetParamAppend(a + b + c, d, n);
    GetParamAppend(a + b, c, n);
    GetParamAppend(a, b, n);
  }

  function NormalAppointmentFilters(filters: Option<AppointmentFilters>): AppointmentFilters {
    var f := filters.GetOr(NoAppointmentFilters);
    AppointmentFilters(
      if Truthy(f.start) then f.start else None,
      if Truthy(f.end) then f.end else None,
      if Truthy(f.patientCpf) then f.patientCpf else None,
      f.isActive)
  }

  /** Two appointment filters give the same URL exactly when they agree with empty strings read as absent. */
  lemma AppointmentsEndpointEqual(f: Option<AppointmentFilters>, g: Option<AppointmentFilters>)
    ensures AppointmentsEndpoint(f) == AppointmentsEndpoint(g) <==> NormalAppointmentFilters(f) == NormalAppointmentFilters(g)
  {
    if AppointmentsEndpoint(f) == AppointmentsEndpoint(g) {
      PrefixCancel(ResourcePath(Appointments), QuerySuffix(AppointmentQuery(f)), QuerySuffix(AppointmentQuery(g)));
      QuerySuffixInjective(AppointmentQuery(f), AppointmentQuery(g));
      AppointmentQueryShape(f);
      AppointmentQueryShape(g);
      var nf, ng := NormalAppointmentFilters(f), NormalAppointmentFilters(g);
      assert nf.isActive == ng.isActive by {
        var ff, gg := f.GetOr(NoAppointmentFilters), g.GetOr(NoAppointmentFilters);
        if ff.isActive.Some? && gg.isActive.Some? {
          assert BoolToString(ff.isActive.value) == BoolToString(gg.isActive.value);
        }
      }
    }
  }

  // ---------------------------------------------------------------------------
  // Recent active appointments

  const MillisPerHour: nat := 60 * 60 * 1000

  /** The lower bound of the window, in epoch milliseconds. */
  function RecentLowerBound(nowMs: int, hours: nat): (bound: int)
    ensures nowMs - bound == hours * 3600000
  {
    nowMs - hours * MillisPerHour
  }

  /** The two pairs the recent-appointments call appends. */
  function RecentQuery(start: LocalDateTime): seq<Pair> {
    [("start", FormatSeconds(start)), ("isActive", "true")]
  }

  /**
   * `getRecentActiveAppointments(hours)` at clock reading `nowMs`; `toLocal` is the
   * local calendar reading `new Date(ms)` gives (timezone conversion is not modelled).
   */
  method GetRecentActiveAppointments(nowMs: int, hours: nat, toLocal: int -> LocalDateTime)
    returns (call: ApiCall)
    ensures var start := toLocal(RecentLowerBound(nowMs, hours));
      call == ApiCall(ResourcePath(Appointments) + QuerySuffix(RecentQuery(start)), None)
      && RouteOf(call) == List(Appointments, RecentQuery(start))
  {
    var start := toLocal(RecentLowerBound(nowMs, hours));
    var localString := FormatSeconds(start);
    var params := new SearchParams();
    params.Append("start", localString);
    params.Append("isActive", "true");
    assert params.pairs == RecentQuery(start);
    var s := params.ToString();
    var query := if s != "" then "?" + s else "";
    call := ApiCall("/appointments" + query, None);
    ListCall(Appointments, RecentQuery(start), s, call);
  }

  /**
   * The recent-appointments query is the appointment query for `start` and
   * `isActive = true`, and its `start` value reads back as the exact lower bound.
   */
  lemma RecentQueryIsAppointmentQuery(start: LocalDateTime)
    requires Valid(start)
    ensures RecentQuery(start)
      == AppointmentQuery(Some(AppointmentFilters(Some(FormatSeconds(start)), None, None, Some(true))))
    ensures GetParam(RecentQuery(start), "start").Some?
    ensures ParseSeconds(GetParam(RecentQuery(start), "start").value) == Some(start)
  {
    FormatMinutesLayout(start);
    ParseFormatSeconds(start);
  }
}
