/** The transport layer and resource hooks of the dashboard: how a request
    is addressed and decorated with the session token, how every response
    is turned into a notification, which request and cache key each hook
    mutation stands for, and how a login stores its token. */
module Api {
  import opened Common
  import opened Browser
  import opened Entities

  // =====================================================================
  // Payloads
  // =====================================================================

  /** The value of one multipart part. `JsonOf(r)` is the text
      `JSON.stringify(r)`; the serialisation itself is not modelled. */
  datatype FormValue = Text(text: string) | Upload(file: File) | JsonOf(registration: Registration)

  /** A `FormData` object, as the list of its appended (name, value) parts. */
  type FormData = seq<(string, FormValue)>

  /** The names of the parts, in order. */
  function Names(fd: FormData): (r: seq<string>)
    ensures |r| == |fd|
    ensures forall i :: 0 <= i < |fd| ==> r[i] == fd[i].0
  {
    if fd == [] then [] else [fd[0].0] + Names(fd[1..])
  }

  /** A request body: a `FormData` object or a plain object sent as JSON. */
  datatype Payload = Form(parts: FormData) | Json(fields: seq<(string, string)>)

  // =====================================================================
  // Requests (apiService)
  // =====================================================================

  datatype Verb = Get | Post | Patch | Delete

  /** One call of the HTTP client: verb, path below the base URL, body, and
      the per-request header overrides passed as axios config. */
  datatype Request = Request(verb: Verb, path: string, body: Option<Payload>, config: map<string, string>)

  const ContentType := "Content-Type"
  const Multipart := "multipart/form-data"
  const Authorization := "Authorization"

  /** The client's default headers. */
  const DefaultHeaders: map<string, string> := map[ContentType := "application/json"]

  function ListPath(endpoint: string): string {
    "/" + endpoint
  }

  function ItemPath(endpoint: string, id: string): string {
    "/" + endpoint + "/" + id
  }

  /** The axios config of create and update: a multipart content type
      exactly when the payload is a `FormData`, otherwise no override. */
  function UploadConfig(data: Payload): (r: map<string, string>)
    ensures ContentType in r <==> data.Form?
    ensures ContentType in r ==> r[ContentType] == Multipart
    ensures r.Keys <= {ContentType}
  {
    if data.Form? then map[ContentType := Multipart] else map[]
  }

  function GetAll(endpoint: string): Request {
    Request(Get, ListPath(endpoint), None, map[])
  }

  function GetById(endpoint: string, id: string): Request {
    Request(Get, ItemPath(endpoint, id), None, map[])
  }

  function CreateItem(endpoint: string, data: Payload): Request {
    Request(Post, ListPath(endpoint), Some(data), UploadConfig(data))
  }

  function UpdateItem(endpoint: string, id: string, data: Payload): Request {
    Request(Patch, ItemPath(endpoint, id), Some(data), UploadConfig(data))
  }

  function DeleteItem(endpoint: string, id: string): Request {
    Request(Delete, ItemPath(endpoint, id), None, map[])
  }

  function Login(email: string, password: string): Request {
    Request(Post, "/auth/login", Some(Json([("email", email), ("password", password)])), map[])
  }

  /** Reads a path back as (endpoint, optional id): the text after the
      leading slash up to the next slash, and the rest if there is one. */
  function ParsePath(path: string): Option<(string, Option<string>)> {
    if path == [] || path[0] != '/' then None
    else
      var rest := path[1..];
      if '/' in rest then
        var i := IndexOf(rest, '/');
        Some((rest[..i], Some(rest[i + 1..])))
      else Some((rest, None))
  }

  /** List paths and item paths are read back as what built them. */
  lemma PathRoundTrip(endpoint: string, id: string)
    requires '/' !in endpoint
    ensures ParsePath(ListPath(endpoint)) == Some((endpoint, None))
    ensures ParsePath(ItemPath(endpoint, id)) == Some((endpoint, Some(id)))
  {
    assert ListPath(endpoint)[1..] == endpoint;
    var rest := ItemPath(endpoint, id)[1..];
    assert rest == endpoint + ['/'] + id;
    IndexOfAfterPrefix(endpoint, '/', id);
    assert rest[..|endpoint|] == endpoint;
    assert rest[|endpoint| + 1..] == id;
  }

  /** What each accessor sends: the verb, the collection or item path, and a
      multipart override exactly for `FormData` bodies. */
  lemma AccessorShapes(endpoint: string, id: string, data: Payload)
    requires '/' !in endpoint
    ensures GetAll(endpoint).verb == Get && GetAll(endpoint).body == None
    ensures ParsePath(GetAll(endpoint).path) == Some((endpoint, None))
    ensures GetById(endpoint, id).verb == Get
    ensures ParsePath(GetById(endpoint, id).path) == Some((endpoint, Some(id)))
    ensures CreateItem(endpoint, data).verb == Post && CreateItem(endpoint, data).body == Some(data)
    ensures ParsePath(CreateItem(endpoint, data).path) == Some((endpoint, None))
    ensures (ContentType in CreateItem(endpoint, data).config) <==> data.Form?
    ensures UpdateItem(endpoint, id, data).verb == Patch && UpdateItem(endpoint, id, data).body == Some(data)
    ensures ParsePath(UpdateItem(endpoint, id, data).path) == Some((endpoint, Some(id)))
    ensures (ContentType in UpdateItem(endpoint, id, data).config) <==> data.Form?
    ensures DeleteItem(endpoint, id).verb == Delete && DeleteItem(endpoint, id).body == None
    ensures ParsePath(DeleteItem(endpoint, id).path) == Some((endpoint, Some(id)))
  {
    PathRoundTrip(endpoint, id);
  }

  /** The headers a request starts with before the interceptor runs: the
      defaults, overridden by the request's own config. */
  function InitialHeaders(req: Request): (r: map<string, string>)
    ensures ContentType in r
    ensures r[ContentType] == if ContentType in req.config then req.config[ContentType] else "application/json"
  {
    DefaultHeaders + req.config
  }

  // =====================================================================
  // Request interceptor
  // =====================================================================

  /** The `localStorage` key of the session token. */
  const TokenKey := "auth_token"

  /** The request interceptor's effect on the headers: with a (truthy)
      token, `Authorization` is set to the bearer credential; without one,
      the headers are left exactly as they were. */
  function WithBearer(headers: map<string, string>, token: Option<string>): (r: map<string, string>)
    ensures Authorization in r <==> Truthy(token) || Authorization in headers
    ensures Truthy(token) ==> r[Authorization] == "Bearer " + token.value
    ensures !Truthy(token) ==> r == headers
    ensures forall k :: k in headers && k != Authorization ==> k in r && r[k] == headers[k]
    ensures forall k :: k in r && k != Authorization ==> k in headers
  {
    if Truthy(token) then headers[Authorization := "Bearer " + token.value] else headers
  }

  /** The config object an interceptor receives and edits in place. */
  class RequestConfig {
    const request: Request
    var headers: map<string, string>

    constructor (req: Request)
      ensures request == req && headers == InitialHeaders(req)
    {
      request := req;
      headers := InitialHeaders(req);
    }
  }

  // =====================================================================
  // Responses and the error classifier
  // =====================================================================

  /** The fields of a JSON response body the core reads. */
  datatype Body = Body(message: Option<string>, error: Option<string>, accessToken: Option<string>)

  /** A successful response; `data` is None when the body is not an object. */
  datatype Response = Response(status: int, data: Option<Body>)

  /** The response carried by a failed request, if the server answered. */
  datatype ErrorResponse = ErrorResponse(status: int, data: Option<Body>)

  /** An axios error: the server's response, if any, and the error code. */
  datatype HttpError = HttpError(response: Option<ErrorResponse>, code: Option<string>)

  datatype Toast = SuccessToast(text: string) | ErrorToast(text: string)

  /** What an interceptor hands back to the caller's promise. */
  datatype Outcome = Fulfilled(response: Response) | Rejected(error: HttpError)

  /** The success notification, if the body carries a message. */
  function SuccessNotice(response: Response): (r: seq<Toast>)
    ensures |r| <= 1
    ensures |r| == 1 <==> response.data.Some? && Truthy(response.data.value.message)
    ensures |r| == 1 ==> r[0] == SuccessToast(response.data.value.message.value)
  {
    if response.data.Some? && Truthy(response.data.value.message)
    then [SuccessToast(response.data.value.message.value)]
    else []
  }

  /** The branches of the error handler, in the order it tries them. */
  datatype ErrorKind =
    | BackendMessage | BackendError | Unauthorized | Forbidden
    | NotFound | ServerError | NetworkFailure | Unexpected

  predicate HasMessage(e: HttpError) {
    e.response.Some? && e.response.value.data.Some? && Truthy(e.response.value.data.value.message)
  }

  predicate HasError(e: HttpError) {
    e.response.Some? && e.response.value.data.Some? && Truthy(e.response.value.data.value.error)
  }

  /** `response?.status === s`: false when there is no response. */
  predicate StatusIs(e: HttpError, s: int) {
    e.response.Some? && e.response.value.status == s
  }

  /** The error handler's if/else ladder. */
  function Classify(e: HttpError): (r: ErrorKind)
    ensures r == BackendMessage <==> HasMessage(e)
    ensures e.response.None? ==> r == NetworkFailure
    ensures r == Unexpected ==>
              e.response.Some? && e.response.value.status < 500 && e.code != Some("NETWORK_ERROR")
  {
    if HasMessage(e) then BackendMessage
    else if HasError(e) then BackendError
    else if StatusIs(e, 401) then Unauthorized
    else if StatusIs(e, 403) then Forbidden
    else if StatusIs(e, 404) then NotFound
    else if e.response.Some? && e.response.value.status >= 500 then ServerError
    else if e.code == Some("NETWORK_ERROR") || e.response.None? then NetworkFailure
    else Unexpected
  }

  /** The text of the one error notification shown for e. */
  function ErrorText(e: HttpError): (r: string)
    ensures r != ""
    ensures e.response.None? ==> r == "Network error. Please check your connection."
  {
    match Classify(e)
    case BackendMessage => e.response.value.data.value.message.value
    case BackendError => e.response.value.data.value.error.value
    case Unauthorized => "Authentication failed. Please login again."
    case Forbidden => "You don't have permission to perform this action."
    case NotFound => "Resource not found."
    case ServerError => "Server error. Please try again later."
    case NetworkFailure => "Network error. Please check your connection."
    case Unexpected => "An unexpected error occurred."
  }

  /** Only the 401 branch removes the stored token. */
  predicate ClearsToken(e: HttpError) {
    Classify(e) == Unauthorized
  }

  // ---- An independent statement of the ladder: a list of rules -------

  /** Whether each rule applies to e, listed in priority order; the last
      rule always applies. */
  function RuleApplies(e: HttpError): seq<bool> {
    [ HasMessage(e),
      HasError(e),
      StatusIs(e, 401),
      StatusIs(e, 403),
      StatusIs(e, 404),
      e.response.Some? && e.response.value.status >= 500,
      e.code == Some("NETWORK_ERROR") || !e.response.Some?,
      true ]
  }

  /** The branch each rule selects, in the same order. */
  const RuleKinds: seq<ErrorKind> :=
    [BackendMessage, BackendError, Unauthorized, Forbidden, NotFound, ServerError, NetworkFailure, Unexpected]

  /** The index of the first true entry. */
  function FirstTrue(bs: seq<bool>): (r: nat)
    requires true in bs
    ensures r < |bs| && bs[r]
    ensures forall j :: 0 <= j < r ==> !bs[j]
  {
    if bs[0] then 0 else 1 + FirstTrue(bs[1..])
  }

  /** The classifier picks the first rule that applies. */
  lemma ClassifyIsFirstApplicableRule(e: HttpError)
    ensures true in RuleApplies(e)
    ensures Classify(e) == RuleKinds[FirstTrue(RuleApplies(e))]
  {
    var rules := RuleApplies(e);
    assert rules[7];
    var i := FirstTrue(rules);
    if i == 0 {
      assert HasMessage(e);
    } else if i == 1 {
      assert !rules[0] && HasError(e);
    } else if i == 2 {
      assert !rules[0] && !rules[1] && StatusIs(e, 401);
    } else if i == 3 {
      assert !rules[0] && !rules[1] && !rules[2] && StatusIs(e, 403);
    } else if i == 4 {
      assert !rules[0] && !rules[1] && !rules[2] && !rules[3] && StatusIs(e, 404);
    } else {
      assert !rules[0] && !rules[1] && !rules[2] && !rules[3] && !rules[4];
      if i == 5 {
        assert e.response.Some? && e.response.value.status >= 500;
      } else if i == 6 {
        assert !rules[5] && rules[6];
      } else {
        assert !rules[5] && !rules[6];
      }
    }
  }

  /** The branch taken is the one whose condition holds while the
      conditions of all earlier branches fail. */
  lemma {:induction false} ClassifyChoosesUniqueRule(e: HttpError, k: nat)
    requires k < |RuleKinds|
    ensures Classify(e) == RuleKinds[k] <==>
              RuleApplies(e)[k] && forall j :: 0 <= j < k ==> !RuleApplies(e)[j]
  {
    ClassifyIsFirstApplicableRule(e);
    var i := FirstTrue(RuleApplies(e));
    // RuleKinds lists each branch once.
    assert forall a, b :: 0 <= a < b < |RuleKinds| ==> RuleKinds[a] != RuleKinds[b];
    if RuleApplies(e)[k] && forall j :: 0 <= j < k ==> !RuleApplies(e)[j] {
      assert i == k;
    }
  }

  /** A backend message is shown verbatim, even on a 401. */
  lemma BackendMessageWins(e: HttpError)
    requires HasMessage(e)
    ensures ErrorText(e) == e.response.value.data.value.message.value
    ensures !ClearsToken(e)
  {
  }

  /** The text of every rung: the body's error text when there is no
      message, and otherwise a fixed text chosen by status, then by code. */
  lemma ErrorTextRungs(e: HttpError)
    ensures !HasMessage(e) && HasError(e) ==> ErrorText(e) == e.response.value.data.value.error.value
    ensures !HasMessage(e) && !HasError(e) && StatusIs(e, 401) ==>
              ErrorText(e) == "Authentication failed. Please login again."
    ensures !HasMessage(e) && !HasError(e) && StatusIs(e, 403) ==>
              ErrorText(e) == "You don't have permission to perform this action."
    ensures !HasMessage(e) && !HasError(e) && StatusIs(e, 404) ==>
              ErrorText(e) == "Resource not found."
    ensures !HasMessage(e) && !HasError(e) && e.response.Some? && e.response.value.status >= 500 ==>
              ErrorText(e) == "Server error. Please try again later."
    ensures !HasMessage(e) && !HasError(e) && e.response.Some? && e.response.value.status < 500
            && e.response.value.status !in {401, 403, 404} ==>
              ErrorText(e) == if e.code == Some("NETWORK_ERROR") then "Network error. Please check your connection."
                              else "An unexpected error occurred."
  {
  }

  /** A 400 whose body is `{error: "X"}` notifies "X". */
  lemma BadRequestShowsBackendError()
    ensures ErrorText(HttpError(Some(ErrorResponse(400, Some(Body(None, Some("X"), None)))), None)) == "X"
  {
  }

  /** The token is removed exactly for a 401 whose body carries neither a
      message nor an error text. */
  lemma ClearsTokenIff(e: HttpError)
    ensures ClearsToken(e) <==> StatusIs(e, 401) && !HasMessage(e) && !HasError(e)
  {
  }

  // =====================================================================
  // The interceptors, attached to one HTTP client
  // =====================================================================

  class Transport {
    const storage: LocalStorage
    /** The notifications shown so far, oldest first. */
    var toasts: seq<Toast>

    constructor (storage: LocalStorage)
      ensures this.storage == storage && toasts == []
    {
      this.storage := storage;
      toasts := [];
    }

    /** The request interceptor: attach the stored token, if any. */
    method InterceptRequest(config: RequestConfig)
      modifies config
      ensures config.headers == WithBearer(old(config.headers), storage.GetItem(TokenKey))
    {
      var token := storage.GetItem(TokenKey);
      if Truthy(token) {
        config.headers := config.headers[Authorization := "Bearer " + token.value];
      }
    }

    /** The success interceptor: notify the backend's message, if any, and
        pass the response on unchanged. */
    method InterceptResponse(response: Response) returns (r: Outcome)
      modifies this
      ensures r == Fulfilled(response)
      ensures toasts == old(toasts) + SuccessNotice(response)
    {
      if response.data.Some? && Truthy(response.data.value.message) {
        toasts := toasts + [SuccessToast(response.data.value.message.value)];
      }
      r := Fulfilled(response);
    }

    /** The error interceptor: exactly one error notification, the token
        removed on the 401 branch only, and the failure passed on. */
    method InterceptError(error: HttpError) returns (r: Outcome)
      modifies this, storage
      ensures r == Rejected(error)
      ensures toasts == old(toasts) + [ErrorToast(ErrorText(error))]
      ensures storage.items == if ClearsToken(error) then old(storage.items) - {TokenKey} else old(storage.items)
    {
      toasts := toasts + [ErrorToast(ErrorText(error))];
      if Classify(error) == Unauthorized {
        storage.RemoveItem(TokenKey);
      }
      r := Rejected(error);
    }
  }

  /** `useLogin`'s success handler: store `access_token` when present. */
  method CaptureLoginToken(storage: LocalStorage, data: Body)
    modifies storage
    ensures storage.items == if Truthy(data.accessToken)
                             then old(storage.items)[TokenKey := data.accessToken.value]
                             else old(storage.items)
  {
    if Truthy(data.accessToken) {
      storage.SetItem(TokenKey, data.accessToken.value);
    }
  }

  // =====================================================================
  // Resource hooks
  // =====================================================================

  datatype Entity = Sponsors | HackathonInfoEntity | Registrations | Partners | TeamMembers | Hackers

  /** The backend collection behind each hook group (spellings as the backend has them). */
  function Endpoint(e: Entity): (r: string)
    ensures '/' !in r
  {
    match e
    case Sponsors => "sponsers"
    case HackathonInfoEntity => "abouthackerthon"
    case Registrations => "registrationformhacker"
    case Partners => "supportingpartners"
    case TeamMembers => "teamsmemberhacker"
    case Hackers => "hackers"
  }

  /** The query key of the group's list query (`getAll` / `get`). */
  function ListKey(e: Entity): string {
    match e
    case Sponsors => "sponsors"
    case HackathonInfoEntity => "hackathon-info"
    case Registrations => "registrations"
    case Partners => "partners"
    case TeamMembers => "team-members"
    case Hackers => "teams"
  }

  /** The query key of the group's `getById`, where it has one. */
  function ItemKey(e: Entity): Option<string> {
    match e
    case Sponsors => Some("sponsor")
    case HackathonInfoEntity => None
    case Registrations => Some("registration")
    case Partners => Some("partner")
    case TeamMembers => Some("team-member")
    case Hackers => Some("team")
  }

  /** The read hooks: the list query, an item query, and the hackers
      group's second list query `getHackers`. */
  datatype Query = ListQuery(entity: Entity) | ItemQuery(entity: Entity, id: string) | HackerList

  predicate QueryOffered(q: Query) {
    q.ItemQuery? ==> ItemKey(q.entity).Some?
  }

  function QueryKey(q: Query): seq<string>
    requires QueryOffered(q)
  {
    match q
    case ListQuery(e) => [ListKey(e)]
    case ItemQuery(e, id) => [ItemKey(e).value, id]
    case HackerList => ["hackers"]
  }

  /** `invalidateQueries({queryKey})` matches every query whose key starts
      with the given key. */
  predicate KeyMatches(filter: seq<string>, key: seq<string>) {
    |filter| <= |key| && key[..|filter|] == filter
  }

  function QueryRequest(q: Query): Request {
    match q
    case ListQuery(e) => GetAll(Endpoint(e))
    case ItemQuery(e, id) => GetById(Endpoint(e), id)
    case HackerList => GetAll("hackers")
  }

  /** An item query runs only for a truthy id; list queries always run. */
  predicate QueryEnabled(q: Query) {
    q.ItemQuery? ==> Truthy(Some(q.id))
  }

  /** The enabled test holds back exactly the queries whose request would
      address an item with an empty id (`GET /<endpoint>/`). */
  lemma QueryEnabledIffIdSent(q: Query)
    ensures ParsePath(QueryRequest(q).path).Some?
    ensures !QueryEnabled(q) <==> ParsePath(QueryRequest(q).path).value.1 == Some("")
  {
    match q
    case ListQuery(e) => PathRoundTrip(Endpoint(e), "");
    case ItemQuery(e, id) => PathRoundTrip(Endpoint(e), id);
    case HackerList => PathRoundTrip("hackers", "");
  }

  /** `getHackers` fetches the same collection as the hackers group's list
      query under a different key, so no hackers mutation refreshes it. */
  lemma HackerListIsNeverInvalidated(c: Call)
    requires Offered(c)
    ensures QueryRequest(HackerList) == QueryRequest(ListQuery(Hackers))
    ensures QueryKey(HackerList) != QueryKey(ListQuery(Hackers))
    ensures !KeyMatches(InvalidatedKey(c), QueryKey(HackerList))
  {
  }

  /** One `mutate` call of a write hook. */
  datatype Call =
    | Create(entity: Entity, data: Payload)
    | Update(entity: Entity, id: string, data: Payload)
    | Remove(entity: Entity, id: string)
    | SetStatus(id: string, status: string)   // registrations' `updateStatus`

  function EntityOf(c: Call): Entity {
    if c.SetStatus? then Registrations else c.entity
  }

  /** The hackathon-info group offers only `update`; every other group
      offers create, update and delete, and registrations also `updateStatus`. */
  predicate Offered(c: Call) {
    EntityOf(c) == HackathonInfoEntity ==> c.Update?
  }

  /** The request a mutation sends. */
  function CallRequest(c: Call): Request
    requires Offered(c)
  {
    match c
    case Create(e, data) => CreateItem(Endpoint(e), data)
    case Update(e, id, data) => UpdateItem(Endpoint(e), id, data)
    case Remove(e, id) => DeleteItem(Endpoint(e), id)
    case SetStatus(id, status) => UpdateItem(Endpoint(Registrations), id, Json([("verified", status)]))
  }

  /** The query key a mutation invalidates on success. */
  function InvalidatedKey(c: Call): seq<string>
    requires Offered(c)
  {
    match EntityOf(c)
    case Sponsors => ["sponsors"]
    case HackathonInfoEntity => ["hackathon-info"]
    case Registrations => ["registrations"]
    case Partners => ["partners"]
    case TeamMembers => ["team-members"]
    case Hackers => ["teams"]
  }

  /** The notification a mutation shows on success. */
  function CallToast(c: Call): string
    requires Offered(c)
  {
    match c
    case SetStatus(_, status) =>
      if status == "yes" then "Registration verified successfully!"
      else "Registration unverified successfully!"
    case Create(e, _) =>
      (match e
       case Sponsors => "Sponsor added successfully!"
       case Registrations => "Registration created successfully!"
       case Partners => "Partner added successfully!"
       case TeamMembers => "Team member added successfully!"
       case Hackers => "Team created successfully!")
    case Update(e, _, _) =>
      (match e
       case Sponsors => "Sponsor updated successfully!"
       case HackathonInfoEntity => "Hackathon information updated successfully!"
       case Registrations => "Registration updated successfully!"
       case Partners => "Partner updated successfully!"
       case TeamMembers => "Team member updated successfully!"
       case Hackers => "Team updated successfully!")
    case Remove(e, _) =>
      (match e
       case Sponsors => "Sponsor removed successfully!"
       case Registrations => "Registration deleted successfully!"
       case Partners => "Partner removed successfully!"
       case TeamMembers => "Team member removed successfully!"
       case Hackers => "Team deleted successfully!")
  }

  /** Every mutation invalidates its own group's list query and nothing
      else; in particular never the `getHackers` key, nor an item key. */
  lemma MutationInvalidatesOwnList(c: Call, q: Query)
    requires Offered(c) && QueryOffered(q)
    ensures InvalidatedKey(c) == QueryKey(ListQuery(EntityOf(c)))
    ensures InvalidatedKey(c) == QueryKey(q) <==> q == ListQuery(EntityOf(c))
    ensures KeyMatches(InvalidatedKey(c), QueryKey(q)) <==> q == ListQuery(EntityOf(c))
  {
    var k := InvalidatedKey(c);
    assert k == [ListKey(EntityOf(c))];
    assert KeyMatches(k, QueryKey(q)) <==> QueryKey(q)[0] == ListKey(EntityOf(c));
  }

  /** A mutation addresses its own group's collection: the item path for
      update, delete and status, the collection path for create, with the
      multipart override exactly for `FormData` bodies. */
  lemma MutationRequestTargetsOwnEndpoint(c: Call)
    requires Offered(c)
    ensures ParsePath(CallRequest(c).path) ==
              Some((Endpoint(EntityOf(c)), if c.Create? then None else Some(c.id)))
    ensures CallRequest(c).verb == (if c.Create? then Post else if c.Remove? then Delete else Patch)
    ensures (ContentType in CallRequest(c).config) <==> (c.Create? || c.Update?) && c.data.Form?
  {
    PathRoundTrip(Endpoint(EntityOf(c)), if c.Create? then "" else c.id);
  }

  /** `updateStatus` PATCHes `{verified: status}` to the registration, and
      its notification says "verified" exactly when the new status is "yes". */
  lemma SetStatusRequest(id: string, status: string)
    ensures CallRequest(SetStatus(id, status)) ==
              Request(Patch, ItemPath("registrationformhacker", id), Some(Json([("verified", status)])), map[])
    ensures InvalidatedKey(SetStatus(id, status)) == ["registrations"]
    ensures CallToast(SetStatus(id, status)) ==
              if status == "yes" then "Registration verified successfully!"
              else "Registration unverified successfully!"
  {
  }

  /** The create-or-update call a form's save issues: update of the record
      being edited, or create when nothing is being edited. */
  function SaveCall(entity: Entity, editingId: Option<string>, data: FormData): (r: Call)
    ensures r.Update? <==> editingId.Some?
    ensures r.Create? <==> editingId.None?
    ensures r.Update? ==> r.id == editingId.value
    ensures (r.Create? || r.Update?) && r.entity == entity && r.data == Form(data)
  {
    match editingId
    case Some(id) => Update(entity, id, Form(data))
    case None => Create(entity, Form(data))
  }
}
