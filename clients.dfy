/**
 * The REST client layer: the in-memory key/value store that holds the auth token and
 * the selected classroom id, and `fetchClient`, which builds a request and turns the
 * server's reply into a parsed body or a thrown error.
 */
module Clients {
  import opened Wrappers
  import opened JsText
  import opened JsValue

  const TokenKey := "anuvat_id_token"
  const ClassIdKey := "anuvat_classroom_id"
  const BaseUrl := "https://anouvat.web.app/v1"

  const AuthMissingMessage := "Authentication required, but token is missing."

  // ---------------------------------------------------------------------------
  // The key/value store
  // ---------------------------------------------------------------------------

  /** `getItem` on the dictionary: `_data[key] || null`, so an empty string reads as absent. */
  function Lookup(data: map<string, string>, key: string): (r: Option<string>)
    ensures r.Some? <==> key in data && data[key] != ""
    ensures r.Some? ==> r.value == data[key]
  {
    if key in data && data[key] != "" then Some(data[key]) else None
  }

  /** A write is read back, except that an empty string reads as absent; other keys are untouched. */
  lemma ReadAfterWrite(data: map<string, string>, key: string, value: string, other: string)
    ensures Lookup(data[key := value], key) == if value == "" then None else Some(value)
    ensures other != key ==> Lookup(data[key := value], other) == Lookup(data, other)
  {
  }

  /** A removed key reads as absent; other keys are untouched. */
  lemma ReadAfterRemove(data: map<string, string>, key: string, other: string)
    ensures Lookup(data - {key}, key) == None
    ensures other != key ==> Lookup(data - {key}, other) == Lookup(data, other)
  {
  }

  class Storage {
    /** `AsyncStorage._data` */
    var data: map<string, string>

    constructor ()
      ensures data == map[]
    {
      data := map[];
    }

    function GetItem(key: string): Option<string>
      reads this
    {
      Lookup(data, key)
    }

    /** `setItem`: stores the value, already converted with `String`. */
    method SetItem(key: string, value: string)
      modifies this
      ensures data == old(data)[key := value]
    {
      data := data[key := value];
    }

    /** `removeItem`: `delete _data[key]`. */
    method RemoveItem(key: string)
      modifies this
      ensures data == old(data) - {key}
    {
      data := data - {key};
    }

    method StoreToken(token: Js)
      modifies this
      ensures data == old(data)[TokenKey := Stringify(token)]
    {
      SetItem(TokenKey, Stringify(token));
    }

    function GetToken(): (r: Option<string>)
      reads this
      ensures r.Some? <==> TokenKey in data && data[TokenKey] != ""
      ensures r.Some? ==> r.value == data[TokenKey]
    {
      GetItem(TokenKey)
    }

    method RemoveToken()
      modifies this
      ensures data == old(data) - {TokenKey}
    {
      RemoveItem(TokenKey);
    }

    /** `storeClassroomId(id)`: `setItem(CLASS_ID_KEY, id.toString())`; callers pass a truthy id. */
    method StoreClassroomId(classroomId: Js)
      requires !Nullish(classroomId)
      modifies this
      ensures data == old(data)[ClassIdKey := Stringify(classroomId)]
    {
      SetItem(ClassIdKey, Stringify(classroomId));
    }

    function GetStoredClassroomId(): (r: Option<string>)
      reads this
      ensures r.Some? <==> ClassIdKey in data && data[ClassIdKey] != ""
      ensures r.Some? ==> r.value == data[ClassIdKey]
    {
      GetItem(ClassIdKey)
    }

    method RemoveClassroomId()
      modifies this
      ensures data == old(data) - {ClassIdKey}
    {
      RemoveItem(ClassIdKey);
    }
  }

  // ---------------------------------------------------------------------------
  // fetchClient
  // ---------------------------------------------------------------------------

  /** What `fetch` is handed: method, absolute URL, headers, and the value `JSON.stringify` serialises. */
  datatype Request = Request(httpMethod: string, url: string, headers: map<string, string>, body: Option<Js>)

  /** The result of `response.json()`: a value, or the message of the parse error. */
  datatype Body = Parsed(value: Js) | Unparsable(message: string)

  datatype HttpResponse = HttpResponse(ok: bool, status: nat, statusText: string, body: Body)

  /** What the server does with a request: the transport fails, or a response arrives. */
  datatype FetchOutcome = NetworkFailure(message: string) | Received(response: HttpResponse)

  function HttpErrorText(status: nat): string
  {
    "HTTP error! Status: " + Decimal(status)
  }

  /**
   * The message thrown for a non-ok response: the error body's `message` when truthy;
   * the status text when the body does not parse (if that text is non-empty);
   * otherwise `HTTP error! Status: <n>`. A body that parses to null makes the read
   * of `message` itself throw.
   */
  function ErrorMessage(r: HttpResponse): (m: string)
    ensures r.body.Unparsable? ==> m == if r.statusText != "" then r.statusText else HttpErrorText(r.status)
    ensures r.body.Parsed? && Nullish(r.body.value) ==> m == Get(r.body.value, "message").error
    ensures r.body.Parsed? && !Nullish(r.body.value) ==>
              var msg := Get(r.body.value, "message").value;
              m == if Truthy(msg) then Stringify(msg) else HttpErrorText(r.status)
  {
    var errorBody := match r.body
      case Parsed(v) => v
      case Unparsable(_) => Obj(map["message" := Str(r.statusText)]);
    match Get(errorBody, "message")
    case Failure(e) => e
    case Success(msg) => if Truthy(msg) then Stringify(msg) else HttpErrorText(r.status)
  }

  /**
   * How a reply is handed back: a network failure, a non-ok status and an unparsable
   * ok body are all thrown again; an ok 204 yields `null` without reading the body.
   */
  function Classify(outcome: FetchOutcome): (r: Result<Js, string>)
    ensures r.Failure? <==>
              || outcome.NetworkFailure?
              || !outcome.response.ok
              || (outcome.response.status != 204 && outcome.response.body.Unparsable?)
    ensures outcome.NetworkFailure? ==> r == Failure(outcome.message)
    ensures outcome.Received? && !outcome.response.ok ==> r == Failure(ErrorMessage(outcome.response))
    ensures outcome.Received? && outcome.response.ok && outcome.response.status == 204 ==> r == Success(Null)
    ensures outcome.Received? && outcome.response.ok && outcome.response.status != 204 ==>
              r == match outcome.response.body
                   case Parsed(v) => Success(v)
                   case Unparsable(e) => Failure(e)
  {
    match outcome
    case NetworkFailure(e) => Failure(e)
    case Received(resp) =>
      if !resp.ok then Failure(ErrorMessage(resp))
      else if resp.status == 204 then Success(Null)
      else match resp.body
        case Parsed(v) => Success(v)
        case Unparsable(e) => Failure(e)
  }

  /**
   * `fetchClient(method, url, data, needsAuth)`. `sent` is the request handed to
   * `fetch`, `None` when the call failed before any I/O; the reply to a sent request
   * is `server`.
   */
  method FetchClient(store: Storage, httpMethod: string, path: string, data: Js, needsAuth: bool,
                     server: FetchOutcome)
    returns (sent: Option<Request>, result: Result<Js, string>)
    ensures needsAuth && store.GetToken().None? ==> sent.None? && result == Failure(AuthMissingMessage)
    ensures !needsAuth || store.GetToken().Some? ==> sent.Some? && result == Classify(server)
    ensures sent.Some? ==> sent.value.url == BaseUrl + path && sent.value.httpMethod == httpMethod
    ensures sent.Some? ==> "Content-Type" in sent.value.headers
                           && sent.value.headers["Content-Type"] == "application/json"
    ensures sent.Some? ==> sent.value.headers.Keys <= {"Content-Type", "Authorization"}
    ensures sent.Some? ==> ("Authorization" in sent.value.headers <==> needsAuth)
    ensures sent.Some? && needsAuth ==>
              store.GetToken().Some? && sent.value.headers["Authorization"] == "Bearer " + store.GetToken().value
    ensures sent.Some? ==> sent.value.body == if Truthy(data) then Some(data) else None
  {
    var fullUrl := BaseUrl + path;
    var headers := map["Content-Type" := "application/json"];
    if needsAuth {
      var token := store.GetToken();
      if token.Some? {
        headers := headers["Authorization" := "Bearer " + token.value];
      } else {
        return None, Failure(AuthMissingMessage);
      }
    }
    var body := if Truthy(data) then Some(data) else None;
    sent := Some(Request(httpMethod, fullUrl, headers, body));
    result := Classify(server);
  }
}
