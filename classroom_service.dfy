/**
 * Classroom reads and joining. Every operation hands back a `{data, error}` pair and
 * never throws; joining also remembers the classroom id the server returns.
 */
module ClassroomService {
  import opened Wrappers
  import opened JsValue
  import opened Clients

  const ClassroomPath := "/classrooms"
  const UnknownError := "An unknown API error occurred."
  const MissingIdError := "Join successful but no class ID returned. Check API response."

  /** `{data, error}`: `error` is `null` or a message. */
  datatype ApiResult = ApiResult(data: Js, error: Option<string>)

  /** `handleError(e)`: no data, and the message or a generic one if it is empty. */
  function HandleError(message: string): (r: ApiResult)
    ensures r.data == Null && r.error.Some? && r.error.value != ""
    ensures message != "" ==> r.error == Some(message)
    ensures message == "" ==> r.error == Some(UnknownError)
  {
    ApiResult(Null, Some(if message != "" then message else UnknownError))
  }

  /** `handleSuccess(response)`: reading `response.data` throws for a `null` (204) reply. */
  function HandleSuccess(response: Js): (r: Result<ApiResult, string>)
    ensures r.Success? <==> !Nullish(response)
    ensures r.Success? ==> r.value == ApiResult(Get(response, "data").value, None)
  {
    match Get(response, "data")
    case Failure(e) => Failure(e)
    case Success(data) => Success(ApiResult(data, None))
  }

  /**
   * The `try { … handleSuccess(response) } catch (e) { handleError(e) }` of the read
   * operations: the error shape exactly when the call or the read of `data` failed.
   */
  function Settle(reply: Result<Js, string>): (r: ApiResult)
    ensures r.error.None? <==> reply.Success? && !Nullish(reply.value)
    ensures r.error.None? ==> r.data == Get(reply.value, "data").value
    ensures r.error.Some? ==> r.data == Null && r.error.value != ""
    ensures reply.Failure? && reply.error != "" ==> r.error == Some(reply.error)
  {
    match reply
    case Failure(e) => HandleError(e)
    case Success(response) =>
      match HandleSuccess(response)
      case Failure(e) => HandleError(e)
      case Success(ok) => ok
  }

  function DetailsPath(classId: string): string { ClassroomPath + "/" + classId + "/details" }
  function MaterialsPath(classId: string): string { ClassroomPath + "/" + classId + "/materials" }
  function PracticePath(classId: string): string { ClassroomPath + "/" + classId + "/assignments?type=practice" }
  function SubmissionPath(classId: string): string { ClassroomPath + "/" + classId + "/assignments?type=submission" }
  const JoinPath := ClassroomPath + "/join"

  /** The reply `fetchClient` would give: the missing-token error, or the server's reply classified. */
  function ReplyOf(sent: Option<Request>, server: FetchOutcome): Result<Js, string>
  {
    if sent.None? then Failure(AuthMissingMessage) else Classify(server)
  }

  /** An authenticated GET whose reply is settled into the `{data, error}` shape. */
  method Read(store: Storage, path: string, server: FetchOutcome) returns (sent: Option<Request>, result: ApiResult)
    ensures sent.None? <==> store.GetToken().None?
    ensures sent.Some? ==> sent.value.httpMethod == "GET" && sent.value.url == BaseUrl + path
                           && sent.value.body == None && "Authorization" in sent.value.headers
    ensures result == Settle(ReplyOf(sent, server))
  {
    var reply;
    sent, reply := FetchClient(store, "GET", path, Null, true, server);
    result := Settle(reply);
  }

  /** `getDetails(classId)`: GET `/classrooms/{id}/details`. */
  method GetDetails(store: Storage, classId: string, server: FetchOutcome)
    returns (sent: Option<Request>, result: ApiResult)
    ensures sent.None? <==> store.GetToken().None?
    ensures sent.Some? ==> sent.value.httpMethod == "GET"
                           && sent.value.url == BaseUrl + "/classrooms/" + classId + "/details"
    ensures result == Settle(ReplyOf(sent, server))
  {
    sent, result := Read(store, DetailsPath(classId), server);
  }

  /** `getMaterials(classId)`: GET `/classrooms/{id}/materials`. */
  method GetMaterials(store: Storage, classId: string, server: FetchOutcome)
    returns (sent: Option<Request>, result: ApiResult)
    ensures sent.None? <==> store.GetToken().None?
    ensures sent.Some? ==> sent.value.httpMethod == "GET"
                           && sent.value.url == BaseUrl + "/classrooms/" + classId + "/materials"
    ensures result == Settle(ReplyOf(sent, server))
  {
    sent, result := Read(store, MaterialsPath(classId), server);
  }

  /** `getPracticeAssignments(classId)`: GET `/classrooms/{id}/assignments?type=practice`. */
  method GetPracticeAssignments(store: Storage, classId: string, server: FetchOutcome)
    returns (sent: Option<Request>, result: ApiResult)
    ensures sent.None? <==> store.GetToken().None?
    ensures sent.Some? ==> sent.value.httpMethod == "GET"
                           && sent.value.url == BaseUrl + "/classrooms/" + classId + "/assignments?type=practice"
    ensures result == Settle(ReplyOf(sent, server))
  {
    sent, result := Read(store, PracticePath(classId), server);
  }

  /** `getSubmissionAssignments(classId)`: GET `/classrooms/{id}/assignments?type=submission`. */
  method GetSubmissionAssignments(store: Storage, classId: string, server: FetchOutcome)
    returns (sent: Option<Request>, result: ApiResult)
    ensures sent.None? <==> store.GetToken().None?
    ensures sent.Some? ==> sent.value.httpMethod == "GET"
                           && sent.value.url == BaseUrl + "/classrooms/" + classId + "/assignments?type=submission"
    ensures result == Settle(ReplyOf(sent, server))
  {
    sent, result := Read(store, SubmissionPath(classId), server);
  }

  /** `response.data.classroomId` */
  function JoinedId(response: Js): (r: Result<Js, string>)
    ensures r.Success? <==> !Nullish(response) && !Nullish(Get(response, "data").value)
    ensures r.Success? ==> r.value == Get(Get(response, "data").value, "classroomId").value
    ensures r.Failure? ==> r.error != ""
  {
    match Get(response, "data")
    case Failure(e) => Failure(e)
    case Success(data) => Get(data, "classroomId")
  }

  /**
   * `joinClassroom(code)`: an authenticated POST of `{code}` to `/classrooms/join`.
   * A truthy `classroomId` in the reply is stored and returned as `data`; a missing or
   * falsy one, or any failure, gives the error shape and stores nothing.
   */
  method JoinClassroom(store: Storage, code: string, server: FetchOutcome)
    returns (sent: Option<Request>, result: ApiResult)
    modifies store
    ensures sent.None? <==> old(store.GetToken()).None?
    ensures sent.Some? ==> sent.value.httpMethod == "POST" && sent.value.url == BaseUrl + "/classrooms/join"
                           && sent.value.body == Some(Obj(map["code" := Str(code)]))
    ensures var reply := ReplyOf(sent, server);
            var id := if reply.Failure? then Failure(reply.error) else JoinedId(reply.value);
            && (result.error.None? <==> id.Success? && Truthy(id.value))
            && (result.error.None? ==> result.data == id.value)
            && (id.Success? && !Truthy(id.value) ==> result == ApiResult(Null, Some(MissingIdError)))
            && (id.Failure? ==> result == HandleError(id.error))
    ensures result.error.None? ==> Truthy(result.data)
                                   && store.data == old(store.data)[ClassIdKey := Stringify(result.data)]
    ensures result.error.None? && Stringify(result.data) != "" ==>
              store.GetStoredClassroomId() == Some(Stringify(result.data))
    ensures result.error.Some? ==> result.data == Null && result.error.value != "" && store.data == old(store.data)
  {
    var reply;
    sent, reply := FetchClient(store, "POST", JoinPath, Obj(map["code" := Str(code)]), true, server);
    if reply.Failure? {
      return sent, HandleError(reply.error);
    }
    var id := JoinedId(reply.value);
    if id.Failure? {
      return sent, HandleError(id.error);
    }
    if Truthy(id.value) {
      store.StoreClassroomId(id.value);
      result := ApiResult(id.value, None);
    } else {
      result := ApiResult(Null, Some(MissingIdError));
    }
  }
}
