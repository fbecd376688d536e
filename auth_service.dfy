/**
 * The auth token lifecycle: `login` and `register` store the token the server returns,
 * `getCurrentUser` checks the stored token against `/users/me` and clears the local
 * credentials when that check fails, and `logout` clears them unconditionally.
 */
module AuthService {
  import opened Wrappers
  import opened JsValue
  import opened Clients

  const LoginPath := "/users/login"
  const RegisterPath := "/users/register"
  const MePath := "/users/me"

  const LoginFailedDefault := "Login failed due to an unknown error."
  const RegisterFailedDefault := "Registration failed due to an unknown error."

  /** `const { idToken, user } = response.data` */
  datatype Credentials = Credentials(idToken: Js, user: Js)

  /** Destructuring `response.data`: throws when the reply or its `data` is null or undefined. */
  function ReadCredentials(response: Js): (r: Result<Credentials, string>)
    ensures r.Success? <==> !Nullish(response) && !Nullish(Get(response, "data").value)
    ensures r.Success? ==>
              var data := Get(response, "data").value;
              r.value == Credentials(Get(data, "idToken").value, Get(data, "user").value)
    ensures r.Failure? ==> r.error != ""
  {
    match Get(response, "data")
    case Failure(e) => Failure(e)
    case Success(data) =>
      match Get(data, "idToken")
      case Failure(e) => Failure(e)
      case Success(idToken) => Success(Credentials(idToken, Get(data, "user").value))
  }

  /** What a login or register reply yields once `fetchClient` and the destructuring have run. */
  function CredentialsFrom(server: FetchOutcome): Result<Credentials, string>
  {
    match Classify(server)
    case Failure(e) => Failure(e)
    case Success(v) => ReadCredentials(v)
  }

  /** `response.data.user` */
  function ReadUser(response: Js): (r: Result<Js, string>)
    ensures r.Success? <==> !Nullish(response) && !Nullish(Get(response, "data").value)
    ensures r.Success? ==> r.value == Get(Get(response, "data").value, "user").value
  {
    match Get(response, "data")
    case Failure(e) => Failure(e)
    case Success(data) => Get(data, "user")
  }

  /** `e.message || fallback` */
  function OrDefault(message: string, fallback: string): (m: string)
    ensures fallback != "" ==> m != ""
    ensures message != "" ==> m == message
    ensures message == "" ==> m == fallback
  {
    if message != "" then message else fallback
  }

  function LoginBody(email: string, password: string): Js
  {
    Obj(map["email" := Str(email), "password" := Str(password)])
  }

  function RegisterBody(email: string, password: string, name: string): Js
  {
    Obj(map["email" := Str(email), "password" := Str(password), "name" := Str(name)])
  }

  /**
   * The shared body of `login` and `register`: an unauthenticated POST; on success the
   * token is stored only if it is truthy and the user is returned; on any failure the
   * store is untouched and the error is rethrown with `fallback` for an empty message.
   */
  method Authenticate(store: Storage, path: string, body: Js, fallback: string, server: FetchOutcome)
    returns (sent: Option<Request>, result: Result<Js, string>)
    requires fallback != "" && body.Obj?
    modifies store
    ensures sent.Some? && sent.value.httpMethod == "POST" && sent.value.url == BaseUrl + path
    ensures "Authorization" !in sent.value.headers && sent.value.body == Some(body)
    ensures result.Success? <==> CredentialsFrom(server).Success?
    ensures result.Success? ==>
              var creds := CredentialsFrom(server).value;
              && result.value == creds.user
              && store.data == if Truthy(creds.idToken) then old(store.data)[TokenKey := Stringify(creds.idToken)]
                               else old(store.data)
    ensures result.Failure? ==>
              result.error == OrDefault(CredentialsFrom(server).error, fallback) && store.data == old(store.data)
  {
    var reply;
    sent, reply := FetchClient(store, "POST", path, body, false, server);
    if reply.Failure? {
      return sent, Failure(OrDefault(reply.error, fallback));
    }
    var creds := ReadCredentials(reply.value);
    if creds.Failure? {
      return sent, Failure(OrDefault(creds.error, fallback));
    }
    if Truthy(creds.value.idToken) {
      store.StoreToken(creds.value.idToken);
    }
    result := Success(creds.value.user);
  }

  /** `login(email, password)`: POST `/users/login`, no auth header. */
  method Login(store: Storage, email: string, password: string, server: FetchOutcome)
    returns (sent: Option<Request>, result: Result<Js, string>)
    modifies store
    ensures sent.Some? && sent.value.httpMethod == "POST" && sent.value.url == BaseUrl + LoginPath
    ensures "Authorization" !in sent.value.headers && sent.value.body == Some(LoginBody(email, password))
    ensures result.Success? <==> CredentialsFrom(server).Success?
    ensures result.Success? ==>
              var creds := CredentialsFrom(server).value;
              && result.value == creds.user
              && store.data == if Truthy(creds.idToken) then old(store.data)[TokenKey := Stringify(creds.idToken)]
                               else old(store.data)
    ensures result.Success? ==>
              var token := CredentialsFrom(server).value.idToken;
              token.Str? && token.s != "" ==> store.GetToken() == Some(token.s)
    ensures result.Failure? ==>
              result.error == OrDefault(CredentialsFrom(server).error, LoginFailedDefault)
              && store.data == old(store.data)
  {
    sent, result := Authenticate(store, LoginPath, LoginBody(email, password), LoginFailedDefault, server);
  }

  /** `register(email, password, name)`: as `login`, on `/users/register` with `name` in the body. */
  method Register(store: Storage, email: string, password: string, name: string, server: FetchOutcome)
    returns (sent: Option<Request>, result: Result<Js, string>)
    modifies store
    ensures sent.Some? && sent.value.httpMethod == "POST" && sent.value.url == BaseUrl + RegisterPath
    ensures "Authorization" !in sent.value.headers && sent.value.body == Some(RegisterBody(email, password, name))
    ensures result.Success? <==> CredentialsFrom(server).Success?
    ensures result.Success? ==>
              var creds := CredentialsFrom(server).value;
              && result.value == creds.user
              && store.data == if Truthy(creds.idToken) then old(store.data)[TokenKey := Stringify(creds.idToken)]
                               else old(store.data)
    ensures result.Failure? ==>
              result.error == OrDefault(CredentialsFrom(server).error, RegisterFailedDefault)
              && store.data == old(store.data)
  {
    sent, result := Authenticate(store, RegisterPath, RegisterBody(email, password, name), RegisterFailedDefault, server);
  }

  /**
   * `getCurrentUser` (through `fetchUserData`): an authenticated GET of `/users/me`.
   * It never throws. On success the user is returned and the store is untouched; on any
   * failure, a missing token included, both the token and the classroom id are removed
   * and the result is `null`.
   */
  method GetCurrentUser(store: Storage, server: FetchOutcome) returns (sent: Option<Request>, user: Js)
    modifies store
    ensures sent.None? <==> old(store.GetToken()).None?
    ensures sent.Some? ==>
              && sent.value.httpMethod == "GET" && sent.value.url == BaseUrl + MePath
              && "Authorization" in sent.value.headers
              && sent.value.headers["Authorization"] == "Bearer " + old(store.GetToken()).value
    ensures var reply := if sent.None? then Failure(AuthMissingMessage) else Classify(server);
            var u := if reply.Failure? then Failure(reply.error) else ReadUser(reply.value);
            && (u.Success? ==> user == u.value && store.data == old(store.data))
            && (u.Failure? ==> user == Null && store.data == old(store.data) - {TokenKey, ClassIdKey})
  {
    var reply;
    sent, reply := FetchClient(store, "GET", MePath, Null, true, server);
    var u := if reply.Failure? then Failure(reply.error) else ReadUser(reply.value);
    if u.Success? {
      return sent, u.value;
    }
    store.RemoveToken();
    store.RemoveClassroomId();
    user := Null;
  }

  /** `logout`: removes both keys whatever was there, and sends nothing. */
  method Logout(store: Storage)
    modifies store
    ensures store.data == old(store.data) - {TokenKey, ClassIdKey}
    ensures store.GetToken().None? && store.GetStoredClassroomId().None?
  {
    store.RemoveToken();
    store.RemoveClassroomId();
  }
}
