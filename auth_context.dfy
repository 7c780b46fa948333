/** The session manager of src/contexts/AuthContext.jsx: the `user` and `loading` state
    of `AuthProvider`, the mount effect that resolves a stored token, and `login`,
    `register` and `logout`.

    `user` holds whatever the page would hold: `JNull` for null, the `/users/me` body
    after a successful bootstrap, or the object built from a login/register payload.
    Backend replies are inputs; every request goes through the shared `ApiClient`, so its
    401 handling applies here as everywhere else. */
module AuthContext {
  import opened Wrappers
  import opened Json
  import opened Effects
  import opened Api

  const ProfilePath: string := "/users/me"
  const LoginApiPath: string := "/auth/login"
  const RegisterApiPath: string := "/auth/register"
  const DefaultRole: string := "USER"

  /** Why `login`/`register` threw. */
  datatype AuthError =
    | NoTokenReturned          // "No token returned"
    | Transport(error: HttpError)

  /** `payload?.token`, as the text the token store keeps. */
  function TokenOf(payload: Json): (t: Option<string>)
    ensures t.Some? <==> TruthyOpt(Get(payload, "token"))
  {
    var tok := Get(payload, "token");
    if TruthyOpt(tok) then Some(ToStr(tok.value)) else None
  }

  /** Where each field of the session user comes from in a login/register payload. */
  function PayloadKey(k: string): string {
    if k == "id" then "userId" else k
  }

  /** `{ id: payload.userId, email: payload.email, name: payload.name, role: payload.role }`;
      an undefined payload field stays undefined in the user. */
  function UserFromPayload(p: Json): (u: Json)
    ensures u.JObj? && u.fields.Keys <= {"id", "email", "name", "role"}
    ensures forall k :: k in {"id", "email", "name", "role"} ==> Get(u, k) == Get(p, PayloadKey(k))
  {
    JObj(map k | k in {"id", "email", "name", "role"} && Get(p, PayloadKey(k)).Some?
                :: Get(p, PayloadKey(k)).value)
  }

  function LoginBody(email: string, password: string): Json {
    JObj(map["email" := JStr(email), "password" := JStr(password)])
  }

  /** `register(name, email, password, role = 'USER')`: only an omitted role defaults. */
  function RegisterBody(name: string, email: string, password: string, role: Option<string>): (b: Json)
    ensures Get(b, "role") == Some(JStr(if role.Some? then role.value else DefaultRole))
  {
    JObj(map["name" := JStr(name), "email" := JStr(email), "password" := JStr(password),
             "role" := JStr(if role.Some? then role.value else DefaultRole)])
  }

  class AuthProvider {
    var user: Json
    var loading: bool
    const api: ApiClient

    /** `useState(null)` and `useState(true)`. */
    constructor (api: ApiClient)
      ensures user == JNull && loading && this.api == api
    {
      user := JNull;
      loading := true;
      this.api := api;
    }

    /** The mount effect. Without a stored token no request is made and loading ends.
        With one, `/users/me` is fetched: its body becomes the user, or on any failure
        the token is cleared and the user is null. Loading ends either way. */
    method Bootstrap(profile: Reply) returns (fetch: Option<Config>, effects: seq<Effect>)
      modifies this, api.store
      ensures !loading
      ensures !HasToken(old(api.store.token)) ==>
        fetch == None && user == old(user) && api.store.token == old(api.store.token) && effects == []
      ensures HasToken(old(api.store.token)) ==>
        fetch == Some(WithBearer(GetRequest(ProfilePath, map[]), old(api.store.token)))
      ensures HasToken(old(api.store.token)) && profile.Response? ==>
        user == profile.data && api.store.token == old(api.store.token) && effects == []
      ensures HasToken(old(api.store.token)) && profile.Rejected? ==>
        user == JNull && api.store.token == None
        && effects == (if IsUnauthorized(profile.error) then [Navigate(LoginPath)] else [])
    {
      var token := api.store.Get();
      fetch := None;
      effects := [];
      if HasToken(token) {
        var sent, res;
        sent, res, effects := api.Send(GetRequest(ProfilePath, map[]), profile);
        fetch := Some(sent);
        if res.Response? {
          user := res.data;
        } else {
          api.store.Clear();
          user := JNull;
        }
      }
      loading := false;
    }

    /** The part `login` and `register` share: send the request; a payload carrying a
        token stores it, sets the user from the payload and is returned; a payload
        without one, or a failed call, throws and leaves the user as it was (the
        client's own 401 handling still applies to a failed call). */
    method Authenticate(request: Config, reply: Reply, greeting: string)
      returns (sent: Config, r: Result<Json, AuthError>, effects: seq<Effect>)
      modifies this, api.store
      ensures sent == WithBearer(request, old(api.store.token))
      ensures loading == old(loading)
      ensures reply.Response? && TokenOf(reply.data).Some? ==>
        r == Ok(reply.data) && api.store.token == TokenOf(reply.data)
        && user == UserFromPayload(reply.data) && effects == [Toast(ToastSuccess, greeting)]
      ensures reply.Response? && TokenOf(reply.data).None? ==>
        r == Err(NoTokenReturned) && api.store.token == old(api.store.token)
        && user == old(user) && effects == []
      ensures reply.Rejected? ==>
        r == Err(Transport(reply.error)) && user == old(user)
        && api.store.token == (if IsUnauthorized(reply.error) then None else old(api.store.token))
        && effects == (if IsUnauthorized(reply.error) then [Navigate(LoginPath)] else [])
    {
      var res;
      sent, res, effects := api.Send(request, reply);
      if res.Rejected? {
        r := Err(Transport(res.error));
      } else {
        var payload := res.data;
        var token := TokenOf(payload);
        if token.Some? {
          api.store.Set(token.value);
          user := UserFromPayload(payload);
          effects := effects + [Toast(ToastSuccess, greeting)];
          r := Ok(payload);
        } else {
          r := Err(NoTokenReturned);
        }
      }
    }

    method Login(email: string, password: string, reply: Reply)
      returns (sent: Config, r: Result<Json, AuthError>, effects: seq<Effect>)
      modifies this, api.store
      ensures sent == WithBearer(PostRequest(LoginApiPath, Some(LoginBody(email, password))), old(api.store.token))
      ensures loading == old(loading)
      ensures reply.Response? && TokenOf(reply.data).Some? ==>
        r == Ok(reply.data) && api.store.token == TokenOf(reply.data)
        && user == UserFromPayload(reply.data) && effects == [Toast(ToastSuccess, "Logged in")]
      ensures reply.Response? && TokenOf(reply.data).None? ==>
        r == Err(NoTokenReturned) && api.store.token == old(api.store.token)
        && user == old(user) && effects == []
      ensures reply.Rejected? ==>
        r == Err(Transport(reply.error)) && user == old(user)
        && api.store.token == (if IsUnauthorized(reply.error) then None else old(api.store.token))
        && effects == (if IsUnauthorized(reply.error) then [Navigate(LoginPath)] else [])
    {
      sent, r, effects := Authenticate(PostRequest(LoginApiPath, Some(LoginBody(email, password))), reply, "Logged in");
    }

    method Register(name: string, email: string, password: string, role: Option<string>, reply: Reply)
      returns (sent: Config, r: Result<Json, AuthError>, effects: seq<Effect>)
      modifies this, api.store
      ensures sent == WithBearer(PostRequest(RegisterApiPath, Some(RegisterBody(name, email, password, role))),
                                 old(api.store.token))
      ensures loading == old(loading)
      ensures reply.Response? && TokenOf(reply.data).Some? ==>
        r == Ok(reply.data) && api.store.token == TokenOf(reply.data)
        && user == UserFromPayload(reply.data) && effects == [Toast(ToastSuccess, "Registered")]
      ensures reply.Response? && TokenOf(reply.data).None? ==>
        r == Err(NoTokenReturned) && api.store.token == old(api.store.token)
        && user == old(user) && effects == []
      ensures reply.Rejected? ==>
        r == Err(Transport(reply.error)) && user == old(user)
        && api.store.token == (if IsUnauthorized(reply.error) then None else old(api.store.token))
        && effects == (if IsUnauthorized(reply.error) then [Navigate(LoginPath)] else [])
    {
      var body := RegisterBody(name, email, password, role);
      sent, r, effects := Authenticate(PostRequest(RegisterApiPath, Some(body)), reply, "Registered");
    }

    /** Unconditional, from any state. */
    method Logout() returns (effects: seq<Effect>)
      modifies this, api.store
      ensures api.store.token == None && user == JNull && loading == old(loading)
      ensures effects == [Toast(ToastInfo, "Logged out"), Navigate(LoginPath)]
    {
      api.store.Clear();
      user := JNull;
      effects := [Toast(ToastInfo, "Logged out"), Navigate(LoginPath)];
    }
  }
}
