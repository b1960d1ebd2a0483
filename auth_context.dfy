/** The client's authentication state: the signed-in user, the loading flag
    of the start-up check, and the token kept in the browser's local storage.
    The HTTP calls are parameters (an `Api`), each answering with a reply. */
module AuthContext {
  import opened Js

  /** The `User` the client keeps: the email, and the role when the server sent one. */
  datatype ClientUser = ClientUser(email: string, role: Option<string>)

  /** The `data` of a login reply, or of a register reply in object form. */
  datatype AuthData = AuthData(token: Option<string>, user: Option<ClientUser>)

  /** The `data` of a register reply: a bare message, or the login form. */
  datatype RegisterData = Message(text: string) | Object(fields: AuthData)

  /** The `data` the `/me` call resolves with. */
  datatype MeData = MeData(email: string, role: Option<string>)

  /** How an axios call settles: rejected, with the status of the error
      response when there was one, or resolved with its data. */
  datatype Reply<T> = Rejected(status: Option<int>, msg: Option<string>) | Resolved(data: Option<T>)

  /** Why `login` or `register` threw. */
  datatype Failure = RequestFailed(status: Option<int>, msg: Option<string>) | NoResponseData | NoToken | InvalidUserData

  /** The three calls of `authApi`, as the server would answer them. */
  datatype Api = Api(
    login: (string, string) -> Reply<AuthData>,
    register: (string, string, string) -> Reply<RegisterData>,
    currentUser: string -> Reply<MeData>)

  const TokenKey: string := "token"

  /** `!!s` for a text. */
  predicate Present(s: Option<string>)
  {
    s.Some? && s.value != ""
  }

  /** Why a reply to a login (or an object reply to a register) is refused,
      with the checks in the order the context makes them; `None` when it is
      accepted. */
  function Refusal(data: Option<AuthData>): (f: Option<Failure>)
    ensures f.None? <==> data.Some? && Present(data.value.token) && data.value.user.Some? && data.value.user.value.email != ""
    ensures data.None? ==> f == Some(NoResponseData)
    ensures data.Some? && !Present(data.value.token) ==> f == Some(NoToken)
    ensures data.Some? && Present(data.value.token) && f.Some? ==> f == Some(InvalidUserData)
  {
    match data
    case None => Some(NoResponseData)
    case Some(d) =>
      if !Present(d.token) then Some(NoToken)
      else if d.user.None? || d.user.value.email == "" then Some(InvalidUserData)
      else None
  }

  /** What `login` throws for a reply from the login call; `None` when it
      returns normally. */
  function LoginFailure(reply: Reply<AuthData>): (f: Option<Failure>)
    ensures f.None? <==> reply.Resolved? && Refusal(reply.data).None?
    ensures reply.Rejected? ==> f == Some(RequestFailed(reply.status, reply.msg))
  {
    match reply
    case Rejected(status, msg) => Some(RequestFailed(status, msg))
    case Resolved(data) => Refusal(data)
  }

  /** What `register` throws; a bare-message reply hands over to `login`. */
  function RegisterFailure(api: Api, name: string, email: string, password: string): (f: Option<Failure>)
    ensures api.register(name, email, password).Rejected? ==>
              f == Some(RequestFailed(api.register(name, email, password).status, api.register(name, email, password).msg))
    ensures api.register(name, email, password) in {Resolved(None), Resolved(Some(Message("")))} ==> f == Some(NoResponseData)
    ensures (match api.register(name, email, password)
             case Resolved(Some(Message(t))) => t != "" ==> f == LoginFailure(api.login(email, password))
             case Resolved(Some(Object(d))) => f == Refusal(Some(d))
             case _ => true)
  {
    match api.register(name, email, password)
    case Rejected(status, msg) => Some(RequestFailed(status, msg))
    case Resolved(None) => Some(NoResponseData)
    case Resolved(Some(Message(t))) => if t == "" then Some(NoResponseData) else LoginFailure(api.login(email, password))
    case Resolved(Some(Object(d))) => Refusal(Some(d))
  }

  /** The token and user a successful `register` keeps: those of the login
      it hands over to, or those of the object reply; `None` when it throws. */
  function RegisteredSession(api: Api, name: string, email: string, password: string): (s: Option<AuthData>)
    ensures s.Some? <==> RegisterFailure(api, name, email, password).None?
    ensures s.Some? ==> Present(s.value.token) && s.value.user.Some? && s.value.user.value.email != ""
    ensures (match api.register(name, email, password)
             case Resolved(Some(Message(t))) => s.Some? ==> s == api.login(email, password).data
             case Resolved(Some(Object(d))) => s.Some? ==> s == Some(d)
             case _ => s.None?)
  {
    match api.register(name, email, password)
    case Resolved(Some(Message(t))) =>
      if t != "" && LoginFailure(api.login(email, password)).None? then api.login(email, password).data else None
    case Resolved(Some(Object(d))) => if Refusal(Some(d)).None? then Some(d) else None
    case _ => None
  }

  /** The user the start-up check keeps from `/me`: `role || 'user'`. */
  function FromMe(d: MeData): (u: ClientUser)
    ensures u.email == d.email
    ensures u.role.Some?
    ensures Present(d.role) ==> u.role == d.role
    ensures !Present(d.role) ==> u.role == Some("user")
  {
    ClientUser(d.email, if Present(d.role) then d.role else Some("user"))
  }

  /** A plain view of the context, as `useAuth()` hands it to components. */
  datatype AuthState = AuthState(user: Option<ClientUser>, loading: bool)
  {
    /** `isAuthenticated: !!user`. */
    predicate IsAuthenticated()
    {
      user.Some?
    }
  }

  class AuthProvider {
    var user: Option<ClientUser>
    var loading: bool
    /** `localStorage`. */
    var storage: map<string, string>

    /** The first render: no user, loading. */
    constructor (storage0: map<string, string>)
      ensures user == None && loading && storage == storage0
    {
      user, loading, storage := None, true, storage0;
    }

    function State(): (s: AuthState)
      reads this
      ensures s.IsAuthenticated() <==> user.Some?
      ensures s.loading == loading
    {
      AuthState(user, loading)
    }

    /** `localStorage.getItem('token')`, with "" as no token. */
    function StoredToken(): (t: Option<string>)
      reads this
      ensures Present(t) <==> TokenKey in storage && storage[TokenKey] != ""
    {
      if TokenKey in storage then Some(storage[TokenKey]) else None
    }

    /** The effect run on mount: check the stored token with `/me`. Loading
        is over after every outcome. */
    method InitAuth(api: Api)
      modifies this
      ensures !loading
      ensures !Present(old(StoredToken())) ==> user == old(user) && storage == old(storage)
      ensures Present(old(StoredToken())) ==>
                match api.currentUser(old(StoredToken()).value)
                case Rejected(_, _) => user == None && storage == old(storage) - {TokenKey}
                case Resolved(None) => user == old(user) && storage == old(storage)
                case Resolved(Some(d)) => user == Some(FromMe(d)) && storage == old(storage)
    {
      var token := StoredToken();
      if !Present(token) {
        loading := false;
        return;
      }
      var response := api.currentUser(token.value);
      match response {
        case Rejected(_, _) =>
          storage := storage - {TokenKey};
          user := None;
        case Resolved(data) =>
          if data.Some? {
            user := Some(FromMe(data.value));
          }
      }
      loading := false;
    }

    /** `login({ email, password })`: on success the token is stored and the
        user set; every failure is rethrown with the state untouched. */
    method Login(api: Api, email: string, password: string) returns (failure: Option<Failure>)
      modifies this`user, this`storage
      ensures api.login(email, password).Rejected? ==>
                failure == Some(RequestFailed(api.login(email, password).status, api.login(email, password).msg))
      ensures api.login(email, password).Resolved? ==> failure == Refusal(api.login(email, password).data)
      ensures failure == LoginFailure(api.login(email, password))
      ensures failure.Some? ==> user == old(user) && storage == old(storage)
      ensures failure.None? ==>
                var d := api.login(email, password).data.value;
                && storage == old(storage)[TokenKey := d.token.value]
                && user == d.user
                && State().IsAuthenticated()
    {
      var response := api.login(email, password);
      if response.Rejected? {
        return Some(RequestFailed(response.status, response.msg));
      }
      failure := Refusal(response.data);
      if failure.Some? {
        return;
      }
      var d := response.data.value;
      storage := storage[TokenKey := d.token.value];
      user := d.user;
    }

    /** `register({ name, email, password })`. A bare-message reply means the
        account exists but no token came back, so the context logs in with
        the same email and password; an object reply is checked as a login
        reply is. */
    method Register(api: Api, name: string, email: string, password: string) returns (failure: Option<Failure>)
      modifies this`user, this`storage
      ensures failure == RegisterFailure(api, name, email, password)
      ensures failure.Some? ==> user == old(user) && storage == old(storage)
      ensures failure.None? ==>
                var s := RegisteredSession(api, name, email, password).value;
                && storage == old(storage)[TokenKey := s.token.value]
                && user == s.user
                && State().IsAuthenticated()
      ensures api.register(name, email, password).Rejected? ==>
                failure == Some(RequestFailed(api.register(name, email, password).status, api.register(name, email, password).msg))
      ensures api.register(name, email, password) == Resolved(None) ==> failure == Some(NoResponseData)
      ensures api.register(name, email, password) == Resolved(Some(Message(""))) ==> failure == Some(NoResponseData)
      ensures (|| api.register(name, email, password) == Resolved(Some(Message("")))
               || api.register(name, email, password).Rejected?
               || api.register(name, email, password) == Resolved(None)) ==>
                user == old(user) && storage == old(storage)
      ensures (&& api.register(name, email, password).Resolved?
               && api.register(name, email, password).data.Some?
               && api.register(name, email, password).data.value.Message?
               && api.register(name, email, password).data.value.text != "") ==>
                // exactly what `login` with the same email and password does
                && (api.login(email, password).Rejected? ==>
                      failure == Some(RequestFailed(api.login(email, password).status, api.login(email, password).msg)))
                && (api.login(email, password).Resolved? ==> failure == Refusal(api.login(email, password).data))
                && (failure.None? ==>
                      && storage == old(storage)[TokenKey := api.login(email, password).data.value.token.value]
                      && user == api.login(email, password).data.value.user)
      ensures (&& api.register(name, email, password).Resolved?
               && api.register(name, email, password).data.Some?
               && api.register(name, email, password).data.value.Object?) ==>
                var d := api.register(name, email, password).data.value.fields;
                && failure == Refusal(Some(d))
                && (failure.None? ==> storage == old(storage)[TokenKey := d.token.value] && user == d.user)
    {
      var response := api.register(name, email, password);
      if response.Rejected? {
        return Some(RequestFailed(response.status, response.msg));
      }
      if response.data.None? || response.data.value == Message("") {
        return Some(NoResponseData);
      }
      match response.data.value {
        case Message(_) =>
          failure := Login(api, email, password);
        case Object(d) =>
          failure := Refusal(Some(d));
          if failure.None? {
            storage := storage[TokenKey := d.token.value];
            user := d.user;
          }
      }
    }

    /** `logout()`: the token is dropped and the user cleared. */
    method Logout()
      modifies this`user, this`storage
      ensures storage == old(storage) - {TokenKey}
      ensures user == None
      ensures !State().IsAuthenticated()
    {
      storage := storage - {TokenKey};
      user := None;
    }
  }

  /** The provider's mount: the first render, then the start-up check. With
      no stored token nobody is signed in; a token the server refuses is
      dropped, and nobody is signed in either. */
  method Mount(storage0: map<string, string>, api: Api) returns (p: AuthProvider)
    ensures fresh(p)
    ensures !p.loading
    ensures !(TokenKey in storage0 && storage0[TokenKey] != "") ==> p.user == None && p.storage == storage0
    ensures (&& TokenKey in storage0 && storage0[TokenKey] != ""
             && api.currentUser(storage0[TokenKey]).Rejected?) ==>
              p.user == None && p.storage == storage0 - {TokenKey}
    ensures (&& TokenKey in storage0 && storage0[TokenKey] != ""
             && api.currentUser(storage0[TokenKey]).Resolved?) ==>
              && p.storage == storage0
              && match api.currentUser(storage0[TokenKey]).data
                 case None => p.user == None
                 case Some(d) => p.user == Some(FromMe(d))
  {
    p := new AuthProvider(storage0);
    p.InitAuth(api);
  }
}
