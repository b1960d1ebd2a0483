/** The `/api/auth` router: registration and login (each behind its request
    validators), the current user, the user list and the role update. */
module AuthRoutes {
  import opened Js
  import opened Http
  import opened Tokens
  import opened UserSchema
  import opened Database

  /** The reply of a successful register or login: the token and the user's
      email, name and role, never the password. */
  datatype AuthReply = AuthReply(token: Token, user: UserView)

  /** How express-validator reads a body field as text: a missing field or
      null is the empty string, numbers and booleans are printed. */
  function FieldText(body: Body, key: string): (t: string)
    ensures key in body && body[key].Str? ==> t == body[key].s
    ensures key !in body ==> t == ""
  {
    if key in body then
      match CastText(body[key])
      case Some(s) => s
      case None => ""
    else ""
  }

  /** `registerValidation`: an email, and a password of at least 8 characters. */
  predicate RegisterInputOk(rules: EmailRules, body: Body)
  {
    rules.isEmail(FieldText(body, "email")) && |FieldText(body, "password")| >= 8
  }

  /** `loginValidation`: an email, and a password that is not empty. */
  predicate LoginInputOk(rules: EmailRules, body: Body)
  {
    rules.isEmail(FieldText(body, "email")) && FieldText(body, "password") != ""
  }

  /** `req.body.email` after the `normalizeEmail()` sanitizer. */
  function NormalizedEmail(rules: EmailRules, body: Body): string
  {
    rules.normalize(FieldText(body, "email"))
  }

  /** The email `User.findOne({ email })` looks for: the query value goes
      through the schema's email setters too. */
  function LookupKey(rules: EmailRules, body: Body): (k: string)
    ensures Normalised(k)
    ensures SchemaEmail(k) == k
  {
    var k := SchemaEmail(NormalizedEmail(rules, body));
    NormalisedIsFixed(k);
    k
  }

  /** Every body the registration validators accept, the login validators
      accept too; the converse fails for a password of under 8 characters. */
  lemma RegisterInputPassesLogin(rules: EmailRules, body: Body, email: JsValue)
    ensures RegisterInputOk(rules, body) ==> LoginInputOk(rules, body)
    ensures var short := map["email" := email, "password" := Str("short")];
            rules.isEmail(FieldText(short, "email")) ==> LoginInputOk(rules, short) && !RegisterInputOk(rules, short)
  {
    assert |"short"| == 5;
  }

  /** The user `User.create({ name, email, password: hashed, role: 'user' })`
      stores; `None` when it throws: the password is not a string (bcrypt
      refuses it), the name is not a string (its setter throws), or a
      validator fails. */
  function Registrant(svc: Services, body: Body, salt: string): (r: Option<User>)
    ensures r.Some? ==> WellFormed(r.value) && r.value.role == DefaultRole
    ensures r.Some? ==> r.value.email == LookupKey(svc.emails, body)
    ensures r.Some? ==> "password" in body && body["password"].Str? && r.value.password == svc.hasher.hash(body["password"].s, salt)
  {
    if "password" in body && body["password"].Str? && "name" in body && body["name"].Str? then
      var u := NewUser(body["name"].s, NormalizedEmail(svc.emails, body), svc.hasher.hash(body["password"].s, salt), DefaultRole);
      assert u.Some? ==> u.value.email == SchemaEmail(NormalizedEmail(svc.emails, body));
      u
    else None
  }

  /** The checks of POST /register in the route's order, and the user
      `User.create` stores for a body that passes them. */
  function RegisterCheck(users: map<Id, User>, svc: Services, body: Body, salt: string): (r: Response<User>)
    ensures !RegisterInputOk(svc.emails, body) ==> r == Fail(InvalidInput)
    ensures RegisterInputOk(svc.emails, body) && EmailTaken(users, LookupKey(svc.emails, body)) ==>
              r == Fail(EmailExists)
    ensures (&& RegisterInputOk(svc.emails, body) && !EmailTaken(users, LookupKey(svc.emails, body))
             && Registrant(svc, body, salt).None?) ==> r == Fail(ServerError)
    ensures r.Ok? <==>
              && RegisterInputOk(svc.emails, body) && !EmailTaken(users, LookupKey(svc.emails, body))
              && Registrant(svc, body, salt).Some?
    ensures r.Ok? ==>
              && Some(r.value) == Registrant(svc, body, salt)
              && WellFormed(r.value) && r.value.role == DefaultRole && !EmailTaken(users, r.value.email)
  {
    if !RegisterInputOk(svc.emails, body) then Fail(InvalidInput)
    else if EmailTaken(users, LookupKey(svc.emails, body)) then Fail(EmailExists)
    else
      match Registrant(svc, body, salt)
      case None => Fail(ServerError)
      case Some(u) => Ok(u)
  }

  /** POST /register */
  method Register(db: Db, svc: Services, body: Body, salt: string, newId: Id, now: int)
    returns (r: Response<AuthReply>)
    requires db.Valid() && newId !in db.users
    modifies db`users
    ensures db.Valid()
    ensures old(db.RolesValid()) ==> db.RolesValid()
    ensures r.Fail? ==> db.users == old(db.users)
    ensures !RegisterInputOk(svc.emails, body) ==> r == Fail(InvalidInput)
    ensures RegisterInputOk(svc.emails, body) && EmailTaken(old(db.users), LookupKey(svc.emails, body)) ==>
              r == Fail(EmailExists)
    ensures (&& RegisterInputOk(svc.emails, body) && !EmailTaken(old(db.users), LookupKey(svc.emails, body))
             && Registrant(svc, body, salt).None?) ==> r == Fail(ServerError)
    ensures r.Ok? <==>
              && RegisterInputOk(svc.emails, body) && !EmailTaken(old(db.users), LookupKey(svc.emails, body))
              && Registrant(svc, body, salt).Some?
    ensures r.Ok? ==>
              && db.users == old(db.users)[newId := Registrant(svc, body, salt).value]
              && r.value == AuthReply(svc.signer.sign(IssueClaims(newId, DefaultRole, now)), View(db.users[newId]))
  {
    var checked := RegisterCheck(db.users, svc, body, salt);
    if checked.Fail? {
      return Fail(checked.error);
    }
    var u := checked.value;
    assert ValidRole(u.role);
    AddKeepsUsersValid(db.users, newId, u);
    db.users := db.users[newId := u];
    r := Ok(AuthReply(svc.signer.sign(IssueClaims(newId, DefaultRole, now)), View(u)));
  }

  /** POST /login. The unique email index leaves at most one candidate user;
      nothing else about the store is needed. */
  method Login(db: Db, svc: Services, body: Body, now: int) returns (r: Response<AuthReply>)
    requires EmailsUnique(db.users)
    ensures !LoginInputOk(svc.emails, body) ==> r == Fail(InvalidInput)
    ensures LoginInputOk(svc.emails, body) && !EmailTaken(db.users, LookupKey(svc.emails, body)) ==>
              r == Fail(UnknownEmail)
    ensures (&& LoginInputOk(svc.emails, body) && EmailTaken(db.users, LookupKey(svc.emails, body))
             && !body["password"].Str?) ==> r == Fail(ServerError)
    ensures forall id :: (&& id in db.users && db.users[id].email == LookupKey(svc.emails, body)
                          && LoginInputOk(svc.emails, body) && body["password"].Str?) ==>
                && (r.Ok? <==> svc.hasher.compare(body["password"].s, db.users[id].password))
                && (r.Fail? ==> r.error == IncorrectPassword)
                && (r.Ok? ==> r.value == AuthReply(svc.signer.sign(IssueClaims(id, db.users[id].role, now)),
                                                    View(db.users[id])))
  {
    if !LoginInputOk(svc.emails, body) {
      return Fail(InvalidInput);
    }
    var email := LookupKey(svc.emails, body);
    if !EmailTaken(db.users, email) {
      return Fail(UnknownEmail);
    }
    var id :| id in db.users && db.users[id].email == email;
    var user := db.users[id];
    if !body["password"].Str? {
      // bcrypt.compare throws on a password that is not a string
      return Fail(ServerError);
    }
    if !svc.hasher.compare(body["password"].s, user.password) {
      return Fail(IncorrectPassword);
    }
    r := Ok(AuthReply(svc.signer.sign(IssueClaims(id, user.role, now)), View(user)));
  }

  /** GET /me, behind `protect`. */
  method Me(db: Db, svc: Services, bearer: Option<Token>, now: int) returns (r: Response<PublicUser>)
    ensures Protect(svc.signer, bearer, now).Fail? ==> r == Fail(Unauthenticated)
    ensures r.Ok? <==> Protect(svc.signer, bearer, now).Ok? && Protect(svc.signer, bearer, now).value.id in db.users
    ensures Protect(svc.signer, bearer, now).Ok? && Protect(svc.signer, bearer, now).value.id !in db.users ==>
              r == Fail(UserNotFound)
    ensures r.Ok? ==>
              var id := Protect(svc.signer, bearer, now).value.id;
              r.value == Public(id, db.users[id])
  {
    var auth := Protect(svc.signer, bearer, now);
    if auth.Fail? {
      return Fail(auth.error);
    }
    if auth.value.id !in db.users {
      return Fail(UserNotFound);
    }
    r := Ok(Public(auth.value.id, db.users[auth.value.id]));
  }

  /** Every user, without the password. */
  function Directory(users: map<Id, User>): (r: map<Id, PublicUser>)
    ensures r.Keys == users.Keys
    ensures forall id :: id in r ==> r[id] == Public(id, users[id])
  {
    map id | id in users :: Public(id, users[id])
  }

  /** GET /allusers, behind `protect` and the inline role check. */
  method AllUsers(db: Db, svc: Services, bearer: Option<Token>, now: int) returns (r: Response<map<Id, PublicUser>>)
    ensures Protect(svc.signer, bearer, now).Fail? ==> r == Fail(Unauthenticated)
    ensures Protect(svc.signer, bearer, now).Ok? && Protect(svc.signer, bearer, now).value.role != "admin" ==>
              r == Fail(NotAdmin)
    ensures r.Ok? <==> Protect(svc.signer, bearer, now).Ok? && Protect(svc.signer, bearer, now).value.role == "admin"
    ensures r.Ok? ==> r.value == Directory(db.users)
  {
    var auth := Protect(svc.signer, bearer, now);
    if auth.Fail? {
      return Fail(auth.error);
    }
    if auth.value.role != "admin" {
      return Fail(NotAdmin);
    }
    r := Ok(Directory(db.users));
  }

  /** `findByIdAndUpdate(id, { role })` as written: the update runs no
      validator, so whatever text the body's role casts to is stored. An
      absent role leaves the user as it was; a null role fails the cast. */
  function RoleUpdateAsWritten(u: User, role: Option<JsValue>): (r: Option<User>)
    ensures role.None? ==> r == Some(u)
    ensures role.Some? ==> (r.Some? <==> CastText(role.value).Some?)
    ensures role.Some? && r.Some? ==> r.value == u.(role := CastText(role.value).value)
  {
    match role
    case None => Some(u)
    case Some(v) =>
      match CastText(v)
      case None => None
      case Some(t) => Some(u.(role := t))
  }

  /** The same update with the schema's validators run (`runValidators: true`):
      a role outside the enum is refused. */
  function RoleUpdate(u: User, role: Option<JsValue>): (r: Response<User>)
    ensures ValidRole(u.role) && r.Ok? ==> ValidRole(r.value.role)
    ensures r.Ok? ==> r.value.(role := u.role) == u
    ensures role.None? ==> r == Ok(u)
    ensures role.Some? ==> (r.Ok? <==> CastText(role.value).Some? && ValidRole(CastText(role.value).value))
    ensures role.Some? && r.Ok? ==> r.value.role == CastText(role.value).value
  {
    if role.None? then Ok(u)
    else match RoleUpdateAsWritten(u, role)
    case None => Fail(ServerError)
    case Some(updated) => if ValidRole(updated.role) then Ok(updated) else Fail(InvalidRole)
  }

  /** A valid user record leaves the role update as written with a role
      outside the enum. */
  lemma RoleEnumBypassed(u: User)
    requires ValidRole(u.role)
    ensures RoleUpdateAsWritten(u, Some(Str("owner"))) == Some(u.(role := "owner"))
    ensures !ValidRole(RoleUpdateAsWritten(u, Some(Str("owner"))).value.role)
  {
  }

  /** The corrected update only ever stores one of the two roles, and agrees
      with the update as written whenever the stored role is valid. */
  lemma RoleUpdateRefinesAsWritten(u: User, role: Option<JsValue>)
    ensures RoleUpdate(u, role).Ok? ==> RoleUpdateAsWritten(u, role) == Some(RoleUpdate(u, role).value)
    ensures RoleUpdateAsWritten(u, role).Some? && ValidRole(RoleUpdateAsWritten(u, role).value.role) ==>
              RoleUpdate(u, role) == Ok(RoleUpdateAsWritten(u, role).value)
  {
  }

  /** PUT /users/:id/role as written, behind `protect` and the inline role
      check. The reply is the whole updated document, the password digest
      included (no `.select('-password')`), or null when no user has that id. */
  method UpdateRoleAsWritten(db: Db, svc: Services, bearer: Option<Token>, now: int, id: Id, body: Body)
    returns (r: Response<Option<(Id, User)>>)
    modifies db`users
    ensures Protect(svc.signer, bearer, now).Fail? ==> r == Fail(Unauthenticated)
    ensures Protect(svc.signer, bearer, now).Ok? && Protect(svc.signer, bearer, now).value.role != "admin" ==>
              r == Fail(NotAdmin)
    ensures r.Fail? ==> db.users == old(db.users)
    ensures EmailsUnique(old(db.users)) ==> EmailsUnique(db.users)
    ensures AllWellFormed(old(db.users)) ==> AllWellFormed(db.users)
    ensures (&& Protect(svc.signer, bearer, now).Ok? && Protect(svc.signer, bearer, now).value.role == "admin"
             && id !in old(db.users)) ==> r == Ok(None) && db.users == old(db.users)
    ensures (&& Protect(svc.signer, bearer, now).Ok? && Protect(svc.signer, bearer, now).value.role == "admin"
             && id in old(db.users) && RoleUpdateAsWritten(old(db.users)[id], Get(body, "role")).Some?) ==>
              && db.users == old(db.users)[id := RoleUpdateAsWritten(old(db.users)[id], Get(body, "role")).value]
              && r == Ok(Some((id, db.users[id])))
              && r.value.value.1.password == old(db.users)[id].password
    ensures (&& Protect(svc.signer, bearer, now).Ok? && Protect(svc.signer, bearer, now).value.role == "admin"
             && id in old(db.users) && RoleUpdateAsWritten(old(db.users)[id], Get(body, "role")).None?) ==>
              r == Fail(ServerError)
  {
    var auth := Protect(svc.signer, bearer, now);
    if auth.Fail? {
      return Fail(auth.error);
    }
    if auth.value.role != "admin" {
      return Fail(NotAdmin);
    }
    if id !in db.users {
      return Ok(None);
    }
    var updated := RoleUpdateAsWritten(db.users[id], Get(body, "role"));
    if updated.None? {
      return Fail(ServerError);
    }
    RoleChangeKeepsRecords(db.users, id, updated.value.role);
    assert updated.value == db.users[id].(role := updated.value.role);
    db.users := db.users[id := updated.value];
    r := Ok(Some((id, updated.value)));
  }

  /** PUT /users/:id/role with the role enum enforced and the reply without
      the password; it keeps every store invariant, the role enum included,
      and changes only the role of the one user named. */
  method UpdateRole(db: Db, svc: Services, bearer: Option<Token>, now: int, id: Id, body: Body)
    returns (r: Response<Option<PublicUser>>)
    requires db.Valid() && db.RolesValid()
    modifies db`users
    ensures db.Valid() && db.RolesValid()
    ensures Protect(svc.signer, bearer, now).Fail? ==> r == Fail(Unauthenticated)
    ensures Protect(svc.signer, bearer, now).Ok? && Protect(svc.signer, bearer, now).value.role != "admin" ==>
              r == Fail(NotAdmin)
    ensures r.Fail? ==> db.users == old(db.users)
    ensures (&& Protect(svc.signer, bearer, now).Ok? && Protect(svc.signer, bearer, now).value.role == "admin"
             && id !in old(db.users)) ==> r == Ok(None) && db.users == old(db.users)
    ensures (&& Protect(svc.signer, bearer, now).Ok? && Protect(svc.signer, bearer, now).value.role == "admin"
             && id in old(db.users)) ==>
              match RoleUpdate(old(db.users)[id], Get(body, "role"))
              case Fail(e) => r == Fail(e)
              case Ok(u) => db.users == old(db.users)[id := u] && r == Ok(Some(Public(id, u)))
  {
    var auth := Protect(svc.signer, bearer, now);
    if auth.Fail? {
      return Fail(auth.error);
    }
    if auth.value.role != "admin" {
      return Fail(NotAdmin);
    }
    if id !in db.users {
      return Ok(None);
    }
    var updated := RoleUpdate(db.users[id], Get(body, "role"));
    if updated.Fail? {
      return Fail(updated.error);
    }
    assert updated.value == db.users[id].(role := updated.value.role);
    RoleChangeKeepsUsersValid(db.users, id, updated.value.role);
    db.users := db.users[id := updated.value];
    r := Ok(Some(Public(id, updated.value)));
  }

  /** Registering and then logging in with the same body succeeds, for the
      user just created, and `/me` with the token it returns shows that user
      with the role "user". */
  method RegisterLoginMe(db: Db, svc: Services, body: Body, salt: string, newId: Id, now: int)
    returns (registered: Response<AuthReply>, login: Response<AuthReply>, me: Response<PublicUser>)
    requires db.Valid() && newId !in db.users
    requires svc.hasher.Sound() && svc.signer.Sound()
    modifies db`users
    ensures db.Valid()
    ensures registered.Ok? ==> login.Ok? && login.value == registered.value
    ensures registered.Ok? ==> me.Ok? && me.value.id == newId && me.value.role == DefaultRole
    ensures registered.Ok? ==> me.value.email == LookupKey(svc.emails, body)
  {
    registered := Register(db, svc, body, salt, newId, now);
    login := Login(db, svc, body, now);
    var token: Option<Token> := None;
    if registered.Ok? {
      token := Some(registered.value.token);
      var u := Registrant(svc, body, salt).value;
      assert db.users[newId] == u;
      assert svc.hasher.compare(body["password"].s, svc.hasher.hash(body["password"].s, salt));
      assert LoginInputOk(svc.emails, body);
      IssuedTokenAccepted(svc.signer, newId, DefaultRole, now, now);
    }
    me := Me(db, svc, token, now);
  }
}
