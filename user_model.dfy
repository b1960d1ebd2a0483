/** The user schema: the name setter, the normalised unique email, the
    minimum length of the stored (hashed) password, and the role enum with its
    default. A schema validation failure makes the store call throw. */
module UserSchema {
  import opened Js
  import opened Http

  /** A stored user. `password` holds the bcrypt digest, never the plaintext. */
  datatype User = User(name: string, email: string, password: string, role: string)

  /** A user as the routes show it (`.select('-password')`). */
  datatype PublicUser = PublicUser(id: Id, name: string, email: string, role: string)

  /** The `user` object of a register or login reply: email, name and role only. */
  datatype UserView = UserView(email: string, name: string, role: string)

  const DefaultRole: string := "user"

  /** The role enum `['user', 'admin']`. */
  predicate ValidRole(role: string)
  {
    role == "user" || role == "admin"
  }

  /** The role path on creation: the default when no role is given, the enum
      check otherwise (`None` is a validation error). */
  function SchemaRole(given: Option<string>): (r: Option<string>)
    ensures r.Some? ==> ValidRole(r.value)
    ensures given.None? ==> r == Some(DefaultRole)
    ensures given.Some? ==> (r.Some? <==> ValidRole(given.value))
    ensures given.Some? && r.Some? ==> r.value == given.value
  {
    match given
    case None => Some(DefaultRole)
    case Some(role) => if ValidRole(role) then Some(role) else None
  }

  /** An email as the schema stores it: no upper-case letter and no
      surrounding whitespace. */
  predicate Normalised(e: string)
  {
    NoUpper(e) && NoLeadingSpace(e) && NoTrailingSpace(e)
  }

  /** The email path: `lowercase: true` and `trim: true`. The same setters run
      on the email of a `findOne` query. */
  function SchemaEmail(v: string): (r: string)
    ensures Normalised(r)
  {
    TrimKeepsLower(ToLower(v));
    Trim(ToLower(v))
  }

  /** Trimming a text without upper-case letters gives a normalised one. */
  lemma TrimKeepsLower(s: string)
    requires NoUpper(s)
    ensures Normalised(Trim(s))
  {
    TrimStartKeepsNoUpper(s);
    TrimEndKeepsNoUpper(TrimStart(s));
    TrimEndKeepsNoLeadingSpace(TrimStart(s));
  }

  lemma {:induction false} TrimStartKeepsNoUpper(s: string)
    requires NoUpper(s)
    ensures NoUpper(TrimStart(s))
  {
    var t := TrimStart(s);
    forall k | 0 <= k < |t| ensures !IsUpper(t[k]) {
      assert t[k] == s[|s| - |t| + k];
    }
  }

  lemma {:induction false} TrimEndKeepsNoUpper(t: string)
    requires NoUpper(t)
    ensures NoUpper(TrimEnd(t))
  {
    var r := TrimEnd(t);
    forall k | 0 <= k < |r| ensures !IsUpper(r[k]) {
      assert r[k] == t[k];
    }
  }

  lemma {:induction false} TrimEndKeepsNoLeadingSpace(t: string)
    requires NoLeadingSpace(t)
    ensures NoLeadingSpace(TrimEnd(t))
  {
    var r := TrimEnd(t);
    if r != [] {
      assert r[0] == t[0];
    }
  }

  /** The email setters leave exactly the normalised emails alone. */
  lemma NormalisedIsFixed(e: string)
    ensures SchemaEmail(e) == e <==> Normalised(e)
  {
    if Normalised(e) {
      ToLowerOfLower(e);
      TrimOfTrimmed(e);
    }
  }

  /** A value the email setters produced is left alone by them. */
  lemma SchemaEmailIdempotent(v: string)
    ensures SchemaEmail(SchemaEmail(v)) == SchemaEmail(v)
  {
    NormalisedIsFixed(SchemaEmail(v));
  }

  /** Lower-casing before or after trimming gives the same email, so the order
      in which the two setters run does not matter. */
  lemma SetterOrderIrrelevant(v: string)
    ensures SchemaEmail(v) == ToLower(Trim(v))
  {
    TrimStartOfLower(v);
    TrimEndOfLower(TrimStart(v));
  }

  lemma {:induction false} TrimStartOfLower(v: string)
    ensures TrimStart(ToLower(v)) == ToLower(TrimStart(v))
    decreases |v|
  {
    if |v| > 0 {
      assert ToLower(v)[1..] == ToLower(v[1..]);
      if IsSpace(v[0]) {
        TrimStartOfLower(v[1..]);
      }
    }
  }

  lemma {:induction false} TrimEndOfLower(v: string)
    ensures TrimEnd(ToLower(v)) == ToLower(TrimEnd(v))
    decreases |v|
  {
    if |v| > 0 {
      ToLowerSlice(v, 0, |v| - 1);
      assert ToLower(v)[..|v| - 1] == ToLower(v[..|v| - 1]);
      if IsSpace(v[|v| - 1]) {
        TrimEndOfLower(v[..|v| - 1]);
      }
    }
  }

  /** What the schema guarantees of every user it accepts. */
  predicate WellFormed(u: User)
  {
    && u.name != "" && NoLeadingSpace(u.name)
    && u.email != "" && Normalised(u.email)
    && |u.password| >= 8
  }

  /** `User.create({ name, email, password, role })`: the setters run, then the
      validators (`required`, `minlength: 8`, the role enum); `None` when a
      validator fails. */
  function NewUser(name: string, email: string, password: string, role: string): (r: Option<User>)
    ensures r.Some? <==> TrimStart(name) != "" && SchemaEmail(email) != "" && |password| >= 8 && ValidRole(role)
    ensures r.Some? ==> WellFormed(r.value) && ValidRole(r.value.role)
    ensures r.Some? ==> r.value == User(TrimStart(name), SchemaEmail(email), password, role)
  {
    TrimStartIdempotent(name);
    var u := User(TrimStart(name), SchemaEmail(email), password, role);
    if u.name != "" && u.email != "" && |password| >= 8 && SchemaRole(Some(role)).Some? then Some(u) else None
  }

  /** Every record meets the schema's guarantees. */
  predicate AllWellFormed(users: map<Id, User>)
  {
    forall id :: id in users ==> WellFormed(users[id])
  }

  /** The unique index on email. */
  predicate EmailsUnique(users: map<Id, User>)
  {
    forall a, b :: a in users && b in users && a != b ==> users[a].email != users[b].email
  }

  predicate EmailTaken(users: map<Id, User>, email: string)
  {
    exists id | id in users :: users[id].email == email
  }

  /** Adding a user whose email is not yet taken keeps emails unique. */
  lemma {:induction false} AddKeepsEmailsUnique(users: map<Id, User>, id: Id, u: User)
    requires EmailsUnique(users) && id !in users && !EmailTaken(users, u.email)
    ensures EmailsUnique(users[id := u])
  {
    var m := users[id := u];
    forall a, b | a in m && b in m && a != b ensures m[a].email != m[b].email {
      if a == id {
        assert users[b].email != u.email;
      } else if b == id {
        assert users[a].email != u.email;
      }
    }
  }

  function Public(id: Id, u: User): (p: PublicUser)
    ensures p.id == id && p.name == u.name && p.email == u.email && p.role == u.role
  {
    PublicUser(id, u.name, u.email, u.role)
  }

  function View(u: User): (v: UserView)
    ensures v.email == u.email && v.name == u.name && v.role == u.role
  {
    UserView(u.email, u.name, u.role)
  }
}
