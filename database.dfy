/** The backend's persistent state, three keyed stores standing in for the
    document database, and the services the routes call that are left
    abstract: token signing, password hashing and the request validators. */
module Database {
  import opened Js
  import opened Http
  import opened Tokens
  import opened UserSchema
  import opened EventSchema

  /** A booking: who booked which event (the booking schema's two references). */
  datatype Booking = Booking(id: Id, userId: Id, eventId: Id)

  /** bcrypt: `hash(password, salt)` with the salt it draws at random, and `compare`. */
  datatype Hasher = Hasher(hash: (string, string) -> string, compare: (string, string) -> bool)
  {
    /** A password matches every digest made from it. */
    ghost predicate Sound()
    {
      forall p, salt :: compare(p, hash(p, salt))
    }
  }

  /** express-validator's `isEmail()` check and `normalizeEmail()` sanitizer. */
  datatype EmailRules = EmailRules(isEmail: string -> bool, normalize: string -> string)

  datatype Services = Services(signer: Signer, hasher: Hasher, emails: EmailRules, coerce: Coercions)

  /** What the user store keeps under every route as written: the unique
      email index, and the schema's guarantees for every user. */
  predicate UsersValid(users: map<Id, User>)
  {
    EmailsUnique(users) && AllWellFormed(users)
  }

  /** Every stored role is one of the enum's. The routes that create users keep
      this, and so does a role update that runs the validators; the role
      update as written does not. */
  predicate RolesInEnum(users: map<Id, User>)
  {
    forall id :: id in users ==> ValidRole(users[id].role)
  }

  /** Adding a user the schema accepted, under an email not yet taken. */
  lemma AddKeepsUsersValid(users: map<Id, User>, id: Id, u: User)
    requires UsersValid(users) && id !in users && !EmailTaken(users, u.email)
    requires WellFormed(u)
    ensures UsersValid(users[id := u])
    ensures RolesInEnum(users) && ValidRole(u.role) ==> RolesInEnum(users[id := u])
  {
    AddKeepsEmailsUnique(users, id, u);
  }

  /** Giving one user another role from the enum keeps every role in it. */
  lemma {:induction false} RoleChangeKeepsUsersValid(users: map<Id, User>, id: Id, role: string)
    requires UsersValid(users) && RolesInEnum(users) && id in users && ValidRole(role)
    ensures UsersValid(users[id := users[id].(role := role)])
    ensures RolesInEnum(users[id := users[id].(role := role)])
  {
    RoleChangeKeepsRecords(users, id, role);
  }

  /** Giving one user any role whatever keeps the unique email index and
      every record's schema guarantees; only the role enum is at stake. */
  lemma {:induction false} RoleChangeKeepsRecords(users: map<Id, User>, id: Id, role: string)
    requires id in users
    ensures EmailsUnique(users) ==> EmailsUnique(users[id := users[id].(role := role)])
    ensures AllWellFormed(users) ==> AllWellFormed(users[id := users[id].(role := role)])
  {
    var m := users[id := users[id].(role := role)];
    if EmailsUnique(users) {
      forall a, b | a in m && b in m && a != b ensures m[a].email != m[b].email {
        assert m[a].email == users[a].email && m[b].email == users[b].email;
      }
    }
  }

  /** What the event store keeps: every record has been through the setters. */
  predicate EventsValid(events: map<Id, Event>)
  {
    forall id :: id in events ==> SettersHold(events[id])
  }

  lemma PutKeepsEventsValid(events: map<Id, Event>, id: Id, e: Event)
    requires EventsValid(events) && SettersHold(e)
    ensures EventsValid(events[id := e])
  {
  }

  class Db {
    var users: map<Id, User>
    var events: map<Id, Event>
    var bookings: seq<Booking>

    /** What every handler keeps: the invariants of the user store, and the
        setters' effect on every event. */
    ghost predicate Valid()
      reads this
    {
      UsersValid(users) && EventsValid(events)
    }

    /** The role enum, which only the routes that validate roles keep. */
    predicate RolesValid()
      reads this
    {
      RolesInEnum(users)
    }

    constructor ()
      ensures Valid() && RolesValid()
      ensures users == map[] && events == map[] && bookings == []
    {
      users, events, bookings := map[], map[], [];
    }
  }
}
