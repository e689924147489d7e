/**
 * POST /api/users: register a user.  The users collection is a sequence of
 * users; the `_id` mongoose assigns to the new document is an input.
 */
module UsersRoute {
  import opened Wrappers
  import opened Json
  import opened Joi
  import opened UserModel
  import opened Http

  /** The body fields a new user is built from. */
  const RegistrationFields: set<string> := {"name", "email", "password"}

  /** The user fields the response shows. */
  const PublicFields: set<string> := {"_id", "name", "email"}

  const AlreadyRegistered: Response := Response(400, Text("User already registered"))

  predicate EmailTaken(users: seq<User>, email: string)
  {
    exists i :: 0 <= i < |users| && users[i].email == email
  }

  predicate EmailsDistinct(users: seq<User>)
  {
    forall i, j :: 0 <= i < |users| && 0 <= j < |users| && users[i].email == users[j].email ==> i == j
  }

  /** Every stored user passed the schema when it was saved, and no email is stored twice. */
  predicate UsersValid(users: seq<User>)
  {
    (forall i :: 0 <= i < |users| ==> SchemaValid(users[i])) && EmailsDistinct(users)
  }

  /** `user.save()` succeeds: the validators pass and the unique index on `email` admits it. */
  predicate Saveable(users: seq<User>, u: User)
  {
    SchemaValid(u) && !EmailTaken(users, u.email)
  }

  datatype Registered = Registered(res: Response, users: seq<User>)

  /** The handler: body check, duplicate-email refusal, a user built from the whitelisted fields,
      its save (a failure of which is answered with 500), and the public fields as the answer. */
  function Register(users: seq<User>, body: Object, newId: Id): Registered
  {
    match ValidateUser(body)
    case Some(v) => Registered(BadRequest(v), users)
    case None =>
      ValidateUserAccepts(body);
      if EmailTaken(users, body["email"].s) then Registered(AlreadyRegistered, users)
      else
        var user := NewUser(newId, Pick(body, RegistrationFields));
        if !Saveable(users, user) then Registered(InternalError, users)
        else Registered(Response(200, Fields(Pick(Document(user), PublicFields))), users + [user])
  }

  /** A body `validateUser` refuses gets 400 and the collection is unchanged. */
  lemma RegisterRejectsInvalid(users: seq<User>, body: Object, newId: Id)
    requires ValidateUser(body).Some?
    ensures Register(users, body, newId) == Registered(BadRequest(ValidateUser(body).value), users)
  {
  }

  /** An email already stored gets 400 "User already registered" and the collection is unchanged. */
  lemma RegisterRejectsDuplicate(users: seq<User>, body: Object, newId: Id)
    requires ValidateUser(body).None?
    requires HasString(body, "email") && EmailTaken(users, body["email"].s)
    ensures Register(users, body, newId) == Registered(AlreadyRegistered, users)
  {
  }

  /** A valid body with a new email adds exactly one user, holding the submitted name, email and
      password unchanged and nothing else (no `isAdmin`), and the answer is 200 with that user's
      public fields. */
  lemma RegisterAddsUser(users: seq<User>, body: Object, newId: Id)
    requires ValidateUser(body).None?
    requires HasString(body, "email") && !EmailTaken(users, body["email"].s)
    ensures HasString(body, "name") && HasString(body, "password")
    ensures var u := User(newId, body["name"].s, body["email"].s, body["password"].s, None);
      Register(users, body, newId) == Registered(Response(200, Fields(Pick(Document(u), PublicFields))), users + [u])
  {
    ValidateUserAccepts(body);
    WhitelistDropsExtraFields(body, newId);
    TrimIdentity(body["email"].s);
  }

  /** The answer to a registration shows exactly `_id`, `name` and `email`, never the password. */
  lemma ResponseHidesPassword(u: User)
    ensures var shown := Pick(Document(u), PublicFields);
      && shown.Keys == PublicFields && "password" !in shown
      && shown["_id"] == JString(u.id) && shown["name"] == JString(u.name) && shown["email"] == JString(u.email)
  {
  }

  /** Whatever else a body carries (an `isAdmin` flag, say), the user is built from its name, email
      and password alone. */
  lemma WhitelistDropsExtraFields(body: Object, newId: Id)
    requires HasString(body, "name") && HasString(body, "email") && HasString(body, "password")
    ensures NewUser(newId, Pick(body, RegistrationFields)) ==
      User(newId, body["name"].s, Trim(body["email"].s), body["password"].s, None)
  {
    var fields := Pick(body, RegistrationFields);
    assert "name" in fields && "email" in fields && "password" in fields && "isAdmin" !in fields;
  }

  /** A registration keeps every stored user schema-valid and all stored emails distinct. */
  lemma RegisterKeepsUsersValid(users: seq<User>, body: Object, newId: Id)
    requires UsersValid(users)
    ensures UsersValid(Register(users, body, newId).users)
  {
    var after := Register(users, body, newId).users;
    if after != users {
      var u := after[|users|];
      assert Saveable(users, u);
    }
  }

  /** A run of registrations, one (body, new `_id`) pair after another. */
  function RegisterAll(users: seq<User>, requests: seq<(Object, Id)>): seq<User>
    decreases |requests|
  {
    if |requests| == 0 then users
    else RegisterAll(Register(users, requests[0].0, requests[0].1).users, requests[1..])
  }

  /** Across any run of registrations the stored emails stay pairwise distinct. */
  lemma {:induction false} RegistrationsKeepEmailsDistinct(users: seq<User>, requests: seq<(Object, Id)>)
    requires UsersValid(users)
    ensures EmailsDistinct(RegisterAll(users, requests))
    ensures UsersValid(RegisterAll(users, requests))
    decreases |requests|
  {
    if |requests| > 0 {
      RegisterKeepsUsersValid(users, requests[0].0, requests[0].1);
      RegistrationsKeepEmailsDistinct(Register(users, requests[0].0, requests[0].1).users, requests[1..]);
    }
  }

  /** The users collection the registration route works on. */
  class UsersRouter {
    var users: seq<User>

    ghost predicate Valid()
      reads this
    {
      UsersValid(users)
    }

    constructor (users: seq<User>)
      requires UsersValid(users)
      ensures Valid() && this.users == users
    {
      this.users := users;
    }

    /** `User.findOne({ email })`. */
    method FindOneByEmail(email: string) returns (found: Option<nat>)
      ensures found.None? <==> !EmailTaken(users, email)
      ensures found.Some? ==> found.value < |users| && users[found.value].email == email
    {
      if exists i :: 0 <= i < |users| && users[i].email == email {
        var i :| 0 <= i < |users| && users[i].email == email;
        found := Some(i);
      } else {
        found := None;
      }
    }

    /** `user.save()`: the validators and the unique index on `email`, then the insert. */
    method Save(u: User) returns (saved: bool)
      modifies this`users
      ensures saved == Saveable(old(users), u)
      ensures users == if saved then old(users) + [u] else old(users)
    {
      saved := SchemaValid(u) && !EmailTaken(users, u.email);
      if saved {
        users := users + [u];
      }
    }

    /** The route handler. */
    method Post(body: Object, newId: Id) returns (res: Response)
      requires Valid()
      modifies this
      ensures Valid()
      ensures Registered(res, users) == Register(old(users), body, newId)
    {
      var error := ValidateUser(body);
      if error.Some? {
        res := BadRequest(error.value);
        return;
      }
      ValidateUserAccepts(body);
      var existing := FindOneByEmail(body["email"].s);
      if existing.Some? {
        res := AlreadyRegistered;
        return;
      }
      var user := NewUser(newId, Pick(body, RegistrationFields));
      var saved := Save(user);
      if !saved {
        res := InternalError;
        return;
      }
      res := Response(200, Fields(Pick(Document(user), PublicFields)));
      RegisterKeepsUsersValid(old(users), body, newId);
    }
  }
}
