/** The user account: its mongoose schema bounds, the `validateUser` body check and the auth token it issues. */
module UserModel {
  import opened Wrappers
  import opened Json
  import opened Joi
  import opened Auth

  // Bounds of the mongoose schema (models/user.js).
  const NAME_MIN_LENGTH: nat := 5
  const NAME_MAX_LENGTH: nat := 50
  const EMAIL_MIN_LENGTH: nat := 5
  const EMAIL_MAX_LENGTH: nat := 255
  const PASSWORD_MIN_LENGTH: nat := 5
  const PASSWORD_MAX_LENGTH: nat := 1024

  /** A stored user; `isAdmin` is an optional boolean path with no default. */
  datatype User = User(id: Id, name: string, email: string, password: string, isAdmin: Option<bool>)

  /** What mongoose's validators demand of a user document before it is saved. */
  predicate SchemaValid(u: User)
  {
    && NAME_MIN_LENGTH <= Utf16Length(u.name) <= NAME_MAX_LENGTH
    && EMAIL_MIN_LENGTH <= Utf16Length(u.email) <= EMAIL_MAX_LENGTH
    && PASSWORD_MIN_LENGTH <= Utf16Length(u.password) <= PASSWORD_MAX_LENGTH
  }

  /** `new User(fields)` with a fresh `_id`: the email path trims its value, and a boolean `isAdmin`
      in `fields` is taken over. */
  function NewUser(id: Id, fields: Object): User
    requires HasString(fields, "name") && HasString(fields, "email") && HasString(fields, "password")
  {
    var isAdmin := if "isAdmin" in fields && fields["isAdmin"].JBool? then Some(fields["isAdmin"].b) else None;
    User(id, fields["name"].s, Trim(fields["email"].s), fields["password"].s, isAdmin)
  }

  /** The user document as it is rendered in JSON. */
  function Document(u: User): (d: Object)
    ensures d.Keys == {"_id", "name", "email", "password"} + (if u.isAdmin.Some? then {"isAdmin"} else {})
  {
    var base := map["_id" := JString(u.id), "name" := JString(u.name), "email" := JString(u.email),
                    "password" := JString(u.password)];
    if u.isAdmin.Some? then base["isAdmin" := JBool(u.isAdmin.value)] else base
  }

  /** The Joi schema of `validateUser`, in the order it lists its keys. */
  const UserBodySchema: Schema := [
    ("name", Str(5, 50, false)),
    ("email", Str(5, 255, true)),
    ("password", Str(5, 255, false))
  ]

  /** `validateUser(body).error`. */
  function ValidateUser(body: Object): Option<Violation>
  {
    Validate(body, UserBodySchema)
  }

  /** `validateUser` accepts exactly the bodies with a 5..50-character name, an email-shaped 5..255-character
      email, a 5..255-character password, and no other key. */
  lemma ValidateUserAccepts(body: Object)
    ensures ValidateUser(body).None? <==>
      && HasString(body, "name") && 5 <= Utf16Length(body["name"].s) <= 50
      && HasString(body, "email") && 5 <= Utf16Length(body["email"].s) <= 255 && IsEmail(body["email"].s)
      && HasString(body, "password") && 5 <= Utf16Length(body["password"].s) <= 255
      && body.Keys <= {"name", "email", "password"}
  {
    var schema := UserBodySchema;
    ValidateAccepts(body, schema);
    assert Keys(schema) == {"name", "email", "password"} by {
      assert schema[0].0 == "name" && schema[1].0 == "email" && schema[2].0 == "password";
    }
    if FieldsConform(body, schema) {
      assert schema[0].0 in body && Satisfies(body[schema[0].0], schema[0].1);
      assert schema[1].0 in body && Satisfies(body[schema[1].0], schema[1].1);
      assert schema[2].0 in body && Satisfies(body[schema[2].0], schema[2].1);
    }
  }

  /** A body `validateUser` accepts builds a user that passes the schema's validators (name 5..50,
      email 5..255, password 5..1024), with name, email and password exactly as submitted. */
  lemma ValidatedUserWithinSchema(id: Id, body: Object)
    requires ValidateUser(body).None?
    ensures HasString(body, "name") && HasString(body, "email") && HasString(body, "password")
    ensures SchemaValid(NewUser(id, body))
    ensures NewUser(id, body).name == body["name"].s
    ensures NewUser(id, body).email == body["email"].s
    ensures NewUser(id, body).password == body["password"].s
  {
    ValidateUserAccepts(body);
    TrimIdentity(body["email"].s);
  }

  /** Lengths are JavaScript's `.length`: a name of three U+1F600 emoji is six code units long and
      passes `min(5)`. */
  lemma EmojiNameAccepted()
    ensures ValidateUser(map["name" := JString("\U{1F600}\U{1F600}\U{1F600}"),
                             "email" := JString("a@b.cd"), "password" := JString("12345")]).None?
  {
    var body := map["name" := JString("\U{1F600}\U{1F600}\U{1F600}"),
                    "email" := JString("a@b.cd"), "password" := JString("12345")];
    ThreeEmojiAreSixUnits();
    Utf16LengthOfBmp("a@b.cd");
    Utf16LengthOfBmp("12345");
    assert "a@b.cd"[1] == '@';
    ValidateUserAccepts(body);
  }

  /** The payload `generateAuthToken` signs: exactly the user's `_id` and `isAdmin`. */
  function TokenPayload(u: User): Claims
  {
    Claims(u.id, u.isAdmin)
  }

  /** `user.generateAuthToken()` under the configured key. */
  function GenerateAuthToken(u: User, key: Key): (t: Token)
    ensures Verify(t, key) == Some(Claims(u.id, u.isAdmin))
  {
    SignedTokenAuthenticates(TokenPayload(u), key);
    Sign(TokenPayload(u), key)
  }

  /** A user's own token passes the gate, and the caller's claims are that user's `_id` and `isAdmin`. */
  lemma AuthTokenIdentifiesUser(u: User, key: Key)
    ensures Authenticate(Some(GenerateAuthToken(u, key)), key) == Success(Claims(u.id, u.isAdmin))
  {
    SignedTokenAuthenticates(TokenPayload(u), key);
  }
}
