/**
 * The authentication gate in front of the return route (`auth` middleware).
 * The middleware's own source is not part of this model; what it must do is
 * taken from the tests: no `x-auth-token` header gives 401, a token that does
 * not verify gives 400, and a valid token's payload `{ _id, isAdmin }` becomes
 * the caller's claims.  Signing is abstract: a token records the payload and
 * the key it was signed with, and no cryptography is modelled.
 */
module Auth {
  import opened Wrappers
  import opened Json

  /** The server-held signing key (the `jwtPrivateKey` configuration value). */
  type Key = string

  /** A token's payload: the user's `_id` and its `isAdmin` flag (absent when the user has none). */
  datatype Claims = Claims(id: Id, isAdmin: Option<bool>)

  /** What an `x-auth-token` header can carry: a signed token, or any other text. */
  datatype Token = Signed(payload: Claims, signer: Key) | Malformed(raw: string)

  /** `jwt.sign(payload, key)`. */
  function Sign(payload: Claims, key: Key): Token
  {
    Signed(payload, key)
  }

  /** `jwt.verify(token, key)`: the payload when the token was signed with `key`. */
  function Verify(token: Token, key: Key): Option<Claims>
  {
    match token
    case Signed(payload, signer) => if signer == key then Some(payload) else None
    case Malformed(_) => None
  }

  datatype AuthError = MissingToken | InvalidToken

  /** The HTTP status the gate answers a failure with. */
  function Status(e: AuthError): int
  {
    match e
    case MissingToken => 401
    case InvalidToken => 400
  }

  /** The gate: a missing header is refused, a token that does not verify is refused, otherwise its claims pass on. */
  function Authenticate(header: Option<Token>, key: Key): (r: Result<Claims, AuthError>)
    ensures header.None? ==> r == Failure(MissingToken)
    ensures header.Some? && Verify(header.value, key).None? ==> r == Failure(InvalidToken)
    ensures r.Success? ==> header == Some(Sign(r.value, key))
  {
    match header
    case None => Failure(MissingToken)
    case Some(token) =>
      match Verify(token, key)
      case None => Failure(InvalidToken)
      case Some(claims) => Success(claims)
  }

  /** A token signed with the server's key passes the gate with exactly the claims it was signed with. */
  lemma SignedTokenAuthenticates(claims: Claims, key: Key)
    ensures Verify(Sign(claims, key), key) == Some(claims)
    ensures Authenticate(Some(Sign(claims, key)), key) == Success(claims)
  {
  }

  /** A token signed with any other key, or one that is not a signed token at all, is refused with 400. */
  lemma ForeignTokenRefused(token: Token, key: Key)
    requires token.Malformed? || token.signer != key
    ensures Authenticate(Some(token), key) == Failure(InvalidToken)
    ensures Status(InvalidToken) == 400
  {
  }
}
