/** The bearer-token authenticator `BitbucketAuth`. */
module Auth {
  import opened Wrappers
  import opened Errors

  /** Request headers, name to value. */
  type Headers = map<string, string>

  const AuthorizationHeader := "Authorization"
  const BearerPrefix := "Bearer "
  const MissingTokenMessage := "Need token for authentication"

  /** An authenticator. Its token can never be `None`: the constructor refuses it. */
  datatype BitbucketAuth = BitbucketAuth(token: string)

  /** The constructor `BitbucketAuth(token)`: a missing token raises `ValueError`,
      any other token (the empty string included) is kept as given. */
  function NewAuth(token: Option<string>): (r: Result<BitbucketAuth, Error>)
    ensures r.Failure? <==> token == None
    ensures r.Failure? ==> r.error == ValueError(MissingTokenMessage)
    ensures r.Success? ==> r.value.token == token.value
  {
    if token != None then Success(BitbucketAuth(token.value))
    else Failure(ValueError(MissingTokenMessage))
  }

  /** The right-hand side of `auth == other`, seen only through
      `getattr(other, "_token", None)`. */
  datatype Operand =
    /** Another authenticator. */
    | AuthOperand(auth: BitbucketAuth)
    /** Any other object that has a `_token` attribute, such as a client,
        whose `_token` may be `None`. */
    | TokenHolder(tokenAttr: Option<string>)
    /** An object without a `_token` attribute. */
    | NoTokenAttr

  /** What `getattr(other, "_token", None)` returns. */
  function TokenAttr(o: Operand): (r: Option<string>)
    ensures o.AuthOperand? ==> r == Some(o.auth.token)
    ensures o.TokenHolder? ==> r == o.tokenAttr
    ensures o.NoTokenAttr? ==> r == None
  {
    match o
    case AuthOperand(b) => Some(b.token)
    case TokenHolder(t) => t
    case NoTokenAttr => None
  }

  /** `__eq__`: the tokens are compared, whatever the other object is. */
  function Equals(a: BitbucketAuth, o: Operand): (r: bool)
    ensures o.AuthOperand? ==> (r <==> a.token == o.auth.token)
    ensures o.TokenHolder? ==> (r <==> o.tokenAttr == Some(a.token))
    ensures o.NoTokenAttr? ==> !r
  {
    Some(a.token) == TokenAttr(o)
  }

  /** `__ne__`: the negation of `__eq__`. */
  function NotEquals(a: BitbucketAuth, o: Operand): (r: bool)
    ensures r <==> !Equals(a, o)
    ensures o.AuthOperand? ==> (r <==> a.token != o.auth.token)
  {
    !Equals(a, o)
  }

  /** Equality between authenticators is an equivalence relation and agrees
      with equality of the values themselves. */
  lemma EqualsIsEquivalence(a: BitbucketAuth, b: BitbucketAuth, c: BitbucketAuth)
    ensures Equals(a, AuthOperand(a))
    ensures Equals(a, AuthOperand(b)) <==> Equals(b, AuthOperand(a))
    ensures Equals(a, AuthOperand(b)) && Equals(b, AuthOperand(c)) ==> Equals(a, AuthOperand(c))
    ensures Equals(a, AuthOperand(b)) <==> a == b
  {
  }

  /** `__call__`: sets `Authorization: Bearer <token>` on the request headers
      and leaves every other header as it was. */
  function Apply(a: BitbucketAuth, h: Headers): (r: Headers)
    ensures AuthorizationHeader in r && r[AuthorizationHeader] == BearerPrefix + a.token
    ensures r.Keys == h.Keys + {AuthorizationHeader}
    ensures forall k :: k in h && k != AuthorizationHeader ==> r[k] == h[k]
  {
    h[AuthorizationHeader := BearerPrefix + a.token]
  }

  /** Applying an authenticator twice is applying it once; applying a second
      one replaces what the first wrote; equal authenticators write the same. */
  lemma ApplyOverwrites(a: BitbucketAuth, b: BitbucketAuth, h: Headers)
    ensures Apply(a, Apply(a, h)) == Apply(a, h)
    ensures Apply(b, Apply(a, h)) == Apply(b, h)
    ensures Equals(a, AuthOperand(b)) ==> Apply(a, h) == Apply(b, h)
  {
  }
}
