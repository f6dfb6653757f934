/**
 * The authentication layer: token issuing, the `authenticate` middleware's
 * decision, and the `/login` and `/signup` decision chains. Each is a
 * function from the request's data and the library calls it makes to the
 * single outcome of the request.
 *
 * The libraries are parameters: `jwt.verify` and `jwt.sign` (keyed with the
 * process secret), `bcrypt.compare` and `bcrypt.hash`, and the user table's
 * `findUnique` and `create`. Each returns an `Attempt`, since each may throw.
 */
module Auth {
  import opened Wrappers
  import opened Js
  import opened Api
  import SignupSchema

  // ---------------------------------------------------------------------------
  // Tokens
  // ---------------------------------------------------------------------------

  /** The token payload as the middleware destructures it: `const { email } = payload`. */
  datatype Claims = Claims(email: Option<Value>)

  /** The arguments of `jwt.sign` besides the secret: the payload and the lifetime. */
  datatype SignRequest = SignRequest(payload: Claims, expiresIn: string)

  const TokenLifetime := "1h"

  /** `jwt.verify(token, secret)`: the payload, or an exception for a bad, forged or expired token. */
  type Verifier = string -> Attempt<Claims>

  /** `jwt.sign(payload, secret, options)` */
  type Signer = SignRequest -> Attempt<string>

  /** `prisma.user.findUnique({ where: { email } })`: the user, `None` for no match, or an exception. */
  type UserFinder = Option<Value> -> Attempt<Option<User>>

  /** `bcrypt.compare(password, hash)` */
  type PasswordCheck = (Option<Value>, string) -> Attempt<bool>

  /** `bcrypt.hash(password, rounds)` */
  type Hasher = (string, nat) -> Attempt<string>

  /** `prisma.user.create({ data })` */
  type UserCreator = NewUser -> Attempt<User>

  /** The `data` given to `prisma.user.create`. */
  datatype NewUser = NewUser(email: Option<Value>, password: string, name: string)

  /** `jwtToken(email)`: a token for `{ email }` that expires after one hour. */
  function JwtToken(email: Option<Value>, sign: Signer): Attempt<string> {
    sign(SignRequest(Claims(email), TokenLifetime))
  }

  // ---------------------------------------------------------------------------
  // The `authenticate` middleware
  // ---------------------------------------------------------------------------

  /** Why a request was turned away; every rejection has status 401. */
  datatype Rejection = HeaderMissing | InvalidTokenFormat | Unauthorized | UserNotFound {
    function Body(): Body {
      match this
      case HeaderMissing => Message("Authorization header missing")
      case InvalidTokenFormat => Message("Invalid token format")
      case Unauthorized => MessageAndError("Unauthorized")
      case UserNotFound => Message("User not found")
    }
  }

  const RejectionStatus := 401

  /** The one outcome of a request: go on to the next handler with a user, or be rejected. */
  datatype GateOutcome = Proceed(user: User) | Reject(reason: Rejection)

  /** `!authHeader` is false: the header is there and is not the empty string. */
  predicate HeaderPresent(header: Option<string>) {
    header.Some? && header.value != ""
  }

  /**
   * `const [scheme, token] = authHeader.split(' ')`, then the format check:
   * the token when the scheme is exactly `Bearer` and the token is there and
   * not empty; pieces after the second are ignored.
   */
  function BearerToken(header: string): (t: Option<string>)
    ensures t.Some? ==> t.value != "" && ' ' !in t.value
  {
    SplitPiecesFree(header, ' ');
    var pieces := Split(header, ' ');
    var scheme := pieces[0];
    var token := if |pieces| >= 2 then Some(pieces[1]) else None;
    if scheme != "Bearer" || token.None? || token.value == "" then None else token
  }

  /** The decision of `authenticate`: the first check that fails, in order, or the stored user. */
  function Gate(header: Option<string>, verify: Verifier, findUser: UserFinder): (r: GateOutcome)
    ensures r.Proceed? ==> HeaderPresent(header) && BearerToken(header.value).Some?
  {
    if !HeaderPresent(header) then Reject(HeaderMissing)
    else match BearerToken(header.value)
      case None => Reject(InvalidTokenFormat)
      case Some(token) =>
        match verify(token)
        case Threw => Reject(Unauthorized)
        case Ok(claims) =>
          match findUser(claims.email)
          case Threw => Reject(Unauthorized)
          case Ok(None) => Reject(UserNotFound)
          case Ok(Some(user)) => Proceed(user)
  }

  /** A header `Bearer <t><r>` passes the format check with token `t` when `t` has no space and `r` is empty or starts with one. */
  lemma BearerTokenAccepts(t: string, r: string)
    requires t != [] && ' ' !in t
    requires r == [] || r[0] == ' '
    ensures BearerToken("Bearer " + t + r) == Some(t)
  {
    var h := "Bearer " + t + r;
    assert h == "Bearer" + [' '] + (t + r);
    SplitAtFirst("Bearer", t + r, ' ');
    if r == [] {
      assert t + r == t;
      SplitWhole(t, ' ');
    } else {
      assert t + r == t + [' '] + r[1..];
      SplitAtFirst(t, r[1..], ' ');
    }
  }

  /**
   * Conversely, a header that passes the format check is `Bearer `, then the
   * token, which is not empty and holds no space, then nothing or a space.
   */
  lemma BearerTokenShape(h: string)
    requires BearerToken(h).Some?
    ensures var t := BearerToken(h).value;
      && t != [] && ' ' !in t
      && |h| >= 7 + |t| && h[..7] == "Bearer " && h[7..7 + |t|] == t
      && (|h| == 7 + |t| || h[7 + |t|] == ' ')
  {
    var pieces := Split(h, ' ');
    var t := pieces[1];
    SplitJoin(h, ' ');
    SplitPiecesFree(h, ' ');
    assert ' ' !in pieces[1];
    var tail := Join(pieces[1..], ' ');
    assert h == "Bearer" + [' '] + tail;
    if |pieces| == 2 {
      assert tail == t;
    } else {
      assert pieces[1..][1..] == pieces[2..];
      assert tail == t + [' '] + Join(pieces[2..], ' ');
    }
  }

  /** Two spaces after `Bearer` leave an empty token: the header is rejected as badly formatted. */
  lemma DoubleSpaceRejected(t: string)
    ensures BearerToken("Bearer  " + t) == None
  {
    var rest := [' '] + t;
    assert "Bearer  " + t == "Bearer" + [' '] + rest;
    SplitAtFirst("Bearer", rest, ' ');
    assert rest[1..] == t;
    assert Split(rest, ' ') == [[]] + Split(t, ' ');
  }

  /** With no header, or an empty one, the request is rejected whatever the verifier and the store would say. */
  lemma GateMissingHeader(header: Option<string>, verify: Verifier, findUser: UserFinder)
    requires !HeaderPresent(header)
    ensures Gate(header, verify, findUser) == Reject(HeaderMissing)
  {
  }

  /** A present header is rejected as badly formatted iff it fails the format check, before any verification or lookup. */
  lemma GateBadFormat(header: Option<string>, verify: Verifier, findUser: UserFinder)
    requires HeaderPresent(header)
    ensures Gate(header, verify, findUser) == Reject(InvalidTokenFormat) <==> BearerToken(header.value) == None
  {
  }

  /** A token the verifier throws on gives 401 "Unauthorized", whatever the store holds. */
  lemma GateBadToken(header: Option<string>, verify: Verifier, findUser: UserFinder)
    requires HeaderPresent(header) && BearerToken(header.value).Some?
    requires verify(BearerToken(header.value).value).Threw?
    ensures Gate(header, verify, findUser) == Reject(Unauthorized)
  {
  }

  /** A lookup that throws also gives 401 "Unauthorized", never a server error. */
  lemma GateStoreFailure(header: Option<string>, verify: Verifier, findUser: UserFinder)
    requires HeaderPresent(header) && BearerToken(header.value).Some?
    requires verify(BearerToken(header.value).value).Ok?
    requires findUser(verify(BearerToken(header.value).value).value.email).Threw?
    ensures Gate(header, verify, findUser) == Reject(Unauthorized)
  {
  }

  /** A valid token whose email has no user gives 401 "User not found". */
  lemma GateUnknownUser(header: Option<string>, verify: Verifier, findUser: UserFinder)
    requires HeaderPresent(header) && BearerToken(header.value).Some?
    requires verify(BearerToken(header.value).value).Ok?
    requires findUser(verify(BearerToken(header.value).value).value.email) == Ok(None)
    ensures Gate(header, verify, findUser) == Reject(UserNotFound)
  {
  }

  /**
   * A well-formed bearer header whose token verifies and whose email has a
   * stored user lets the request through with exactly that user.
   */
  lemma GateAccepts(t: string, r: string, verify: Verifier, findUser: UserFinder)
    requires t != [] && ' ' !in t && (r == [] || r[0] == ' ')
    requires verify(t).Ok? && findUser(verify(t).value.email).Ok?
    requires findUser(verify(t).value.email).value.Some?
    ensures Gate(Some("Bearer " + t + r), verify, findUser) == Proceed(findUser(verify(t).value.email).value.value)
  {
    BearerTokenAccepts(t, r);
  }

  /**
   * Conversely, a request only gets through with a well-formed bearer header
   * whose token verifies, and the user it gets through with is the one stored
   * for the token's email.
   */
  lemma GateProceedShape(header: Option<string>, verify: Verifier, findUser: UserFinder)
    requires Gate(header, verify, findUser).Proceed?
    ensures HeaderPresent(header) && BearerToken(header.value).Some?
    ensures var h, t := header.value, BearerToken(header.value).value;
      && t != [] && ' ' !in t && |h| >= 7 + |t|
      && h == "Bearer " + t + h[7 + |t|..]
      && (|h| == 7 + |t| || h[7 + |t|] == ' ')
      && verify(t).Ok?
      && findUser(verify(t).value.email) == Ok(Some(Gate(header, verify, findUser).user))
  {
    var h := header.value;
    BearerTokenShape(h);
    var t := BearerToken(h).value;
    assert h == h[..7] + h[7..7 + |t|] + h[7 + |t|..];
  }

  // ---------------------------------------------------------------------------
  // POST /login
  // ---------------------------------------------------------------------------

  const InvalidCredentials := "Invalid Credentials"
  const LoginSucceeded := "Login Successful"

  /** The `/login` handler's reply. */
  function Login(body: map<string, Value>, findUser: UserFinder, compare: PasswordCheck, sign: Signer): (r: Reply)
    ensures r.status == 200 || r.status == 401 || r.status == 500
    ensures r.authorization.Some? <==> r.status == 200
  {
    var email := Get(body, "email");
    var password := Get(body, "password");
    match findUser(email)
    case Threw => Send(500, MessageAndError("Server error"))
    case Ok(None) => Send(401, Message(InvalidCredentials))
    case Ok(Some(user)) =>
      match compare(password, user.password)
      case Threw => Send(500, MessageAndError("Server error"))
      case Ok(false) => Send(401, Message(InvalidCredentials))
      case Ok(true) =>
        match JwtToken(email, sign)
        case Threw => Send(500, MessageAndError("Server error"))
        case Ok(token) => Reply(200, LoginSuccess(token, LoginSucceeded), Some("Bearer " + token))
  }

  /**
   * An unknown email and a known email with the wrong password get the very
   * same reply, so a caller cannot tell whether an account exists.
   */
  lemma LoginHidesAccounts(
    b1: map<string, Value>, f1: UserFinder, c1: PasswordCheck, s1: Signer,
    b2: map<string, Value>, f2: UserFinder, c2: PasswordCheck, s2: Signer)
    requires f1(Get(b1, "email")) == Ok(None)
    requires f2(Get(b2, "email")).Ok? && f2(Get(b2, "email")).value.Some?
    requires c2(Get(b2, "password"), f2(Get(b2, "email")).value.value.password) == Ok(false)
    ensures Login(b1, f1, c1, s1) == Login(b2, f2, c2, s2) == Send(401, Message(InvalidCredentials))
  {
  }

  /**
   * Every login reply is 200, 401 or 500. The `Authorization` header is set
   * only on success; then it is `Bearer ` followed by exactly the token in the
   * body, that token was issued for the submitted email with a one-hour
   * lifetime, and the submitted password matched the stored hash. A 401
   * always carries the same message.
   */
  lemma LoginReplies(body: map<string, Value>, findUser: UserFinder, compare: PasswordCheck, sign: Signer)
    ensures var r := Login(body, findUser, compare, sign);
      && (r.status == 200 || r.status == 401 || r.status == 500)
      && (r.authorization.Some? <==> r.status == 200)
      && (r.status == 401 ==> r.body == Message(InvalidCredentials))
    ensures var r := Login(body, findUser, compare, sign);
      var email, password := Get(body, "email"), Get(body, "password");
      r.status == 200 ==>
        && r.body.LoginSuccess?
        && |r.authorization.value| >= 7
        && r.authorization.value[..7] == "Bearer "
        && r.authorization.value[7..] == r.body.token
        && sign(SignRequest(Claims(email), "1h")) == Ok(r.body.token)
        && findUser(email).Ok? && findUser(email).value.Some?
        && compare(password, findUser(email).value.value.password) == Ok(true)
  {
    var r := Login(body, findUser, compare, sign);
    if r.status == 200 {
      assert ("Bearer " + r.body.token)[7..] == r.body.token;
    }
  }

  /** A login whose password matches the stored hash, and whose token is signed, succeeds. */
  lemma LoginAccepts(body: map<string, Value>, findUser: UserFinder, compare: PasswordCheck, sign: Signer)
    requires findUser(Get(body, "email")).Ok? && findUser(Get(body, "email")).value.Some?
    requires compare(Get(body, "password"), findUser(Get(body, "email")).value.value.password) == Ok(true)
    requires JwtToken(Get(body, "email"), sign).Ok?
    ensures Login(body, findUser, compare, sign).status == 200
  {
  }

  /**
   * The header a successful login hands out, sent back on a protected
   * request, passes the middleware as long as the token has no space, the
   * verifier accepts it, and the email it carries still has a user.
   */
  lemma LoginThenAuthenticate(
    body: map<string, Value>, findUser: UserFinder, compare: PasswordCheck, sign: Signer,
    verify: Verifier, later: UserFinder)
    requires Login(body, findUser, compare, sign).status == 200
    requires var t := Login(body, findUser, compare, sign).body.token;
      && ' ' !in t && t != []
      && verify(t).Ok? && later(verify(t).value.email).Ok? && later(verify(t).value.email).value.Some?
    ensures var r := Login(body, findUser, compare, sign);
      Gate(r.authorization, verify, later) == Proceed(later(verify(r.body.token).value.email).value.value)
  {
    var r := Login(body, findUser, compare, sign);
    var t := r.body.token;
    GateAccepts(t, [], verify, later);
    assert "Bearer " + t + [] == "Bearer " + t;
  }

  // ---------------------------------------------------------------------------
  // POST /signup
  // ---------------------------------------------------------------------------

  const SaltRounds := 10

  /**
   * The `/signup` handler's reply. The handler reads `email` from the
   * validated data, which has no such field, so the store always receives an
   * absent email.
   */
  function Signup(body: map<string, Value>, hash: Hasher, create: UserCreator): (r: Reply)
    ensures r.status == 201 || r.status == 400
    ensures r.authorization == None
  {
    match SignupSchema.SafeParse(body)
    case Failure(issues) => Send(400, InvalidInput(issues))
    case Success(data) =>
      var email: Option<Value> := None;
      match hash(data.password, SaltRounds)
      case Threw => Send(400, ExceptionMessage)
      case Ok(hashed) =>
        match create(NewUser(email, hashed, data.name))
        case Threw => Send(400, ExceptionMessage)
        case Ok(_) => Send(201, Message("Signup successful"))
  }

  /**
   * A sign-up that sends email, password and name but no `username` gets
   * 400 naming the missing `username`, whatever the hasher and store would do.
   */
  lemma SignupNeedsUsername(body: map<string, Value>, hash: Hasher, create: UserCreator)
    requires body == map["email" := Str("a@x.com"), "password" := Str("Abcdefgh"), "name" := Str("Alice")]
    ensures Signup(body, hash, create) ==
              Send(400, InvalidInput([SignupSchema.Issue(SignupSchema.Username, SignupSchema.InvalidType)]))
  {
    SignupSchema.SignupWithoutUsername(body);
  }

  /** An invalid body gets 400 with the schema's issues, before any hashing or storing. */
  lemma SignupRejectsInvalid(body: map<string, Value>, hash: Hasher, create: UserCreator)
    requires !SignupSchema.ValidSignup(body)
    ensures Signup(body, hash, create).status == 400
    ensures Signup(body, hash, create).body.InvalidInput?
    ensures |Signup(body, hash, create).body.issues| > 0
    ensures Signup(body, hash, create) == Send(400, InvalidInput(SignupSchema.SafeParse(body).issues))
  {
    SignupSchema.SafeParseMeaning(body);
  }

  /**
   * Signup replies 201 exactly when the body is valid, hashing the submitted
   * password with 10 rounds succeeds, and storing a user with that hash, the
   * submitted name and no email succeeds; every other signup gets 400. The
   * password the store receives is the hasher's output for the submitted
   * password.
   */
  lemma SignupOutcome(body: map<string, Value>, hash: Hasher, create: UserCreator)
    ensures var r := Signup(body, hash, create);
      r.status == 201 || r.status == 400
    ensures var r := Signup(body, hash, create);
      r.status == 201 <==>
        && SignupSchema.ValidSignup(body)
        && hash(Get(body, "password").value.s, 10).Ok?
        && create(NewUser(None, hash(Get(body, "password").value.s, 10).value, Get(body, "name").value.s)).Ok?
  {
    SignupSchema.SafeParseMeaning(body);
  }
}
