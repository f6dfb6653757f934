/**
 * The Express handlers as they run: each reads the request, makes its
 * library calls in order, and writes the response through `res.status`,
 * `res.setHeader` and `res.json`, returning at the first failed check. The
 * auth middleware also writes `req.user` and reports whether it handed the
 * request on with `next()`. Each method is proved to leave exactly the state
 * its decision function in `Auth` or `Books` describes, and to send at most
 * one response.
 */
module Routes {
  import opened Wrappers
  import opened Js
  import opened Api
  import opened Auth
  import opened Books
  import SignupSchema

  /**
   * `authenticate(req, res, next)`; the result says whether `next()` was
   * called. Exactly one of the two happens: a 401 is sent, or `req.user` is
   * set to the stored user and the request moves on with nothing sent.
   */
  method Authenticate(req: Request, res: Response, verify: Verifier, findUser: UserFinder) returns (next: bool)
    requires res.sent == None
    modifies req, res
    ensures next <==> res.sent == None
    ensures res.headers == old(res.headers)
    ensures match Gate(req.authorization, verify, findUser)
      case Proceed(user) => next && req.user == Some(user) && res.statusCode == old(res.statusCode)
      case Reject(reason) =>
        && req.user == old(req.user)
        && res.statusCode == RejectionStatus
        && res.sent == Some(reason.Body())
  {
    var authHeader := req.authorization;
    if authHeader.None? || authHeader.value == "" {
      res.Status(401);
      res.Json(Message("Authorization header missing"));
      return false;
    }

    var pieces := Split(authHeader.value, ' ');
    var scheme := pieces[0];
    var token := if |pieces| >= 2 then Some(pieces[1]) else None;
    if scheme != "Bearer" || token.None? || token.value == "" {
      res.Status(401);
      res.Json(Message("Invalid token format"));
      return false;
    }

    var payload := verify(token.value);
    if payload.Threw? {
      res.Status(401);
      res.Json(MessageAndError("Unauthorized"));
      return false;
    }
    var found := findUser(payload.value.email);
    if found.Threw? {
      res.Status(401);
      res.Json(MessageAndError("Unauthorized"));
      return false;
    }
    if found.value.None? {
      res.Status(401);
      res.Json(Message("User not found"));
      return false;
    }

    req.user := found.value;
    return true;
  }

  /** `POST /login` */
  method LoginRoute(req: Request, res: Response, findUser: UserFinder, compare: PasswordCheck, sign: Signer)
    requires res.sent == None
    modifies res
    ensures res.Shows(Login(req.body, findUser, compare, sign), old(res.headers))
  {
    var email := Get(req.body, "email");
    var password := Get(req.body, "password");
    var user := findUser(email);
    if user.Threw? {
      res.Status(500);
      res.Json(MessageAndError("Server error"));
      return;
    }
    if user.value.None? {
      res.Status(401);
      res.Json(Message(InvalidCredentials));
      return;
    }

    var isMatch := compare(password, user.value.value.password);
    if isMatch.Threw? {
      res.Status(500);
      res.Json(MessageAndError("Server error"));
      return;
    }
    if !isMatch.value {
      res.Status(401);
      res.Json(Message(InvalidCredentials));
      return;
    }

    var token := JwtToken(email, sign);
    if token.Threw? {
      res.Status(500);
      res.Json(MessageAndError("Server error"));
      return;
    }
    res.SetHeader(AuthorizationHeader, "Bearer " + token.value);
    res.Status(200);
    res.Json(LoginSuccess(token.value, LoginSucceeded));
  }

  /** `POST /signup` */
  method SignupRoute(req: Request, res: Response, hash: Hasher, create: UserCreator)
    requires res.sent == None
    modifies res
    ensures res.Shows(Signup(req.body, hash, create), old(res.headers))
  {
    var parseResult := SignupSchema.SafeParse(req.body);
    if parseResult.Failure? {
      res.Status(400);
      res.Json(InvalidInput(parseResult.issues));
      return;
    }

    // `email` is not a field of the validated data, so it reads as undefined.
    var email: Option<Value> := None;
    var password, name := parseResult.data.password, parseResult.data.name;
    var hashedPassword := hash(password, SaltRounds);
    if hashedPassword.Threw? {
      res.Status(400);
      res.Json(ExceptionMessage);
      return;
    }
    var created := create(NewUser(email, hashedPassword.value, name));
    if created.Threw? {
      res.Status(400);
      res.Json(ExceptionMessage);
      return;
    }
    res.Status(201);
    res.Json(Message("Signup successful"));
  }

  /**
   * `GET /books`. When reading `page` or `limit` throws, the handler stops
   * before its `try` and the response is left as it was.
   */
  method ListBooksRoute(req: Request, res: Response, findMany: BookLister)
    requires res.sent == None
    modifies res
    ensures match ListBooks(req.query, findMany)
      case None => unchanged(res)
      case Some(reply) => res.Shows(reply, old(res.headers))
  {
    var page := IntOr(Get(req.query, "page"), DefaultPage);
    if page.Threw? {
      return;
    }
    var limit := IntOr(Get(req.query, "limit"), DefaultLimit);
    if limit.Threw? {
      return;
    }
    var books := findMany(Paging(page.value * limit.value, limit.value));
    if books.Threw? {
      res.Status(500);
      res.Json(MessageAndError("Error fetching books"));
      return;
    }
    res.Status(200);
    res.Json(BookList(books.value));
  }

  /** `GET /books/:id`; the route only matches with an `id` segment. */
  method GetBookRoute(req: Request, res: Response, findBook: BookFinder)
    requires "id" in req.params
    requires res.Untouched()
    modifies res
    ensures res.Shows(GetBook(req.params["id"], findBook), old(res.headers))
  {
    var id := ParseInt(req.params["id"]);
    if !id.Truthy() {
      res.Status(400);
      res.Json(Message("Invalid book ID"));
      return;
    }
    var book := findBook(id.i);
    if book.Threw? {
      res.Status(500);
      res.Json(MessageAndError("Server error"));
      return;
    }
    if book.value.None? {
      res.Status(404);
      res.Json(Message("Book not found"));
      return;
    }
    res.Json(BookFound(book.value.value));
  }

  /** The reviews handler proper, reached only through the middleware. */
  method AddReviewHandler(req: Request, res: Response, create: ReviewCreator)
    requires "id" in req.params && req.user.Some?
    requires res.sent == None
    modifies res
    ensures res.Shows(AddReview(req.params["id"], req.body, req.user.value, create), old(res.headers))
  {
    var bookId := ParseInt(req.params["id"]);
    var rating := Get(req.body, "rating");
    var comment := Get(req.body, "comment");
    var userId := req.user.value.id;
    ghost var reply := AddReview(req.params["id"], req.body, req.user.value, create);

    if !bookId.Truthy() || !Truthy(rating) {
      res.Status(400);
      res.Json(Message(MissingReviewFields));
      return;
    }

    var k := ParseValue(rating);
    if k.Threw? {
      assert reply == Send(500, MessageAndError("Error adding review"));
      res.Status(500);
      res.Json(MessageAndError("Error adding review"));
      return;
    }
    var data := ReviewData(k.value, if Truthy(comment) then comment.value else Null, userId, bookId.i);
    assert reply == match create(data)
      case Threw => Send(500, MessageAndError("Error adding review"))
      case Ok(r) => Send(201, ReviewAdded("Review added", r));
    var review := create(data);
    if review.Threw? {
      res.Status(500);
      res.Json(MessageAndError("Error adding review"));
      return;
    }
    res.Status(201);
    res.Json(ReviewAdded("Review added", review.value));
  }

  /**
   * `POST /books/:id/reviews`: the middleware, then the handler. A rejected
   * request never reaches the handler; an accepted one is handled for the
   * user the middleware resolved.
   */
  method AddReviewRoute(req: Request, res: Response, verify: Verifier, findUser: UserFinder, create: ReviewCreator)
    requires "id" in req.params
    requires res.sent == None
    modifies req, res
    ensures match Gate(req.authorization, verify, findUser)
      case Reject(reason) =>
        && req.user == old(req.user)
        && res.Shows(Send(RejectionStatus, reason.Body()), old(res.headers))
      case Proceed(user) =>
        && req.user == Some(user)
        && res.Shows(AddReview(req.params["id"], req.body, user, create), old(res.headers))
  {
    var next := Authenticate(req, res, verify, findUser);
    if next {
      AddReviewHandler(req, res, create);
    }
  }
}
