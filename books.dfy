/**
 * The request guards of the book routes: pagination of `GET /books`, the id
 * check of `GET /books/:id`, and the id and rating check of
 * `POST /books/:id/reviews` (which runs after the auth middleware). The
 * database calls behind them are parameters.
 */
module Books {
  import opened Wrappers
  import opened Js
  import opened Api

  /** The `skip` and `take` arguments of `prisma.book.findMany`. */
  datatype Paging = Paging(skip: int, take: int)

  /** `prisma.book.findMany({ skip, take })` */
  type BookLister = Paging -> Attempt<seq<Book>>

  /** `prisma.book.findUnique({ where: { id }, include: { reviews: true } })` */
  type BookFinder = int -> Attempt<Option<BookWithReviews>>

  /** The `data` given to `prisma.review.create`. */
  datatype ReviewData = ReviewData(rating: Number, comment: Value, userId: int, bookId: int)

  /** `prisma.review.create({ data })` */
  type ReviewCreator = ReviewData -> Attempt<Review>

  const DefaultPage := 0
  const DefaultLimit := 10

  /**
   * `parseInt(v) || fallback`: the parsed integer, or `fallback` when it is
   * `NaN` or 0; throws when `String(v)` does.
   */
  function IntOr(v: Option<Value>, fallback: int): (r: Attempt<int>)
    ensures r.Threw? <==> ToStr(v).Threw?
    ensures r.Ok? && fallback != 0 ==> r.value != 0
    ensures r.Ok? ==> r.value == fallback || ParseInt(ToStr(v).value) == Int(r.value)
    ensures ToStr(v).Ok? && ParseInt(ToStr(v).value).Truthy() ==> r == Ok(ParseInt(ToStr(v).value).i)
  {
    match ParseValue(v)
    case Threw => Threw
    case Ok(n) => Ok(if n.Truthy() then n.i else fallback)
  }

  /**
   * The page window of `GET /books`: `page` defaults to 0 and `limit` to 10,
   * and `skip` is `page * limit`. The window is never empty. Reading either
   * parameter throws when it is an object with an own `toString` member.
   */
  function Pagination(query: map<string, Value>): (p: Attempt<Paging>)
    ensures p.Ok? ==> p.value.take != 0
    ensures p.Threw? <==> ToStr(Get(query, "page")).Threw? || ToStr(Get(query, "limit")).Threw?
  {
    match IntOr(Get(query, "page"), DefaultPage)
    case Threw => Threw
    case Ok(page) =>
      match IntOr(Get(query, "limit"), DefaultLimit)
      case Threw => Threw
      case Ok(limit) => Ok(Paging(page * limit, limit))
  }

  /**
   * The `GET /books` handler's reply. `None` when computing the window
   * throws: that happens before the `try`, so under Express 4 the handler's
   * promise is rejected and never handled, and this request gets no reply.
   */
  function ListBooks(query: map<string, Value>, findMany: BookLister): (r: Option<Reply>)
    ensures r.None? <==> Pagination(query).Threw?
    ensures r.Some? ==> r.value.authorization == None
  {
    match Pagination(query)
    case Threw => None
    case Ok(paging) =>
      match findMany(paging)
      case Ok(books) => Some(Send(200, BookList(books)))
      case Threw => Some(Send(500, MessageAndError("Error fetching books")))
  }

  /** With neither parameter, the first ten books are asked for. */
  lemma DefaultPaging(query: map<string, Value>)
    requires "page" !in query && "limit" !in query
    ensures Pagination(query) == Ok(Paging(0, 10))
  {
    ParseIntOfUndefined();
  }

  /**
   * With numeric parameters `page=p` and `limit=l`, the store is asked for
   * `l` books from `p * l` on; `limit=0` falls back to 10.
   */
  lemma NumericPaging(query: map<string, Value>, p: int, l: int)
    requires Get(query, "page") == Some(Str(Decimal(p)))
    requires Get(query, "limit") == Some(Str(Decimal(l)))
    ensures var limit := if l == 0 then 10 else l;
      Pagination(query) == Ok(Paging(p * limit, limit))
  {
    assert ToStr(Get(query, "page")) == Ok(Decimal(p));
    assert ToStr(Get(query, "limit")) == Ok(Decimal(l));
    ParseIntRoundTrip(p);
    ParseIntRoundTrip(l);
    ParsedPaging(query, p, l);
  }

  /**
   * The window whenever both parameters convert: `page` is the parsed value,
   * or 0 when that is `NaN` or 0; `limit` is the parsed value, or 10 when
   * that is `NaN` or 0; the store is asked for `limit` books from
   * `page * limit` on. So `?page=2` asks for 10 books from 20 on, and
   * `?limit=5` or `?page=abc&limit=5` for 5 books from 0 on.
   */
  lemma PagingWindow(query: map<string, Value>, pn: Number, ln: Number)
    requires ParseValue(Get(query, "page")) == Ok(pn)
    requires ParseValue(Get(query, "limit")) == Ok(ln)
    ensures var page := if pn.Truthy() then pn.i else 0;
      var limit := if ln.Truthy() then ln.i else 10;
      Pagination(query) == Ok(Paging(page * limit, limit))
  {
    assert IntOr(Get(query, "page"), DefaultPage) == Ok(if pn.Truthy() then pn.i else 0);
    assert IntOr(Get(query, "limit"), DefaultLimit) == Ok(if ln.Truthy() then ln.i else 10);
  }

  /** The window for parameters that parse to the integers `p` and `l`. */
  lemma ParsedPaging(query: map<string, Value>, p: int, l: int)
    requires ParseValue(Get(query, "page")) == Ok(Int(p))
    requires ParseValue(Get(query, "limit")) == Ok(Int(l))
    ensures var limit := if l == 0 then 10 else l;
      Pagination(query) == Ok(Paging(p * limit, limit))
  {
    PagingWindow(query, Int(p), Int(l));
  }

  /**
   * A `page` or `limit` parameter that is an object with an own `toString`
   * member (`?limit[toString]=1` under Express 4's extended query parser)
   * makes the handler throw before the store is asked: nothing is sent,
   * whatever the store would do.
   */
  lemma PagingThrows(query: map<string, Value>, key: string, members: map<string, Value>, findMany: BookLister)
    requires key == "page" || key == "limit"
    requires Get(query, key) == Some(Obj(members)) && "toString" in members
    ensures ListBooks(query, findMany) == None
  {
    ToStrOfObject(members);
  }

  /**
   * Listing replies whenever the window can be computed: 200 with exactly the
   * books the store returned for the window, or 500.
   */
  lemma ListBooksReplies(query: map<string, Value>, findMany: BookLister)
    ensures ListBooks(query, findMany).Some? <==> Pagination(query).Ok?
    ensures ListBooks(query, findMany).Some? ==>
              var r := ListBooks(query, findMany).value;
              && (r.status == 200 <==> findMany(Pagination(query).value).Ok?)
              && (r.status != 200 ==> r == Send(500, MessageAndError("Error fetching books")))
              && (r.status == 200 ==> r.body == BookList(findMany(Pagination(query).value).value))
  {
  }

  // ---------------------------------------------------------------------------
  // GET /books/:id
  // ---------------------------------------------------------------------------

  /** The `GET /books/:id` handler's reply. */
  function GetBook(id: string, findBook: BookFinder): (r: Reply)
    ensures r.status in {200, 400, 404, 500}
    ensures r.authorization == None
  {
    var n := ParseInt(id);
    if !n.Truthy() then Send(400, Message("Invalid book ID"))
    else
      match findBook(n.i)
      case Threw => Send(500, MessageAndError("Server error"))
      case Ok(None) => Send(404, Message("Book not found"))
      case Ok(Some(book)) => Send(200, BookFound(book))
  }

  /**
   * The id is rejected with 400 exactly when it parses to `NaN` or 0, and
   * then before any lookup: the reply is the same for every store.
   */
  lemma BookIdGuard(id: string, findBook: BookFinder, other: BookFinder)
    ensures GetBook(id, findBook).status == 400 <==> ParseInt(id) == NaN || ParseInt(id) == Int(0)
    ensures GetBook(id, findBook).status == 400 ==> GetBook(id, findBook) == GetBook(id, other)
  {
    var n := ParseInt(id);
    if n.Truthy() {
      assert GetBook(id, findBook).status != 400;
    }
  }

  /**
   * An id that `parseInt` reads as a non-zero integer `n`, however it is
   * written (`7`, `007`, ` 7`, `+7`, `0x7`, `7abc`), looks up book `n`: 200
   * with it, 404 when there is none, 500 when the store throws.
   */
  lemma BookFetch(id: string, n: int, findBook: BookFinder)
    requires ParseInt(id) == Int(n) && n != 0
    ensures GetBook(id, findBook) ==
      match findBook(n)
      case Threw => Send(500, MessageAndError("Server error"))
      case Ok(None) => Send(404, Message("Book not found"))
      case Ok(Some(book)) => Send(200, BookFound(book))
  {
  }

  /**
   * In particular, the decimal form of a non-zero `n`, possibly followed by
   * non-digits as in `12abc`, looks up book `n`.
   */
  lemma BookLookup(n: int, rest: string, findBook: BookFinder)
    requires n != 0
    requires rest == [] || (DigitValue(rest[0]) >= 10 && rest[0] != 'x' && rest[0] != 'X')
    ensures var r := GetBook(Decimal(n) + rest, findBook);
      && (findBook(n).Threw? ==> r.status == 500)
      && (findBook(n) == Ok(None) ==> r == Send(404, Message("Book not found")))
      && (findBook(n).Ok? && findBook(n).value.Some? ==> r == Send(200, BookFound(findBook(n).value.value)))
  {
    ParseIntOfDecimal(n, rest);
    BookFetch(Decimal(n) + rest, n, findBook);
  }

  // ---------------------------------------------------------------------------
  // POST /books/:id/reviews
  // ---------------------------------------------------------------------------

  const MissingReviewFields := "Missing required fields (rating, bookId)"

  /** The reviews handler's reply, once the middleware has put `user` on the request. */
  function AddReview(id: string, body: map<string, Value>, user: User, create: ReviewCreator): (r: Reply)
    ensures r.status in {201, 400, 500}
    ensures r.authorization == None
  {
    var bookId := ParseInt(id);
    var rating := Get(body, "rating");
    var comment := Get(body, "comment");
    var userId := user.id;
    if !bookId.Truthy() || !Truthy(rating) then Send(400, Message(MissingReviewFields))
    else
      match ParseValue(rating)
      case Threw => Send(500, MessageAndError("Error adding review"))
      case Ok(k) =>
        var data := ReviewData(k, if Truthy(comment) then comment.value else Null, userId, bookId.i);
        match create(data)
        case Threw => Send(500, MessageAndError("Error adding review"))
        case Ok(review) => Send(201, ReviewAdded("Review added", review))
  }

  /**
   * A review is refused with 400 exactly when the id parses to `NaN` or 0 or
   * the rating is missing or falsy, and then nothing is stored: the reply is
   * the same for every store.
   */
  lemma ReviewGuard(id: string, body: map<string, Value>, user: User, create: ReviewCreator, other: ReviewCreator)
    ensures AddReview(id, body, user, create).status == 400 <==>
              !ParseInt(id).Truthy() || !Truthy(Get(body, "rating"))
    ensures AddReview(id, body, user, create).status == 400 ==>
              AddReview(id, body, user, create) == AddReview(id, body, user, other)
  {
  }

  /**
   * A rating that passes the guard but whose conversion throws (an object
   * with an own `toString` member) is answered with 500 inside the `try`,
   * before anything is stored: the reply is the same for every store.
   */
  lemma ReviewRatingThrows(id: string, body: map<string, Value>, user: User, create: ReviewCreator, other: ReviewCreator)
    requires ParseInt(id).Truthy() && Truthy(Get(body, "rating"))
    requires ToStr(Get(body, "rating")).Threw?
    ensures AddReview(id, body, user, create) == Send(500, MessageAndError("Error adding review"))
    ensures AddReview(id, body, user, create) == AddReview(id, body, user, other)
  {
  }

  /**
   * For an id that parses to a non-zero `n` and a rating that converts and
   * parses to `k`, the review stored carries rating `k`, book `n`, the
   * authenticated user's id, and the comment, or `null` when the comment is
   * missing or falsy.
   */
  lemma ReviewStored(id: string, n: int, k: Number, body: map<string, Value>, user: User, create: ReviewCreator)
    requires ParseInt(id) == Int(n) && n != 0
    requires Truthy(Get(body, "rating")) && ParseValue(Get(body, "rating")) == Ok(k)
    ensures var comment := Get(body, "comment");
      var data := ReviewData(k, if Truthy(comment) then comment.value else Null, user.id, n);
      AddReview(id, body, user, create) ==
        match create(data)
        case Threw => Send(500, MessageAndError("Error adding review"))
        case Ok(review) => Send(201, ReviewAdded("Review added", review))
  {
  }
}
