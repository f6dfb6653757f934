/**
 * What crosses a handler's boundary: the stored records the database hands
 * back, the JSON bodies the handlers send, and Express's request and response
 * objects, which the handlers change in place.
 */
module Api {
  import opened Wrappers
  import opened Js
  import SignupSchema

  /** A stored user; `password` holds the bcrypt hash. */
  datatype User = User(id: int, email: string, password: string, name: string)

  datatype Book = Book(id: int, title: string, author: string, genre: string, addedById: int)

  datatype Review = Review(id: int, rating: int, comment: Option<string>, userId: int, bookId: int)

  /** A book read together with its reviews. */
  datatype BookWithReviews = BookWithReviews(book: Book, reviews: seq<Review>)

  /** The JSON bodies the handlers send. */
  datatype Body =
    | Message(message: string)                        // { message }
    | MessageAndError(message: string)                // { message, error: err.message }
    | ExceptionMessage                                // { message: err.message }
    | InvalidInput(issues: seq<SignupSchema.Issue>)   // { message: 'Invalid input', errors }
    | LoginSuccess(token: string, message: string)    // { token, message }
    | BookList(books: seq<Book>)
    | BookFound(found: BookWithReviews)
    | ReviewAdded(message: string, review: Review)    // { message, review }

  /**
   * The response a handler decides on: status, body, and the value it gives
   * the `Authorization` response header, if it sets one.
   */
  datatype Reply = Reply(status: int, body: Body, authorization: Option<string>)

  /** `res.status(status).json(body)` with no header set. */
  function Send(status: int, body: Body): Reply {
    Reply(status, body, None)
  }

  const AuthorizationHeader := "Authorization"

  /** The request: what the client sent, and the `user` slot the auth middleware fills in. */
  class Request {
    const authorization: Option<string>     // req.headers.authorization
    const body: map<string, Value>          // req.body, as parsed by express.json()
    const query: map<string, Value>         // req.query
    const params: map<string, string>       // req.params
    var user: Option<User>                  // req.user

    constructor (authorization: Option<string>, body: map<string, Value>,
                 query: map<string, Value>, params: map<string, string>)
      ensures this.authorization == authorization && this.body == body
      ensures this.query == query && this.params == params
      ensures user == None
    {
      this.authorization := authorization;
      this.body := body;
      this.query := query;
      this.params := params;
      user := None;
    }
  }

  /** The response: a status code, headers, and the body once one has been sent. */
  class Response {
    var statusCode: int
    var headers: map<string, string>
    var sent: Option<Body>

    /** Every response starts as 200 with nothing sent. */
    constructor ()
      ensures statusCode == 200 && headers == map[] && sent == None
    {
      statusCode := 200;
      headers := map[];
      sent := None;
    }

    /** Nothing has been sent yet and the status is still the default. */
    predicate Untouched()
      reads this
    {
      statusCode == 200 && sent == None
    }

    /** `res.status(code)` */
    method Status(code: int)
      modifies this
      ensures statusCode == code && headers == old(headers) && sent == old(sent)
    {
      statusCode := code;
    }

    /** `res.setHeader(name, value)`: headers cannot change once the body is sent. */
    method SetHeader(name: string, value: string)
      requires sent == None
      modifies this
      ensures headers == old(headers)[name := value]
      ensures statusCode == old(statusCode) && sent == old(sent)
    {
      headers := headers[name := value];
    }

    /** `res.json(body)`: a response is sent at most once. */
    method Json(body: Body)
      requires sent == None
      modifies this
      ensures sent == Some(body)
      ensures statusCode == old(statusCode) && headers == old(headers)
    {
      sent := Some(body);
    }

    /** The response shows `r`, starting from the headers `before`. */
    predicate Shows(r: Reply, before: map<string, string>)
      reads this
    {
      && statusCode == r.status
      && sent == Some(r.body)
      && headers == (if r.authorization.Some? then before[AuthorizationHeader := r.authorization.value] else before)
    }
  }
}
