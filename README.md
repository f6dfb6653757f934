# book-api: authentication and request guards, modelled in Dafny

This project models the request-level decision logic of a small Express book
API. It covers:

- the `authenticate` middleware that guards the mutating routes;
- the `/login` and `/signup` handlers;
- the zod schema that validates signup payloads;
- the query and path guards of `GET /books`, `GET /books/:id` and
  `POST /books/:id/reviews`.

The libraries the code calls are parameters of the model: `jsonwebtoken`
(sign and verify), `bcrypt` (hash and compare) and the Prisma client. Each
one is a function that returns `Attempt<T>`: either a value, or `Threw` for
an exception. A property such as "rejected before any lookup" is therefore
stated as "the reply is the same for every store".

The model assumes Express 4 with its default settings, on which three of its
statements depend:

- the "extended" query parser is `qs` with `allowPrototypes: true`, so
  `?limit[toString]=1` gives `req.query.limit` the object `{toString: '1'}`;
- a rejected promise from an `async` handler is ignored by Express 4, so the
  request gets no reply (Express 5 would pass it to its error handler, which
  answers 500);
- `express.json()` (body-parser 1.x) sets `req.body` to `{}` when no JSON body
  is sent, so the body is always an object (`Request.body` is a map).

Files:

- `wrappers.dfy`: `Option` and `Attempt`.
- `js.dfy`: the JavaScript built-ins the handlers depend on:
  - JSON values and truthiness;
  - `String(v)`, including `Array.prototype.join`. It throws a TypeError for
    an object with an own `toString` member, such as the body
    `{"rating": {"toString": 1}}` or the query `?limit[toString]=1`;
  - `parseInt` with no radix (leading whitespace, a sign, a `0x` prefix, the
    longest run of digits, `NaN` when there are none);
  - `String.prototype.split` on one character.

  It proves that `parseInt` reads back the decimal form of any integer, and
  that `split` is undone by `join`.
- `signup_schema.dfy`: the schema as the list of issues that `safeParse`
  reports. It is related to a plain conjunction of the field constraints.
- `api.dfy`: the stored records and the JSON response bodies. Express's
  `Request` (with its mutable `user`) and `Response` (status, headers, body
  sent at most once) are classes.
- `auth.dfy`: the decision functions `Gate` (the middleware), `Login` and
  `Signup`, with their properties.
- `books.dfy`: `Pagination`, `ListBooks`, `GetBook` and `AddReview`, with
  their properties.
- `routes.dfy`: the handlers as imperative methods over `Request`/`Response`,
  with early returns as in the source. Each is proved to leave the response
  its decision function describes. `Authenticate` either sends one 401 or
  sets `req.user` and signals `next()`, never both.

The code behaves as follows where its interface suggests otherwise:

- The signup schema checks `username`, `password` and `name`. It does not
  check `email`, and it drops unknown keys. The handler then reads `email`
  from the validated data, so the user record given to the store always has
  an absent email (`NewUser(None, ...)` in `Auth.Signup`; see
  `Auth.SignupOutcome`). A sign-up that sends email, password and name but
  no username is refused with 400 (`Auth.SignupNeedsUsername`).
- A rejected token gives `{ message: 'Unauthorized', error: err.message }`.
  The library's error text (expired, bad signature, malformed) does reach the
  caller. The model keeps the `error` field (`MessageAndError`) but not its
  text.
- A failure of the user store is not one server error everywhere:
  - in the middleware it is a 401 "Unauthorized";
  - in signup a failed hash or insert is a 400;
  - in login it is a 500.
- A `page` or `limit` whose `String` conversion throws makes `GET /books`
  throw before its `try`: the promise is rejected and never handled, so this
  request gets no reply, and on Node 15 or later the process exits
  (`Books.PagingThrows`). A single unauthenticated `GET /books?limit[toString]=1`
  therefore stops the server. A review rating whose conversion throws is
  caught by the handler's `try` and answered with 500 before anything is
  stored (`Books.ReviewRatingThrows`).
- The header check splits on every space and ignores pieces after the
  second. `Bearer t extra` is accepted with token `t`. `Bearer  t` (two
  spaces) is rejected. An empty header counts as missing.

## Model

| member | source | states |
|---|---|---|
| `Js.Split` | index.js:61 | splitting always yields at least one piece |
| `Js.SplitJoin` | index.js:61 | joining the pieces of `split(' ')` with a space gives back the header |
| `Js.SplitPiecesFree` | index.js:61 | no piece of `split(' ')` contains a space |
| `Js.SplitWhole` | index.js:61 | a string without a space is a single piece, so `token` is undefined |
| `Js.SplitAtFirst` | index.js:61 | the first piece ends at the first space; the remaining pieces are the split of what follows |
| `Js.ToStr` | index.js:95-96 | `String(v)`; only an object or an array can make it throw; `Js.ParseIntOfUndefined` covers an absent value |
| `Js.ToStrOfObject` | index.js:133 | `String` throws on an object exactly when it has an own `toString` member; otherwise it gives `"[object Object]"` |
| `Js.JoinThrows` | index.js:133 | `String` of an array throws when the conversion of one of its elements throws |
| `Js.ParseValue` | index.js:95-96 | `parseInt(v)` throws exactly when `String(v)` does |
| `Js.ParseInt` | index.js:108 | `parseInt(s)` is `NaN` when `s` holds no decimal digit; `Js.ParseIntOfDecimal` and `Js.ParseIntRoundTrip` give its value on numbers |
| `Js.ParseIntOfDecimal` | index.js:108 | `parseInt` reads back the decimal form of any integer, ignoring a trailing suffix such as `12abc` that starts with a non-digit other than `x` or `X` |
| `Js.ParseIntRoundTrip` | index.js:95-96 | `parseInt(String(n)) == n` for every integer `n` |
| `Js.ParseIntOfUndefined` | index.js:95-96 | an absent query parameter converts without throwing and parses to `NaN` |
| `Js.ParseIntOfNumber` | index.js:133 | a numeric JSON rating converts without throwing and parses back to itself |
| `SignupSchema.SafeParse` | signupSchema.js:3-7 | `schema.safeParse(body)`: a failure always reports at least one issue; `SignupSchema.SafeParseMeaning` gives exactly when it succeeds |
| `SignupSchema.UsernameRule` | signupSchema.js:4 | `username` passes iff it is a string of 8 to 20 characters |
| `SignupSchema.PasswordRule` | signupSchema.js:5 | `password` passes iff it is a string of 8 to 20 characters with an ASCII lower-case and an upper-case letter; a missing letter class is reported with the schema's own message |
| `SignupSchema.NameRule` | signupSchema.js:6 | `name` passes iff it is a string of 5 to 30 characters |
| `SignupSchema.IssuesAreAttributed` | signupSchema.js:3-7 | every reported issue names the field it was found in |
| `SignupSchema.SafeParseMeaning` | signupSchema.js:3-7 | the body validates iff all field constraints hold together; the validated data is exactly the submitted username, password and name |
| `SignupSchema.OtherKeysIgnored` | signupSchema.js:3-7 | bodies that agree on the three schema fields parse alike, whatever `email` or other keys hold |
| `SignupSchema.ExamplePasswordAccepted` | signupSchema.js:5 | `Abcdefgh` satisfies the password rule |
| `SignupSchema.SignupWithoutUsername` | signupSchema.js:3-7 | a body of email `a@x.com`, password `Abcdefgh` and name `Alice` fails with exactly one issue: `username` is not a string |
| `Auth.JwtToken` | index.js:16-18 | `jwtToken(email)` signs the payload `{ email }` with lifetime `1h`; `Auth.LoginReplies` states what login does with it |
| `Auth.BearerToken` | index.js:60-63 | the format check; a token it accepts is non-empty and holds no space; `Auth.BearerTokenAccepts` and `Auth.BearerTokenShape` characterise it |
| `Auth.Gate` | index.js:56-75 | the middleware's decision; proceeding implies a present header that passes the format check; the `Auth.Gate*` lemmas give each outcome |
| `Auth.BearerTokenAccepts` | index.js:61-63 | `Bearer <t><r>` passes the format check with token `t` when `t` is non-empty without spaces and `r` is empty or starts with a space |
| `Auth.BearerTokenShape` | index.js:61-63 | conversely, a passing header is exactly `Bearer `, a non-empty space-free token, then nothing or a space |
| `Auth.DoubleSpaceRejected` | index.js:61-63 | `Bearer  t` (two spaces) fails the format check |
| `Auth.GateMissingHeader` | index.js:58-59 | a missing or empty header is rejected with "Authorization header missing" for every verifier and store |
| `Auth.GateBadFormat` | index.js:61-64 | a present header is rejected with "Invalid token format" iff it fails the format check, before verification or lookup |
| `Auth.GateBadToken` | index.js:66-73 | a token that verification throws on gives 401 "Unauthorized", whatever the store holds |
| `Auth.GateStoreFailure` | index.js:67-73 | a user lookup that throws gives 401 "Unauthorized", not a server error |
| `Auth.GateUnknownUser` | index.js:67-68 | a verified token whose email has no user gives "User not found" |
| `Auth.GateAccepts` | index.js:56-75 | a well-formed bearer header with a verifying token and a stored user proceeds with exactly that user |
| `Auth.GateProceedShape` | index.js:56-75 | a request proceeds only if all four checks passed, and then with the user stored for the token's email |
| `Auth.Login` | index.js:21-36 | the login decision: 200, 401 or 500, with an `Authorization` header exactly on 200 |
| `Auth.LoginHidesAccounts` | index.js:24-28 | an unknown email and a wrong password get the identical 401 "Invalid Credentials" reply |
| `Auth.LoginReplies` | index.js:16-35 | login answers 200, 401 or 500. The `Authorization` header is set only on 200, as `Bearer ` plus the body's token. That token was signed for the submitted email with lifetime `1h`, and the password matched the stored hash |
| `Auth.LoginAccepts` | index.js:24-32 | a matching password and a signed token give 200 |
| `Auth.LoginThenAuthenticate` | index.js:30-32 | the header a successful login returns passes the middleware when its token is non-empty and has no space, as a JWT is, the token verifies, and the user still exists |
| `Auth.Signup` | index.js:39-53 | the signup decision: 201 or 400, never with an `Authorization` header |
| `Auth.SignupNeedsUsername` | index.js:40-43 | a sign-up with email, password and name but no username gets 400 naming `username`, whatever the hasher and store do |
| `Auth.SignupRejectsInvalid` | index.js:40-43 | an invalid body gets exactly `400 InvalidInput(issues)` with the issue list `SafeParse` reported, which is non-empty, before hashing or storing |
| `Auth.SignupOutcome` | index.js:39-53 | signup answers 201 or 400. It is 201 iff the body is valid, hashing with 10 rounds succeeds, and storing the hash, the name and an absent email succeeds |
| `Books.IntOr` | index.js:95-96 | `parseInt(x) \|\| d` throws exactly when `String(x)` does; otherwise it is the parsed integer when that is neither `NaN` nor 0, else the fallback, so never 0 when the fallback is not 0 |
| `Books.Pagination` | index.js:95-99 | the `take` passed to the store is never 0; computing the window throws exactly when `page` or `limit` cannot be converted |
| `Books.ListBooks` | index.js:94-104 | the listing decision: no reply exactly when computing the window throws, and never an `Authorization` header |
| `Books.DefaultPaging` | index.js:95-99 | without parameters the store is asked for `skip 0, take 10` |
| `Books.NumericPaging` | index.js:95-99 | with `page=p`, `limit=l` the store is asked for `skip p*l, take l`; `limit=0` falls back to 10 |
| `Books.PagingWindow` | index.js:95-99 | whenever `page` and `limit` convert, the store is asked for `skip P*L, take L`, where `P` is the parsed page or 0 when that is `NaN` or 0, and `L` is the parsed limit or 10 when that is `NaN` or 0; so `?page=2` gives `skip 20, take 10` and `?limit=5` gives `skip 0, take 5` |
| `Books.ParsedPaging` | index.js:95-99 | parameters that parse to `p` and `l` give `skip p*l, take l`, with 10 in place of a zero limit |
| `Books.PagingThrows` | index.js:95-96 | a `page` or `limit` object with an own `toString` member makes the handler throw before the store is asked, so nothing is sent |
| `Books.ListBooksReplies` | index.js:94-104 | listing replies exactly when the window can be computed, and then answers 200 with exactly the books the store returned, or 500 |
| `Books.GetBook` | index.js:107-120 | the book lookup decision: 200, 400, 404 or 500 |
| `Books.BookIdGuard` | index.js:108-111 | a book id is rejected with 400 iff it parses to `NaN` or 0; the reply is then the same for every store |
| `Books.BookFetch` | index.js:107-120 | an id that `parseInt` reads as a non-zero `n`, however written (`007`, ` 7`, `+7`, `0x7`), looks up book `n`: 200 with it, 404 "Book not found" if absent, 500 "Server error" if the store throws |
| `Books.BookLookup` | index.js:107-120 | a non-zero numeric id looks up that book: 200 with it, 404 if absent, 500 if the store throws |
| `Books.AddReview` | index.js:123-138 | the review decision: 201, 400 or 500 |
| `Books.ReviewGuard` | index.js:124-130 | a review is refused with 400 iff the id parses to `NaN` or 0 or the rating is falsy; nothing is stored then |
| `Books.ReviewRatingThrows` | index.js:128-136 | a rating past the guard whose conversion throws is answered with 500 "Error adding review", and nothing is stored |
| `Books.ReviewStored` | index.js:124-137 | for an id that parses to a non-zero `n` and a truthy rating that converts and parses to `k`, the review stored has rating `k`, book `n`, the authenticated user's id, and the comment or `null` |
| `Routes.Authenticate` | index.js:56-75 | sends exactly the 401 body of the first failed check and leaves `req.user` alone, or sets `req.user` to the stored user and calls `next` with nothing sent |
| `Routes.LoginRoute` | index.js:21-36 | the response shows `Auth.Login`'s reply, including the `Authorization` header |
| `Routes.SignupRoute` | index.js:39-53 | the response shows `Auth.Signup`'s reply |
| `Routes.ListBooksRoute` | index.js:94-104 | the response shows `Books.ListBooks`'s reply, and is left untouched when there is none |
| `Routes.GetBookRoute` | index.js:107-120 | the response shows `Books.GetBook`'s reply |
| `Routes.AddReviewHandler` | index.js:123-138 | the response shows `Books.AddReview`'s reply for the user on the request |
| `Routes.AddReviewRoute` | index.js:123 | a rejected request gets the middleware's 401 and never reaches the handler; an accepted one is handled for the resolved user |

## Left out

- bcrypt hashing and comparison are parameters (`Hasher`, `PasswordCheck`). Salting, cost and constant-time comparison are not modelled.
- `jsonwebtoken` signing and verification are parameters (`Signer`, `Verifier`). The secret, the signature and the wall-clock expiry live inside them. The code does not tell format, signature and expiry failures apart, and neither does the model.
- The Prisma client is a set of parameters that return a record, nothing, or an exception. The database's own semantics are not modelled.
- The text of `err.message` in error bodies is library-defined. The model records only that the `error` field is present.
- Express wiring, `express.json()`, `dotenv`, `process.env`, `PORT` and `app.listen` (index.js:1-13, 187) are not modelled. Neither is the `Content-Type` header that `res.json` sets.
- `async`/`await`: each request is modelled as one sequential run.
- Process termination on an unhandled rejection (Node 15 and later) is outside the per-request model: `Books.ListBooks` records only that the request gets no reply, not that later requests go unanswered.
- `POST /books` (index.js:77-91), `PUT /reviews/:id` and `DELETE /reviews/:id` (index.js:140-163), and `GET /search` (index.js:165-185) are not part of this model. They are store pass-through, not decision logic.
- Numbers are exact integers. JSON fractions, values beyond 2^53, and the exponent form `String` gives numbers of 1e21 and above are not modelled. The same goes for the floating-point `page * limit`.
- Schema lengths count Dafny characters (Unicode scalar values). The schema library counts UTF-16 code units, so the two differ for characters outside the Basic Multilingual Plane.
- The issue tree that `error.format()` builds is represented by the flat, ordered issue list it is built from.
- If `next()` threw synchronously, the middleware's `catch` would send a 401 after the route had already run. Express catches handler errors itself, so this path is not modelled.
- Request bodies are JSON objects. `express.json()` also accepts a top-level JSON array, and such a body is not modelled.
- An object's members are kept as JSON or the query parser gives them. `toString` and `valueOf` members are never functions there. Prototype lookups beyond `toString` are not modelled.
- Duplicate `Authorization` request headers, and Node's handling of them, are not modelled.
