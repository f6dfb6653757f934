/**
 * The signup payload schema: an object with a `username`, a `password` and a
 * `name`, each a string with length bounds, the password also needing a
 * lower-case and an upper-case ASCII letter. `SafeParse` reports every failed
 * check, field by field in declaration order, as the schema library does, and
 * on success yields exactly those three fields: any other key of the body,
 * `email` included, is dropped.
 */
module SignupSchema {
  import opened Wrappers
  import opened Js

  datatype Field = Username | Password | Name {
    /** The property name the field is read from. */
    function Key(): string {
      match this
      case Username => "username"
      case Password => "password"
      case Name => "name"
    }
  }

  /** One failed check. */
  datatype Check =
    | InvalidType                 // missing, or not a string
    | TooSmall(minimum: nat)      // `.min(minimum)`
    | TooBig(maximum: nat)        // `.max(maximum)`
    | Pattern(message: string)    // `.regex(..., message)`

  datatype Issue = Issue(field: Field, check: Check)

  /** The validated object: these three fields and no other. */
  datatype SignupData = SignupData(username: string, password: string, name: string)

  datatype ParseResult = Success(data: SignupData) | Failure(issues: seq<Issue>)

  const UsernameMin := 8
  const UsernameMax := 20
  const PasswordMin := 8
  const PasswordMax := 20
  const NameMin := 5
  const NameMax := 30
  const LowercaseMessage := "Password must contain at least one lowercase letter"
  const UppercaseMessage := "Password must contain at least one uppercase letter"

  /** `/[a-z]/.test(s)` */
  predicate HasLowercase(s: string) {
    exists i :: 0 <= i < |s| && 'a' <= s[i] <= 'z'
  }

  /** `/[A-Z]/.test(s)` */
  predicate HasUppercase(s: string) {
    exists i :: 0 <= i < |s| && 'A' <= s[i] <= 'Z'
  }

  /** The issues of `z.string().min(min).max(max)` for the string `s`. */
  function LengthIssues(field: Field, s: string, min: nat, max: nat): seq<Issue> {
    (if |s| < min then [Issue(field, TooSmall(min))] else [])
    + (if |s| > max then [Issue(field, TooBig(max))] else [])
  }

  function UsernameIssues(v: Option<Value>): seq<Issue> {
    match v
    case Some(Str(s)) => LengthIssues(Username, s, UsernameMin, UsernameMax)
    case _ => [Issue(Username, InvalidType)]
  }

  function PasswordIssues(v: Option<Value>): seq<Issue> {
    match v
    case Some(Str(s)) =>
      LengthIssues(Password, s, PasswordMin, PasswordMax)
      + (if HasLowercase(s) then [] else [Issue(Password, Pattern(LowercaseMessage))])
      + (if HasUppercase(s) then [] else [Issue(Password, Pattern(UppercaseMessage))])
    case _ => [Issue(Password, InvalidType)]
  }

  function NameIssues(v: Option<Value>): seq<Issue> {
    match v
    case Some(Str(s)) => LengthIssues(Name, s, NameMin, NameMax)
    case _ => [Issue(Name, InvalidType)]
  }

  /** `schema.safeParse(body)` */
  function SafeParse(body: map<string, Value>): (r: ParseResult)
    ensures r.Failure? ==> |r.issues| > 0
  {
    var username := Get(body, Username.Key());
    var password := Get(body, Password.Key());
    var name := Get(body, Name.Key());
    var issues := UsernameIssues(username) + PasswordIssues(password) + NameIssues(name);
    if issues == [] then
      Success(SignupData(username.value.s, password.value.s, name.value.s))
    else
      Failure(issues)
  }

  // ---------------------------------------------------------------------------
  // The schema's meaning, stated without the issue lists
  // ---------------------------------------------------------------------------

  /** `v` is a string whose length lies in `[min, max]`. */
  predicate StringOfLength(v: Option<Value>, min: nat, max: nat) {
    v.Some? && v.value.Str? && min <= |v.value.s| <= max
  }

  predicate GoodPassword(v: Option<Value>) {
    StringOfLength(v, PasswordMin, PasswordMax) && HasLowercase(v.value.s) && HasUppercase(v.value.s)
  }

  /** The body satisfies every field constraint. */
  predicate ValidSignup(body: map<string, Value>) {
    && StringOfLength(Get(body, "username"), 8, 20)
    && GoodPassword(Get(body, "password"))
    && StringOfLength(Get(body, "name"), 5, 30)
  }

  /** `username` passes iff it is a string of 8 to 20 characters. */
  lemma UsernameRule(v: Option<Value>)
    ensures UsernameIssues(v) == [] <==> StringOfLength(v, 8, 20)
  {
  }

  /** `name` passes iff it is a string of 5 to 30 characters. */
  lemma NameRule(v: Option<Value>)
    ensures NameIssues(v) == [] <==> StringOfLength(v, 5, 30)
  {
  }

  /**
   * `password` passes iff it is a string of 8 to 20 characters with a
   * lower-case and an upper-case letter; a missing lower-case or upper-case
   * letter is reported with the schema's own message, whatever the length.
   */
  lemma PasswordRule(v: Option<Value>)
    ensures PasswordIssues(v) == [] <==> GoodPassword(v)
    ensures v.Some? && v.value.Str? && !HasLowercase(v.value.s) ==>
              Issue(Password, Pattern(LowercaseMessage)) in PasswordIssues(v)
    ensures v.Some? && v.value.Str? && !HasUppercase(v.value.s) ==>
              Issue(Password, Pattern(UppercaseMessage)) in PasswordIssues(v)
  {
  }

  /** Every issue names the field it was found in. */
  lemma IssuesAreAttributed(v: Option<Value>, i: int)
    ensures 0 <= i < |UsernameIssues(v)| ==> UsernameIssues(v)[i].field == Username
    ensures 0 <= i < |PasswordIssues(v)| ==> PasswordIssues(v)[i].field == Password
    ensures 0 <= i < |NameIssues(v)| ==> NameIssues(v)[i].field == Name
  {
  }

  /**
   * The body validates iff every field constraint holds, and then the
   * validated object holds exactly the submitted username, password and name.
   */
  lemma SafeParseMeaning(body: map<string, Value>)
    ensures SafeParse(body).Success? <==> ValidSignup(body)
    ensures SafeParse(body).Success? ==>
              && Get(body, "username") == Some(Str(SafeParse(body).data.username))
              && Get(body, "password") == Some(Str(SafeParse(body).data.password))
              && Get(body, "name") == Some(Str(SafeParse(body).data.name))
  {
    UsernameRule(Get(body, "username"));
    PasswordRule(Get(body, "password"));
    NameRule(Get(body, "name"));
  }

  /**
   * Only the three schema fields matter: two bodies that agree on them parse
   * to the same result, whatever `email` or any other key holds.
   */
  lemma OtherKeysIgnored(b1: map<string, Value>, b2: map<string, Value>)
    requires Get(b1, "username") == Get(b2, "username")
    requires Get(b1, "password") == Get(b2, "password")
    requires Get(b1, "name") == Get(b2, "name")
    ensures SafeParse(b1) == SafeParse(b2)
  {
  }

  /** The password `Abcdefgh` satisfies the password rule. */
  lemma ExamplePasswordAccepted()
    ensures GoodPassword(Some(Str("Abcdefgh")))
  {
    assert 'b' == "Abcdefgh"[1];
    assert 'A' == "Abcdefgh"[0];
  }

  /**
   * A body of email, password and name, the fields a sign-up form would
   * send, is refused: the schema asks for a `username`, and reports exactly
   * that one issue, even though password and name are acceptable.
   */
  lemma SignupWithoutUsername(body: map<string, Value>)
    requires body == map["email" := Str("a@x.com"), "password" := Str("Abcdefgh"), "name" := Str("Alice")]
    ensures SafeParse(body) == Failure([Issue(Username, InvalidType)])
  {
    ExamplePasswordAccepted();
    assert Get(body, Username.Key()) == None;
    assert Get(body, Password.Key()) == Some(Str("Abcdefgh"));
    assert Get(body, Name.Key()) == Some(Str("Alice"));
    assert |"Abcdefgh"| == 8 && |"Alice"| == 5;
    assert LengthIssues(Password, "Abcdefgh", PasswordMin, PasswordMax) == [];
    assert PasswordIssues(Some(Str("Abcdefgh"))) == [];
    assert NameIssues(Some(Str("Alice"))) == [];
    assert UsernameIssues(None) == [Issue(Username, InvalidType)];
  }
}
