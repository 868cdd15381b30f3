/** The `signup-auto` edge function: it creates an account for an email address with a generated
    password and maps every way that can go to an HTTP status. The random source and the admin
    `createUser` call are oracles. */
module SignupAuto {
  import opened Common

  const Alphabet: string := "ABCDEFGHIJKLMNOPQRSTUVWXYZabcdefghijklmnopqrstuvwxyz0123456789!@#$%^&*"
  const PasswordLength: nat := 16

  /** Values `Math.random()` may return. */
  predicate IsDraws(draws: seq<real>) {
    |draws| == PasswordLength && forall i :: 0 <= i < |draws| ==> 0.0 <= draws[i] < 1.0
  }

  /** `Math.floor(r * chars.length)` */
  function CharIndex(r: real): (k: nat)
    requires 0.0 <= r < 1.0
    ensures k < |Alphabet|
    ensures k as real <= r * |Alphabet| as real < k as real + 1.0
  {
    (r * 70.0).Floor
  }

  /** The password built from the draws, one character per draw. */
  function PasswordFrom(draws: seq<real>): string
    requires IsDraws(draws)
  {
    seq(PasswordLength, i requires 0 <= i < PasswordLength => Alphabet[CharIndex(draws[i])])
  }

  lemma PasswordShape(draws: seq<real>)
    requires IsDraws(draws)
    ensures |PasswordFrom(draws)| == 16
    ensures forall i :: 0 <= i < 16 ==> PasswordFrom(draws)[i] in Alphabet
  {
    forall i | 0 <= i < 16 ensures PasswordFrom(draws)[i] in Alphabet {
      assert PasswordFrom(draws)[i] == Alphabet[CharIndex(draws[i])];
    }
  }

  /** Every character of the alphabet can be drawn: the draw k/70 gives the k-th one. */
  lemma EveryCharReachable(k: nat)
    requires k < |Alphabet|
    ensures 0.0 <= k as real / 70.0 < 1.0
    ensures Alphabet[CharIndex(k as real / 70.0)] == Alphabet[k]
  {
    assert k as real / 70.0 * 70.0 == k as real;
  }

  /** `generatePassword()`, drawing from `draws` in order. */
  method GeneratePassword(draws: seq<real>) returns (password: string)
    requires IsDraws(draws)
    ensures password == PasswordFrom(draws)
    ensures |password| == 16 && forall i :: 0 <= i < 16 ==> password[i] in Alphabet
  {
    password := "";
    for i := 0 to PasswordLength
      invariant |password| == i
      invariant forall j :: 0 <= j < i ==> password[j] == Alphabet[CharIndex(draws[j])]
    {
      password := password + [Alphabet[CharIndex(draws[i])]];
    }
    PasswordShape(draws);
  }

  /** The request body: JSON that fails to parse, or an object whose `email` may be missing. */
  datatype Body = Unparsable(message: string) | Parsed(email: Option<string>)

  /** `createUser`'s answer: the created user, an `error` in the result, or a thrown error. */
  datatype CreateReply =
    | UserCreated(userId: string, email: string)
    | CreateFailed(message: string)
    | CreateThrew(message: string)

  /** The arguments of the `createUser` call. */
  datatype CreateUserCall = CreateUserCall(email: string, password: string, emailConfirm: bool)

  datatype ResponseBody =
    | PlainText(text: string)
    | ErrorJson(error: string, code: Option<string>)
    | AccountJson(userId: string, email: string, password: string)

  datatype Response = Response(status: nat, body: ResponseBody, headers: seq<(string, string)>)

  /** What one request produced: the response, and the `createUser` call if one was made. */
  datatype Run = Run(response: Response, call: Option<CreateUserCall>)

  const CorsHeaders: seq<(string, string)> := [
    ("Access-Control-Allow-Origin", "*"),
    ("Access-Control-Allow-Methods", "POST, OPTIONS"),
    ("Access-Control-Allow-Headers", "Content-Type")
  ]

  const JsonHeaders: seq<(string, string)> := [("Content-Type", "application/json")]

  const DefaultFailure: string := "Failed to create user"

  /** `!email || !email.includes("@")` */
  predicate BadEmail(email: Option<string>) {
    !Truthy(email) || !Contains(email.value, "@")
  }

  /** An error message that marks an existing account. */
  predicate IsDuplicate(message: string) {
    Contains(message, "already registered") || Contains(message, "duplicate")
  }

  function ServerError(message: string): Response {
    Response(500, ErrorJson(if message != "" then message else DefaultFailure, None), JsonHeaders)
  }

  /** The request handler, for HTTP method `verb`. */
  function Handle(verb: string, body: Body, draws: seq<real>, reply: CreateReply): Run
    requires IsDraws(draws)
  {
    if verb == "OPTIONS" then Run(Response(200, PlainText("ok"), CorsHeaders), None)
    else if verb != "POST" then Run(Response(405, ErrorJson("Method not allowed", None), JsonHeaders), None)
    else match body
      case Unparsable(m) => Run(ServerError(m), None)
      case Parsed(email) =>
        if BadEmail(email) then Run(Response(400, ErrorJson("Valid email required", None), JsonHeaders), None)
        else
          var password := PasswordFrom(draws);
          var call := Some(CreateUserCall(email.value, password, true));
          match reply
          case CreateFailed(m) =>
            if IsDuplicate(m) then
              Run(Response(409, ErrorJson("Email already registered", Some("USER_EXISTS")), JsonHeaders), call)
            else Run(ServerError(m), call)
          case CreateThrew(m) => Run(ServerError(m), call)
          case UserCreated(id, e) => Run(Response(201, AccountJson(id, e, password), JsonHeaders), call)
  }

  lemma PreflightAnswered(body: Body, draws: seq<real>, reply: CreateReply)
    requires IsDraws(draws)
    ensures Handle("OPTIONS", body, draws, reply) == Run(Response(200, PlainText("ok"), CorsHeaders), None)
  {
  }

  lemma OtherVerbsRefused(verb: string, body: Body, draws: seq<real>, reply: CreateReply)
    requires IsDraws(draws) && verb != "OPTIONS" && verb != "POST"
    ensures Handle(verb, body, draws, reply).response.status == 405
    ensures Handle(verb, body, draws, reply).call.None?
  {
  }

  /** A missing or "@"-less email is a 400 and creates nobody. */
  lemma BadEmailRefused(email: Option<string>, draws: seq<real>, reply: CreateReply)
    requires IsDraws(draws) && BadEmail(email)
    ensures Handle("POST", Parsed(email), draws, reply) ==
            Run(Response(400, ErrorJson("Valid email required", None), JsonHeaders), None)
  {
  }

  /** An account is asked for exactly when a POST carries a usable email, and then with the
      generated password and a confirmed address. */
  lemma CreateCalledIff(verb: string, body: Body, draws: seq<real>, reply: CreateReply)
    requires IsDraws(draws)
    ensures Handle(verb, body, draws, reply).call.Some? <==> verb == "POST" && body.Parsed? && !BadEmail(body.email)
    ensures Handle(verb, body, draws, reply).call.Some? ==>
      Handle(verb, body, draws, reply).call.value == CreateUserCall(body.email.value, PasswordFrom(draws), true)
  {
  }

  /** The status of a request that reached `createUser`. Only an error returned in the result is
      checked for a duplicate; a thrown one is a 500 whatever its message says. */
  lemma CreateStatuses(email: string, draws: seq<real>, reply: CreateReply)
    requires IsDraws(draws) && !BadEmail(Some(email))
    ensures var r := Handle("POST", Parsed(Some(email)), draws, reply).response;
      (r.status == 201 <==> reply.UserCreated?) &&
      (r.status == 409 <==> reply.CreateFailed? && IsDuplicate(reply.message)) &&
      (r.status == 500 <==> reply.CreateThrew? || (reply.CreateFailed? && !IsDuplicate(reply.message)))
    ensures var r := Handle("POST", Parsed(Some(email)), draws, reply).response;
      r.status == 409 ==> r.body == ErrorJson("Email already registered", Some("USER_EXISTS"))
    ensures var run := Handle("POST", Parsed(Some(email)), draws, reply);
      run.response.status == 201 ==> run.response.body.password == run.call.value.password == PasswordFrom(draws)
  {
  }

  /** Every answer has one of six statuses, and every failure status carries a JSON error. */
  lemma StatusesAreSix(verb: string, body: Body, draws: seq<real>, reply: CreateReply)
    requires IsDraws(draws)
    ensures Handle(verb, body, draws, reply).response.status in {200, 201, 400, 405, 409, 500}
    ensures Handle(verb, body, draws, reply).response.status >= 400 ==>
      Handle(verb, body, draws, reply).response.body.ErrorJson? &&
      Handle(verb, body, draws, reply).response.body.error != ""
  {
  }
}
