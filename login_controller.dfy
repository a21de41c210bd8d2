/**
 * POST /login: call the login service, answer with its result, or turn
 * the error it throws into a status and a `{message}` body.
 */
module LoginController {
  import opened Schema
  import opened LoginService

  datatype Body = ResultBody(result: LoginResult) | MessageBody(message: string)
  datatype Response = Response(status: nat, body: Body)

  /** The status of a failed login: 403 for exactly the unverified message, 401 for any other. */
  function ErrorStatus(message: string): (status: nat)
    ensures status == 403 <==> message == NotVerifiedMessage
    ensures status == 401 <==> message != NotVerifiedMessage
  {
    if message == NotVerifiedMessage then 403 else 401
  }

  /**
   * The handler, given what the service produced: `LoginFailed(m)` stands
   * for any error with message `m`, including ones the service did not
   * raise itself (a lost database connection, say).
   */
  function HandleLogin(outcome: LoginResult): (resp: Response)
    ensures outcome.LoginOk? <==> resp.status == 200
    ensures outcome.LoginOk? ==> resp.body == ResultBody(outcome)
    ensures outcome.LoginFailed? ==> resp.body == MessageBody(outcome.message)
    ensures resp.status == 403 <==> outcome.LoginFailed? && outcome.message == NotVerifiedMessage
    ensures resp.status == 401 <==> outcome.LoginFailed? && outcome.message != NotVerifiedMessage
  {
    match outcome
    case LoginOk(_, _, _) => Response(200, ResultBody(outcome))
    case LoginFailed(m) => Response(ErrorStatus(m), MessageBody(m))
  }

  /** The three answers POST /login gives, in terms of the users table. */
  lemma LoginStatuses(us: seq<User>, email: string, password: string,
                      passwordMatches: (string, string) -> bool)
    ensures var resp := HandleLogin(Login(us, email, password, passwordMatches));
            var f := FindUserByEmail(us, email);
            && (resp.status == 403 <==> f.Some? && !us[f.value].verified)
            && (resp.status == 401 <==>
                  f.None? || (us[f.value].verified && !passwordMatches(password, us[f.value].passwordHash)))
            && (resp.status == 200 <==>
                  f.Some? && us[f.value].verified && passwordMatches(password, us[f.value].passwordHash))
  {
    var f := FindUserByEmail(us, email);
    if f.Some? && us[f.value].verified && passwordMatches(password, us[f.value].passwordHash) {
      assert Login(us, email, password, passwordMatches).LoginOk?;
    }
    assert InvalidCredentialsMessage != NotVerifiedMessage;
  }
}
