/** The handlers of src/controller/v1/auth/auth.go as decision procedures.
    The bound body (None when ctx.Bind fails), the validator's field errors,
    whether the account exists, the account read, whether bcrypt accepts the
    password and the token JWT signs (None when signing fails) are inputs. */
module Auth {
  import opened GoLib
  import opened Rest
  import opened Service
  import opened Controller

  /** Login: bind and validation failures are 400s before any call; an
      unknown username is a 400 under "accounts" (the existence check's own
      error is ignored); a failed read is a 500; the password is compared
      only once the read succeeded, and a mismatch is a 400; a failed token
      is a 500; success is a 200 whose result is "Bearer " and the token.
      The username reaches the service as bound, not lower-cased. */
  function Login(bound: Option<Credentials>, violations: seq<FieldError>, found: bool, fetch: Outcome<Account>,
                 passwordMatches: bool, jwt: Option<string>, uuid: Uuid): (h: Handled)
    ensures AnswersOnce(h) && !h.panicked && Conforms(h, uuid)
    ensures bound.None? ==>
              h.calls == [] && h.sent[0].status == 400 && h.sent[0].body.detail == map["body" := Text(InvalidFormat)]
    ensures bound.Some? && violations != [] ==>
              h.calls == [] && h.sent[0].status == 400 && h.sent[0].body.detail == ValidationDetail(violations)
    ensures h.calls != [] <==> bound.Some? && violations == []
    ensures h.calls != [] ==> h.calls[0] == CheckAccountByUsername(bound.value.username)
    ensures h.calls != [] && !found ==>
              |h.calls| == 1 && h.sent[0].status == 400
              && h.sent[0].body.detail == map["accounts" := Text(AccountNotRegistered)]
    ensures |h.calls| >= 2 <==> h.calls != [] && found
    ensures |h.calls| >= 2 ==> h.calls[1] == TakeAccountByUsername(bound.value.username)
    ensures |h.calls| == 2 ==> fetch.Err? && h.sent[0].status == 500 && h.sent[0].body.detail == map[]
    ensures |h.calls| >= 3 <==> |h.calls| >= 2 && fetch.Ok?
    ensures |h.calls| >= 3 ==>
              h.calls[2] == ComparePassword(fetch.value.passwordHash, bound.value.password)
    ensures |h.calls| == 3 ==>
              !passwordMatches && h.sent[0].status == 400
              && h.sent[0].body.detail == map["accounts" := Text(InvalidPassword)]
    ensures |h.calls| == 4 <==> |h.calls| >= 3 && passwordMatches
    ensures |h.calls| == 4 ==> h.calls[3] == GenerateJWT(fetch.value.id)
    ensures |h.calls| == 4 && jwt.None? ==> h.sent[0].status == 500 && h.sent[0].body.detail == map[]
    ensures |h.calls| == 4 && jwt.Some? ==>
              h.sent[0].status == 200 && h.sent[0].body.result == Some(Token("Bearer " + jwt.value))
    ensures |h.calls| <= 4
  {
    match bound
    case None => Respond(BadBody(uuid), [])
    case Some(req) =>
      if violations != [] then Respond(Invalid(violations, uuid), [])
      else
        var check := [CheckAccountByUsername(req.username)];
        if !found then Respond(Rejected(400, "accounts", AccountNotRegistered, uuid), check)
        else
          var take := check + [TakeAccountByUsername(req.username)];
          match fetch
          case Err(_) => Respond(ResponseMessage(500, [], uuid), take)
          case Ok(account) =>
            var compare := take + [ComparePassword(account.passwordHash, req.password)];
            if !passwordMatches then Respond(Rejected(400, "accounts", InvalidPassword, uuid), compare)
            else
              var sign := compare + [GenerateJWT(account.id)];
              match jwt
              case None => Respond(ResponseMessage(500, [], uuid), sign)
              case Some(token) => Respond(ResponseData(200, Token("Bearer " + token), [], uuid), sign)
  }

  /** A correct username with a wrong password is a 400 under "accounts",
      never a 200, whatever JWT would have signed. */
  lemma WrongPasswordRejected(req: Credentials, account: Account, jwt: Option<string>, uuid: Uuid)
    ensures var h := Login(Some(req), [], true, Ok(account), false, jwt, uuid);
      && h.sent[0].status == 400
      && h.sent[0].body.detail == map["accounts" := Text(InvalidPassword)]
      && GenerateJWT(account.id) !in h.calls
  {
  }

  /** ForgotPassword: bind and validation failures are 400s before the
      service is called; ErrPasswordCannotBeEmpty is a 400 under "accounts",
      any other error a 500, success a 200. */
  function ForgotPassword(bound: Option<ForgotPasswordRequest>, violations: seq<FieldError>,
                          update: Option<Failure>, uuid: Uuid): (h: Handled)
    ensures AnswersOnce(h) && !h.panicked && Conforms(h, uuid)
    ensures bound.None? ==>
              h.calls == [] && h.sent[0].status == 400 && h.sent[0].body.detail == map["body" := Text(InvalidFormat)]
    ensures bound.Some? && violations != [] ==>
              h.calls == [] && h.sent[0].status == 400 && h.sent[0].body.detail == ValidationDetail(violations)
    ensures h.calls != [] <==> bound.Some? && violations == []
    ensures h.calls != [] ==> h.calls == [UpdatePassword(bound.value)]
    ensures h.calls != [] && Is(update, PasswordCannotBeEmpty) ==>
              h.sent[0].status == 400 && h.sent[0].body.detail == map["accounts" := Text(PasswordCannotBeEmpty)]
    ensures h.calls != [] && update.Some? && !Is(update, PasswordCannotBeEmpty) ==>
              h.sent[0].status == 500 && h.sent[0].body.detail == map[]
    ensures h.calls != [] && update.None? ==>
              h.sent[0].status == 200 && h.sent[0].body.error == "" && h.sent[0].body.result.None?
  {
    match bound
    case None => Respond(BadBody(uuid), [])
    case Some(req) =>
      if violations != [] then Respond(Invalid(violations, uuid), [])
      else
        var calls := [UpdatePassword(req)];
        match update
        case None => Respond(ResponseMessage(200, [], uuid), calls)
        case Some(f) =>
          if PasswordCannotBeEmpty in f.matches then Respond(Rejected(400, "accounts", PasswordCannotBeEmpty, uuid), calls)
          else Respond(ResponseMessage(500, [], uuid), calls)
  }
}
