/** The handlers of src/controller/v1/account/account.go as decision
    procedures: each is an ordered chain of checks that answers at the first
    one failing. The bearer token's account id (None when jwt.ExtractID
    fails), the bound body (None when ctx.Bind fails), the validator's field
    errors and the service's answers are inputs. */
module Account {
  import opened GoLib
  import opened Rest
  import opened Service
  import opened Controller

  /** Get: 401 without a valid token; 500 when the service fails; otherwise
      200 with the account as `result`. */
  function Get(accountId: Option<int>, take: Outcome<Payload>, uuid: Uuid): (h: Handled)
    ensures AnswersOnce(h) && !h.panicked && Conforms(h, uuid)
    ensures accountId.None? ==> h.calls == [] && h.sent[0].status == 401 && h.sent[0].body.detail == map[]
    ensures accountId.Some? ==> h.calls == [TakeAccountByID(accountId.value)]
    ensures accountId.Some? && take.Err? ==> h.sent[0].status == 500 && h.sent[0].body.detail == map[]
    ensures accountId.Some? && take.Ok? ==> h.sent[0].status == 200 && h.sent[0].body.result == Some(take.value)
  {
    match accountId
    case None => Respond(ResponseMessage(401, [], uuid), [])
    case Some(id) =>
      var calls := [TakeAccountByID(id)];
      match take
      case Err(_) => Respond(ResponseMessage(500, [], uuid), calls)
      case Ok(account) => Respond(ResponseData(200, account, [], uuid), calls)
  }

  /** Register: bind, then validation, then the empty-username check, each a
      400 that keeps `Create` from being called; `Create` gets the request
      with its username lower-cased; ErrAccountExist is a 409 under the key
      "account", any other error a 500, success a 201. */
  function Register(bound: Option<RegisterUser>, violations: seq<FieldError>, create: Option<Failure>, uuid: Uuid)
    : (h: Handled)
    ensures AnswersOnce(h) && !h.panicked && Conforms(h, uuid)
    ensures bound.None? ==>
              h.calls == [] && h.sent[0].status == 400 && h.sent[0].body.detail == map["body" := Text(InvalidFormat)]
    ensures bound.Some? && violations != [] ==>
              h.calls == [] && h.sent[0].status == 400 && h.sent[0].body.detail == ValidationDetail(violations)
    ensures bound.Some? && violations == [] && bound.value.username == "" ==>
              h.calls == [] && h.sent[0].status == 400
              && h.sent[0].body.detail == map["username" := Text(InvalidFormat)]
    ensures h.calls != [] <==> bound.Some? && violations == [] && bound.value.username != ""
    ensures h.calls != [] ==> h.calls == [Create(bound.value.(username := ToLower(bound.value.username)))]
    ensures h.calls != [] && Is(create, AccountExist) ==>
              h.sent[0].status == 409 && h.sent[0].body.detail == map["account" := Text(AccountExist)]
    ensures h.calls != [] && create.Some? && !Is(create, AccountExist) ==>
              h.sent[0].status == 500 && h.sent[0].body.detail == map[]
    ensures h.calls != [] && create.None? ==>
              h.sent[0].status == 201 && h.sent[0].body.error == "" && h.sent[0].body.result.None?
  {
    match bound
    case None => Respond(BadBody(uuid), [])
    case Some(req) =>
      if violations != [] then Respond(Invalid(violations, uuid), [])
      else if req.username == "" then Respond(Rejected(400, "username", InvalidFormat, uuid), [])
      else
        var calls := [Create(req.(username := ToLower(req.username)))];
        if Is(create, AccountExist) then Respond(Rejected(409, "account", AccountExist, uuid), calls)
        else if create.Some? then Respond(ResponseMessage(500, [], uuid), calls)
        else Respond(ResponseMessage(201, [], uuid), calls)
  }

  /** The sentinels Update maps to 400 under "accounts", in the order the
      handler tests them. */
  const UpdateChain: seq<Sentinel> := [
    AccountNotRegistered, UsernameCannotBeEmpty, PasswordCannotBeEmpty, UsernameAlreadyExist,
    EmailAlreadyExist, KTPNumberAlreadyExist, PhoneNumberAlreadyExist, InvalidDOBFormat]

  /** The tail of Update once the service has been called with `request`. */
  function UpdateOutcome(id: int, request: UpdateUser, update: Option<Failure>, uuid: Uuid): Handled
  {
    var calls := [Service.Update(id, request)];
    match update
    case None => Respond(ResponseMessage(200, [], uuid), calls)
    case Some(f) =>
      match FirstMatch(UpdateChain, f)
      case Some(s) => Respond(Rejected(400, "accounts", s, uuid), calls)
      case None => Respond(ResponseMessage(500, [], uuid), calls)
  }

  /** Update, over the value of the bound request. The checks run bind,
      validation, token, so a bad body with a bad token is a 400, not a 401.
      A nil `Username` then panics at the dereference. Otherwise the service
      gets the request with its username lower-cased; the first sentinel of
      `UpdateChain` the error matches is a 400, an unmatched error a 500,
      success a 200. */
  function UpdateDecision(bound: Option<UpdateUser>, violations: seq<FieldError>, accountId: Option<int>,
                          update: Option<Failure>, uuid: Uuid): (h: Handled)
    ensures AnswersOnce(h) && Conforms(h, uuid)
    ensures h.panicked <==> bound.Some? && violations == [] && accountId.Some? && bound.value.username.None?
    ensures bound.None? ==>
              h.calls == [] && h.sent[0].status == 400 && h.sent[0].body.detail == map["body" := Text(InvalidFormat)]
    ensures bound.Some? && violations != [] ==>
              h.calls == [] && h.sent[0].status == 400 && h.sent[0].body.detail == ValidationDetail(violations)
    ensures bound.Some? && violations == [] && accountId.None? ==>
              h.calls == [] && h.sent[0].status == 401 && h.sent[0].body.detail == map[]
    ensures h.calls != [] <==>
              bound.Some? && violations == [] && accountId.Some? && bound.value.username.Some?
    ensures h.calls != [] ==>
              h.calls == [Service.Update(accountId.value,
                                 bound.value.(username := Some(ToLower(bound.value.username.value))))]
    ensures h.calls != [] && update.None? ==>
              h.sent[0].status == 200 && h.sent[0].body.error == "" && h.sent[0].body.result.None?
    ensures h.calls != [] && update.Some? && FirstMatch(UpdateChain, update.value).Some? ==>
              h.sent[0].status == 400
              && h.sent[0].body.detail == map["accounts" := Text(FirstMatch(UpdateChain, update.value).value)]
    ensures h.calls != [] && update.Some? && FirstMatch(UpdateChain, update.value).None? ==>
              h.sent[0].status == 500 && h.sent[0].body.detail == map[]
    ensures !h.panicked ==> h.sent[0].status in {200, 400, 401, 500}
  {
    match bound
    case None => Respond(BadBody(uuid), [])
    case Some(req) =>
      if violations != [] then Respond(Invalid(violations, uuid), [])
      else if accountId.None? then Respond(ResponseMessage(401, [], uuid), [])
      else
        match req.username
        case None => Handled([], [], true)
        case Some(name) => UpdateOutcome(accountId.value, req.(username := Some(ToLower(name))), update, uuid)
  }

  /** Of the sentinels an update error matches, the one tested first decides
      the text under "accounts"; an error matching none of them is a 500. */
  lemma UpdateMapsFirstSentinel(req: UpdateUser, id: int, f: Failure, uuid: Uuid)
    requires req.username.Some?
    ensures var h := UpdateDecision(Some(req), [], Some(id), Some(f), uuid);
      && (forall i :: 0 <= i < |UpdateChain| && UpdateChain[i] in f.matches
                      && (forall j :: 0 <= j < i ==> UpdateChain[j] !in f.matches) ==>
            h.sent[0].status == 400 && h.sent[0].body.detail == map["accounts" := Text(UpdateChain[i])])
      && ((forall s :: s in UpdateChain ==> s !in f.matches) ==> h.sent[0].status == 500)
  {
    FirstMatchSpec(UpdateChain, f);
    forall i | 0 <= i < |UpdateChain| && UpdateChain[i] in f.matches
                && (forall j :: 0 <= j < i ==> UpdateChain[j] !in f.matches)
      ensures FirstMatch(UpdateChain, f) == Some(UpdateChain[i])
    {
      EarlierSentinelWins(UpdateChain, f, i);
    }
  }

  /** The string a `*string` field points to. */
  class StringBox {
    var value: string

    constructor (v: string)
      ensures value == v
    {
      value := v;
    }
  }

  /** http.UpdateUser as Go holds it: `Username` is a pointer, shared by
      every copy of the struct. */
  datatype UpdateUserRef = UpdateUserRef(username: StringBox?, fields: map<string, string>)

  /** The value a request holds right now. */
  function Deref(r: UpdateUserRef): UpdateUser
    reads r.username
  {
    UpdateUser(if r.username == null then None else Some(r.username.value), r.fields)
  }

  /** Update as written: `request := *req` copies the struct but not the
      string `Username` points to, so lower-casing `*request.Username`
      rewrites the bound request itself. The answer is the one
      UpdateDecision gives for the request as bound. */
  method Update(bound: Option<UpdateUserRef>, violations: seq<FieldError>, accountId: Option<int>,
                update: Option<Failure>, uuid: Uuid) returns (h: Handled)
    modifies if bound.Some? && bound.value.username != null then {bound.value.username} else {}
    ensures h == UpdateDecision(if bound.Some? then Some(old(Deref(bound.value))) else None,
                                violations, accountId, update, uuid)
    ensures bound.Some? && bound.value.username != null ==>
              bound.value.username.value
              == if violations == [] && accountId.Some? then ToLower(old(bound.value.username.value))
                 else old(bound.value.username.value)
  {
    if bound.None? {
      h := Respond(BadBody(uuid), []);
      return;
    }
    var req := bound.value;
    if violations != [] {
      h := Respond(Invalid(violations, uuid), []);
      return;
    }
    if accountId.None? {
      h := Respond(ResponseMessage(401, [], uuid), []);
      return;
    }
    var request := req;
    if request.username == null {
      h := Handled([], [], true);
      return;
    }
    request.username.value := ToLower(request.username.value);
    h := UpdateOutcome(accountId.value, Deref(request), update, uuid);
  }

  /** Delete: 401 without a valid token; ErrAccountNotRegistered is a 400
      under "accounts", any other error a 500, success a 200. */
  function Delete(accountId: Option<int>, del: Option<Failure>, uuid: Uuid): (h: Handled)
    ensures AnswersOnce(h) && !h.panicked && Conforms(h, uuid)
    ensures accountId.None? ==> h.calls == [] && h.sent[0].status == 401 && h.sent[0].body.detail == map[]
    ensures accountId.Some? ==> h.calls == [Service.Delete(accountId.value)]
    ensures accountId.Some? && Is(del, AccountNotRegistered) ==>
              h.sent[0].status == 400 && h.sent[0].body.detail == map["accounts" := Text(AccountNotRegistered)]
    ensures accountId.Some? && del.Some? && !Is(del, AccountNotRegistered) ==>
              h.sent[0].status == 500 && h.sent[0].body.detail == map[]
    ensures accountId.Some? && del.None? ==>
              h.sent[0].status == 200 && h.sent[0].body.error == "" && h.sent[0].body.result.None?
  {
    match accountId
    case None => Respond(ResponseMessage(401, [], uuid), [])
    case Some(id) =>
      var calls := [Service.Delete(id)];
      if del.None? then Respond(ResponseMessage(200, [], uuid), calls)
      else if Is(del, AccountNotRegistered) then Respond(Rejected(400, "accounts", AccountNotRegistered, uuid), calls)
      else Respond(ResponseMessage(500, [], uuid), calls)
  }
}
