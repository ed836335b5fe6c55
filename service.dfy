/** What the controllers see of their collaborators: the sentinel errors of
    src/constant, the requests of src/http, and the calls they make on
    account.Servicer, JWT, bcrypt. Those packages are not part of this model;
    their answers are inputs of the handlers. */
module Service {
  import opened GoLib

  /** The sentinel errors the account and auth controllers test for. */
  datatype Sentinel =
    | InvalidFormat
    | AccountExist
    | AccountNotRegistered
    | UsernameCannotBeEmpty
    | PasswordCannotBeEmpty
    | UsernameAlreadyExist
    | EmailAlreadyExist
    | KTPNumberAlreadyExist
    | PhoneNumberAlreadyExist
    | InvalidDOBFormat
    | InvalidPassword

  /** `err.Error()` of a sentinel. The texts are defined in src/constant,
      which is not part of this model; each stands here as its Go name, so
      that different sentinels have different texts. */
  function Text(s: Sentinel): string
  {
    match s
    case InvalidFormat => "ErrInvalidFormat"
    case AccountExist => "ErrAccountExist"
    case AccountNotRegistered => "ErrAccountNotRegistered"
    case UsernameCannotBeEmpty => "ErrUsernameCannotBeEmpty"
    case PasswordCannotBeEmpty => "ErrPasswordCannotBeEmpty"
    case UsernameAlreadyExist => "ErrUsernameAlreadyExist"
    case EmailAlreadyExist => "ErrEmailAlreadyExist"
    case KTPNumberAlreadyExist => "ErrKTPNumberAlreadyExist"
    case PhoneNumberAlreadyExist => "ErrPhoneNumberAlreadyExist"
    case InvalidDOBFormat => "ErrInvalidDOBFormat"
    case InvalidPassword => "ErrInvalidPassword"
  }

  /** A non-nil error, known by the sentinels `errors.Is` finds in its chain;
      an unknown error matches none. */
  datatype Failure = Failure(matches: set<Sentinel>)

  /** `errors.Is(err, s)`; a nil error matches nothing. */
  predicate Is(err: Option<Failure>, s: Sentinel)
  {
    err.Some? && s in err.value.matches
  }

  /** A value-or-error answer of a collaborator. */
  datatype Outcome<+T> = Ok(value: T) | Err(failure: Failure)

  /** The first sentinel of an ordered `if errors.Is(...) else if ...` chain
      that the error matches. */
  function FirstMatch(chain: seq<Sentinel>, f: Failure): Option<Sentinel>
  {
    if chain == [] then None
    else if chain[0] in f.matches then Some(chain[0])
    else FirstMatch(chain[1..], f)
  }

  /** The chain picks a sentinel iff the error matches some sentinel of it,
      and then the earliest one: every sentinel before it does not match. */
  lemma {:induction false} FirstMatchSpec(chain: seq<Sentinel>, f: Failure)
    ensures FirstMatch(chain, f).Some? <==> exists i :: 0 <= i < |chain| && chain[i] in f.matches
    ensures FirstMatch(chain, f).Some? ==>
              exists i :: 0 <= i < |chain| && chain[i] == FirstMatch(chain, f).value
                          && chain[i] in f.matches
                          && forall j :: 0 <= j < i ==> chain[j] !in f.matches
  {
    if chain != [] && chain[0] !in f.matches {
      var rest := chain[1..];
      FirstMatchSpec(rest, f);
      if exists i :: 0 <= i < |chain| && chain[i] in f.matches {
        var i :| 0 <= i < |chain| && chain[i] in f.matches;
        assert rest[i - 1] == chain[i];
      }
      if FirstMatch(rest, f).Some? {
        var i :| 0 <= i < |rest| && rest[i] == FirstMatch(rest, f).value && rest[i] in f.matches
                 && forall j :: 0 <= j < i ==> rest[j] !in f.matches;
        assert chain[i + 1] == rest[i];
        forall j | 0 <= j < i + 1 ensures chain[j] !in f.matches {
          if j > 0 { assert chain[j] == rest[j - 1]; }
        }
      }
    }
  }

  /** A matching sentinel with no match before it is the one chosen, whatever
      matches after it. */
  lemma EarlierSentinelWins(chain: seq<Sentinel>, f: Failure, i: int)
    requires 0 <= i < |chain|
    requires chain[i] in f.matches
    requires forall k :: 0 <= k < i ==> chain[k] !in f.matches
    ensures FirstMatch(chain, f) == Some(chain[i])
  {
    FirstMatchSpec(chain, f);
    var k :| 0 <= k < |chain| && chain[k] == FirstMatch(chain, f).value && chain[k] in f.matches
             && forall m :: 0 <= m < k ==> chain[m] !in f.matches;
    assert k == i;
  }

  /** The account a login reads: its id and stored password hash. */
  datatype Account = Account(id: int, passwordHash: string)

  /** http.RegisterUser: the username, and the other fields as bound. */
  datatype RegisterUser = RegisterUser(username: string, fields: map<string, string>)

  /** http.UpdateUser by value: `username` is what `*Username` holds, None
      for a nil pointer. */
  datatype UpdateUser = UpdateUser(username: Option<string>, fields: map<string, string>)

  /** http.Auth. */
  datatype Credentials = Credentials(username: string, password: string)

  /** http.ForgotPassword. */
  datatype ForgotPasswordRequest = ForgotPasswordRequest(fields: map<string, string>)

  /** A call a handler makes on a collaborator, with its arguments. */
  datatype Call =
    | TakeAccountByID(id: int)
    | Create(register: RegisterUser)
    | Update(id: int, update: UpdateUser)
    | Delete(id: int)
    | CheckAccountByUsername(username: string)
    | TakeAccountByUsername(username: string)
    | ComparePassword(hash: string, password: string)
    | GenerateJWT(accountId: int)
    | UpdatePassword(request: ForgotPasswordRequest)
}
