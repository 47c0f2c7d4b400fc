/**
 * The user step of the config flow (custom_components/kerblwelt/config_flow.py):
 * `validate_input` signs in with the submitted credentials and sorts what can go
 * wrong into three error kinds; `async_step_user` turns that into a form with
 * an error, an abort for an account already set up, or a new config entry.
 */
module ConfigFlow {
  import opened Common
  import opened Api
  import opened Exceptions
  import Const

  /** The exceptions `validate_input` raises: `CannotConnect`, `InvalidAuth`, `UnknownError`. */
  datatype ValidationError = CannotConnect | InvalidAuth | UnknownError

  /** The submitted form: field name to value. */
  type UserInput = map<string, string>

  /** How `validate_input` ends. */
  datatype ValidationOutcome =
    | Validated(title: string, userId: string)  // the returned {"title", "user_id"} dict
    | Rejected(error: ValidationError)          // one of the three exceptions above
    | Escaped(raised: Raised)                   // not an Exception: escapes unchanged

  /** The body of each `except` clause of `validate_input`. */
  datatype ValidationHandler = RaiseInvalidAuth | RaiseCannotConnect | RaiseUnknown

  /** The `except` clauses of `validate_input`, top to bottom. */
  const ValidationClauses: seq<Clause<ValidationHandler>> := [
    Clause({InvalidCredentialsError}, RaiseInvalidAuth),
    Clause({AiohttpClientError}, RaiseCannotConnect),
    Clause({PyException}, RaiseUnknown)
  ]

  /** What each clause raises. */
  function RaiseFrom(h: ValidationHandler): ValidationOutcome {
    match h
    case RaiseInvalidAuth => Rejected(InvalidAuth)
    case RaiseCannotConnect => Rejected(CannotConnect)
    case RaiseUnknown => Rejected(UnknownError)
  }

  /** What the `except` clauses of `validate_input` make of an exception raised in its `try`. */
  function ClassifyFailure(e: Raised): (r: ValidationOutcome)
    ensures !r.Validated?
    ensures r == Rejected(InvalidAuth) <==> InvalidCredentialsError in e.classes
    ensures r == Rejected(CannotConnect) <==>
      InvalidCredentialsError !in e.classes && AiohttpClientError in e.classes
    ensures r == Rejected(UnknownError) <==>
      InvalidCredentialsError !in e.classes && AiohttpClientError !in e.classes && IsException(e)
    ensures r.Escaped? <==> !IsException(e)
    ensures r.Escaped? ==> r.raised == e
  {
    if InvalidCredentialsError in e.classes then Rejected(InvalidAuth)
    else if AiohttpClientError in e.classes then Rejected(CannotConnect)
    else if IsException(e) then Rejected(UnknownError)
    else Escaped(e)
  }

  /** ClassifyFailure is Python's first-matching-clause rule applied to the clause table. */
  lemma {:induction false} ClassifyFollowsClauseOrder(e: Raised)
    ensures ClassifyFailure(e) ==
      match Handler(ValidationClauses, e)
      case Some(h) => RaiseFrom(h)
      case None => Escaped(e)
  {
    InstanceOfOne(e, InvalidCredentialsError);
    InstanceOfOne(e, AiohttpClientError);
    InstanceOfOne(e, PyException);
    var m := FirstMatch(ValidationClauses, e);
    if InvalidCredentialsError in e.classes {
      assert m == Some(0);
    } else if AiohttpClientError in e.classes {
      assert !Catches(ValidationClauses[0], e) && Catches(ValidationClauses[1], e);
      assert m == Some(1);
    } else if IsException(e) {
      assert !Catches(ValidationClauses[0], e) && !Catches(ValidationClauses[1], e);
      assert Catches(ValidationClauses[2], e);
      assert m == Some(2);
    } else {
      assert m == None;
    }
  }

  /**
   * Only aiohttp's ClientError counts as "cannot connect": a client-library
   * ConnectionError or an expired token that is not also one of the first two
   * clauses' classes is reported as "unknown".
   */
  lemma OtherClientErrorsAreUnknown(e: Raised)
    requires IsException(e)
    requires InvalidCredentialsError !in e.classes && AiohttpClientError !in e.classes
    ensures ClassifyFailure(e) == Rejected(UnknownError)
  {
  }

  /** `data[key]` on a missing key raises `KeyError`, an Exception. */
  function KeyError(key: string): Raised {
    Raised({PyException}, "'" + key + "'")
  }

  /**
   * `validate_input`. `authenticate` is what `client.authenticate(email, password)`
   * raised, if anything; `getUser` is what `client.get_user()` returned or raised
   * (it is only called once authentication succeeded).
   */
  function ValidateInput(data: UserInput, authenticate: Option<Raised>, getUser: Result<User, Raised>)
    : (r: ValidationOutcome)
    ensures r.Validated? <==>
      Const.ConfEmail in data && Const.ConfPassword in data && authenticate.None? && getUser.Ok?
    ensures r.Validated? ==>
      r.title == "Kerbl Welt (" + data[Const.ConfEmail] + ")" && r.userId == getUser.value.id
    ensures Const.ConfEmail in data && Const.ConfPassword in data && authenticate.Some? ==>
      r == ClassifyFailure(authenticate.value)
    ensures Const.ConfEmail in data && Const.ConfPassword in data && authenticate.None? && getUser.Err? ==>
      r == ClassifyFailure(getUser.error)
    ensures (Const.ConfEmail !in data || Const.ConfPassword !in data) ==> r == Rejected(UnknownError)
  {
    if Const.ConfEmail !in data then ClassifyFailure(KeyError(Const.ConfEmail))
    else if Const.ConfPassword !in data then ClassifyFailure(KeyError(Const.ConfPassword))
    else match authenticate
      case Some(e) => ClassifyFailure(e)
      case None =>
        match getUser
        case Err(e) => ClassifyFailure(e)
        case Ok(user) => Validated("Kerbl Welt (" + data[Const.ConfEmail] + ")", user.id)
  }

  /** The error code `async_step_user` shows for each kind. */
  function ErrorCode(err: ValidationError): (code: string)
    ensures code == "cannot_connect" <==> err == CannotConnect
    ensures code == "invalid_auth" <==> err == InvalidAuth
    ensures code == "unknown" <==> err == UnknownError
  {
    match err
    case CannotConnect => "cannot_connect"
    case InvalidAuth => "invalid_auth"
    case UnknownError => "unknown"
  }

  /** Different kinds show different codes, so the form tells them apart. */
  lemma ErrorCodeInjective(a: ValidationError, b: ValidationError)
    requires ErrorCode(a) == ErrorCode(b)
    ensures a == b
  {
  }

  /** How a flow step ends. */
  datatype FlowResult =
    | ShowForm(stepId: string, errors: map<string, string>)  // async_show_form
    | AbortFlow(reason: string)                              // raised by _abort_if_unique_id_configured
    | CreateEntry(title: string, data: UserInput)            // async_create_entry
    | Raise(error: Raised)                                   // escapes the step

  /** `ConfigFlow`: the host-side state this step touches is the flow's unique id. */
  class KerblweltConfigFlow {
    const version: nat
    var uniqueId: Option<string>

    constructor ()
      ensures version == 1 && uniqueId == None
    {
      version := 1;
      uniqueId := None;
    }

    /**
     * `async_step_user`. `configuredIds` are the unique ids of the entries the
     * host already holds for this integration.
     */
    method AsyncStepUser(userInput: Option<UserInput>, authenticate: Option<Raised>,
                         getUser: Result<User, Raised>, configuredIds: set<string>)
      returns (r: FlowResult)
      modifies this
      ensures userInput.None? ==> r == ShowForm("user", map[]) && uniqueId == old(uniqueId)
      ensures userInput.Some? ==>
        match ValidateInput(userInput.value, authenticate, getUser)
        case Validated(title, userId) =>
          && uniqueId == Some(userId)
          && r == (if userId in configuredIds then AbortFlow("already_configured")
                   else CreateEntry(title, userInput.value))
        case Rejected(err) =>
          r == ShowForm("user", map["base" := ErrorCode(err)]) && uniqueId == old(uniqueId)
        case Escaped(e) =>
          r == Raise(e) && uniqueId == old(uniqueId)
      ensures r.CreateEntry? ==>
        userInput.Some? && r.data == userInput.value && uniqueId.Some? && uniqueId.value !in configuredIds
      ensures r.ShowForm? ==> r.stepId == "user" && (r.errors == map[] <==> userInput.None?)
    {
      var errors: map<string, string> := map[];
      if userInput.Some? {
        var info := ValidateInput(userInput.value, authenticate, getUser);
        match info {
          case Rejected(CannotConnect) =>
            errors := errors["base" := "cannot_connect"];
          case Rejected(InvalidAuth) =>
            errors := errors["base" := "invalid_auth"];
          case Rejected(UnknownError) =>
            errors := errors["base" := "unknown"];
          case Escaped(e) =>
            return Raise(e);
          case Validated(title, userId) =>
            uniqueId := Some(userId);
            if uniqueId.value in configuredIds {
              return AbortFlow("already_configured");
            }
            return CreateEntry(title, userInput.value);
        }
      }
      assert userInput.Some? ==> "base" in errors;
      r := ShowForm("user", errors);
    }
  }

  /**
   * A wrong password: sign-in raises InvalidCredentialsError, the form comes back
   * with "invalid_auth" and no entry is created.
   */
  method WrongPasswordShowsInvalidAuth(flow: KerblweltConfigFlow, email: string,
      password: string, err: Raised, getUser: Result<User, Raised>, configuredIds: set<string>)
    returns (r: FlowResult)
    requires InvalidCredentialsError in err.classes
    modifies flow
    ensures r == ShowForm("user", map["base" := "invalid_auth"])
  {
    r := flow.AsyncStepUser(Some(map[Const.ConfEmail := email, Const.ConfPassword := password]),
                            Some(err), getUser, configuredIds);
  }
}
