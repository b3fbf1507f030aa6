/** The login screen's state holder. */
module LoginUi {
  import opened Wrappers
  import opened Text
  import opened Models
  import opened StatusCodes
  import opened Store

  /** The sealed `LoginState`. */
  datatype LoginState = Initial | Loading | Success | Error(message: string)

  /** "HTTP status code 200: incorrect identifiers": the server answered but refused the credentials. */
  const IncorrectIdentifiersMessage: string := CodeMessage(200, "incorrect identifiers")

  /** The value of the `combine` of both fields that drives the login button. */
  predicate LoginButtonEnabled(identifier: string, password: string) {
    IsNotBlank(identifier) && IsNotBlank(password)
  }

  /** The `when` of `handleLoginError`: the message for a failed login's status code. */
  function LoginErrorMessage(code: Option<int>): string {
    match code
    case None => RetryMessage
    case Some(c) =>
      if c == 0 then NoResponseMessage
      else if c == 1 then NoStatusMessage
      else if c == 2 then UnexpectedMessage
      else if c == 200 then IncorrectIdentifiersMessage
      else RangeMessage(c)
  }

  /**
   * What the failure messages mean: a refused login with status 200 reports
   * incorrect identifiers; every code from 0 to 999 is reported with its own
   * number (and, from 3 on except 200, the name of its HTTP class); exactly the
   * missing, negative and over-999 codes get the retry message.
   */
  lemma LoginErrorMessageMeaning(code: Option<int>)
    ensures code == Some(200) ==> LoginErrorMessage(code) == IncorrectIdentifiersMessage
    ensures LoginErrorMessage(code) == RetryMessage <==> (code.None? || code.value < 0 || code.value > 999)
    ensures code.Some? && 0 <= code.value <= 999 ==>
              Prefix + Decimal(code.value) + ": " <= LoginErrorMessage(code)
    ensures code.Some? && 3 <= code.value <= 999 && code.value != 200 ==>
              LoginErrorMessage(code) == CodeMessage(code.value, ClassLabel(code.value / 100))
  {
    if code.Some? {
      var c := code.value;
      if 0 <= c <= 2 {
        CodeMessageIsNotRetry(c, SentinelName(c));
      } else if c == 200 {
        CodeMessageIsNotRetry(200, "incorrect identifiers");
      } else if 3 <= c <= 999 {
        CodeMessageIsNotRetry(c, ClassLabel(c / 100));
      }
    }
  }

  /** `validateCredentials`: the first emission as a pair, or `(false, null)` when nothing is emitted. */
  function ValidateCredentials(stream: Option<LoginResultModel>): (bool, Option<int>) {
    match stream
    case Some(r) => (r.isLoginSuccessful, Some(r.loginStatusCode))
    case None => (false, None)
  }

  /** A login whose repository emits nothing ends with the retry message. */
  lemma EmptyLoginStreamAsksToRetry()
    ensures !ValidateCredentials(None).0
    ensures LoginErrorMessage(ValidateCredentials(None).1) == RetryMessage
  {
  }

  class LoginViewModel {
    var state: LoginState
    var userIdentifier: string
    var userPassword: string
    var isButtonLoginEnabled: bool
    /** The persisted store of the "LoginPrefs" preferences file. */
    var store: Store
    var navigateToAccountEvents: nat
    /** The credentials of every repository call issued, in order. */
    ghost var requests: seq<LoginCredentials>

    /** The `combine` keeps the button flag equal to its predicate over the current fields. */
    ghost predicate Valid()
      reads this
    {
      isButtonLoginEnabled == LoginButtonEnabled(userIdentifier, userPassword)
    }

    constructor (prefs: Store)
      ensures Valid()
      ensures state == Initial && userIdentifier == "" && userPassword == ""
      ensures !isButtonLoginEnabled
      ensures store == prefs && navigateToAccountEvents == 0 && requests == []
    {
      state := Initial;
      userIdentifier := "";
      userPassword := "";
      isButtonLoginEnabled := false;
      store := prefs;
      navigateToAccountEvents := 0;
      requests := [];
      EmptyIsBlank();
    }

    /** `onFieldUserIdentifierChanged`: only the identifier (and the button flag derived from it) changes. */
    method OnFieldUserIdentifierChanged(newIdentifier: string)
      requires Valid()
      modifies this`userIdentifier, this`isButtonLoginEnabled
      ensures Valid()
      ensures userIdentifier == newIdentifier
      ensures isButtonLoginEnabled == LoginButtonEnabled(newIdentifier, userPassword)
    {
      userIdentifier := newIdentifier;
      isButtonLoginEnabled := LoginButtonEnabled(userIdentifier, userPassword);
    }

    /** `onFieldUserPasswordChanged`: only the password (and the button flag derived from it) changes. */
    method OnFieldUserPasswordChanged(newPassword: string)
      requires Valid()
      modifies this`userPassword, this`isButtonLoginEnabled
      ensures Valid()
      ensures userPassword == newPassword
      ensures isButtonLoginEnabled == LoginButtonEnabled(userIdentifier, newPassword)
    {
      userPassword := newPassword;
      isButtonLoginEnabled := LoginButtonEnabled(userIdentifier, userPassword);
    }

    /** `handleLoginError`: one assignment of the message for the code. */
    method HandleLoginError(code: Option<int>)
      modifies this`state
      ensures state == Error(LoginErrorMessage(code))
    {
      state := Error(LoginErrorMessage(code));
    }

    method NavigateToAccount()
      modifies this`navigateToAccountEvents
      ensures navigateToAccountEvents == old(navigateToAccountEvents) + 1
    {
      navigateToAccountEvents := navigateToAccountEvents + 1;
    }

    /**
     * `onButtonLoginClicked`: sets Loading, asks the repository with exactly
     * the current fields, and on a granted login stores the identifier under
     * "userIdentifier", sets Success and emits one navigation event; otherwise
     * leaves the store alone and sets the error for the status code.
     */
    method OnButtonLoginClicked(fetchLoginData: (string, string) -> Option<LoginResultModel>)
      requires Valid()
      modifies this`state, this`store, this`navigateToAccountEvents, this`requests
      ensures Valid()
      ensures requests == old(requests) + [LoginCredentials(userIdentifier, userPassword)]
      ensures var (granted, code) := ValidateCredentials(fetchLoginData(userIdentifier, userPassword));
              if granted then
                && store == old(store)[KeyUserIdentifier := StringValue(userIdentifier)]
                && state == Success
                && navigateToAccountEvents == old(navigateToAccountEvents) + 1
              else
                && store == old(store)
                && state == Error(LoginErrorMessage(code))
                && navigateToAccountEvents == old(navigateToAccountEvents)
    {
      state := Loading;
      requests := requests + [LoginCredentials(userIdentifier, userPassword)];
      var (granted, code) := ValidateCredentials(fetchLoginData(userIdentifier, userPassword));
      if granted {
        store := store[KeyUserIdentifier := StringValue(userIdentifier)];
        state := Success;
        NavigateToAccount();
      } else {
        HandleLoginError(code);
      }
    }
  }
}
