/** The sign-in form of src/pages/AuthPage/AuthPage.tsx: the client-side
    validation (`validateForm`) and the submit handler, which dispatches
    `login` or `register`, then either moves on or shows an error text taken
    from whatever the rejected request threw. The outcome of the request is
    a parameter; storing the user in `localStorage` and navigating are
    reported, not performed. */
module AuthPage {
  import opened Wrappers
  import opened Types
  import JsText
  import AuthSlice

  const BadEmail := "Введите корректный email"
  const ShortPassword := "Пароль должен содержать минимум 6 символов"
  const GenericError := "Произошла ошибка. Перезагрузите страницу"

  /** `validateForm`: `None` when the form passes, otherwise the message.
      The address is checked first, then the password length in UTF-16
      code units. */
  function ValidateForm(email: string, password: string): (r: Option<string>)
    ensures r.None? <==> '@' in email && JsText.Utf16Length(password) >= 6
    ensures '@' !in email ==> r == Some(BadEmail)
    ensures '@' in email && JsText.Utf16Length(password) < 6 ==> r == Some(ShortPassword)
  {
    if '@' !in email then Some(BadEmail)
    else if JsText.Utf16Length(password) < 6 then Some(ShortPassword)
    else None
  }

  /** The length rule in characters: six characters always pass, fewer
      than three never do; between the two it depends on how many lie
      outside the Basic Multilingual Plane. */
  lemma PasswordLengthBounds(email: string, password: string)
    requires '@' in email
    ensures |password| >= 6 ==> ValidateForm(email, password).None?
    ensures |password| < 3 ==> ValidateForm(email, password) == Some(ShortPassword)
  {
  }

  /** Three astral characters are six code units long and pass the rule. */
  lemma AstralPasswordPasses()
    ensures ValidateForm("a@b", "\U{1F600}\U{1F600}\U{1F600}").None?
  {
    var p := "\U{1F600}\U{1F600}\U{1F600}";
    assert p[1..][1..][1..] == [];
    assert JsText.Utf16Length(p) == 6;
  }

  /** A value that can appear as `error.message` on a thrown object. */
  datatype JsValue =
    | JsString(s: string)
    | JsNumber(n: int)
    | JsBool(b: bool)
    | JsNull
    | JsUndefined

  /** `String(value)` */
  function JsToString(v: JsValue): string {
    match v
    case JsString(s) => s
    case JsNumber(n) => JsText.IntToString(n)
    case JsBool(b) => if b then "true" else "false"
    case JsNull => "null"
    case JsUndefined => "undefined"
  }

  /** What a rejected `unwrap()` can throw: an `Error` instance, a string
      (the thunks reject with the provider's message), an object with a
      `message` property (a serialised error), or anything else. */
  datatype Thrown =
    | ErrorInstance(message: string)
    | ThrownString(text: string)
    | ObjectWithMessage(messageValue: JsValue)
    | OtherThrown

  /** The `catch` branch's choice of text. */
  function ErrorMessage(thrown: Thrown): (text: string)
    ensures thrown.ErrorInstance? ==> text == thrown.message
    ensures thrown.ThrownString? ==> text == thrown.text
    ensures thrown.ObjectWithMessage? ==> text == JsToString(thrown.messageValue)
    ensures thrown.OtherThrown? ==> text == GenericError
  {
    match thrown
    case ErrorInstance(m) => m
    case ThrownString(s) => s
    case ObjectWithMessage(v) => JsToString(v)
    case OtherThrown => GenericError
  }

  /** A serialised error whose `message` is a string shows that string as
      it is, exactly as a thrown string or `Error` with the same text. */
  lemma StringMessageShownAsIs(s: string)
    ensures ErrorMessage(ObjectWithMessage(JsString(s))) == s
    ensures ErrorMessage(ObjectWithMessage(JsString(s))) == ErrorMessage(ThrownString(s))
    ensures ErrorMessage(ObjectWithMessage(JsString(s))) == ErrorMessage(ErrorInstance(s))
  {
  }

  /** A numeric `message` is shown as its decimal text, which reads back as
      the same number. */
  lemma NumericMessageReadsBack(n: int)
    ensures JsText.ToNumber(ErrorMessage(ObjectWithMessage(JsNumber(n)))) == Some(n)
  {
    JsText.IntToStringNumber(n);
  }

  /** The request the form dispatches. */
  datatype AuthRequest =
    | LoginRequest(email: string, password: string)
    | RegisterRequest(email: string, password: string, displayName: string)

  /** The state of the form the handler changes. */
  class AuthForm {
    var error: string
    var loading: bool

    constructor ()
      ensures error == "" && !loading
    {
      error := "";
      loading := false;
    }

    /** `handleSubmit`. An invalid form shows the validation message and
        dispatches nothing. A valid one clears the error, dispatches the
        request for the current mode, and ends not loading: on success the
        user is stored and the page moves on; on failure the thrown value's
        text is shown. */
    method HandleSubmit(email: string, password: string, displayName: string, isLogin: bool,
                        outcome: Result<User, Thrown>)
      returns (request: Option<AuthRequest>, stored: Option<User>)
      modifies this
      ensures ValidateForm(email, password).Some? ==>
        && request.None? && stored.None?
        && error == ValidateForm(email, password).value && loading == old(loading)
      ensures ValidateForm(email, password).None? ==>
        && request == Some(if isLogin then LoginRequest(email, password)
                           else RegisterRequest(email, password, displayName))
        && !loading
        && (outcome.Success? ==> stored == Some(outcome.value) && error == "")
        && (outcome.Failure? ==> stored.None? && error == ErrorMessage(outcome.error))
    {
      var invalid := ValidateForm(email, password);
      if invalid.Some? {
        error := invalid.value;
        return None, None;
      }
      loading := true;
      error := "";
      request := Some(if isLogin then LoginRequest(email, password)
                      else RegisterRequest(email, password, displayName));
      if outcome.Success? {
        stored := Some(outcome.value);
      } else {
        stored := None;
        error := ErrorMessage(outcome.error);
      }
      loading := false;
    }
  }

  /** The mount effect: a saved user is put into the store with `setUser`;
      without one the store is left alone. */
  method RestoreSession(auth: AuthSlice.AuthState, saved: Option<User>)
    modifies auth
    ensures saved.Some? ==>
      && auth.user == saved && auth.isEmailVerified == saved.value.emailVerified
      && auth.error.None? && auth.isLoading == old(auth.isLoading)
    ensures saved.None? ==> unchanged(auth)
  {
    if saved.Some? {
      auth.SetUser(saved);
    }
  }

  /** A registration stores the new user just as a sign-in does, so on the
      next visit the form's mount effect signs that user in, although the
      registration itself signed nobody in. */
  method RegisterThenReload(form: AuthForm, email: string, password: string, displayName: string,
                            created: AuthSlice.ProviderUser)
    returns (auth: AuthSlice.AuthState)
    requires ValidateForm(email, password).None?
    modifies form
    ensures auth.user == Some(AuthSlice.ToSerializableUser(created))
  {
    var session := new AuthSlice.AuthState();
    AuthSlice.Register(session, created);
    assert session.user.None?;
    var request, stored := form.HandleSubmit(email, password, displayName, false,
                                             Success(AuthSlice.ToSerializableUser(created)));
    auth := new AuthSlice.AuthState();
    RestoreSession(auth, stored);
  }
}
