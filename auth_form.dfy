/**
 * The login/signup card: a two-mode form controller over a seven-field record,
 * an error string and a loading flag. Validation is a pure chain of guards; the
 * identity provider's answer is an input of each submit.
 */
module AuthForm {
  import opened Wrappers

  /** What a form field holds: a text input's `value` or a checkbox's `checked`. */
  datatype Value = Str(s: string) | Flag(b: bool)

  /** JavaScript truthiness of a field: the empty string and `false` are falsy. */
  predicate Truthy(v: Value) {
    match v
    case Str(s) => s != ""
    case Flag(b) => b
  }

  datatype Field = Username | Password | Email | ConfirmPassword | FirstName | LastName | TermsAccepted

  datatype Form = Form(
    username: Value, password: Value, email: Value, confirmPassword: Value,
    firstName: Value, lastName: Value, termsAccepted: Value)

  /** The form's initial and reset value: six empty strings and an unticked box. */
  const EmptyForm := Form(Str(""), Str(""), Str(""), Str(""), Str(""), Str(""), Flag(false))

  function Get(form: Form, name: Field): Value {
    match name
    case Username => form.username
    case Password => form.password
    case Email => form.email
    case ConfirmPassword => form.confirmPassword
    case FirstName => form.firstName
    case LastName => form.lastName
    case TermsAccepted => form.termsAccepted
  }

  /** `{ ...prev, [name]: v }`: the named field becomes `v`, every other field keeps its value. */
  function With(form: Form, name: Field, v: Value): (r: Form)
    ensures Get(r, name) == v
    ensures forall other :: other != name ==> Get(r, other) == Get(form, other)
  {
    match name
    case Username => form.(username := v)
    case Password => form.(password := v)
    case Email => form.(email := v)
    case ConfirmPassword => form.(confirmPassword := v)
    case FirstName => form.(firstName := v)
    case LastName => form.(lastName := v)
    case TermsAccepted => form.(termsAccepted := v)
  }

  /** The key each field is stored under in the form record. */
  function FieldName(f: Field): string {
    match f
    case Username => "username"
    case Password => "password"
    case Email => "email"
    case ConfirmPassword => "confirmPassword"
    case FirstName => "firstName"
    case LastName => "lastName"
    case TermsAccepted => "termsAccepted"
  }

  /** The field a key names, if any: each field has its own key, and every other key names none. */
  function FieldNamed(name: string): (r: Option<Field>)
    ensures r.Some? ==> FieldName(r.value) == name
    ensures forall f :: FieldName(f) == name ==> r == Some(f)
  {
    if name == "username" then Some(Username)
    else if name == "password" then Some(Password)
    else if name == "email" then Some(Email)
    else if name == "confirmPassword" then Some(ConfirmPassword)
    else if name == "firstName" then Some(FirstName)
    else if name == "lastName" then Some(LastName)
    else if name == "termsAccepted" then Some(TermsAccepted)
    else None
  }

  /**
   * `{ ...prev, [name]: v }` for any key: the field stored under `name` becomes `v`; a key that is
   * no field's (such as the empty name) changes none of the seven fields.
   */
  function Assign(form: Form, name: string, v: Value): (r: Form)
    ensures forall f :: FieldName(f) == name ==> Get(r, f) == v
    ensures forall f :: FieldName(f) != name ==> Get(r, f) == Get(form, f)
  {
    match FieldNamed(name)
    case None => form
    case Some(f) => With(form, f, v)
  }

  /** The part of a change event the handler reads: `name`, `value`, whether `type` is 'checkbox', `checked`. */
  datatype InputEvent = InputEvent(name: string, value: string, isCheckbox: bool, checked: bool)

  /** A checkbox stores `checked`; every other input stores `value`. */
  function StoredValue(e: InputEvent): (v: Value)
    ensures e.isCheckbox ==> v == Flag(e.checked)
    ensures !e.isCheckbox ==> v == Str(e.value)
  {
    if e.isCheckbox then Flag(e.checked) else Str(e.value)
  }

  /** What the guards see of a stored value: a checkbox counts as filled iff ticked, any other input iff non-empty. */
  lemma StoredValueTruthy(e: InputEvent)
    ensures Truthy(StoredValue(e)) <==> (if e.isCheckbox then e.checked else e.value != "")
  {
  }

  // ---------------------------------------------------------------------------
  // The card's inputs and the change events they dispatch

  /** The inputs the card renders that report changes: two on the login side, seven on the signup side. */
  datatype Control =
    | LoginUsername | LoginPassword
    | SignupFirstName | SignupLastName | SignupUsername | SignupEmail | SignupPassword | SignupConfirmPassword
    | SignupTerms

  /** The field whose value each input displays. */
  function Shows(c: Control): Field {
    match c
    case LoginUsername => Username
    case LoginPassword => Password
    case SignupFirstName => FirstName
    case SignupLastName => LastName
    case SignupUsername => Username
    case SignupEmail => Email
    case SignupPassword => Password
    case SignupConfirmPassword => ConfirmPassword
    case SignupTerms => TermsAccepted
  }

  /** The signup text inputs: the ones rendered through the shared `InputField` component with `handleInputChange` as their handler. */
  predicate SignupText(c: Control) {
    c != LoginUsername && c != LoginPassword && c != SignupTerms
  }

  /**
   * The change event each input dispatches, as the page is written. The login inputs build their
   * event with an explicit name, and the terms checkbox is a bare input with its own name. The
   * signup text inputs pass through `InputField`, which neither takes nor forwards a `name`, so their
   * events carry the empty name. A checkbox's `value` is the browser default "on".
   */
  function PageEvent(c: Control, text: string, checked: bool): InputEvent {
    if c == SignupTerms then InputEvent(FieldName(TermsAccepted), "on", true, checked)
    else if SignupText(c) then InputEvent("", text, false, false)
    else InputEvent(FieldName(Shows(c)), text, false, false)
  }

  /** The change event each input evidently should dispatch: every input carries the name of the field it shows. */
  function IntendedEvent(c: Control, text: string, checked: bool): InputEvent {
    if c == SignupTerms then InputEvent(FieldName(TermsAccepted), "on", true, checked)
    else InputEvent(FieldName(Shows(c)), text, false, false)
  }

  /** As written, a signup text input changes no field; every other input sets the field it shows. */
  lemma PageEventEffect(form: Form, c: Control, text: string, checked: bool)
    ensures SignupText(c) ==>
      Assign(form, PageEvent(c, text, checked).name, StoredValue(PageEvent(c, text, checked))) == form
    ensures !SignupText(c) ==>
      Assign(form, PageEvent(c, text, checked).name, StoredValue(PageEvent(c, text, checked)))
        == With(form, Shows(c), StoredValue(PageEvent(c, text, checked)))
  {
    var e := PageEvent(c, text, checked);
    if SignupText(c) {
      assert FieldNamed(e.name) == None;
    } else {
      assert FieldNamed(e.name) == Some(Shows(c));
    }
  }

  /** With named events, every input sets the field it shows: its text, or for the checkbox whether it is ticked. */
  lemma IntendedEventEffect(form: Form, c: Control, text: string, checked: bool)
    ensures Assign(form, IntendedEvent(c, text, checked).name, StoredValue(IntendedEvent(c, text, checked)))
      == With(form, Shows(c), if c == SignupTerms then Flag(checked) else Str(text))
  {
    assert FieldNamed(IntendedEvent(c, text, checked).name) == Some(Shows(c));
  }

  /** The forms the page as written can hold: the four fields that only signup text inputs show stay empty. */
  predicate PageReachable(form: Form) {
    form.email == Str("") && form.confirmPassword == Str("") && form.firstName == Str("") && form.lastName == Str("")
  }

  /** The empty form is reachable, and every event the page dispatches keeps the form reachable. */
  lemma PageEventsStayReachable(form: Form, c: Control, text: string, checked: bool)
    requires PageReachable(form)
    ensures PageReachable(EmptyForm)
    ensures PageReachable(Assign(form, PageEvent(c, text, checked).name, StoredValue(PageEvent(c, text, checked))))
  {
    PageEventEffect(form, c, text, checked);
  }

  // ---------------------------------------------------------------------------
  // Validation

  /** The guards of the submit handler, one per early return. */
  datatype Guard = MissingIdentifier | MissingPassword | MissingFields | PasswordMismatch | TermsNotAccepted

  /** The guards in the order the handler tries them, per mode. */
  function Chain(isLogin: bool): seq<Guard> {
    if isLogin then [MissingIdentifier, MissingPassword]
    else [MissingFields, PasswordMismatch, TermsNotAccepted]
  }

  /** When a single guard, taken on its own, rejects the form. */
  predicate Rejects(g: Guard, form: Form) {
    match g
    case MissingIdentifier => !Truthy(form.email) && !Truthy(form.username)
    case MissingPassword => !Truthy(form.password)
    case MissingFields => !Truthy(form.email) || !Truthy(form.password) || !Truthy(form.confirmPassword)
    case PasswordMismatch => form.password != form.confirmPassword
    case TermsNotAccepted => !Truthy(form.termsAccepted)
  }

  /** A form is acceptable in a mode when no guard of that mode rejects it. */
  predicate Acceptable(isLogin: bool, form: Form) {
    forall k :: 0 <= k < |Chain(isLogin)| ==> !Rejects(Chain(isLogin)[k], form)
  }

  /** The guard that stops the submit, if any: the first guard of the mode's chain that rejects. */
  function FirstFailure(isLogin: bool, form: Form): (r: Option<Guard>)
    ensures r.None? <==> Acceptable(isLogin, form)
    ensures r.Some? ==>
      exists k :: 0 <= k < |Chain(isLogin)| && Chain(isLogin)[k] == r.value && Rejects(r.value, form) &&
        forall j :: 0 <= j < k ==> !Rejects(Chain(isLogin)[j], form)
  {
    if isLogin then
      assert Chain(isLogin) == [MissingIdentifier, MissingPassword];
      if !Truthy(form.email) && !Truthy(form.username) then
        assert Rejects(Chain(isLogin)[0], form);
        Some(MissingIdentifier)
      else if !Truthy(form.password) then
        assert Rejects(Chain(isLogin)[1], form);
        Some(MissingPassword)
      else None
    else
      assert Chain(isLogin) == [MissingFields, PasswordMismatch, TermsNotAccepted];
      if !Truthy(form.email) || !Truthy(form.password) || !Truthy(form.confirmPassword) then
        assert Rejects(Chain(isLogin)[0], form);
        Some(MissingFields)
      else if form.password != form.confirmPassword then
        assert Rejects(Chain(isLogin)[1], form);
        Some(PasswordMismatch)
      else if !Truthy(form.termsAccepted) then
        assert Rejects(Chain(isLogin)[2], form);
        Some(TermsNotAccepted)
      else None
  }

  const EnEnterEmail := "Please enter email"
  const BnEnterEmail := "\U{0987}\U{09AE}\U{09C7}\U{0987}\U{09B2} \U{09A6}\U{09BF}\U{09A8}"
  const EnFillAll := "Please fill in all fields"
  const BnFillAll := "\U{09B8}\U{09AC} \U{0998}\U{09B0} \U{09AA}\U{09C2}\U{09B0}\U{09A3} \U{0995}\U{09B0}\U{09C1}\U{09A8}"
  const EnMismatch := "Passwords do not match"
  const BnMismatch := "\U{09AA}\U{09BE}\U{09B8}\U{0993}\U{09AF}\U{09BC}\U{09BE}\U{09B0}\U{09CD}\U{09A1} \U{09AE}\U{09BF}\U{09B2}\U{099B}\U{09C7} \U{09A8}\U{09BE}"
  const EnTerms := "You must agree to the Terms & Conditions"
  const BnTerms := "\U{0986}\U{09AA}\U{09A8}\U{09BE}\U{0995}\U{09C7} \U{09B6}\U{09B0}\U{09CD}\U{09A4}\U{09BE}\U{09AC}\U{09B2}\U{09C0}\U{09A4}\U{09C7} \U{09B8}\U{09AE}\U{09CD}\U{09AE}\U{09A4} \U{09B9}\U{09A4}\U{09C7} \U{09B9}\U{09AC}\U{09C7}"

  /** `language === 'English' ? english : bangla`: every other language gets the Bangla text. */
  function Localized(language: string, english: string, bangla: string): string {
    if language == "English" then english else bangla
  }

  /**
   * The text the handler puts into `error` for a failed guard. The missing-password text is the
   * translation table's password placeholder, which is a parameter here.
   */
  function Message(g: Guard, language: string, passwordPlaceholder: string): string {
    match g
    case MissingIdentifier => Localized(language, EnEnterEmail, BnEnterEmail)
    case MissingPassword => passwordPlaceholder
    case MissingFields => Localized(language, EnFillAll, BnFillAll)
    case PasswordMismatch => Localized(language, EnMismatch, BnMismatch)
    case TermsNotAccepted => Localized(language, EnTerms, BnTerms)
  }

  /** The validator: no error exactly for an acceptable form, otherwise the first failing guard's text. */
  function Validate(isLogin: bool, form: Form, language: string, passwordPlaceholder: string): (r: Option<string>)
    ensures r.None? <==> Acceptable(isLogin, form)
    ensures isLogin && !Truthy(form.email) && !Truthy(form.username) ==>
      r == Some(Localized(language, EnEnterEmail, BnEnterEmail))
    ensures isLogin && (Truthy(form.email) || Truthy(form.username)) && !Truthy(form.password) ==>
      r == Some(passwordPlaceholder)
    ensures !isLogin && (!Truthy(form.email) || !Truthy(form.password) || !Truthy(form.confirmPassword)) ==>
      r == Some(Localized(language, EnFillAll, BnFillAll))
    ensures (!isLogin && Truthy(form.email) && Truthy(form.password) && Truthy(form.confirmPassword)
             && form.password != form.confirmPassword) ==>
      r == Some(Localized(language, EnMismatch, BnMismatch))
    ensures (!isLogin && Truthy(form.email) && Truthy(form.password) && Truthy(form.confirmPassword)
             && form.password == form.confirmPassword && !Truthy(form.termsAccepted)) ==>
      r == Some(Localized(language, EnTerms, BnTerms))
  {
    match FirstFailure(isLogin, form)
    case None => None
    case Some(g) => Some(Message(g, language, passwordPlaceholder))
  }

  /** Login accepts exactly when some identifier (email or username) and a password are present. */
  lemma LoginAcceptance(form: Form)
    ensures Acceptable(true, form) <==>
      (Truthy(form.email) || Truthy(form.username)) && Truthy(form.password)
  {
    assert FirstFailure(true, form).None? <==> Acceptable(true, form);
  }

  /** Signup accepts exactly when email, password and confirmation are present and equal, and the terms are ticked. */
  lemma SignupAcceptance(form: Form)
    ensures Acceptable(false, form) <==>
      Truthy(form.email) && Truthy(form.password) && Truthy(form.confirmPassword)
      && form.password == form.confirmPassword && Truthy(form.termsAccepted)
  {
    assert FirstFailure(false, form).None? <==> Acceptable(false, form);
  }

  // ---------------------------------------------------------------------------
  // The identity provider, as seen by the card

  /** A request the card sends to the identity provider. */
  datatype Request =
    | SignInWithPassword(email: Value, password: Value)
    | SignUp(email: Value, password: Value, firstName: Value, lastName: Value, username: Value)
    | SignInWithOAuth(provider: string)

  /** What the provider answered: an error carrying a message, or success with or without a session. */
  datatype Outcome = Rejected(message: string) | Accepted(hasSession: bool)

  /** The request a passing submit sends: login sends the `username` field as the email. */
  function RequestFor(isLogin: bool, form: Form): (r: Request)
    ensures isLogin ==> r.SignInWithPassword? && r.email == form.username && r.password == form.password
    ensures !isLogin ==>
      r.SignUp? && r.email == form.email && r.password == form.password
      && r.firstName == form.firstName && r.lastName == form.lastName && r.username == form.username
  {
    if isLogin then SignInWithPassword(form.username, form.password)
    else SignUp(form.email, form.password, form.firstName, form.lastName, form.username)
  }

  /**
   * Login validation looks at `email` as well as `username`, but the request carries only
   * `username`: a form with an email and an empty username passes and sends an empty identifier.
   */
  lemma LoginMaySendEmptyIdentifier(form: Form, language: string, passwordPlaceholder: string)
    requires form.username == Str("") && Truthy(form.email) && Truthy(form.password)
    ensures Validate(true, form, language, passwordPlaceholder).None?
    ensures RequestFor(true, form).email == Str("")
  {
    LoginAcceptance(form);
  }

  /** As written, a signup submit from any reachable form stops at the "fill in all fields" guard. */
  lemma SignupNeverPasses(form: Form, language: string, passwordPlaceholder: string)
    requires PageReachable(form)
    ensures FirstFailure(false, form) == Some(MissingFields)
    ensures Validate(false, form, language, passwordPlaceholder) == Some(Localized(language, EnFillAll, BnFillAll))
  {
  }

  /** As written, the email field stays empty, so a login that passes validation sends a non-empty identifier. */
  lemma LoginSendsIdentifierWhenReachable(form: Form)
    requires PageReachable(form) && Acceptable(true, form)
    ensures Truthy(RequestFor(true, form).email)
  {
    LoginAcceptance(form);
  }

  const Home := "/home"
  const RegistrationNotice := "Registration successful! Please check your email to confirm your account."

  /** The card's state: mode, form record, error text, loading flag, and what it did to the outside world. */
  class AuthCard {
    var isLogin: bool
    var form: Form
    var showPassword: bool
    var loading: bool
    var error: string
    /** The route last navigated to, if any. */
    var navigation: Option<string>
    /** The alerts shown, in order. */
    var alerts: seq<string>
    /** The requests sent to the identity provider, in order. */
    var requests: seq<Request>

    constructor ()
      ensures isLogin && form == EmptyForm && !showPassword && !loading && error == ""
      ensures navigation == None && alerts == [] && requests == []
    {
      isLogin := true;
      form := EmptyForm;
      showPassword := false;
      loading := false;
      error := "";
      navigation := None;
      alerts := [];
      requests := [];
    }

    /** Switch between login and signup: clear the error and reset all seven fields. */
    method ToggleAuthMode()
      modifies this
      ensures isLogin == !old(isLogin) && error == "" && form == EmptyForm
      ensures showPassword == old(showPassword) && loading == old(loading)
      ensures navigation == old(navigation) && alerts == old(alerts) && requests == old(requests)
    {
      isLogin := !isLogin;
      error := "";
      form := EmptyForm;
    }

    /** Store the event's value under its name and clear a non-empty error. */
    method HandleInputChange(e: InputEvent)
      modifies this
      ensures form == Assign(old(form), e.name, StoredValue(e))
      ensures error == ""
      ensures isLogin == old(isLogin) && showPassword == old(showPassword) && loading == old(loading)
      ensures navigation == old(navigation) && alerts == old(alerts) && requests == old(requests)
    {
      form := Assign(form, e.name, StoredValue(e));
      if error != "" {
        error := "";
      }
    }

    /** The Show/Hide button beside the password input. */
    method TogglePasswordVisibility()
      modifies this
      ensures showPassword == !old(showPassword)
      ensures isLogin == old(isLogin) && form == old(form) && loading == old(loading) && error == old(error)
      ensures navigation == old(navigation) && alerts == old(alerts) && requests == old(requests)
    {
      showPassword := !showPassword;
    }

    /**
     * One submit, from the click to the provider's answer. A failing guard sets its message and
     * stops: no request, `loading` untouched. Otherwise exactly one request is sent and its
     * outcome decides navigation, mode and error; `loading` ends false.
     */
    method Submit(language: string, passwordPlaceholder: string, outcome: Outcome) returns (sent: Option<Request>)
      modifies this
      ensures sent.Some? <==> Acceptable(old(isLogin), old(form))
      ensures sent.None? ==>
        && error == Validate(old(isLogin), old(form), language, passwordPlaceholder).value
        && loading == old(loading) && isLogin == old(isLogin)
        && navigation == old(navigation) && alerts == old(alerts) && requests == old(requests)
      ensures sent.Some? ==>
        && sent.value == RequestFor(old(isLogin), old(form))
        && requests == old(requests) + [sent.value]
        && !loading
      ensures sent.Some? && outcome.Rejected? ==>
        error == outcome.message && isLogin == old(isLogin) && navigation == old(navigation) && alerts == old(alerts)
      ensures sent.Some? && outcome.Accepted? && (old(isLogin) || outcome.hasSession) ==>
        error == "" && navigation == Some(Home) && isLogin == old(isLogin) && alerts == old(alerts)
      ensures sent.Some? && !old(isLogin) && outcome == Accepted(false) ==>
        error == "" && isLogin && navigation == old(navigation) && alerts == old(alerts) + [RegistrationNotice]
      ensures form == old(form) && showPassword == old(showPassword)
    {
      error := "";
      var failure := Validate(isLogin, form, language, passwordPlaceholder);
      if failure.Some? {
        error := failure.value;
        return None;
      }
      loading := true;
      var request := RequestFor(isLogin, form);
      requests := requests + [request];
      sent := Some(request);
      match outcome {
        case Rejected(message) =>
          error := message;
        case Accepted(hasSession) =>
          if isLogin || hasSession {
            navigation := Some(Home);
          } else {
            alerts := alerts + [RegistrationNotice];
            isLogin := true;
          }
      }
      loading := false;
    }

    /**
     * An OAuth sign-in: `loading` goes up and the request is sent. A provider error is shown and
     * `loading` drops again; on success the browser leaves the page, so nothing else changes here.
     */
    method SocialLogin(provider: string, providerError: Option<string>)
      modifies this
      ensures requests == old(requests) + [SignInWithOAuth(provider)]
      ensures providerError.Some? ==> error == providerError.value && !loading
      ensures providerError.None? ==> error == old(error) && loading
      ensures isLogin == old(isLogin) && form == old(form) && showPassword == old(showPassword)
      ensures navigation == old(navigation) && alerts == old(alerts)
    {
      loading := true;
      requests := requests + [SignInWithOAuth(provider)];
      if providerError.Some? {
        error := providerError.value;
        loading := false;
      }
    }
  }

  /**
   * A signup as the page is written: type an email, a password and the same confirmation, tick the
   * terms, submit. The text events carry no name, so the submit stops at "Please fill in all fields"
   * and nothing reaches the provider.
   */
  method SignupAsWritten(email: string, password: string) returns (sent: Option<Request>, error: string)
    ensures sent == None && error == EnFillAll
  {
    var card := new AuthCard();
    card.ToggleAuthMode();
    card.HandleInputChange(PageEvent(SignupEmail, email, false));
    card.HandleInputChange(PageEvent(SignupPassword, password, false));
    card.HandleInputChange(PageEvent(SignupConfirmPassword, password, false));
    card.HandleInputChange(PageEvent(SignupTerms, "", true));
    assert card.form == EmptyForm.(termsAccepted := Flag(true));
    SignupNeverPasses(card.form, "English", "Password");
    sent := card.Submit("English", "Password", Accepted(true));
    error := card.error;
  }

  /**
   * The same signup with named events: the request reaches the provider. When it returns no
   * session, the card switches to login keeping the form, whose username is empty; a login submit
   * then passes validation and sends an empty identifier.
   */
  method SignupAsIntended(email: string, password: string) returns (signup: Option<Request>, login: Option<Request>)
    requires email != "" && password != ""
    ensures signup == Some(SignUp(Str(email), Str(password), Str(""), Str(""), Str("")))
    ensures login == Some(SignInWithPassword(Str(""), Str(password)))
  {
    var card := new AuthCard();
    card.ToggleAuthMode();
    IntendedEventEffect(card.form, SignupEmail, email, false);
    card.HandleInputChange(IntendedEvent(SignupEmail, email, false));
    IntendedEventEffect(card.form, SignupPassword, password, false);
    card.HandleInputChange(IntendedEvent(SignupPassword, password, false));
    IntendedEventEffect(card.form, SignupConfirmPassword, password, false);
    card.HandleInputChange(IntendedEvent(SignupConfirmPassword, password, false));
    IntendedEventEffect(card.form, SignupTerms, "", true);
    card.HandleInputChange(IntendedEvent(SignupTerms, "", true));
    assert card.form == Form(Str(""), Str(password), Str(email), Str(password), Str(""), Str(""), Flag(true));
    SignupAcceptance(card.form);
    signup := card.Submit("English", "Password", Accepted(false));
    assert card.isLogin && card.form.username == Str("");
    LoginAcceptance(card.form);
    login := card.Submit("English", "Password", Accepted(true));
  }
}
