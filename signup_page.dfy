/**
 * The sign-up page (`SignupPage`): a three-field form with per-field errors,
 * client-side validation, and the mapping of the server's error text onto
 * the fields. The submit handler is split at its `await` on `signup`:
 * `BeginSubmit` validates and sends, `FinishSubmit` handles the result.
 */
module SignUpPage {
  import opened Wrappers
  import opened Text
  import opened Http
  import opened Forms
  import AuthContext

  /** The `name` attributes of the three inputs, and the keys of `errors`. */
  datatype Field = Username | Email | Password

  /** `formData`. */
  datatype SignUpForm = SignUpForm(username: string, email: string, password: string)

  /** The form on mount and after a successful sign-up. */
  function EmptyForm(): SignUpForm
  {
    SignUpForm("", "", "")
  }

  /** `{...prev, [name]: value}`. */
  function WithField(form: SignUpForm, name: Field, value: string): (f: SignUpForm)
    ensures name == Username ==> f == form.(username := value)
    ensures name == Email ==> f == form.(email := value)
    ensures name == Password ==> f == form.(password := value)
  {
    match name
    case Username => form.(username := value)
    case Email => form.(email := value)
    case Password => form.(password := value)
  }

  /** The shortest username accepted, in UTF-16 code units. */
  const MinUsernameLength: nat := 3

  /** The username rule: blank is "required", otherwise it must be at least
      `MinUsernameLength` long. Accepted exactly when it is not blank and
      long enough. */
  function UsernameError(username: string): (r: Option<string>)
    ensures r.None? <==> !IsBlank(username) && MinUsernameLength <= Utf16Length(username)
    ensures IsBlank(username) ==> r == Some("Username is required")
    ensures !IsBlank(username) && r.Some? ==> r == Some("Username must be at least 3 characters")
  {
    if TrimmedIsEmpty(username) then Some("Username is required")
    else if Utf16Length(username) < MinUsernameLength then Some("Username must be at least 3 characters")
    else None
  }

  /** The rule behind each key of `validateForm`'s result. */
  function FieldError(form: SignUpForm, k: Field): Option<string>
  {
    match k
    case Username => UsernameError(form.username)
    case Email => EmailError(form.email)
    case Password => PasswordError(form.password, "Password must be at least 8 characters")
  }

  /** What the validator accepts, stated field by field without the messages. */
  predicate Acceptable(form: SignUpForm)
  {
    && !IsBlank(form.username) && MinUsernameLength <= Utf16Length(form.username)
    && MatchesEmailPattern(form.email)
    && MinPasswordLength <= Utf16Length(form.password)
  }

  /** `validateForm`: one entry per failing field, holding that field's
      message; the form may be submitted (the map is empty) exactly when it
      is `Acceptable`. */
  function ValidateSignUp(form: SignUpForm): (r: map<Field, string>)
    ensures forall k :: k in r <==> FieldError(form, k).Some?
    ensures forall k :: k in r ==> r[k] == FieldError(form, k).value
    ensures r == map[] <==> Acceptable(form)
  {
    var r := map k | k in {Username, Email, Password} && FieldError(form, k).Some? :: FieldError(form, k).value;
    forall k ensures k in r <==> FieldError(form, k).Some? {
      if k.Username? { } else if k.Email? { } else { }
    }
    assert Acceptable(form) <==>
      FieldError(form, Username).None? && FieldError(form, Email).None? && FieldError(form, Password).None?;
    assert r == map[] <==> Username !in r && Email !in r && Password !in r;
    r
  }

  /** The empty form fails on all three fields with their "required" messages. */
  lemma EmptyFormRejected()
    ensures ValidateSignUp(EmptyForm()) ==
      map[Username := "Username is required", Email := "Email is required", Password := "Password is required"]
  {
    var r := ValidateSignUp(EmptyForm());
    assert Username in r && Email in r && Password in r;
  }

  /** The branch chain of `handleSubmit` on `result.error`, tested in order. */
  function SignUpServerErrors(error: string): (r: ServerReaction<Field>)
    ensures Contains(error, "already exists") ==>
      r == SetErrors(map[Email := "User with this email already exists"])
    ensures !Contains(error, "already exists") && Contains(error, "Password must be at least 8 characters") ==>
      r == SetErrors(map[Password := "Password must be at least 8 characters long"])
    ensures (!Contains(error, "already exists") && !Contains(error, "Password must be at least 8 characters")
      && Contains(error, "All fields are required")) ==>
      r == SetErrors(map[Username := "Username is required", Email := "Email is required", Password := "Password is required"])
    ensures r.Alert? <==>
      !Contains(error, "already exists") && !Contains(error, "Password must be at least 8 characters")
      && !Contains(error, "All fields are required")
    ensures r.Alert? ==> r.message == "Signup failed: " + error
  {
    if Contains(error, "User already exists") || Contains(error, "already exists") then
      assert Contains(error, "already exists") by {
        if Contains(error, "User already exists") {
          assert "User already exists" == "User " + "already exists" + "";
          ContainsInfix("User ", "already exists", "");
          ContainsTransitive(error, "User already exists", "already exists");
        }
      }
      SetErrors(map[Email := "User with this email already exists"])
    else if Contains(error, "Password must be at least 8 characters") then
      SetErrors(map[Password := "Password must be at least 8 characters long"])
    else if Contains(error, "All fields are required") then
      SetErrors(map[Username := "Username is required", Email := "Email is required", Password := "Password is required"])
    else
      Alert("Signup failed: " + error)
  }

  /** Any "... already exists" text, a duplicate username included, is shown
      as a duplicate e-mail. */
  lemma AlreadyExistsBlamesEmail(what: string)
    ensures SignUpServerErrors(what + " already exists") ==
      SetErrors(map[Email := "User with this email already exists"])
  {
    var e := what + " already exists";
    assert Contains(e, "already exists") by {
      assert e == (what + " ") + "already exists" + "";
      ContainsInfix(what + " ", "already exists", "");
    }
  }

  /** The body `signup` posts to `/auth/signup`. */
  datatype SignUpRequest = SignUpRequest(email: string, username: string, password: string)

  class Page {
    var formData: SignUpForm
    var errors: map<Field, string>
    var isLoading: bool

    /** The page on mount. */
    constructor ()
      ensures formData == EmptyForm() && errors == map[] && !isLoading
    {
      formData := EmptyForm();
      errors := map[];
      isLoading := false;
    }

    /** `handleChange`: only the named field changes, and only its error is
        cleared. */
    method HandleChange(name: Field, value: string)
      modifies this
      ensures formData == WithField(old(formData), name, value)
      ensures errors == ClearError(old(errors), name)
      ensures isLoading == old(isLoading)
    {
      formData := WithField(formData, name, value);
      errors := ClearError(errors, name);
    }

    /** `handleSubmit` up to the `await`: a rejected form stores exactly its
        errors and sends nothing; an acceptable one sets the loading flag and
        sends the form, with the earlier errors left in place. */
    method BeginSubmit() returns (request: Option<SignUpRequest>)
      modifies this
      ensures formData == old(formData)
      ensures !Acceptable(old(formData)) ==>
        request == None && errors == ValidateSignUp(old(formData)) && isLoading == old(isLoading)
      ensures Acceptable(old(formData)) ==>
        request == Some(SignUpRequest(formData.email, formData.username, formData.password))
        && errors == old(errors) && isLoading
    {
      var validation := ValidateSignUp(formData);
      if validation != map[] {
        errors := validation;
        return None;
      }
      isLoading := true;
      request := Some(SignUpRequest(formData.email, formData.username, formData.password));
    }

    /** `handleSubmit` from the `await` on: the store's `signup` handles the
        response outcome `r`. On success: alert, empty form, navigate to the
        dashboard. On failure: the server text becomes field errors or an
        alert, and the form is kept. Loading always ends. */
    method FinishSubmit(store: AuthContext.AuthProvider, r: Response<AuthContext.User>) returns (fb: Feedback)
      requires store.Valid()
      modifies this, store
      ensures store.Valid() && store.isLoading == old(store.isLoading)
      ensures AuthContext.AuthResultOf(r).Success? ==>
        store.user == Some(AuthContext.AuthResultOf(r).user)
        && formData == EmptyForm() && errors == old(errors)
        && fb == Feedback(Some("Account created successfully!"), Some("/dashboard"))
      ensures AuthContext.AuthResultOf(r).Failure? ==>
        store.user == old(store.user) && formData == old(formData)
        && match SignUpServerErrors(AuthContext.AuthResultOf(r).error)
           case SetErrors(e) => errors == e && fb == Feedback(None, None)
           case Alert(m) => errors == old(errors) && fb == Feedback(Some(m), None)
      ensures !isLoading
    {
      var result := store.Signup(r);
      if result.Success? {
        fb := Feedback(Some("Account created successfully!"), Some("/dashboard"));
        formData := EmptyForm();
      } else {
        match SignUpServerErrors(result.error)
        case SetErrors(e) =>
          errors := e;
          fb := Feedback(None, None);
        case Alert(m) =>
          fb := Feedback(Some(m), None);
      }
      isLoading := false;
    }
  }

  /** An account is created from a valid form; a later duplicate attempt is
      reported on the e-mail field and keeps the form. */
  method SignUpScenario(u: AuthContext.User)
  {
    var store := new AuthContext.AuthProvider("localhost");
    store.CheckAuthStatus(NetworkFailure("offline"));
    var page := new Page();
    var request := page.BeginSubmit();
    EmptyFormRejected();
    assert request == None && page.errors[Email] == "Email is required";
    page.HandleChange(Email, "x");
    assert page.errors[Email] == "" && page.formData.email == "x";
    AlreadyExistsBlamesEmail("User");
    var fb := page.FinishSubmit(store, NotOk(409, Parsed(Some("User" + " already exists"))));
    assert page.errors == map[Email := "User with this email already exists"] && fb.alert == None;
    assert !store.isAuthenticated && !page.isLoading;
    fb := page.FinishSubmit(store, Ok(Parsed(u)));
    assert store.user == Some(u) && page.formData == EmptyForm() && fb.navigateTo == Some("/dashboard");
  }
}
