/**
 * The login page (`LoginPage`): a two-field form with per-field errors,
 * client-side validation, and the case-insensitive mapping of the server's
 * error text onto the fields. The submit handler is split at its `await` on
 * `login`: `BeginSubmit` validates and sends, `FinishSubmit` handles the
 * result.
 */
module LoginPage {
  import opened Wrappers
  import opened Text
  import opened Http
  import opened Forms
  import AuthContext

  /** The `name` attributes of the two inputs, and the keys of `errors`. */
  datatype Field = Email | Password

  /** `formData`. */
  datatype LoginForm = LoginForm(email: string, password: string)

  /** The form on mount and after a successful login. */
  function EmptyForm(): LoginForm
  {
    LoginForm("", "")
  }

  /** `{...prev, [name]: value}`. */
  function WithField(form: LoginForm, name: Field, value: string): (f: LoginForm)
    ensures name == Email ==> f == form.(email := value)
    ensures name == Password ==> f == form.(password := value)
  {
    match name
    case Email => form.(email := value)
    case Password => form.(password := value)
  }

  /** The rule behind each key of `validateForm`'s result; the too-short
      message is spelt as the page spells it. */
  function FieldError(form: LoginForm, k: Field): Option<string>
  {
    match k
    case Email => EmailError(form.email)
    case Password => PasswordError(form.password, "Password must be atleast 8 characters")
  }

  /** What the validator accepts, stated without the messages. */
  predicate Acceptable(form: LoginForm)
  {
    MatchesEmailPattern(form.email) && MinPasswordLength <= Utf16Length(form.password)
  }

  /** `validateForm`: one entry per failing field, holding that field's
      message; the form may be submitted (the map is empty) exactly when it
      is `Acceptable`. */
  function ValidateLogin(form: LoginForm): (r: map<Field, string>)
    ensures forall k :: k in r <==> FieldError(form, k).Some?
    ensures forall k :: k in r ==> r[k] == FieldError(form, k).value
    ensures r == map[] <==> Acceptable(form)
  {
    var r := map k | k in {Email, Password} && FieldError(form, k).Some? :: FieldError(form, k).value;
    forall k ensures k in r <==> FieldError(form, k).Some? {
      if k.Email? { } else { }
    }
    assert Acceptable(form) <==> FieldError(form, Email).None? && FieldError(form, Password).None?;
    assert r == map[] <==> Email !in r && Password !in r;
    r
  }

  /** With a valid address, a password that is only too short is reported on
      its own, in the page's wording. */
  lemma ShortPasswordReported(email: string)
    requires MatchesEmailPattern(email)
    ensures ValidateLogin(LoginForm(email, "secret")).Keys == {Password}
    ensures ValidateLogin(LoginForm(email, "secret"))[Password] == "Password must be atleast 8 characters"
  {
    var f := LoginForm(email, "secret");
    assert FieldError(f, Password) == Some("Password must be atleast 8 characters") by {
      assert Utf16Length("secret") == 6;
    }
  }

  /** The branch chain of `handleSubmit` on `result.error.toLowerCase()`,
      tested in order; the alert quotes the text as received. */
  function LoginServerErrors(error: string): (r: ServerReaction<Field>)
    ensures Contains(ToLower(error), "invalid email or password") ==>
      r == SetErrors(map[Email := "Invalid email or password", Password := "Invalid email or password"])
    ensures (!Contains(ToLower(error), "invalid email or password")
      && Contains(ToLower(error), "all fields are required")) ==>
      r == SetErrors(map[Email := "Email is required", Password := "Password is required"])
    ensures r.Alert? <==>
      !Contains(ToLower(error), "invalid email or password") && !Contains(ToLower(error), "all fields are required")
    ensures r.Alert? ==> r.message == "Login failed: " + error
  {
    var errorMessage := ToLower(error);
    if Contains(errorMessage, "invalid email or password") then
      SetErrors(map[Email := "Invalid email or password", Password := "Invalid email or password"])
    else if Contains(errorMessage, "all fields are required") then
      SetErrors(map[Email := "Email is required", Password := "Password is required"])
    else
      Alert("Login failed: " + error)
  }

  /** The server's wording lower-cases to the phrase the page looks for. */
  lemma InvalidCredentialsLowerCase()
    ensures ToLower("Invalid email or password") == "invalid email or password"
  {
  }

  /** The server's "Invalid email or password", wherever it occurs in the
      error text, marks both fields. */
  lemma {:induction false} InvalidCredentialsRecognised(pre: string, post: string)
    ensures LoginServerErrors(pre + "Invalid email or password" + post) ==
      SetErrors(map[Email := "Invalid email or password", Password := "Invalid email or password"])
  {
    var needle := "Invalid email or password";
    InvalidCredentialsLowerCase();
    var e := pre + needle + post;
    ContainsInfix(pre, needle, post);
    ContainsToLower(e, needle);
    assert Contains(ToLower(e), "invalid email or password");
  }

  lemma ShoutedRequiredLowerCase()
    ensures ToLower("ALL FIELDS ARE REQUIRED") == "all fields are required"
  {
  }

  /** The match ignores case: a shouted "ALL FIELDS ARE REQUIRED" marks both
      fields as required. */
  lemma {:induction false} ShoutedRequiredRecognised()
    ensures LoginServerErrors("ALL FIELDS ARE REQUIRED") ==
      SetErrors(map[Email := "Email is required", Password := "Password is required"])
  {
    var lower := "all fields are required";
    ShoutedRequiredLowerCase();
    ContainsInfix("", lower, "");
    assert "" + lower + "" == lower;
  }

  /** The body `login` posts to `/auth/login`. */
  datatype LoginRequest = LoginRequest(email: string, password: string)

  class Page {
    var formData: LoginForm
    var errors: map<Field, string>
    var isLoading: bool

    /** The page on mount. */
    constructor ()
      ensures formData == EmptyForm() && errors == map[] && !isLoading
    {
      formData := EmptyForm();
      errors := map[];
      isLoading := false;
    }

    /** `handleChange`: only the named field changes, and only its error is
        cleared. */
    method HandleChange(name: Field, value: string)
      modifies this
      ensures formData == WithField(old(formData), name, value)
      ensures errors == ClearError(old(errors), name)
      ensures isLoading == old(isLoading)
    {
      formData := WithField(formData, name, value);
      errors := ClearError(errors, name);
    }

    /** `handleSubmit` up to the `await`: a rejected form stores exactly its
        errors and sends nothing; an acceptable one sets the loading flag,
        clears every error and sends the credentials. */
    method BeginSubmit() returns (request: Option<LoginRequest>)
      modifies this
      ensures formData == old(formData)
      ensures !Acceptable(old(formData)) ==>
        request == None && errors == ValidateLogin(old(formData)) && isLoading == old(isLoading)
      ensures Acceptable(old(formData)) ==>
        request == Some(LoginRequest(formData.email, formData.password)) && errors == map[] && isLoading
    {
      var validation := ValidateLogin(formData);
      if validation != map[] {
        errors := validation;
        return None;
      }
      isLoading := true;
      errors := map[];
      request := Some(LoginRequest(formData.email, formData.password));
    }

    /** `handleSubmit` from the `await` on: the store's `login` handles the
        response outcome `r`. On success: empty form, navigate to the
        dashboard. On failure: the server text becomes field errors or an
        alert, and the form is kept. Loading always ends, as `login` never
        throws. */
    method FinishSubmit(store: AuthContext.AuthProvider, r: Response<AuthContext.User>) returns (fb: Feedback)
      requires store.Valid()
      modifies this, store
      ensures store.Valid() && store.isLoading == old(store.isLoading)
      ensures AuthContext.AuthResultOf(r).Success? ==>
        store.user == Some(AuthContext.AuthResultOf(r).user)
        && formData == EmptyForm() && errors == old(errors)
        && fb == Feedback(None, Some("/dashboard"))
      ensures AuthContext.AuthResultOf(r).Failure? ==>
        store.user == old(store.user) && formData == old(formData)
        && match LoginServerErrors(AuthContext.AuthResultOf(r).error)
           case SetErrors(e) => errors == e && fb == Feedback(None, None)
           case Alert(m) => errors == old(errors) && fb == Feedback(Some(m), None)
      ensures !isLoading
    {
      var result := store.Login(r);
      if result.Success? {
        formData := EmptyForm();
        fb := Feedback(None, Some("/dashboard"));
      } else {
        match LoginServerErrors(result.error)
        case SetErrors(e) =>
          errors := e;
          fb := Feedback(None, None);
        case Alert(m) =>
          fb := Feedback(Some(m), None);
      }
      isLoading := false;
    }
  }

  /** A wrong password is reported on both fields and keeps the user signed
      out; a correct one signs in and leaves the page. */
  method LoginScenario(u: AuthContext.User, email: string, password: string)
  {
    var store := new AuthContext.AuthProvider("test-gen.example.com");
    store.CheckAuthStatus(NotOk(401, Parsed(None)));
    var page := new Page();
    page.HandleChange(Email, email);
    page.HandleChange(Password, password);
    assert page.formData == LoginForm(email, password);
    InvalidCredentialsRecognised("", "");
    var fb := page.FinishSubmit(store, NotOk(401, Parsed(Some("" + "Invalid email or password" + ""))));
    assert page.errors[Email] == "Invalid email or password" && fb == Feedback(None, None);
    assert !store.isAuthenticated && page.formData == LoginForm(email, password);
    fb := page.FinishSubmit(store, Ok(Parsed(u)));
    assert store.isAuthenticated && page.formData == EmptyForm() && fb.navigateTo == Some("/dashboard");
  }
}
