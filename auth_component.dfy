/**
 * AuthComponent: the login / register form. The form group holds three controls
 * (email, password, age); their errors follow Angular's built-in validators, with the
 * email pattern test passed in as `validEmail`.
 */
module AuthForm {
  import opened Wrappers
  import opened Strings
  import opened Models
  import opened Browser
  import opened Auth

  // ---- controls and validators ----------------------------------------------

  /** A control's value: null (after `reset`), text, or a number. */
  datatype FieldValue = Null | Text(s: string) | Num(n: int)

  /** The validators on a control: required, email, minLength(n), min(n), max(n). */
  datatype Validators = Validators(required: bool, email: bool, minLength: Option<nat>, min: Option<int>, max: Option<int>)

  const NoValidators := Validators(false, false, None, None, None)
  const EmailValidators := Validators(true, true, None, None, None)
  const PasswordValidators := Validators(true, false, Some(6), None, None)
  const AgeValidators := Validators(true, false, None, Some(1), Some(120))

  /** The age control's validators in each mode: none on the login form. */
  function AgeValidatorsFor(isLogin: bool): Validators {
    if isLogin then NoValidators else AgeValidators
  }

  datatype Control = Control(name: string, value: FieldValue, touched: bool, validators: Validators)

  /** Which validators fail; the control's `errors` is null when none does. */
  datatype Errors = Errors(required: bool, email: bool, minLength: bool, min: bool, max: bool)

  predicate AnyError(e: Errors) {
    e.required || e.email || e.minLength || e.min || e.max
  }

  /** Angular's "empty input": null or a zero-length string. */
  predicate IsEmptyInput(v: FieldValue) {
    v.Null? || v == Text("")
  }

  /** The built-in validators: `required` fails on an empty input; `email`, `minLength`, `min` and `max`
      pass on an empty input; `minLength` looks only at values with a length (JavaScript's `length`, in
      UTF-16 code units), `min` and `max` only at numbers. */
  function ControlErrors(c: Control, validEmail: string -> bool): (e: Errors)
    ensures e.minLength ==> c.validators.minLength.Some?
    ensures e.min ==> c.validators.min.Some?
    ensures e.max ==> c.validators.max.Some?
  {
    var v := c.value;
    var vs := c.validators;
    Errors(
      vs.required && IsEmptyInput(v),
      vs.email && v.Text? && v.s != "" && !validEmail(v.s),
      vs.minLength.Some? && v.Text? && v.s != "" && Utf16Length(v.s) < vs.minLength.value,
      vs.min.Some? && v.Num? && v.n < vs.min.value,
      vs.max.Some? && v.Num? && v.n > vs.max.value)
  }

  /** `authForm.valid`: no control has an error. */
  predicate FormValid(cs: seq<Control>, validEmail: string -> bool) {
    forall i :: 0 <= i < |cs| ==> !AnyError(ControlErrors(cs[i], validEmail))
  }

  /** The group `fb.group` builds: email (required, email), password (required, minLength 6), then age;
      the email and password inputs hold text (or null) and the age input a number (or null). */
  predicate Shaped(cs: seq<Control>) {
    && |cs| == 3
    && cs[0].name == "email" && cs[0].validators == EmailValidators && !cs[0].value.Num?
    && cs[1].name == "password" && cs[1].validators == PasswordValidators && !cs[1].value.Num?
    && cs[2].name == "age" && !cs[2].value.Text?
  }

  /** `authForm.get(name)`: the first control of that name, null when there is none. */
  function Find(cs: seq<Control>, name: string): (r: Option<Control>)
    ensures r.Some? ==> r.value in cs && r.value.name == name
    ensures r.None? <==> forall i :: 0 <= i < |cs| ==> cs[i].name != name
  {
    if cs == [] then None
    else if cs[0].name == name then Some(cs[0])
    else Find(cs[1..], name)
  }

  /** hasFieldError: the control exists, has been touched and has an error. */
  predicate HasFieldError(cs: seq<Control>, name: string, validEmail: string -> bool)
    ensures HasFieldError(cs, name, validEmail) ==>
      Find(cs, name).Some? && Find(cs, name).value.touched && AnyError(ControlErrors(Find(cs, name).value, validEmail))
    ensures (forall i :: 0 <= i < |cs| ==> !cs[i].touched) ==> !HasFieldError(cs, name, validEmail)
  {
    match Find(cs, name)
    case None => false
    case Some(c) => c.touched && AnyError(ControlErrors(c, validEmail))
  }

  /** getFieldError: the message of the first failing validator in the order required, email,
      minlength, min, max, built from that validator's parameter. */
  function GetFieldError(cs: seq<Control>, name: string, validEmail: string -> bool): (msg: string)
    ensures msg != "" <==> HasFieldError(cs, name, validEmail)
    ensures HasFieldError(cs, name, validEmail) ==>
      var c := Find(cs, name).value;
      var e := ControlErrors(c, validEmail);
      && (e.required ==> msg == name + " is required")
      && (!e.required && e.email ==> msg == "Please enter a valid email")
      && (!e.required && !e.email && e.minLength ==>
            msg == name + " must be at least " + NatToString(c.validators.minLength.value) + " characters")
      && (!e.required && !e.email && !e.minLength && e.min ==>
            msg == "Age must be at least " + IntToString(c.validators.min.value))
      && (!e.required && !e.email && !e.minLength && !e.min ==>
            msg == "Age must be at most " + IntToString(c.validators.max.value))
  {
    match Find(cs, name)
    case None => ""
    case Some(c) =>
      var e := ControlErrors(c, validEmail);
      if !(c.touched && AnyError(e)) then ""
      else if e.required then name + " is required"
      else if e.email then "Please enter a valid email"
      else if e.minLength then name + " must be at least " + NatToString(c.validators.minLength.value) + " characters"
      else if e.min then "Age must be at least " + IntToString(c.validators.min.value)
      else "Age must be at most " + IntToString(c.validators.max.value)
  }

  /** The password and age messages with the form's own parameters. */
  lemma PasswordLengthMessage(cs: seq<Control>, validEmail: string -> bool)
    requires Shaped(cs) && cs[1].value.Text? && cs[1].value.s != "" && Utf16Length(cs[1].value.s) < 6 && cs[1].touched
    ensures GetFieldError(cs, "password", validEmail) == "password must be at least 6 characters"
  {
    assert Find(cs, "password") == Some(cs[1]);
    assert NatToString(6) == "6";
  }

  lemma AgeBelowMessage(cs: seq<Control>, validEmail: string -> bool)
    requires Shaped(cs) && cs[2].validators == AgeValidators && cs[2].value.Num? && cs[2].value.n < 1 && cs[2].touched
    ensures GetFieldError(cs, "age", validEmail) == "Age must be at least 1"
  {
    assert Find(cs, "age") == Some(cs[2]);
    assert IntToString(1) == "1";
  }

  lemma AgeAboveMessage(cs: seq<Control>, validEmail: string -> bool)
    requires Shaped(cs) && cs[2].validators == AgeValidators && cs[2].value.Num? && cs[2].value.n > 120 && cs[2].touched
    ensures GetFieldError(cs, "age", validEmail) == "Age must be at most 120"
  {
    assert Find(cs, "age") == Some(cs[2]);
    assert NatToString(12) == "12";
    assert IntToString(120) == "120";
  }

  // ---- submission -------------------------------------------------------------

  /** The string a text control contributes to the request body; null and numbers never reach it on a valid form. */
  function TextOf(v: FieldValue): string {
    if v.Text? then v.s else ""
  }

  function NumOf(v: FieldValue): int {
    if v.Num? then v.n else 0
  }

  /** What onSubmit does with the form: nothing when it is invalid, else a login or a register body. */
  datatype Submission = Rejected | SendLogin(login: LoginRequest) | SendRegister(register: RegisterRequest)

  function SubmitRequest(isLogin: bool, cs: seq<Control>, validEmail: string -> bool): (r: Submission)
    requires Shaped(cs)
    ensures r.Rejected? <==> !FormValid(cs, validEmail)
    ensures r.SendLogin? <==> isLogin && FormValid(cs, validEmail)
    ensures r.SendLogin? ==> r.login.email != "" && validEmail(r.login.email) && Utf16Length(r.login.password) >= 6
    ensures r.SendRegister? ==> r.register.email != "" && validEmail(r.register.email) && Utf16Length(r.register.password) >= 6
    ensures r.SendRegister? && cs[2].validators == AgeValidators ==> 1 <= r.register.age <= 120
    ensures r.SendLogin? ==> Text(r.login.email) == cs[0].value && Text(r.login.password) == cs[1].value
    ensures r.SendRegister? ==> Text(r.register.email) == cs[0].value && Text(r.register.password) == cs[1].value
    ensures r.SendRegister? && cs[2].validators == AgeValidators ==> Num(r.register.age) == cs[2].value
  {
    if !FormValid(cs, validEmail) then Rejected
    else
      assert !AnyError(ControlErrors(cs[0], validEmail));
      assert !AnyError(ControlErrors(cs[1], validEmail));
      assert !AnyError(ControlErrors(cs[2], validEmail));
      if isLogin then SendLogin(LoginRequest(TextOf(cs[0].value), TextOf(cs[1].value)))
      else SendRegister(RegisterRequest(TextOf(cs[0].value), TextOf(cs[1].value), NumOf(cs[2].value)))
  }

  /** On the login form the age field cannot make the form invalid, whatever it holds. */
  lemma LoginIgnoresAge(cs: seq<Control>, validEmail: string -> bool, v: FieldValue)
    requires Shaped(cs) && cs[2].validators == NoValidators
    ensures FormValid(cs[2 := cs[2].(value := v)], validEmail) <==> FormValid(cs, validEmail)
  {
    var cs' := cs[2 := cs[2].(value := v)];
    assert !AnyError(ControlErrors(cs[2], validEmail)) && !AnyError(ControlErrors(cs'[2], validEmail));
    if FormValid(cs, validEmail) {
      forall i | 0 <= i < 3 ensures !AnyError(ControlErrors(cs'[i], validEmail)) {
        if i < 2 { assert cs'[i] == cs[i]; }
      }
    }
    if FormValid(cs', validEmail) {
      forall i | 0 <= i < 3 ensures !AnyError(ControlErrors(cs[i], validEmail)) {
        if i < 2 { assert cs'[i] == cs[i]; }
      }
    }
  }

  /** Every control marked as touched, nothing else changed. */
  function AllTouched(cs: seq<Control>): (r: seq<Control>)
    ensures |r| == |cs|
    ensures forall i :: 0 <= i < |r| ==> r[i] == cs[i].(touched := true)
  {
    seq(|cs|, i requires 0 <= i < |cs| => cs[i].(touched := true))
  }

  /** After a rejected submission every field with an error shows it: marking the group touched makes
      hasFieldError true exactly for the controls with an error, and leaves the form as invalid as it was. */
  lemma TouchedShowsEveryError(cs: seq<Control>, name: string, validEmail: string -> bool)
    ensures FormValid(AllTouched(cs), validEmail) <==> FormValid(cs, validEmail)
    ensures HasFieldError(AllTouched(cs), name, validEmail) <==>
      Find(cs, name).Some? && AnyError(ControlErrors(Find(cs, name).value, validEmail))
  {
    FindTouched(cs, name);
    var t := AllTouched(cs);
    if FormValid(t, validEmail) {
      forall i | 0 <= i < |cs| ensures !AnyError(ControlErrors(cs[i], validEmail)) {
        assert ControlErrors(cs[i], validEmail) == ControlErrors(t[i], validEmail);
      }
    }
    if FormValid(cs, validEmail) {
      forall i | 0 <= i < |t| ensures !AnyError(ControlErrors(t[i], validEmail)) {
        assert ControlErrors(cs[i], validEmail) == ControlErrors(t[i], validEmail);
      }
    }
  }

  lemma {:induction false} FindTouched(cs: seq<Control>, name: string)
    ensures Find(AllTouched(cs), name) == (if Find(cs, name).Some? then Some(Find(cs, name).value.(touched := true)) else None)
  {
    if cs != [] {
      assert AllTouched(cs)[1..] == AllTouched(cs[1..]);
      FindTouched(cs[1..], name);
    }
  }

  // ---- switching between login and register -------------------------------------

  /** `authForm.reset()`: every value null and every control untouched. */
  function ResetAll(cs: seq<Control>): (r: seq<Control>)
    ensures |r| == |cs|
    ensures forall i :: 0 <= i < |r| ==> r[i] == cs[i].(value := Null, touched := false)
  {
    seq(|cs|, i requires 0 <= i < |cs| => cs[i].(value := Null, touched := false))
  }

  datatype FormState = FormState(isLogin: bool, error: string, controls: seq<Control>)

  /** toggleMode: flip the mode, clear the error, reset the form, and give the age control the new mode's validators. */
  function Toggled(f: FormState): (r: FormState)
    requires |f.controls| == 3
    ensures r.isLogin == !f.isLogin && r.error == "" && |r.controls| == 3
    ensures forall i :: 0 <= i < 3 ==> r.controls[i].name == f.controls[i].name && r.controls[i].value == Null && !r.controls[i].touched
    ensures r.controls[2].validators == AgeValidatorsFor(r.isLogin)
    ensures forall i :: 0 <= i < 2 ==> r.controls[i].validators == f.controls[i].validators
  {
    var cs := ResetAll(f.controls);
    FormState(!f.isLogin, "", cs[2 := cs[2].(validators := AgeValidatorsFor(!f.isLogin))])
  }

  /** Toggling keeps the group's shape, puts the age validators in line with the mode, and the
      reset form cannot be submitted in either mode (the email is required). */
  lemma ToggledForm(f: FormState, validEmail: string -> bool)
    requires Shaped(f.controls)
    ensures var r := Toggled(f);
      && Shaped(r.controls) && r.isLogin == !f.isLogin && r.error == ""
      && r.controls[2].validators == AgeValidatorsFor(r.isLogin)
      && (forall i :: 0 <= i < 3 ==> r.controls[i].value == Null && !r.controls[i].touched)
      && !FormValid(r.controls, validEmail)
  {
    var r := Toggled(f);
    assert ControlErrors(r.controls[0], validEmail).required;
  }

  /** Toggling twice gives back the mode, and a form that is in the pristine state toggling produces. */
  lemma ToggleTwice(f: FormState)
    requires Shaped(f.controls)
    ensures Toggled(Toggled(f)).isLogin == f.isLogin
    ensures Toggled(Toggled(f)).controls == Toggled(Toggled(Toggled(Toggled(f)))).controls
  {
    var t1 := Toggled(f);
    var t2 := Toggled(t1);
    var t3 := Toggled(t2);
    var t4 := Toggled(t3);
    assert t4.controls == t2.controls by {
      forall i | 0 <= i < 3 ensures t4.controls[i] == t2.controls[i] {}
    }
  }

  // ---- the two storage keys that hold a token -----------------------------------------

  /** A sign-in followed by the component's own write leaves the same token under both keys,
      so the catalog requests carry the session's token. */
  lemma SignInStoresBearer(s: Session, response: AuthResponse, stringify: User -> string)
    requires response.token != ""
    ensures var items := SignedIn(s, response, stringify).storage[AuthTokenKey := response.token];
      StoredBearer(items) == Some(response.token) && items[TokenKey] == response.token
  {
  }

  /** Logout clears only the service's two keys: the token the login form stored under `authToken`
      stays, and the catalog requests keep sending it. */
  lemma LogoutKeepsCatalogBearer(s: Session)
    ensures StoredBearer(SignedOut(s).storage) == StoredBearer(s.storage)
  {
    SignedOutRemovesOnlySessionKeys(s, AuthTokenKey);
  }

  // ---- the component ------------------------------------------------------------

  class AuthComponent {
    var isLogin: bool
    var isLoading: bool
    var error: string
    var returnUrl: string
    var controls: seq<Control>
    const validEmail: string -> bool

    function Form(): FormState
      reads this
    {
      FormState(isLogin, error, controls)
    }

    /** The group's shape, and on the register form the age control's validators. */
    ghost predicate Valid()
      reads this
    {
      Shaped(controls) && (!isLogin ==> controls[2].validators == AgeValidators)
    }

    /** The constructor's form group: email and password empty, age 18 with its validators. */
    constructor (validEmail: string -> bool)
      ensures this.validEmail == validEmail && Valid()
      ensures isLogin && !isLoading && error == "" && returnUrl == "/home"
      ensures controls == [Control("email", Text(""), false, EmailValidators),
                           Control("password", Text(""), false, PasswordValidators),
                           Control("age", Num(18), false, AgeValidators)]
    {
      this.validEmail := validEmail;
      isLogin := true;
      isLoading := false;
      error := "";
      returnUrl := "/home";
      controls := [Control("email", Text(""), false, EmailValidators),
                   Control("password", Text(""), false, PasswordValidators),
                   Control("age", Num(18), false, AgeValidators)];
    }

    /** ngOnInit: `returnUrl` from the query parameters, '/home' when missing or empty; on the login form
        the age control loses its validators. */
    method NgOnInit(queryParams: map<string, string>)
      requires Valid()
      modifies this
      ensures Valid()
      ensures returnUrl == (if "returnUrl" in queryParams && queryParams["returnUrl"] != "" then queryParams["returnUrl"] else "/home")
      ensures isLogin == old(isLogin) && error == old(error) && isLoading == old(isLoading)
      ensures controls == (if isLogin then old(controls)[2 := old(controls)[2].(validators := NoValidators)] else old(controls))
    {
      returnUrl := Or(if "returnUrl" in queryParams then queryParams["returnUrl"] else "", "/home");
      if isLogin {
        controls := controls[2 := controls[2].(validators := NoValidators)];
      }
    }

    /** Typing into a control (the form's inputs, outside this component's code). */
    method SetValue(i: nat, v: FieldValue)
      requires Valid() && i < 3
      requires if i == 2 then !v.Text? else !v.Num?
      modifies this
      ensures Valid() && controls == old(controls)[i := old(controls)[i].(value := v)]
      ensures isLogin == old(isLogin) && error == old(error) && isLoading == old(isLoading) && returnUrl == old(returnUrl)
    {
      controls := controls[i := controls[i].(value := v)];
    }

    method ToggleMode()
      requires Valid()
      modifies this
      ensures Valid() && Form() == Toggled(old(Form()))
      ensures isLoading == old(isLoading) && returnUrl == old(returnUrl)
    {
      isLogin := !isLogin;
      error := "";
      controls := ResetAll(controls);
      controls := controls[2 := controls[2].(validators := AgeValidatorsFor(isLogin))];
    }

    /** markFormGroupTouched: one control at a time. */
    method MarkFormGroupTouched()
      modifies this
      ensures controls == AllTouched(old(controls))
      ensures isLogin == old(isLogin) && error == old(error) && isLoading == old(isLoading) && returnUrl == old(returnUrl)
    {
      var i := 0;
      while i < |controls|
        invariant 0 <= i <= |controls| == |old(controls)|
        invariant forall k :: 0 <= k < i ==> controls[k] == old(controls)[k].(touched := true)
        invariant forall k :: i <= k < |controls| ==> controls[k] == old(controls)[k]
        invariant isLogin == old(isLogin) && error == old(error) && isLoading == old(isLoading) && returnUrl == old(returnUrl)
      {
        controls := controls[i := controls[i].(touched := true)];
        i := i + 1;
      }
    }

    /** onSubmit up to the service call: an invalid form only gets touched. */
    method OnSubmit() returns (sub: Submission)
      requires Valid()
      modifies this
      ensures Valid()
      ensures sub == SubmitRequest(old(isLogin), old(controls), validEmail)
      ensures sub.SendRegister? ==> 1 <= sub.register.age <= 120 && Num(sub.register.age) == old(controls)[2].value
      ensures sub.Rejected? ==> controls == AllTouched(old(controls)) && isLoading == old(isLoading) && error == old(error)
      ensures !sub.Rejected? ==> controls == old(controls) && isLoading && error == ""
      ensures isLogin == old(isLogin) && returnUrl == old(returnUrl)
    {
      if !FormValid(controls, validEmail) {
        MarkFormGroupTouched();
        sub := Rejected;
        return;
      }
      isLoading := true;
      error := "";
      sub := SubmitRequest(isLogin, controls, validEmail);
    }

    /** The subscriber of login and register: on success store a non-empty token under `authToken` and
        navigate to `returnUrl` (the loading flag stays set); on failure show the message and stop loading. */
    method OnAuthOutcome(outcome: Result<AuthResponse, string>, storage: LocalStorage) returns (nav: Option<Navigation>)
      modifies this, storage
      ensures outcome.Success? ==>
        && nav == Some(Navigation(returnUrl, map[]))
        && storage.items == (if outcome.value.token != "" then old(storage.items)[AuthTokenKey := outcome.value.token] else old(storage.items))
        && StoredBearer(storage.items) == (if outcome.value.token != "" then Some(outcome.value.token) else StoredBearer(old(storage.items)))
        && error == old(error) && isLoading == old(isLoading)
      ensures outcome.Failure? ==> nav.None? && storage.items == old(storage.items) && error == outcome.error && !isLoading
      ensures isLogin == old(isLogin) && controls == old(controls) && returnUrl == old(returnUrl)
    {
      match outcome
      case Success(res) =>
        if res.token != "" {
          storage.SetItem(AuthTokenKey, res.token);
        }
        nav := Some(Navigation(returnUrl, map[]));
      case Failure(message) =>
        error := message;
        isLoading := false;
        nav := None;
    }
  }
}
