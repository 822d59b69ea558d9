/**
 * The hospital demo's sign-in dialog. Login is simulated: after a delay the
 * role and display name are picked from substrings of the email, and the
 * password is never looked at. Registration hands the chosen role and name
 * on unchecked.
 */
module AuthModal {
  import opened Options
  import opened Strings

  /** What `onLogin` receives. */
  datatype Login = Login(role: string, name: string)

  const AdminLogin := Login("admin", "Dr. Sarah Admin")
  const DoctorLogin := Login("doctor", "Dr. John Smith")
  const PatientLogin := Login("patient", "Alice Johnson")

  /** The name `handleLogin` starts from; every branch overwrites it. */
  const PlaceholderName := "Demo User"

  /**
   * The role and name `handleLogin` picks: "admin" anywhere in the email wins
   * over "doctor", and everything else is a patient.
   */
  function DemoLogin(email: string): (r: Login)
    ensures r == AdminLogin <==> exists i :: OccursAt(email, "admin", i)
    ensures r == DoctorLogin <==>
      (!exists i :: OccursAt(email, "admin", i)) && exists i :: OccursAt(email, "doctor", i)
    ensures r == AdminLogin || r == DoctorLogin || r == PatientLogin
    ensures r.name != PlaceholderName
  {
    ContainsIff(email, "admin");
    ContainsIff(email, "doctor");
    if Contains(email, "admin") then AdminLogin
    else if Contains(email, "doctor") then DoctorLogin
    else PatientLogin
  }

  /** "admin" beats "doctor" when an email holds both. */
  lemma AdminWinsOverDoctor(email: string)
    requires Contains(email, "admin") && Contains(email, "doctor")
    ensures DemoLogin(email) == AdminLogin
  {
    ContainsIff(email, "admin");
  }

  /** The three demo addresses the dialog suggests reach the three roles. */
  lemma AdminDemoAddress()
    ensures DemoLogin("admin@hospital.com") == AdminLogin
  {
    assert OccursAt("admin@hospital.com", "admin", 0);
  }

  lemma DoctorDemoAddress()
    ensures DemoLogin("doctor@hospital.com") == DoctorLogin
  {
    var email := "doctor@hospital.com";
    assert email[..6] == "doctor";
    // "admin" cannot occur: the address has no 'n'
    MissingCharNotContained(email, "admin", 'n');
    DoctorWithoutAdmin(email);
  }

  /** An email that starts with "doctor" and does not include "admin" logs in as the doctor. */
  lemma DoctorWithoutAdmin(email: string)
    requires StartsWith(email, "doctor") && !Contains(email, "admin")
    ensures DemoLogin(email) == DoctorLogin
  {
    ContainsIff(email, "admin");
    assert OccursAt(email, "doctor", 0);
  }

  lemma PatientDemoAddress()
    ensures DemoLogin("patient@hospital.com") == PatientLogin
  {
    // neither role word can occur: the address has no 'd'
    MissingCharNotContained("patient@hospital.com", "admin", 'd');
    MissingCharNotContained("patient@hospital.com", "doctor", 'd');
    ContainsIff("patient@hospital.com", "admin");
    ContainsIff("patient@hospital.com", "doctor");
  }

  datatype LoginForm = LoginForm(email: string, password: string)

  datatype RegisterForm = RegisterForm(name: string, email: string, password: string, phone: string,
                                       role: string, specialty: string, age: string)

  /**
   * The browser submits the login form only when its `required` inputs, the
   * email and the password, are not empty.
   */
  predicate LoginFilledIn(f: LoginForm) {
    f.email != "" && f.password != ""
  }

  /**
   * Likewise for registration: name, email, phone and password are `required`;
   * the role select, specialty and age are not.
   */
  predicate RegisterFilledIn(f: RegisterForm) {
    f.name != "" && f.email != "" && f.phone != "" && f.password != ""
  }

  /** The register inputs that have an `onChange` handler. */
  datatype RegisterField = NameField | EmailField | PhoneField | RoleField | PasswordField

  function FieldValue(f: RegisterForm, field: RegisterField): (v: string) {
    match field
    case NameField => f.name
    case EmailField => f.email
    case PhoneField => f.phone
    case RoleField => f.role
    case PasswordField => f.password
  }

  /** `setRegisterForm({ ...registerForm, [field]: value })` */
  function WithField(f: RegisterForm, field: RegisterField, value: string): (g: RegisterForm)
    ensures FieldValue(g, field) == value
    ensures forall other :: other != field ==> FieldValue(g, other) == FieldValue(f, other)
    ensures g.specialty == f.specialty && g.age == f.age
  {
    match field
    case NameField => f.(name := value)
    case EmailField => f.(email := value)
    case PhoneField => f.(phone := value)
    case RoleField => f.(role := value)
    case PasswordField => f.(password := value)
  }

  datatype ButtonView = ButtonView(disabled: bool, caption: string)

  /** The dialog's two tabs, each with its own submit button. */
  datatype Tab = SignInTab | RegisterTab

  function IdleCaption(tab: Tab): string {
    match tab
    case SignInTab => "Sign In"
    case RegisterTab => "Create Account"
  }

  function BusyCaption(tab: Tab): string {
    match tab
    case SignInTab => "Signing in..."
    case RegisterTab => "Creating Account..."
  }

  /** The calls the dialog makes into its parent. */
  datatype Callback = OnLogin(login: Login) | OnClose

  /**
   * The dialog's state. A submit starts a timer whose closure captured the form
   * as it was at that moment; `pendingLogin` and `pendingRegister` hold that
   * captured copy until the timer fires, so edits made in the meantime (the
   * inputs stay enabled) do not reach `onLogin`.
   */
  class Dialog {
    var isLoading: bool
    var loginForm: LoginForm
    var registerForm: RegisterForm
    var pendingLogin: Option<LoginForm>
    var pendingRegister: Option<RegisterForm>

    /** Loading exactly while one (and only one) timer is pending. */
    ghost predicate Valid()
      reads this
    {
      (isLoading <==> pendingLogin.Some? || pendingRegister.Some?) &&
      !(pendingLogin.Some? && pendingRegister.Some?)
    }

    constructor ()
      ensures Valid()
      ensures !isLoading && loginForm == LoginForm("", "")
      ensures registerForm == RegisterForm("", "", "", "", "", "", "")
      ensures pendingLogin == None && pendingRegister == None
    {
      isLoading := false;
      loginForm := LoginForm("", "");
      registerForm := RegisterForm("", "", "", "", "", "", "");
      pendingLogin := None;
      pendingRegister := None;
    }

    method ChangeLoginEmail(value: string)
      modifies this
      ensures loginForm == old(loginForm).(email := value)
      ensures isLoading == old(isLoading) && registerForm == old(registerForm)
      ensures pendingLogin == old(pendingLogin) && pendingRegister == old(pendingRegister)
    {
      loginForm := loginForm.(email := value);
    }

    method ChangeLoginPassword(value: string)
      modifies this
      ensures loginForm == old(loginForm).(password := value)
      ensures isLoading == old(isLoading) && registerForm == old(registerForm)
      ensures pendingLogin == old(pendingLogin) && pendingRegister == old(pendingRegister)
    {
      loginForm := loginForm.(password := value);
    }

    method ChangeRegister(field: RegisterField, value: string)
      modifies this
      ensures registerForm == WithField(old(registerForm), field, value)
      ensures isLoading == old(isLoading) && loginForm == old(loginForm)
      ensures pendingLogin == old(pendingLogin) && pendingRegister == old(pendingRegister)
    {
      registerForm := WithField(registerForm, field, value);
    }

    /**
     * Submitting the login form: when the required inputs are filled in,
     * loading starts and the timer captures the form; otherwise the browser
     * refuses the submission and nothing changes. Both submit buttons are
     * disabled while loading, so no submit happens then.
     */
    method SubmitLogin() returns (started: bool)
      requires Valid() && !isLoading
      modifies this
      ensures started <==> LoginFilledIn(old(loginForm))
      ensures Valid() && isLoading == started
      ensures pendingLogin == (if started then Some(old(loginForm)) else None)
      ensures pendingRegister == old(pendingRegister)
      ensures loginForm == old(loginForm) && registerForm == old(registerForm)
    {
      started := LoginFilledIn(loginForm);
      if started {
        isLoading := true;
        pendingLogin := Some(loginForm);
      }
    }

    /** The login timer's callback: the role and name come from the email captured at submit. */
    method LoginTimerFires() returns (calls: seq<Callback>)
      requires Valid() && pendingLogin.Some?
      modifies this
      ensures calls == [OnLogin(DemoLogin(old(pendingLogin).value.email)), OnClose]
      ensures Valid() && !isLoading && pendingLogin == None && pendingRegister == old(pendingRegister)
      ensures loginForm == old(loginForm) && registerForm == old(registerForm)
    {
      var login := DemoLogin(pendingLogin.value.email);
      calls := [OnLogin(login)];
      isLoading := false;
      pendingLogin := None;
      calls := calls + [OnClose];
    }

    /** Submitting the registration, under the same `required` gate. */
    method SubmitRegister() returns (started: bool)
      requires Valid() && !isLoading
      modifies this
      ensures started <==> RegisterFilledIn(old(registerForm))
      ensures Valid() && isLoading == started
      ensures pendingRegister == (if started then Some(old(registerForm)) else None)
      ensures pendingLogin == old(pendingLogin)
      ensures loginForm == old(loginForm) && registerForm == old(registerForm)
    {
      started := RegisterFilledIn(registerForm);
      if started {
        isLoading := true;
        pendingRegister := Some(registerForm);
      }
    }

    /**
     * The registration timer's callback: the role and name captured at submit
     * go through unchecked.
     */
    method RegisterTimerFires() returns (calls: seq<Callback>)
      requires Valid() && pendingRegister.Some?
      modifies this
      ensures calls == [OnLogin(Login(old(pendingRegister).value.role, old(pendingRegister).value.name)), OnClose]
      ensures Valid() && !isLoading && pendingRegister == None && pendingLogin == old(pendingLogin)
      ensures loginForm == old(loginForm) && registerForm == old(registerForm)
    {
      var submitted := pendingRegister.value;
      calls := [OnLogin(Login(submitted.role, submitted.name))];
      isLoading := false;
      pendingRegister := None;
      calls := calls + [OnClose];
    }

    /**
     * The submit button of either tab: disabled, and showing progress, while a
     * simulated call is pending; sign-in shows "Signing in...", registration
     * "Creating Account...".
     */
    function SubmitButton(tab: Tab): (b: ButtonView)
      reads this
      ensures b.disabled <==> isLoading
      ensures b.caption == BusyCaption(tab) <==> isLoading
      ensures !isLoading ==> b.caption == IdleCaption(tab)
    {
      ButtonView(isLoading, if isLoading then BusyCaption(tab) else IdleCaption(tab))
    }
  }

  /**
   * Beyond having to be filled in, the password plays no part in the calls a
   * login makes; an empty email is refused before any call.
   */
  method LoginIgnoresPassword(email: string, password1: string, password2: string)
    returns (calls1: seq<Callback>, calls2: seq<Callback>)
    requires password1 != "" && password2 != ""
    ensures calls1 == calls2
    ensures calls1 == if email == "" then [] else [OnLogin(DemoLogin(email)), OnClose]
  {
    calls1 := LoginWith(email, password1);
    calls2 := LoginWith(email, password2);
  }

  /**
   * A fresh dialog: type the email and password, submit, and let the timer
   * fire. With either input empty the browser refuses the submission and
   * nothing is called.
   */
  method LoginWith(email: string, password: string) returns (calls: seq<Callback>)
    ensures calls == if email == "" || password == "" then [] else [OnLogin(DemoLogin(email)), OnClose]
  {
    var d := new Dialog();
    d.ChangeLoginEmail(email);
    d.ChangeLoginPassword(password);
    var started := d.SubmitLogin();
    calls := [];
    if started {
      calls := d.LoginTimerFires();
    }
  }

  /** Changing the email after submitting does not change who is logged in. */
  method EmailEditedWhileLoading() returns (calls: seq<Callback>)
    ensures calls == [OnLogin(PatientLogin), OnClose]
  {
    var d := new Dialog();
    d.ChangeLoginEmail("patient@hospital.com");
    d.ChangeLoginPassword("secret");
    var started := d.SubmitLogin();
    d.ChangeLoginEmail("admin@hospital.com");
    calls := d.LoginTimerFires();
    PatientDemoAddress();
  }

  /** A role picked after submitting a registration is not the one passed to `onLogin`. */
  method RoleChosenWhileLoading(name: string) returns (calls: seq<Callback>)
    requires name != ""
    ensures calls == [OnLogin(Login("", name)), OnClose]
  {
    var d := new Dialog();
    d.ChangeRegister(NameField, name);
    d.ChangeRegister(EmailField, "ana@x.com");
    d.ChangeRegister(PhoneField, "+251900000000");
    d.ChangeRegister(PasswordField, "secret");
    var started := d.SubmitRegister();
    d.ChangeRegister(RoleField, "admin");
    calls := d.RegisterTimerFires();
  }
}
