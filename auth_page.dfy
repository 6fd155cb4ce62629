/**
 * The sign-in page: the login and sign-up schemas, the error maps the forms
 * show, and the two submit handlers. The authentication service is not part
 * of the model; the error message it answers with (or none) is a parameter.
 */
module AuthPage {
  import opened Wrappers
  import opened Text
  import opened Schema
  import opened Leads

  /** The name pattern's class `[a-zA-ZÀ-ÿ\s'-]`. */
  predicate IsNameChar(c: char) {
    || ('a' <= c <= 'z') || ('A' <= c <= 'Z') || ('À' <= c <= 'ÿ')
    || IsSpace(c) || c == '\'' || c == '-'
  }

  const RequiredEmail := "Email é obrigatório"
  const InvalidEmail := "Email inválido"
  const OnlyLetters := "Nome deve conter apenas letras"
  const PasswordMismatch := "Senhas não coincidem"
  const NameTooShort := "Nome deve ter no mínimo 2 caracteres"
  const BadCredentials := "Invalid login credentials"
  const DuplicateEmail := "Este email já está registrado. Tente fazer login."

  const EmailChecks := [
    MinLength(1, RequiredEmail),
    MaxLength(255, "Email deve ter no máximo 255 caracteres"),
    Email(InvalidEmail)]

  const PasswordChecks := [
    MinLength(6, "Senha deve ter no mínimo 6 caracteres"),
    MaxLength(128, "Senha deve ter no máximo 128 caracteres")]

  const FullNameChecks := [
    MinLength(2, NameTooShort),
    MaxLength(100, "Nome deve ter no máximo 100 caracteres"),
    Chars(IsNameChar, false, OnlyLetters)]

  /** The trimmed email has 1..255 characters and the email format. */
  predicate EmailAccepted(email: string, emailFormat: string -> bool) {
    var e := Trim(email);
    1 <= Utf16Length(e) <= 255 && emailFormat(e)
  }

  /** The password, untrimmed, has 6..128 characters. */
  predicate PasswordAccepted(password: string) {
    6 <= Utf16Length(password) <= 128
  }

  /** The trimmed name has 2..100 characters, all letters, spaces, `'` or `-`. */
  predicate NameAccepted(fullName: string) {
    var n := Trim(fullName);
    2 <= Utf16Length(n) <= 100 && AllIn(n, IsNameChar)
  }

  function EmailIssues(email: string, emailFormat: string -> bool): (r: seq<Issue>)
    ensures r == [] <==> EmailAccepted(email, emailFormat)
    ensures forall k :: 0 <= k < |r| ==> r[k].path == "email"
  {
    var e := Trim(email);
    assert Passes(EmailChecks[0], e, emailFormat) <==> Utf16Length(e) >= 1;
    assert Passes(EmailChecks[1], e, emailFormat) <==> Utf16Length(e) <= 255;
    assert Passes(EmailChecks[2], e, emailFormat) <==> emailFormat(e);
    FieldIssues("email", e, EmailChecks, emailFormat)
  }

  function PasswordIssues(password: string): (r: seq<Issue>)
    ensures r == [] <==> PasswordAccepted(password)
    ensures forall k :: 0 <= k < |r| ==> r[k].path == "password"
  {
    var ef := NoEmailCheck;
    assert Passes(PasswordChecks[0], password, ef) <==> Utf16Length(password) >= 6;
    assert Passes(PasswordChecks[1], password, ef) <==> Utf16Length(password) <= 128;
    FieldIssues("password", password, PasswordChecks, ef)
  }

  function NameIssues(fullName: string): (r: seq<Issue>)
    ensures r == [] <==> NameAccepted(fullName)
    ensures forall k :: 0 <= k < |r| ==> r[k].path == "fullName"
  {
    var n := Trim(fullName);
    var ef := NoEmailCheck;
    assert Passes(FullNameChecks[0], n, ef) <==> Utf16Length(n) >= 2;
    assert Passes(FullNameChecks[1], n, ef) <==> Utf16Length(n) <= 100;
    assert Passes(FullNameChecks[2], n, ef) <==> |n| > 0 && AllIn(n, IsNameChar);
    FieldIssues("fullName", n, FullNameChecks, ef)
  }

  /** `loginSchema.safeParse`: the email's issues, then the password's. */
  function LoginIssues(email: string, password: string, emailFormat: string -> bool): (r: seq<Issue>)
    ensures r == [] <==> EmailAccepted(email, emailFormat) && PasswordAccepted(password)
  {
    EmailIssues(email, emailFormat) + PasswordIssues(password)
  }

  predicate SignUpAccepted(fullName: string, email: string, password: string, confirm: string, emailFormat: string -> bool) {
    && NameAccepted(fullName) && EmailAccepted(email, emailFormat) && PasswordAccepted(password)
    && password == confirm
  }

  /** `signUpSchema.safeParse`: the fields' issues in declaration order, then the
      object refinement's issue on `confirmPassword`, which is checked even when a
      field already failed. */
  function SignUpIssues(fullName: string, email: string, password: string, confirm: string, emailFormat: string -> bool): (r: seq<Issue>)
    ensures r == [] <==> SignUpAccepted(fullName, email, password, confirm, emailFormat)
    ensures password != confirm <==> r != [] && r[|r| - 1] == Issue("confirmPassword", PasswordMismatch)
  {
    var fields := NameIssues(fullName) + EmailIssues(email, emailFormat) + PasswordIssues(password);
    assert forall k :: 0 <= k < |fields| ==> fields[k].path != "confirmPassword";
    fields + (if password == confirm then [] else [Issue("confirmPassword", PasswordMismatch)])
  }

  /** The issues of an empty email: the required one, then the format one. */
  lemma EmptyEmailIssues(emailFormat: string -> bool)
    requires !emailFormat("")
    ensures FieldIssues("email", "", EmailChecks, emailFormat) == [Issue("email", RequiredEmail), Issue("email", InvalidEmail)]
  {
    var cs := EmailChecks;
    assert Utf16Length("") == 0;
    assert !Passes(cs[0], "", emailFormat) && Passes(cs[1], "", emailFormat) && !Passes(cs[2], "", emailFormat);
    assert cs[1..][1..][1..] == [];
    assert FieldIssues("email", "", cs[1..][1..], emailFormat) == [Issue("email", InvalidEmail)];
    assert FieldIssues("email", "", cs[1..], emailFormat) == [Issue("email", InvalidEmail)];
  }

  /** The issues of an empty name: the length one, then the letters one. */
  lemma EmptyNameIssues()
    ensures FieldIssues("fullName", "", FullNameChecks, NoEmailCheck)
              == [Issue("fullName", NameTooShort), Issue("fullName", OnlyLetters)]
  {
    var cs := FullNameChecks;
    var ef := NoEmailCheck;
    assert Utf16Length("") == 0;
    assert !Passes(cs[0], "", ef) && Passes(cs[1], "", ef) && !Passes(cs[2], "", ef);
    assert cs[1..][1..][1..] == [];
    assert FieldIssues("fullName", "", cs[1..][1..], ef) == [Issue("fullName", OnlyLetters)];
    assert FieldIssues("fullName", "", cs[1..], ef) == [Issue("fullName", OnlyLetters)];
  }

  /** An empty email raises the required issue first and the format issue after
      it, so the form shows the format message: the required message is never on
      screen, for any email, as long as the empty string is not an email. */
  lemma RequiredEmailNeverShown(email: string, password: string, emailFormat: string -> bool)
    requires !emailFormat("")
    ensures var errors := ErrorMap(LoginIssues(email, password, emailFormat));
      "email" in errors ==> errors["email"] != RequiredEmail
    ensures Trim(email) == "" ==>
              var errors := ErrorMap(LoginIssues(email, password, emailFormat));
              "email" in errors && errors["email"] == InvalidEmail
  {
    var e := Trim(email);
    var es, ps := EmailIssues(email, emailFormat), PasswordIssues(password);
    ErrorMapUnaffected(es, ps, "email");
    if e == "" {
      EmptyEmailIssues(emailFormat);
      assert es == [Issue("email", RequiredEmail)] + [Issue("email", InvalidEmail)];
      ErrorMapLast([Issue("email", RequiredEmail)], Issue("email", InvalidEmail));
    } else {
      var errors := ErrorMap(es);
      if "email" in errors {
        ErrorMapSpec(es, "email");
        var i :| 0 <= i < |es| && errors["email"] == es[i].message;
        IssueFromFailedCheck("email", e, EmailChecks, emailFormat, i);
        var j :| 0 <= j < |EmailChecks| && !Passes(EmailChecks[j], e, emailFormat) && es[i].message == EmailChecks[j].Message();
        assert j != 0;
      }
    }
  }

  /** An empty name fails both the length and the letters check; the later issue
      overwrites the earlier, so the form shows the letters message. */
  lemma EmptyNameShowsLettersMessage(fullName: string, email: string, password: string, confirm: string, emailFormat: string -> bool)
    requires Trim(fullName) == ""
    ensures var errors := ErrorMap(SignUpIssues(fullName, email, password, confirm, emailFormat));
      "fullName" in errors && errors["fullName"] == OnlyLetters
  {
    var ns := NameIssues(fullName);
    var es, ps := EmailIssues(email, emailFormat), PasswordIssues(password);
    var cs := if password == confirm then [] else [Issue("confirmPassword", PasswordMismatch)];
    EmptyNameIssues();
    assert ns == [Issue("fullName", NameTooShort)] + [Issue("fullName", OnlyLetters)];
    ErrorMapLast([Issue("fullName", NameTooShort)], Issue("fullName", OnlyLetters));
    ErrorMapUnaffected(ns, es, "fullName");
    ErrorMapUnaffected(ns + es, ps, "fullName");
    ErrorMapUnaffected(ns + es + ps, cs, "fullName");
  }

  /** The login form's call to the authentication service. */
  datatype SignIn = SignIn(email: string, password: string)

  /** The sign-up form's call: email, password, then the full name. */
  datatype SignUp = SignUp(email: string, password: string, fullName: string)

  /** The toast for a failed login: the service's message, with the one for bad
      credentials translated. */
  function LoginFailure(message: string): (t: Toast)
    ensures t.title == "Erro ao entrar" && t.destructive
    ensures message == BadCredentials ==> t.description == "Email ou senha incorretos"
    ensures message != BadCredentials ==> t.description == message
  {
    Toast("Erro ao entrar", if message == BadCredentials then "Email ou senha incorretos" else message, true)
  }

  /** The toast after the sign-up call: `error` is the service's message, `None`
      when the account was created. */
  function SignUpOutcome(error: Option<string>): (t: Toast)
    ensures t.destructive <==> error.Some?
    ensures error.None? ==> t.title == "Conta criada!"
    ensures error.Some? ==> t.title == "Email já cadastrado" || t.title == "Erro ao criar conta"
  {
    match error
    case None => Toast("Conta criada!", "Você foi registrado com sucesso.", false)
    case Some(m) =>
      if Contains(m, "already registered") then
        Toast("Email já cadastrado", DuplicateEmail, true)
      else
        Toast("Erro ao criar conta", m, true)
  }

  /** The duplicate-account toast is chosen exactly for a message in which
      "already registered" occurs somewhere, whatever surrounds it. */
  lemma {:induction false} DuplicateAccountToast(before: string, after: string)
    ensures var t := SignUpOutcome(Some(before + "already registered" + after));
      t.title == "Email já cadastrado" && t.destructive
  {
    var m := before + "already registered" + after;
    assert m[|before|..][..|"already registered"|] == "already registered";
    ContainsAt(m, "already registered", |before|);
  }

  /** Any other failure shows the service's message as it came. */
  lemma OtherSignUpFailure(message: string)
    requires forall i :: 0 <= i <= |message| ==> !StartsWith(message[i..], "already registered")
    ensures SignUpOutcome(Some(message)) == Toast("Erro ao criar conta", message, true)
  {
    ContainsIff(message, "already registered");
  }

  /** The login form's inputs. */
  datatype LoginForm = LoginForm(email: string, password: string)

  /** The sign-up form's inputs. */
  datatype SignUpForm = SignUpForm(fullName: string, email: string, password: string, confirmPassword: string)

  function LoginFormIssues(f: LoginForm, emailFormat: string -> bool): seq<Issue> {
    LoginIssues(f.email, f.password, emailFormat)
  }

  function SignUpFormIssues(f: SignUpForm, emailFormat: string -> bool): seq<Issue> {
    SignUpIssues(f.fullName, f.email, f.password, f.confirmPassword, emailFormat)
  }

  class Page {
    var login: LoginForm
    var loginErrors: map<string, string>
    var signUp: SignUpForm
    var signUpErrors: map<string, string>
    var isSubmitting: bool

    constructor()
      ensures login == LoginForm("", "") && loginErrors == map[]
      ensures signUp == SignUpForm("", "", "", "") && signUpErrors == map[] && !isSubmitting
    {
      login, loginErrors := LoginForm("", ""), map[];
      signUp, signUpErrors := SignUpForm("", "", "", ""), map[];
      isSubmitting := false;
    }

    /** Typing in the login form. */
    method EditLogin(email: string, password: string)
      modifies this
      ensures login == LoginForm(email, password)
      ensures loginErrors == old(loginErrors) && isSubmitting == old(isSubmitting)
      ensures signUp == old(signUp) && signUpErrors == old(signUpErrors)
    {
      login := LoginForm(email, password);
    }

    /** Typing in the sign-up form. */
    method EditSignUp(fullName: string, email: string, password: string, confirm: string)
      modifies this
      ensures signUp == SignUpForm(fullName, email, password, confirm)
      ensures signUpErrors == old(signUpErrors) && isSubmitting == old(isSubmitting)
      ensures login == old(login) && loginErrors == old(loginErrors)
    {
      signUp := SignUpForm(fullName, email, password, confirm);
    }

    /** `handleLogin`. The errors are cleared; invalid input fills them from the
        issues and calls nothing; valid input calls the service with the fields as
        typed (the email untrimmed), and `authError` is what it answered. */
    method HandleLogin(emailFormat: string -> bool, authError: Option<string>)
      returns (call: Option<SignIn>, toast: Option<Toast>)
      modifies this
      ensures LoginFormIssues(old(login), emailFormat) != [] ==>
                && call == None && toast == None && isSubmitting == old(isSubmitting)
                && loginErrors == ErrorMap(LoginFormIssues(old(login), emailFormat))
      ensures LoginFormIssues(old(login), emailFormat) == [] ==>
                && call == Some(SignIn(old(login).email, old(login).password))
                && loginErrors == map[] && !isSubmitting
                && toast == (if authError.Some? then Some(LoginFailure(authError.value)) else None)
      ensures login == old(login) && signUp == old(signUp) && signUpErrors == old(signUpErrors)
    {
      var issues := LoginFormIssues(login, emailFormat);
      loginErrors := map[];
      if issues != [] {
        loginErrors := CollectErrors(issues);
        return None, None;
      }
      call, toast := SubmitLogin(authError);
    }

    /** The part of `handleLogin` after validation: the call, with the fields as
        typed, and a toast only when the service answered with an error. */
    method SubmitLogin(authError: Option<string>) returns (call: Option<SignIn>, toast: Option<Toast>)
      modifies this
      ensures call == Some(SignIn(login.email, login.password)) && !isSubmitting
      ensures toast == (if authError.Some? then Some(LoginFailure(authError.value)) else None)
      ensures login == old(login) && loginErrors == old(loginErrors)
      ensures signUp == old(signUp) && signUpErrors == old(signUpErrors)
    {
      isSubmitting := true;
      call := Some(SignIn(login.email, login.password));
      isSubmitting := false;
      toast := None;
      if authError.Some? {
        toast := Some(LoginFailure(authError.value));
      }
    }

    /** `handleSignUp`, in the same shape as `handleLogin`; the service gets the
        email, the password and the name as typed, and its answer always toasts. */
    method HandleSignUp(emailFormat: string -> bool, authError: Option<string>)
      returns (call: Option<SignUp>, toast: Option<Toast>)
      modifies this
      ensures SignUpFormIssues(old(signUp), emailFormat) != [] ==>
                && call == None && toast == None && isSubmitting == old(isSubmitting)
                && signUpErrors == ErrorMap(SignUpFormIssues(old(signUp), emailFormat))
      ensures SignUpFormIssues(old(signUp), emailFormat) == [] ==>
                && call == Some(SignUp(old(signUp).email, old(signUp).password, old(signUp).fullName))
                && signUpErrors == map[] && !isSubmitting && toast == Some(SignUpOutcome(authError))
      ensures signUp == old(signUp) && login == old(login) && loginErrors == old(loginErrors)
    {
      var issues := SignUpFormIssues(signUp, emailFormat);
      signUpErrors := map[];
      if issues != [] {
        signUpErrors := CollectErrors(issues);
        return None, None;
      }
      call, toast := SubmitSignUp(authError);
    }

    /** The part of `handleSignUp` after validation: the call, with the fields as
        typed, and the toast for the service's answer. */
    method SubmitSignUp(authError: Option<string>) returns (call: Option<SignUp>, toast: Option<Toast>)
      modifies this
      ensures call == Some(SignUp(signUp.email, signUp.password, signUp.fullName))
      ensures toast == Some(SignUpOutcome(authError)) && !isSubmitting
      ensures signUp == old(signUp) && signUpErrors == old(signUpErrors)
      ensures login == old(login) && loginErrors == old(loginErrors)
    {
      isSubmitting := true;
      call := Some(SignUp(signUp.email, signUp.password, signUp.fullName));
      isSubmitting := false;
      toast := Some(SignUpOutcome(authError));
    }
  }

  /** A rejected login never reaches the service, and an accepted one always does:
      the call happens exactly when the schema accepts. */
  method LoginCallsIffAccepted(page: Page, emailFormat: string -> bool, authError: Option<string>)
    returns (called: bool)
    modifies page
    ensures called <==> EmailAccepted(old(page.login).email, emailFormat) && PasswordAccepted(old(page.login).password)
  {
    var call, toast := page.HandleLogin(emailFormat, authError);
    called := call.Some?;
  }

  lemma PaddedEmailAccepted(emailFormat: string -> bool)
    requires emailFormat("a@b.co")
    ensures EmailAccepted(" a@b.co ", emailFormat) && PasswordAccepted("secret1")
  {
    var e := " a@b.co ";
    assert LeadingSpaces(e) == 1 && TrailingSpaces(e) == 1;
    assert Trim(e) == "a@b.co";
    assert Utf16Length("secret1") == 7;
  }

  /** An email typed with spaces around it passes validation and reaches the
      service with its spaces. */
  method PaddedEmailReachesService(emailFormat: string -> bool) returns (call: Option<SignIn>)
    requires emailFormat("a@b.co")
    ensures call == Some(SignIn(" a@b.co ", "secret1"))
  {
    var page := new Page();
    page.EditLogin(" a@b.co ", "secret1");
    PaddedEmailAccepted(emailFormat);
    var toast;
    call, toast := page.HandleLogin(emailFormat, None);
  }
}
