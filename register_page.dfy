/** The sign-up form of `app/auth/register/page.tsx`: the field updates with
    the e-mail code rule and the username check, and the submit handler's
    ordered checks before `registerUser`. */
module RegisterPage {
  import opened Wrappers
  import opened Text
  import opened Storage

  datatype UsernameStatus = Idle | Checking | Available | Taken

  datatype RegisterForm = RegisterForm(
    username: string, email: string, password: string, confirmPassword: string, emailCode: string)

  /** The `name` of the input that changed. */
  datatype Field = UsernameField | EmailField | PasswordField | ConfirmPasswordField | EmailCodeField

  /** The reasons a submit ends with an error, in the order they are checked,
      then the store's refusal. */
  datatype RegisterError =
    | MissingField
    | UsernameInUse
    | WrongEmailCode
    | PasswordMismatch
    | PasswordTooShort
    | AccountInUse

  const MinPasswordLength: nat := 6
  const MinUsernameLength: nat := 2

  /** The message shown for each error. */
  function Message(e: RegisterError): string
  {
    match e
    case MissingField => "필수 항목을 모두 입력해주세요."
    case UsernameInUse => "이미 사용 중인 사용자명입니다."
    case WrongEmailCode => "이메일 인증 코드가 올바르지 않습니다."
    case PasswordMismatch => "비밀번호가 일치하지 않습니다."
    case PasswordTooShort => "비밀번호는 최소 6자 이상이어야 합니다."
    case AccountInUse => "이미 사용 중인 이메일 또는 사용자명입니다."
  }

  /** The form with one field replaced. */
  function SetField(form: RegisterForm, field: Field, value: string): (r: RegisterForm)
  {
    match field
    case UsernameField => form.(username := value)
    case EmailField => form.(email := value)
    case PasswordField => form.(password := value)
    case ConfirmPasswordField => form.(confirmPassword := value)
    case EmailCodeField => form.(emailCode := value)
  }

  /** The e-mail code section is shown once the address holds both "@" and ".". */
  predicate EmailLooksComplete(email: string)
  {
    Contains(email, "@") && Contains(email, ".")
  }

  /** The required-field check compares the raw strings with "", untrimmed. */
  predicate MissingRequired(form: RegisterForm)
  {
    form.username == "" || form.email == "" || form.password == "" || form.confirmPassword == ""
  }

  /** The code check, which applies only while the code section is shown. */
  predicate CodeRejected(form: RegisterForm, showEmailCode: bool, generatedCode: string)
  {
    showEmailCode && (form.emailCode == "" || form.emailCode != generatedCode)
  }

  /** The first of the submit checks that fails, or `None` when all pass. */
  function FirstRegisterError(form: RegisterForm, status: UsernameStatus, showEmailCode: bool,
                              generatedCode: string): (r: Option<RegisterError>)
    ensures r == Some(MissingField) <==> MissingRequired(form)
    ensures r == Some(UsernameInUse) <==> !MissingRequired(form) && status == Taken
    ensures r == Some(WrongEmailCode) <==>
      !MissingRequired(form) && status != Taken && CodeRejected(form, showEmailCode, generatedCode)
    ensures r == Some(PasswordMismatch) <==>
      !MissingRequired(form) && status != Taken && !CodeRejected(form, showEmailCode, generatedCode)
      && form.password != form.confirmPassword
    ensures r == Some(PasswordTooShort) <==>
      !MissingRequired(form) && status != Taken && !CodeRejected(form, showEmailCode, generatedCode)
      && form.password == form.confirmPassword && |form.password| < MinPasswordLength
    ensures r != Some(AccountInUse)
  {
    if MissingRequired(form) then Some(MissingField)
    else if status == Taken then Some(UsernameInUse)
    else if CodeRejected(form, showEmailCode, generatedCode) then Some(WrongEmailCode)
    else if form.password != form.confirmPassword then Some(PasswordMismatch)
    else if |form.password| < MinPasswordLength then Some(PasswordTooShort)
    else None
  }

  /** What a form that passes every check is known to satisfy. */
  lemma PassingFormIsAcceptable(form: RegisterForm, status: UsernameStatus, showEmailCode: bool,
                                generatedCode: string)
    requires FirstRegisterError(form, status, showEmailCode, generatedCode) == None
    ensures form.username != "" && form.email != "" && status != Taken
    ensures form.password == form.confirmPassword && |form.password| >= MinPasswordLength
    ensures showEmailCode ==> form.emailCode == generatedCode && generatedCode != ""
  {
  }

  /** Blank values are not caught by the required-field check: a username of
      spaces gets past it. */
  lemma BlankUsernamePassesRequiredCheck(status: UsernameStatus)
    ensures FirstRegisterError(RegisterForm("  ", "a@b.c", "secret1", "secret1", "123456"), status, false, "")
            == if status == Taken then Some(UsernameInUse) else None
  {
  }

  /** The record handed to `registerUser`: the username doubles as the
      display name; no bio and no avatar. */
  function RegistrationDraft(form: RegisterForm): (d: UserDraft)
    ensures d.username == form.username && d.displayName == form.username
    ensures d.email == form.email && d.password == form.password
    ensures d.bio == None && d.avatar == None
  {
    UserDraft(form.username, form.email, form.password, form.username, None, None)
  }

  /** The status set as soon as a username is typed: too short to check, or
      waiting for the delayed lookup. */
  function StatusOnInput(username: string): (s: UsernameStatus)
    ensures s == Idle <==> |username| < MinUsernameLength
    ensures s != Available && s != Taken
  {
    if |username| < MinUsernameLength then Idle else Checking
  }

  /** The page's state; `navigatedToLogin` stands for the router push. */
  class RegisterView {
    var form: RegisterForm
    var error: string
    var isLoading: bool
    var showEmailCode: bool
    var emailCodeSent: bool
    var generatedCode: string
    var usernameStatus: UsernameStatus
    var navigatedToLogin: bool

    constructor ()
      ensures form == RegisterForm("", "", "", "", "") && error == "" && !isLoading
      ensures !showEmailCode && !emailCodeSent && generatedCode == ""
      ensures usernameStatus == Idle && !navigatedToLogin
    {
      form := RegisterForm("", "", "", "", "");
      error, isLoading := "", false;
      showEmailCode, emailCodeSent, generatedCode := false, false, "";
      usernameStatus, navigatedToLogin := Idle, false;
    }

    /** `checkUsername`, up to the point where the lookup is scheduled. */
    method CheckUsername(username: string)
      modifies this`usernameStatus
      ensures usernameStatus == StatusOnInput(username)
    {
      if |username| < MinUsernameLength {
        usernameStatus := Idle;
        return;
      }
      usernameStatus := Checking;
    }

    /** The delayed lookup of `checkUsername` firing. */
    method ResolveUsernameCheck(store: Store, username: string)
      modifies this`usernameStatus
      ensures usernameStatus == Taken <==> UsernameTaken(store.users, username)
      ensures usernameStatus == Available || usernameStatus == Taken
    {
      var isAvailable := CheckUsernameAvailability(store.users, username);
      usernameStatus := if isAvailable then Available else Taken;
    }

    /** `handleChange`: stores the value; an e-mail shows the code section
        exactly when it looks complete, and otherwise also forgets that a
        code was sent; a username restarts the check. */
    method HandleChange(field: Field, value: string)
      modifies this`form, this`showEmailCode, this`emailCodeSent, this`usernameStatus
      ensures form == SetField(old(form), field, value)
      ensures field == EmailField ==>
        showEmailCode == EmailLooksComplete(value) && emailCodeSent == (EmailLooksComplete(value) && old(emailCodeSent))
      ensures field != EmailField ==> showEmailCode == old(showEmailCode) && emailCodeSent == old(emailCodeSent)
      ensures field == UsernameField ==> usernameStatus == StatusOnInput(value)
      ensures field != UsernameField ==> usernameStatus == old(usernameStatus)
    {
      form := SetField(form, field, value);
      if field == EmailField && Contains(value, "@") && Contains(value, ".") {
        showEmailCode := true;
      } else if field == EmailField {
        showEmailCode := false;
        emailCodeSent := false;
      }
      if field == UsernameField {
        CheckUsername(value);
      }
    }

    /** `sendEmailCode`, with the random code as a parameter. */
    method SendEmailCode(code: string)
      modifies this`generatedCode, this`emailCodeSent
      ensures generatedCode == code && emailCodeSent
    {
      generatedCode := code;
      emailCodeSent := true;
    }

    /** `handleSubmit`: the first failing check sets its message and nothing
        is stored; a form passing all of them goes to `registerUser`, whose
        refusal sets the combined message and whose success navigates to the
        login page. Loading is off again at the end either way. */
    method HandleSubmit(store: Store, now: int)
      requires store.Valid()
      modifies this`error, this`isLoading, this`navigatedToLogin, store`users
      ensures store.Valid() && !isLoading
      ensures var e := FirstRegisterError(form, usernameStatus, showEmailCode, generatedCode);
        e.Some? ==> error == Message(e.value) && store.users == old(store.users)
                    && navigatedToLogin == old(navigatedToLogin)
      ensures var d := RegistrationDraft(form);
        FirstRegisterError(form, usernameStatus, showEmailCode, generatedCode).None? ==>
          if old(EmailTaken(store.users, d.email) || UsernameTaken(store.users, d.username)) then
            error == Message(AccountInUse) && store.users == old(store.users)
            && navigatedToLogin == old(navigatedToLogin)
          else
            error == "" && navigatedToLogin && store.users == old(store.users) + [NewUser(d, now)]
    {
      error := "";
      isLoading := true;

      if form.username == "" || form.email == "" || form.password == "" || form.confirmPassword == "" {
        error := Message(MissingField);
        isLoading := false;
        return;
      }
      if usernameStatus == Taken {
        error := Message(UsernameInUse);
        isLoading := false;
        return;
      }
      if showEmailCode && (form.emailCode == "" || form.emailCode != generatedCode) {
        error := Message(WrongEmailCode);
        isLoading := false;
        return;
      }
      if form.password != form.confirmPassword {
        error := Message(PasswordMismatch);
        isLoading := false;
        return;
      }
      if |form.password| < MinPasswordLength {
        error := Message(PasswordTooShort);
        isLoading := false;
        return;
      }

      var user := store.RegisterUser(RegistrationDraft(form), now);
      if user.Some? {
        navigatedToLogin := true;
      } else {
        error := Message(AccountInUse);
      }
      isLoading := false;
    }
  }
}
