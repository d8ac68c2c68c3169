/**
 * The user form: the name, email and password rules (password required when
 * creating a user, optional when editing one) and the data handed to the user
 * store on submit.
 */
module UserForm {
  import opened Wrappers
  import opened UserStorage

  // ---------------------------------------------------------------- whitespace and trimming

  /** The characters `String.prototype.trim` strips and the regular-expression class `\s` matches. */
  predicate IsSpace(c: char) {
    || c == '\t' || c == '\n' || c == '\U{000B}' || c == '\U{000C}' || c == '\r' || c == ' '
    || c == '\U{00A0}' || c == '\U{1680}' || ('\U{2000}' <= c <= '\U{200A}')
    || c == '\U{2028}' || c == '\U{2029}' || c == '\U{202F}' || c == '\U{205F}' || c == '\U{3000}' || c == '\U{FEFF}'
  }

  /** `s` without its leading whitespace. */
  function TrimStart(s: string): (r: string)
    ensures |r| <= |s| && r == s[|s| - |r|..]
    ensures r == "" || !IsSpace(r[0])
    ensures forall k :: 0 <= k < |s| - |r| ==> IsSpace(s[k])
  {
    if |s| > 0 && IsSpace(s[0]) then TrimStart(s[1..]) else s
  }

  /** `s` without its trailing whitespace. */
  function TrimEnd(s: string): (r: string)
    ensures |r| <= |s| && r == s[..|r|]
    ensures r == "" || !IsSpace(r[|r| - 1])
    ensures forall k :: |r| <= k < |s| ==> IsSpace(s[k])
  {
    if |s| > 0 && IsSpace(s[|s| - 1]) then TrimEnd(s[..|s| - 1]) else s
  }

  /** `s.trim()`. */
  function Trim(s: string): string {
    TrimEnd(TrimStart(s))
  }

  /** Trimming leaves nothing exactly when every character is whitespace. */
  lemma TrimEmptyIffAllSpace(s: string)
    ensures Trim(s) == "" <==> forall k :: 0 <= k < |s| ==> IsSpace(s[k])
  {
    var t := TrimStart(s);
    if Trim(s) == "" {
      // the first character left by TrimStart is no space, so TrimEnd would keep it
      if t != "" {
        assert false;
      }
    } else {
      var r := Trim(s);
      assert !IsSpace(r[0]) by {
        assert r[0] == t[0];
      }
      assert r[0] == s[|s| - |t|];
    }
  }

  /** A string with no whitespace is its own trim. */
  lemma TrimWithoutSpace(s: string)
    requires forall k :: 0 <= k < |s| ==> !IsSpace(s[k])
    ensures Trim(s) == s
  {
    assert TrimStart(s) == s;
  }

  /** Trimming twice is trimming once. */
  lemma TrimIdempotent(s: string)
    ensures Trim(Trim(s)) == Trim(s)
  {
    var r := Trim(s);
    assert TrimStart(r) == r;
  }

  // ---------------------------------------------------------------- email shape

  /** A character `[^\s@]` matches. */
  predicate EmailChar(c: char) {
    !IsSpace(c) && c != '@'
  }

  /**
   * The email pattern `^[^\s@]+@[^\s@]+\.[^\s@]+$`: a non-empty local part, an
   * '@' at position i, a non-empty part up to a '.' at position j, and a
   * non-empty tail; every character other than the '@' matches `[^\s@]`
   * (the '.' does too).
   */
  predicate EmailShaped(s: string) {
    exists i, j :: 0 < i && i + 1 < j < |s| - 1 && s[i] == '@' && s[j] == '.'
                   && forall k :: 0 <= k < |s| && k != i ==> EmailChar(s[k])
  }

  /** How many times `c` occurs in `s`. */
  function CountOf(s: string, c: char): nat {
    if |s| == 0 then 0 else (if s[0] == c then 1 else 0) + CountOf(s[1..], c)
  }

  lemma {:induction false} CountAbsent(s: string, c: char)
    requires forall k :: 0 <= k < |s| ==> s[k] != c
    ensures CountOf(s, c) == 0
  {
    if |s| > 0 {
      assert forall k :: 0 <= k < |s[1..]| ==> s[1..][k] == s[k + 1];
      CountAbsent(s[1..], c);
    }
  }

  lemma {:induction false} CountSingle(s: string, c: char, i: nat)
    requires i < |s| && s[i] == c
    requires forall k :: 0 <= k < |s| && k != i ==> s[k] != c
    ensures CountOf(s, c) == 1
  {
    assert forall k :: 0 <= k < |s[1..]| ==> s[1..][k] == s[k + 1];
    if i == 0 {
      CountAbsent(s[1..], c);
    } else {
      CountSingle(s[1..], c, i - 1);
    }
  }

  /** An email the pattern accepts has exactly one '@', no whitespace, and is its own trim. */
  lemma AcceptedEmailShape(s: string)
    requires EmailShaped(s)
    ensures CountOf(s, '@') == 1
    ensures forall k :: 0 <= k < |s| ==> !IsSpace(s[k])
    ensures Trim(s) == s && s != ""
  {
    var i, j :| 0 < i && i + 1 < j < |s| - 1 && s[i] == '@' && s[j] == '.'
                && forall k :: 0 <= k < |s| && k != i ==> EmailChar(s[k]);
    CountSingle(s, '@', i);
    forall k | 0 <= k < |s|
      ensures !IsSpace(s[k])
    {
      if k != i {
        assert EmailChar(s[k]);
      }
    }
    TrimWithoutSpace(s);
  }

  // ---------------------------------------------------------------- validation

  /** The form's fields. */
  datatype UserFormData = UserFormData(name: string, email: string, role: Role, password: string, confirmPassword: string)

  /** The fields an error can be reported for. */
  datatype UserField = NameField | EmailField | PasswordField | ConfirmField

  const NameRequired: string := "Имя обязательно"
  const NameTooShort: string := "Имя должно содержать минимум 2 символа"
  const EmailRequired: string := "Email обязателен"
  const EmailMalformed: string := "Некорректный формат email"
  const PasswordRequired: string := "Пароль обязателен"
  const PasswordTooShort: string := "Пароль должен содержать минимум 6 символов"
  const PasswordsDiffer: string := "Пароли не совпадают"

  /**
   * The error map the rules build, in order: name, email, then the password
   * rules of the mode (`editing` is the presence of the user being edited).
   * The name and email rules read the trimmed texts; the shape test reads the
   * email as typed.
   */
  function FormErrors(form: UserFormData, editing: bool): map<UserField, string> {
    RuleErrors(Trim(form.name), Trim(form.email), EmailShaped(form.email), form.password, form.confirmPassword, editing)
  }

  function RuleErrors(name: string, email: string, emailShaped: bool, password: string, confirm: string, editing: bool)
    : map<UserField, string>
  {
    var e := EmailStep(NameStep(map[], name), email, emailShaped);
    if editing then EditPasswordStep(e, password, confirm) else CreatePasswordStep(e, password, confirm)
  }

  /** The name rule, on the trimmed name. */
  function NameStep(e: map<UserField, string>, name: string): map<UserField, string> {
    if name == "" then e[NameField := NameRequired]
    else if |name| < 2 then e[NameField := NameTooShort] else e
  }

  /** The email rule: required on the trimmed text, then the pattern on the typed text. */
  function EmailStep(e: map<UserField, string>, email: string, emailShaped: bool): map<UserField, string> {
    if email == "" then e[EmailField := EmailRequired]
    else if !emailShaped then e[EmailField := EmailMalformed] else e
  }

  /** The password rules when creating a user. */
  function CreatePasswordStep(e: map<UserField, string>, password: string, confirm: string): map<UserField, string> {
    var e := if password == "" then e[PasswordField := PasswordRequired]
             else if |password| < 6 then e[PasswordField := PasswordTooShort] else e;
    if password != confirm then e[ConfirmField := PasswordsDiffer] else e
  }

  /** The password rules when editing a user. */
  function EditPasswordStep(e: map<UserField, string>, password: string, confirm: string): map<UserField, string> {
    var e := if password != "" && |password| < 6 then e[PasswordField := PasswordTooShort] else e;
    if password != "" && password != confirm then e[ConfirmField := PasswordsDiffer] else e
  }

  /** No rule fires. */
  predicate Acceptable(form: UserFormData, editing: bool) {
    RulesPass(Trim(form.name), Trim(form.email), EmailShaped(form.email), form.password, form.confirmPassword, editing)
  }

  predicate RulesPass(name: string, email: string, emailShaped: bool, password: string, confirm: string, editing: bool) {
    && |name| >= 2
    && email != "" && emailShaped
    && if editing then password == "" || (|password| >= 6 && password == confirm)
       else |password| >= 6 && password == confirm
  }

  /** `validateForm`: builds the error map rule by rule; the form is valid when it is empty. */
  method ValidateUserForm(form: UserFormData, editing: bool) returns (errors: map<UserField, string>, valid: bool)
    ensures errors == FormErrors(form, editing)
    ensures valid <==> Acceptable(form, editing)
  {
    var name := Trim(form.name);
    var email := Trim(form.email);
    var emailShaped := EmailShaped(form.email);
    var password, confirm := form.password, form.confirmPassword;
    errors := map[];
    errors := NameStep(errors, name);
    errors := EmailStep(errors, email, emailShaped);
    if editing {
      errors := EditPasswordStep(errors, password, confirm);
    } else {
      errors := CreatePasswordStep(errors, password, confirm);
    }
    valid := |errors| == 0;
    assert errors == RuleErrors(name, email, emailShaped, password, confirm, editing);
    NoErrorsIffAcceptable(name, email, emailShaped, password, confirm, editing);
  }

  /**
   * Name: an empty trimmed name is "required", a trimmed name of one
   * character is "too short" (never both, one entry per field).
   */
  lemma NameRule(name: string, email: string, emailShaped: bool, password: string, confirm: string, editing: bool)
    ensures var e := RuleErrors(name, email, emailShaped, password, confirm, editing);
      && (NameField in e <==> |name| < 2)
      && (NameField in e ==> (e[NameField] == NameRequired <==> name == ""))
      && (NameField in e ==> e[NameField] == NameRequired || e[NameField] == NameTooShort)
  {
  }

  /** Email: an empty trimmed email is "required"; otherwise the email must have the pattern's shape. */
  lemma EmailRule(name: string, email: string, emailShaped: bool, password: string, confirm: string, editing: bool)
    ensures var e := RuleErrors(name, email, emailShaped, password, confirm, editing);
      && (EmailField in e <==> email == "" || !emailShaped)
      && (EmailField in e ==> (e[EmailField] == EmailRequired <==> email == ""))
  {
  }

  /** Creating: the password is required and at least 6 long; the confirmation must match, checked independently. */
  lemma CreatePasswordRules(name: string, email: string, emailShaped: bool, password: string, confirm: string)
    ensures var e := RuleErrors(name, email, emailShaped, password, confirm, false);
      && (PasswordField in e <==> |password| < 6)
      && (PasswordField in e ==> (e[PasswordField] == PasswordRequired <==> password == ""))
      && (ConfirmField in e <==> password != confirm)
  {
  }

  /** Editing: an empty password raises nothing; a non-empty one must be at least 6 long and match its confirmation. */
  lemma EditPasswordRules(name: string, email: string, emailShaped: bool, password: string, confirm: string)
    ensures var e := RuleErrors(name, email, emailShaped, password, confirm, true);
      && (PasswordField in e <==> 0 < |password| < 6)
      && (PasswordField in e ==> e[PasswordField] == PasswordTooShort)
      && (ConfirmField in e <==> password != "" && password != confirm)
      && (password == "" ==> PasswordField !in e && ConfirmField !in e)
  {
  }

  /** The error map is empty exactly when no rule fires. */
  lemma NoErrorsIffAcceptable(name: string, email: string, emailShaped: bool, password: string, confirm: string, editing: bool)
    ensures |RuleErrors(name, email, emailShaped, password, confirm, editing)| == 0
        <==> RulesPass(name, email, emailShaped, password, confirm, editing)
  {
    var e := RuleErrors(name, email, emailShaped, password, confirm, editing);
    NameRule(name, email, emailShaped, password, confirm, editing);
    EmailRule(name, email, emailShaped, password, confirm, editing);
    if editing {
      EditPasswordRules(name, email, emailShaped, password, confirm);
    } else {
      CreatePasswordRules(name, email, emailShaped, password, confirm);
    }
    if RulesPass(name, email, emailShaped, password, confirm, editing) {
      assert e == map[];
    } else if email == "" || !emailShaped {
      assert EmailField in e;
    } else if |name| < 2 {
      assert NameField in e;
    } else if editing && password != "" && |password| < 6 {
      assert PasswordField in e;
    } else if !editing && |password| < 6 {
      assert PasswordField in e;
    } else {
      assert ConfirmField in e;
    }
  }

  /** An accepted form's email has the pattern's shape, and so is non-empty once trimmed. */
  lemma AcceptableEmail(form: UserFormData, editing: bool)
    ensures Acceptable(form, editing) <==>
      && |Trim(form.name)| >= 2 && EmailShaped(form.email)
      && if editing then form.password == "" || (|form.password| >= 6 && form.password == form.confirmPassword)
         else |form.password| >= 6 && form.password == form.confirmPassword
  {
    if EmailShaped(form.email) {
      AcceptedEmailShape(form.email);
    }
  }

  // ---------------------------------------------------------------- submitted data

  /** The `userData` object built on submit. */
  datatype UserData = UserData(name: string, email: string, role: Role, password: Option<string>)

  /** Trimmed name and email, the role, and the password only when one was typed. */
  function SubmittedData(form: UserFormData): (d: UserData)
    ensures Trim(d.name) == d.name && Trim(d.email) == d.email
    ensures d.role == form.role
    ensures d.password.Some? <==> form.password != ""
    ensures d.password.Some? ==> d.password.value == form.password
  {
    TrimIdempotent(form.name);
    TrimIdempotent(form.email);
    UserData(Trim(form.name), Trim(form.email), form.role,
             if form.password != "" then Some(form.password) else None)
  }

  /** Editing passes the data as an update of name, email, role and (if typed) password. */
  function AsUpdate(d: UserData): UserUpdates {
    UserUpdates(None, Some(d.email), Some(Some(d.name)), Some(d.role), None, d.password)
  }

  /** Creating passes the data with the typed password. */
  function AsNewUser(d: UserData, password: string): NewUser {
    NewUser(d.email, Some(d.name), d.role, Some(password))
  }

  /**
   * What a valid form submits: the trimmed name (at least 2 characters), the
   * email exactly as typed (an accepted email has nothing to trim), the role,
   * and a password exactly when one was typed.
   */
  lemma SubmittedDataOfValidForm(form: UserFormData, editing: bool)
    requires Acceptable(form, editing)
    ensures var d := SubmittedData(form);
      && d.name == Trim(form.name) && |d.name| >= 2
      && d.email == form.email && d.email != ""
      && d.role == form.role
      && (d.password.Some? <==> form.password != "")
      && (d.password.Some? ==> d.password.value == form.password && |d.password.value| >= 6)
      && (!editing ==> d.password == Some(form.password))
  {
    AcceptedEmailShape(form.email);
  }

  /**
   * Editing a user through a valid form keeps the store's emails distinct
   * when the store's guard lets the update through: the submitted email is
   * never empty, which is the case the guard skips.
   */
  lemma ValidEditKeepsEmailsDistinct(form: UserFormData, users: seq<StoredUser>, id: string)
    requires Acceptable(form, true)
    requires EmailsDistinct(users) && IdsDistinct(users)
    requires IndexOf(users, ById, id) >= 0
    requires !UpdateConflict(users, IndexOf(users, ById, id), id, AsUpdate(SubmittedData(form)))
    ensures var i := IndexOf(users, ById, id);
      EmailsDistinct(users[i := Merge(users[i], AsUpdate(SubmittedData(form)))])
  {
    SubmittedDataOfValidForm(form, true);
    UpdateKeepsEmailsDistinct(users, id, AsUpdate(SubmittedData(form)));
  }
}
