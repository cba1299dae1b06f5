/** The sign-in form: e-mail and password validation, the submit gate in front
    of `onLogin`, and field edits. */
module LoginForm {
  import opened Common

  datatype Field = Email | Password

  datatype LoginData = LoginData(email: string, password: string)

  /** What `onLogin` receives. */
  datatype Credentials = Credentials(name: string, email: string, password: string)

  const EmailRequired := "Email is required"
  const EmailInvalid := "Please enter a valid email address"
  const PasswordRequired := "Password is required"
  const PasswordTooShort := "Password must be at least 6 characters"
  const MinPasswordLength := 6
  /** The fixed name the form sends with every sign-in. */
  const PlaceholderName := "User"

  /** A character of the class `[^\s@]`. */
  predicate IsPlain(c: char)
  {
    !IsSpace(c) && c != '@'
  }

  /** `s[lo..hi]` is a non-empty run of `[^\s@]` characters. */
  ghost predicate PlainRun(s: string, lo: int, hi: int)
  {
    0 <= lo < hi <= |s| && forall k :: lo <= k < hi ==> IsPlain(s[k])
  }

  /** `s` splits as `local@left.right` at the `@` at `i` and the `.` at `j`,
      each of the three parts a non-empty run of `[^\s@]`. */
  ghost predicate EmailSplit(s: string, i: int, j: int)
  {
    && PlainRun(s, 0, i) && i < |s| && s[i] == '@'
    && PlainRun(s, i + 1, j) && j < |s| && s[j] == '.'
    && PlainRun(s, j + 1, |s|)
  }

  /** What the anchored pattern `^[^\s@]+@[^\s@]+\.[^\s@]+$` accepts. */
  ghost predicate EmailPatternMatches(s: string)
  {
    exists i, j :: EmailSplit(s, i, j)
  }

  /** The first position of `c` in `s`, if any. */
  function IndexOf(s: string, c: char): (r: Option<nat>)
    ensures r.Some? ==> r.value < |s| && s[r.value] == c && forall k :: 0 <= k < r.value ==> s[k] != c
    ensures r.None? ==> forall k :: 0 <= k < |s| ==> s[k] != c
  {
    if s == [] then None
    else if s[0] == c then Some(0)
    else match IndexOf(s[1..], c)
      case None => None
      case Some(k) => Some(k + 1)
  }

  /** The test as the model runs it: no white space, a first `@` that is not
      the first character and is the only one, and a `.` with at least one
      character on each side in what follows the `@`. */
  predicate EmailTest(s: string)
  {
    && (forall k :: 0 <= k < |s| ==> !IsSpace(s[k]))
    && match IndexOf(s, '@')
       case None => false
       case Some(i) =>
         && 0 < i
         && (forall k :: i < k < |s| ==> s[k] != '@')
         && i + 3 <= |s| && '.' in s[i + 2..|s| - 1]
  }

  lemma EmailTestIsPattern(s: string)
    ensures EmailTest(s) <==> EmailPatternMatches(s)
  {
    if EmailTest(s) {
      var i := IndexOf(s, '@').value;
      var inner := s[i + 2..|s| - 1];
      var m :| 0 <= m < |inner| && inner[m] == '.';
      var j := i + 2 + m;
      assert s[j] == '.';
      assert EmailSplit(s, i, j);
    }
    if EmailPatternMatches(s) {
      var i, j :| EmailSplit(s, i, j);
      forall k | 0 <= k < |s| ensures !IsSpace(s[k]) && (k != i ==> s[k] != '@') {
        if k < i { assert IsPlain(s[k]); }
        else if i < k < j { assert IsPlain(s[k]); }
        else if j < k { assert IsPlain(s[k]); }
      }
      var r := IndexOf(s, '@');
      assert r.Some? && r.value == i;
      assert s[i + 2..|s| - 1][j - i - 2] == '.';
    }
  }

  function EmailError(email: string): Option<string>
  {
    if Trim(email) == "" then Some(EmailRequired)
    else if !EmailTest(email) then Some(EmailInvalid)
    else None
  }

  function PasswordError(password: string): Option<string>
  {
    if password == "" then Some(PasswordRequired)
    else if |password| < MinPasswordLength then Some(PasswordTooShort)
    else None
  }

  /** `validateLoginForm`: the error map of the two fields. */
  function Validate(data: LoginData): map<Field, string>
  {
    Put(Put(map[], Email, EmailError(data.email)), Password, PasswordError(data.password))
  }

  /** The e-mail message, stated with white space and the pattern's meaning. */
  lemma EmailMessages(data: LoginData)
    ensures var e := data.email; var errors := Validate(data);
      && (IsBlank(e) ==> Email in errors && errors[Email] == EmailRequired)
      && (!IsBlank(e) && !EmailPatternMatches(e) ==> Email in errors && errors[Email] == EmailInvalid)
      && (!IsBlank(e) && EmailPatternMatches(e) ==> Email !in errors)
  {
    TrimEmptyIffBlank(data.email);
    EmailTestIsPattern(data.email);
  }

  /** The password message: only the empty password is missing (no trim); a
      shorter one than six characters is too short. */
  lemma PasswordMessages(data: LoginData)
    ensures var p := data.password; var errors := Validate(data);
      && (p == "" ==> Password in errors && errors[Password] == PasswordRequired)
      && (0 < |p| < 6 ==> Password in errors && errors[Password] == PasswordTooShort)
      && (|p| >= 6 ==> Password !in errors)
  {
  }

  ghost predicate Acceptable(data: LoginData)
  {
    !IsBlank(data.email) && EmailPatternMatches(data.email) && |data.password| >= MinPasswordLength
  }

  /** Validation passes exactly when neither field has an error. */
  lemma ValidatePassesIff(data: LoginData)
    ensures Validate(data) == map[] <==> Acceptable(data)
  {
    EmailMessages(data);
    PasswordMessages(data);
  }

  function SetField(d: LoginData, f: Field, value: string): LoginData
  {
    match f
    case Email => d.(email := value)
    case Password => d.(password := value)
  }

  /** Setting a field changes that field and leaves the other as it was. */
  lemma SetFieldOnlyThatField(d: LoginData, f: Field, value: string)
    ensures SetField(d, f, value).email == if f == Email then value else d.email
    ensures SetField(d, f, value).password == if f == Password then value else d.password
  {
  }

  class FormState {
    var formData: LoginData
    var errors: map<Field, string>
    var isLoading: bool

    constructor ()
      ensures formData == LoginData("", "") && errors == map[] && !isLoading
    {
      formData := LoginData("", "");
      errors := map[];
      isLoading := false;
    }

    /** `validateLoginForm`: records the error map and reports whether it is empty. */
    method ValidateForm() returns (ok: bool)
      modifies this
      ensures errors == Validate(formData)
      ensures ok <==> Acceptable(formData)
      ensures formData == old(formData) && isLoading == old(isLoading)
    {
      errors := Validate(formData);
      ValidatePassesIff(formData);
      ok := errors == map[];
    }

    /** `handleSubmit`: `onLogin` is invoked, and returned here, only when
        validation passes, with the name "User" and the entered e-mail and
        password; the loading flag ends false once it has been raised. */
    method HandleSubmit() returns (login: Option<Credentials>)
      modifies this
      ensures errors == Validate(formData)
      ensures login.Some? <==> Acceptable(formData)
      ensures login.Some? ==> login.value == Credentials(PlaceholderName, formData.email, formData.password)
      ensures isLoading == (old(isLoading) && login.None?)
      ensures formData == old(formData)
    {
      var ok := ValidateForm();
      if !ok {
        return None;
      }
      isLoading := true;
      login := Some(Credentials(PlaceholderName, formData.email, formData.password));
      isLoading := false;
    }

    /** `handleChange`: replaces the named field and clears only its error. */
    method HandleChange(f: Field, value: string)
      modifies this
      ensures formData == SetField(old(formData), f, value)
      ensures errors == old(errors) - {f}
      ensures isLoading == old(isLoading)
    {
      formData := SetField(formData, f, value);
      if f in errors {
        errors := errors - {f};
      }
    }
  }
}
