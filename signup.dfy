/**
 * The sign-up form (src/components/SignUp.jsx): `validateField`, which keeps an error map keyed
 * by field name, the change handler that calls it, and the guard of `handleSubmit`.
 */
module SignUpForm {
  import opened Common

  type Errors = map<string, string>

  /** The form's five fields, in the order `Object.keys(formData)` lists them. */
  datatype Form = Form(username: string, password: string, confirmPassword: string, firstName: string, lastName: string)

  const FieldNames: seq<string> := ["username", "password", "confirm_password", "first_name", "last_name"]

  const UsernameRequired := "Username is required"
  const UsernameFormat := "Username must be at least 4 characters and contain only English letters, numbers, or @#$%^&*_-"
  const PasswordRequired := "Password is required"
  const PasswordFormat := "Password must be at least 8 characters and contain only English letters, numbers, or @#$%^&*_-"
  const ConfirmRequired := "Confirm password is required"
  const ConfirmMismatch := "Passwords do not match"
  const FirstNameRequired := "First name is required"
  const FirstNameFormat := "First name must be at least 2 characters and contain only letters"
  const LastNameRequired := "Last name is required"
  const LastNameFormat := "Last name must be at least 2 characters and contain only letters"

  /** The character class `[a-zA-Z0-9@#$%^&*_-]`. */
  predicate IsCredentialChar(c: char)
  {
    IsAsciiLetter(c) || IsDigit(c) || c in "@#$%^&*_-"
  }

  /** `^[a-zA-Z0-9@#$%^&*_-]{min,}$`. */
  predicate CredentialShape(s: string, min: nat)
  {
    |s| >= min && forall i :: 0 <= i < |s| ==> IsCredentialChar(s[i])
  }

  /** `^[\p{L}]{2,}$` with the `u` flag. */
  predicate NameShape(s: string)
  {
    |s| >= 2 && forall i :: 0 <= i < |s| ==> IsLetter(s[i])
  }

  /** The three-way outcome of one rule: required, malformed, or cleared. */
  function Rule(errors: Errors, key: string, value: string, wellFormed: bool, required: string, malformed: string): Errors
  {
    if value == "" then errors[key := required]
    else if !wellFormed then errors[key := malformed]
    else errors - {key}
  }

  /** `validateField(name, value)` on the error map `errors`, given the form's current password. */
  function ValidateField(errors: Errors, formPassword: string, name: string, value: string): (r: Errors)
    ensures forall k :: k != name ==> (k in r <==> k in errors) && (k in errors ==> r[k] == errors[k])
    ensures name !in FieldNames ==> r == errors
    ensures name == "username" ==>
      r == if value == "" then errors["username" := UsernameRequired]
           else if !CredentialShape(value, 4) then errors["username" := UsernameFormat]
           else errors - {"username"}
    ensures name == "password" ==>
      r == if value == "" then errors["password" := PasswordRequired]
           else if !CredentialShape(value, 8) then errors["password" := PasswordFormat]
           else errors - {"password"}
    ensures name == "confirm_password" ==>
      ("confirm_password" !in r <==> value != "" && value == formPassword)
    ensures name == "first_name" ==> ("first_name" !in r <==> NameShape(value))
    ensures name == "last_name" ==> ("last_name" !in r <==> NameShape(value))
  {
    if name == "username" then Rule(errors, name, value, CredentialShape(value, 4), UsernameRequired, UsernameFormat)
    else if name == "password" then Rule(errors, name, value, CredentialShape(value, 8), PasswordRequired, PasswordFormat)
    else if name == "confirm_password" then Rule(errors, name, value, value == formPassword, ConfirmRequired, ConfirmMismatch)
    else if name == "first_name" then Rule(errors, name, value, NameShape(value), FirstNameRequired, FirstNameFormat)
    else if name == "last_name" then Rule(errors, name, value, NameShape(value), LastNameRequired, LastNameFormat)
    else errors
  }

  /** The value of the field called `name`. */
  function FieldValue(f: Form, name: string): string
  {
    if name == "username" then f.username
    else if name == "password" then f.password
    else if name == "confirm_password" then f.confirmPassword
    else if name == "first_name" then f.firstName
    else if name == "last_name" then f.lastName
    else ""
  }

  /** `formData` after `setFormData({ ...formData, [name]: value })`. */
  function WithField(f: Form, name: string, value: string): Form
  {
    if name == "username" then f.(username := value)
    else if name == "password" then f.(password := value)
    else if name == "confirm_password" then f.(confirmPassword := value)
    else if name == "first_name" then f.(firstName := value)
    else if name == "last_name" then f.(lastName := value)
    else f
  }

  /**
   * `handleChange`: the field takes the new value and only that field is revalidated, against the
   * password as it was before the change.
   */
  function HandleChange(f: Form, errors: Errors, name: string, value: string): (Form, Errors)
  {
    (WithField(f, name, value), ValidateField(errors, f.password, name, value))
  }

  /** Changing the password does not revalidate a confirmation that no longer matches. */
  lemma PasswordChangeKeepsConfirmation(f: Form, errors: Errors, value: string)
    requires "confirm_password" !in errors && f.confirmPassword == f.password && value != f.password
    ensures var (f', e') := HandleChange(f, errors, "password", value);
      "confirm_password" !in e' && f'.confirmPassword != f'.password
  {
  }

  /** Validating the fields `names` one after another, each on the result of the previous one. */
  function ValidateAll(errors: Errors, f: Form, names: seq<string>): Errors
    decreases |names|
  {
    if |names| == 0 then errors
    else ValidateAll(ValidateField(errors, f.password, names[0], FieldValue(f, names[0])), f, names[1..])
  }

  /** `handleSubmit` as written: every call starts from the same stale `errors`, so only the last one survives, and the guard reads the stale map. */
  function SubmitAsWritten(errors: Errors, f: Form): (r: (bool, Errors))
    ensures r.0 <==> |errors| > 0
  {
    (|errors| > 0, ValidateField(errors, f.password, "last_name", f.lastName))
  }

  /** The submission `handleSubmit` evidently intends: all five fields validated in turn, blocked when any error remains. */
  function Submit(errors: Errors, f: Form): (r: (bool, Errors))
    ensures r.1 == ValidateAll(errors, f, FieldNames)
    ensures r.0 <==> |r.1| > 0
  {
    var e := ValidateAll(errors, f, FieldNames);
    (|e| > 0, e)
  }

  /** The five validations of a submission from `errors`, spelled out in field order. */
  function InFieldOrder(errors: Errors, f: Form): Errors
  {
    var e1 := ValidateField(errors, f.password, "username", f.username);
    var e2 := ValidateField(e1, f.password, "password", f.password);
    var e3 := ValidateField(e2, f.password, "confirm_password", f.confirmPassword);
    var e4 := ValidateField(e3, f.password, "first_name", f.firstName);
    ValidateField(e4, f.password, "last_name", f.lastName)
  }

  /** The errors of a whole-form submission from no errors. */
  function FormErrors(f: Form): Errors
  {
    InFieldOrder(map[], f)
  }

  lemma ValidateAllUnrolls(errors: Errors, f: Form)
    ensures ValidateAll(errors, f, FieldNames) == InFieldOrder(errors, f)
  {
    var n := FieldNames;
    assert n[0] == "username" && n[1..][0] == "password" && n[1..][1..][0] == "confirm_password";
    assert n[1..][1..][1..][0] == "first_name" && n[1..][1..][1..][1..][0] == "last_name";
    assert n[1..][1..][1..][1..][1..] == [];
  }

  /** The keys `validateField` can write. */
  const FieldKeys: set<string> := {"username", "password", "confirm_password", "first_name", "last_name"}

  /** `a` and `b` hold the same entries on every key outside `pending`. */
  ghost predicate AgreeOutside(a: Errors, b: Errors, pending: set<string>)
  {
    forall k :: k !in pending ==> (k in a <==> k in b) && (k in a && k in b ==> a[k] == b[k])
  }

  /** Validating a field overwrites its key whatever it held, so two maps that differed there no longer do. */
  lemma ValidateFieldOverwrites(a: Errors, b: Errors, pw: string, name: string, value: string, pending: set<string>)
    requires name in FieldKeys && AgreeOutside(a, b, pending)
    ensures AgreeOutside(ValidateField(a, pw, name, value), ValidateField(b, pw, name, value), pending - {name})
  {
  }

  /** Maps that agree on every key are equal. */
  lemma AgreeEverywhere(a: Errors, b: Errors)
    requires AgreeOutside(a, b, {})
    ensures a == b
  {
    assert a.Keys == b.Keys;
  }

  /** The first two validations overwrite the credential keys. */
  lemma CredentialsForget(errors: Errors, f: Form)
    requires errors.Keys <= FieldKeys
    ensures AgreeOutside(ValidateField(ValidateField(errors, f.password, "username", f.username), f.password, "password", f.password),
                         ValidateField(ValidateField(map[], f.password, "username", f.username), f.password, "password", f.password),
                         {"confirm_password", "first_name", "last_name"})
  {
    var pw := f.password;
    ValidateFieldOverwrites(errors, map[], pw, "username", f.username, FieldKeys);
    assert FieldKeys - {"username"} == {"password", "confirm_password", "first_name", "last_name"};
    ValidateFieldOverwrites(ValidateField(errors, pw, "username", f.username), ValidateField(map[], pw, "username", f.username),
                            pw, "password", f.password, {"password", "confirm_password", "first_name", "last_name"});
    assert {"password", "confirm_password", "first_name", "last_name"} - {"password"} == {"confirm_password", "first_name", "last_name"};
  }

  /** The last three validations overwrite the remaining keys. */
  lemma NamesForget(a: Errors, b: Errors, f: Form)
    requires AgreeOutside(a, b, {"confirm_password", "first_name", "last_name"})
    ensures AgreeOutside(ValidateField(ValidateField(ValidateField(a, f.password, "confirm_password", f.confirmPassword), f.password, "first_name", f.firstName), f.password, "last_name", f.lastName),
                         ValidateField(ValidateField(ValidateField(b, f.password, "confirm_password", f.confirmPassword), f.password, "first_name", f.firstName), f.password, "last_name", f.lastName),
                         {})
  {
    var pw := f.password;
    var a3, b3 := ValidateField(a, pw, "confirm_password", f.confirmPassword), ValidateField(b, pw, "confirm_password", f.confirmPassword);
    var a4, b4 := ValidateField(a3, pw, "first_name", f.firstName), ValidateField(b3, pw, "first_name", f.firstName);
    ValidateFieldOverwrites(a, b, pw, "confirm_password", f.confirmPassword, {"confirm_password", "first_name", "last_name"});
    assert {"confirm_password", "first_name", "last_name"} - {"confirm_password"} == {"first_name", "last_name"};
    ValidateFieldOverwrites(a3, b3, pw, "first_name", f.firstName, {"first_name", "last_name"});
    assert {"first_name", "last_name"} - {"first_name"} == {"last_name"};
    ValidateFieldOverwrites(a4, b4, pw, "last_name", f.lastName, {"last_name"});
    assert {"last_name"} - {"last_name"} == {};
  }

  /** The five validations overwrite every key an earlier map can hold. */
  lemma InFieldOrderForgets(errors: Errors, f: Form)
    requires errors.Keys <= FieldKeys
    ensures InFieldOrder(errors, f) == InFieldOrder(map[], f)
  {
    var pw := f.password;
    var d2 := ValidateField(ValidateField(errors, pw, "username", f.username), pw, "password", f.password);
    var e2 := ValidateField(ValidateField(map[], pw, "username", f.username), pw, "password", f.password);
    CredentialsForget(errors, f);
    NamesForget(d2, e2, f);
    AgreeEverywhere(InFieldOrder(errors, f), InFieldOrder(map[], f));
  }

  /**
   * Submitting from any error map whose keys are field names gives the same map as submitting
   * from no errors.
   */
  lemma SubmitUnrolls(errors: Errors, f: Form)
    requires errors.Keys <= FieldKeys
    ensures ValidateAll(errors, f, FieldNames) == FormErrors(f)
  {
    ValidateAllUnrolls(errors, f);
    InFieldOrderForgets(errors, f);
  }

  /** After a whole-form submission from no errors, a field's key is present exactly when that field fails its rule. */
  lemma FormErrorsKeys(f: Form)
    ensures FormErrors(f).Keys <= FieldKeys
    ensures "username" in FormErrors(f) <==> !(f.username != "" && CredentialShape(f.username, 4))
    ensures "password" in FormErrors(f) <==> !(f.password != "" && CredentialShape(f.password, 8))
    ensures "confirm_password" in FormErrors(f) <==> !(f.confirmPassword != "" && f.confirmPassword == f.password)
    ensures "first_name" in FormErrors(f) <==> !NameShape(f.firstName)
    ensures "last_name" in FormErrors(f) <==> !NameShape(f.lastName)
  {
    var e1 := ValidateField(map[], f.password, "username", f.username);
    var e2 := ValidateField(e1, f.password, "password", f.password);
    var e3 := ValidateField(e2, f.password, "confirm_password", f.confirmPassword);
    var e4 := ValidateField(e3, f.password, "first_name", f.firstName);
    assert e1.Keys <= {"username"};
    assert e2.Keys <= {"username", "password"};
    assert e3.Keys <= {"username", "password", "confirm_password"};
    assert e4.Keys <= {"username", "password", "confirm_password", "first_name"};
  }

  /**
   * Over the whole form, the intended submission is allowed exactly when every field passes its
   * rule, whatever errors the earlier keystrokes left behind.
   */
  lemma SubmitBlocksInvalidForm(errors: Errors, f: Form)
    requires errors.Keys <= FieldKeys
    ensures !Submit(errors, f).0 <==>
      f.username != "" && CredentialShape(f.username, 4) &&
      f.password != "" && CredentialShape(f.password, 8) &&
      f.confirmPassword != "" && f.confirmPassword == f.password &&
      NameShape(f.firstName) && NameShape(f.lastName)
  {
    SubmitUnrolls(errors, f);
    FormErrorsKeys(f);
    var e := FormErrors(f);
    if |e| == 0 {
      assert e == map[];
    } else {
      var k :| k in e;
    }
  }

  /**
   * A confirmation gone stale: every field was typed valid, so the error map is empty and the
   * button enabled, and then the password is changed to another valid one. As written the
   * submission is sent with mismatched passwords; the intended guard blocks it.
   */
  lemma StaleConfirmationSubmits(f: Form, password: string)
    requires f.username != "" && CredentialShape(f.username, 4)
    requires f.confirmPassword == f.password && NameShape(f.firstName) && NameShape(f.lastName)
    requires password != "" && CredentialShape(password, 8) && password != f.password
    ensures var (f', e') := HandleChange(f, map[], "password", password);
      e' == map[] && f'.confirmPassword != f'.password &&
      !SubmitAsWritten(e', f').0 && Submit(e', f').0
  {
    var (f', e') := HandleChange(f, map[], "password", password);
    assert e' == map[];
    SubmitBlocksInvalidForm(e', f');
  }
}
