/** The signup form's rules (src/lib/validation/auth.ts): a zod schema over the email,
    password and name fields, and `handleSignupError`, which turns whatever the signup
    attempt threw into the one message the form shows.

    zod runs every check of a string field and reports the failures in the order the
    checks are declared, field after field in the order of the object's keys. Whether
    the email has zod's email format is a parameter (`emailFormatOk`). */
module SignupValidation {
  import opened Common
  import opened Strings

  const EmailFormatMessage := "Please enter a valid email address"
  const EmailRequiredMessage := "Email is required"
  const PasswordLengthMessage := "Password must be at least 8 characters"
  const PasswordUpperMessage := "Password must contain at least one uppercase letter"
  const PasswordLowerMessage := "Password must contain at least one lowercase letter"
  const PasswordDigitMessage := "Password must contain at least one number"
  const NameShortMessage := "Name must be at least 2 characters"
  const NameLongMessage := "Name must be less than 50 characters"
  const NameCharsMessage := "Name can only contain letters and spaces"

  /** `/[lo-hi]/.test(s)`: some character of `s` lies in the range. */
  function HasCharIn(s: string, lo: char, hi: char): (b: bool)
    ensures b <==> exists i :: 0 <= i < |s| && lo <= s[i] <= hi
  {
    if s == [] then false
    else if lo <= s[0] <= hi then
      assert s[0] == s[0];
      true
    else
      var b := HasCharIn(s[1..], lo, hi);
      assert forall i :: 0 <= i < |s[1..]| ==> s[1..][i] == s[i + 1];
      b
  }

  /** A character `[a-zA-Z\s]` matches. */
  predicate NameChar(c: char) {
    ('a' <= c <= 'z') || ('A' <= c <= 'Z') || IsSpace(c)
  }

  /** `/^[a-zA-Z\s]*$/.test(s)`, scanning from the left. */
  function AllNameChars(s: string): (b: bool)
    ensures b <==> forall i :: 0 <= i < |s| ==> NameChar(s[i])
  {
    if s == [] then true
    else if !NameChar(s[0]) then false
    else
      var b := AllNameChars(s[1..]);
      assert forall i :: 0 <= i < |s[1..]| ==> s[1..][i] == s[i + 1];
      b
  }

  /** The email field's failed checks: the format first, then `min(1)`. */
  function EmailIssues(email: string, emailFormatOk: bool): seq<string> {
    (if emailFormatOk then [] else [EmailFormatMessage]) +
    (if |email| < 1 then [EmailRequiredMessage] else [])
  }

  /** The password field's failed checks: length, then upper case, lower case, digit. */
  function PasswordIssues(password: string): seq<string> {
    (if |password| < 8 then [PasswordLengthMessage] else []) +
    (if !HasCharIn(password, 'A', 'Z') then [PasswordUpperMessage] else []) +
    (if !HasCharIn(password, 'a', 'z') then [PasswordLowerMessage] else []) +
    (if !HasCharIn(password, '0', '9') then [PasswordDigitMessage] else [])
  }

  /** The name field's failed checks: `min(2)`, `max(50)`, then the character class. */
  function NameIssues(name: string): seq<string> {
    (if |name| < 2 then [NameShortMessage] else []) +
    (if |name| > 50 then [NameLongMessage] else []) +
    (if !AllNameChars(name) then [NameCharsMessage] else [])
  }

  /** The messages of one field as zod issues at that field's path, in order. */
  function AtField(field: string, messages: seq<string>): (r: seq<Issue>)
    ensures |r| == |messages|
    ensures forall i :: 0 <= i < |r| ==> r[i] == Issue([field], messages[i])
  {
    if messages == [] then []
    else [Issue([field], messages[0])] + AtField(field, messages[1..])
  }

  datatype SignupForm = SignupForm(email: string, password: string, name: string)

  /** Every issue `signupSchema.parse` reports, email first, then password, then name. */
  function SignupIssues(form: SignupForm, emailFormatOk: bool): seq<Issue> {
    AtField("email", EmailIssues(form.email, emailFormatOk)) +
    AtField("password", PasswordIssues(form.password)) +
    AtField("name", NameIssues(form.name))
  }

  /** A password passes exactly when it has at least 8 characters and an upper-case
      letter, a lower-case letter and a digit somewhere. */
  lemma PasswordAcceptedIff(password: string)
    ensures PasswordIssues(password) == [] <==>
              && |password| >= 8
              && (exists i :: 0 <= i < |password| && 'A' <= password[i] <= 'Z')
              && (exists i :: 0 <= i < |password| && 'a' <= password[i] <= 'z')
              && (exists i :: 0 <= i < |password| && '0' <= password[i] <= '9')
  {
  }

  /** A name passes exactly when it has 2 to 50 characters, all ASCII letters or
      whitespace. */
  lemma NameAcceptedIff(name: string)
    ensures NameIssues(name) == [] <==>
              2 <= |name| <= 50 && forall i :: 0 <= i < |name| ==> NameChar(name[i])
  {
  }

  /** The maximum is inclusive although its message says "less than 50": a name of 50
      letters passes and one of 51 gets that message. */
  lemma FiftyIsNotLessThanFifty(name: string, c: char)
    requires |name| == 50 && forall i :: 0 <= i < |name| ==> 'a' <= name[i] <= 'z'
    requires 'a' <= c <= 'z'
    ensures NameIssues(name) == []
    ensures NameIssues(name + [c]) == [NameLongMessage]
  {
    assert forall i :: 0 <= i < |name + [c]| ==> NameChar((name + [c])[i]);
  }

  /** The empty email always gets "Email is required"; zod's email pattern refuses
      the empty string too, and that issue comes first. */
  lemma EmptyEmailRefused(email: string, emailFormatOk: bool)
    requires email == ""
    ensures EmailRequiredMessage in EmailIssues(email, emailFormatOk)
    ensures EmailIssues(email, false) == [EmailFormatMessage, EmailRequiredMessage]
  {
  }

  /** The form passes exactly when the email has the format and is not empty and the
      password and name pass their rules. */
  lemma SignupAcceptedIff(form: SignupForm, emailFormatOk: bool)
    ensures SignupIssues(form, emailFormatOk) == [] <==>
              emailFormatOk && form.email != "" &&
              PasswordIssues(form.password) == [] && NameIssues(form.name) == []
  {
  }

  /** What the signup attempt threw: a zod validation error (whose issue list is never
      empty), an `Error` with its message, or another value. */
  datatype SignupError =
    | ValidationFailed(first: Issue, rest: seq<Issue>)
    | ErrorWithMessage(message: string)
    | OtherThrown

  const AlreadyRegisteredMessage :=
    "This email is already registered. Please sign in or use a different email."
  const SignupFailedMessage := "Failed to create account. Please try again."

  /** `handleSignupError`: the one message it passes to `setError`. */
  function SignupErrorMessage(e: SignupError): (m: string)
    ensures e.ValidationFailed? ==> m == e.first.message
    ensures e.ErrorWithMessage? ==>
              m == (if Contains(e.message, "already registered") then AlreadyRegisteredMessage
                    else e.message)
    ensures e.OtherThrown? ==> m == SignupFailedMessage
  {
    match e
    case ValidationFailed(first, _) => first.message
    case ErrorWithMessage(msg) =>
      if Contains(msg, "already registered") then AlreadyRegisteredMessage else msg
    case OtherThrown => SignupFailedMessage
  }

  /** The zod error the schema throws for a form with issues. */
  function SchemaError(form: SignupForm, emailFormatOk: bool): (e: SignupError)
    requires SignupIssues(form, emailFormatOk) != []
    ensures e.ValidationFailed?
    ensures [e.first] + e.rest == SignupIssues(form, emailFormatOk)
  {
    var issues := SignupIssues(form, emailFormatOk);
    ValidationFailed(issues[0], issues[1..])
  }

  /** A refused form shows the message of its first failing rule: an email problem
      before any password problem, a password problem before any name problem. */
  lemma ShowsFirstFailingRule(form: SignupForm, emailFormatOk: bool)
    requires SignupIssues(form, emailFormatOk) != []
    ensures var m := SignupErrorMessage(SchemaError(form, emailFormatOk));
            && (EmailIssues(form.email, emailFormatOk) != [] ==> m == EmailIssues(form.email, emailFormatOk)[0])
            && (EmailIssues(form.email, emailFormatOk) == [] && PasswordIssues(form.password) != [] ==>
                  m == PasswordIssues(form.password)[0])
            && (EmailIssues(form.email, emailFormatOk) == [] && PasswordIssues(form.password) == [] ==>
                  m == NameIssues(form.name)[0])
  {
    var e := AtField("email", EmailIssues(form.email, emailFormatOk));
    var p := AtField("password", PasswordIssues(form.password));
    var n := AtField("name", NameIssues(form.name));
    assert SignupIssues(form, emailFormatOk) == e + p + n;
    if e == [] {
      assert e + p + n == p + n;
    }
  }

  /** Since the email pattern refuses the empty string, "Email is required" is never the
      message shown: an empty email shows the format message. */
  lemma EmailRequiredNeverShown(form: SignupForm, emailFormatOk: bool)
    requires form.email == "" ==> !emailFormatOk
    requires SignupIssues(form, emailFormatOk) != []
    ensures SignupErrorMessage(SchemaError(form, emailFormatOk)) != EmailRequiredMessage
  {
    ShowsFirstFailingRule(form, emailFormatOk);
    var m := SignupErrorMessage(SchemaError(form, emailFormatOk));
    if EmailIssues(form.email, emailFormatOk) == [] {
      if PasswordIssues(form.password) != [] {
        assert m in PasswordIssues(form.password);
      } else {
        assert m in NameIssues(form.name);
      }
      assert |m| > |EmailRequiredMessage|;
    }
  }

  /** An `Error` whose message mentions "already registered" anywhere gets the fixed
      advice; the advice text itself passes through unchanged. */
  lemma AlreadyRegisteredAnywhere(before: string, after: string)
    ensures SignupErrorMessage(ErrorWithMessage(before + "already registered" + after)) ==
            AlreadyRegisteredMessage
  {
    ContainsInside(before, "already registered", after);
  }
}
