/** The login and register schemas (src/lib/auth/validation.ts). `registerSchema`
    extends `loginSchema` with a name and a password confirmation and refines the
    whole object with "the two passwords are equal".

    zod reports field issues in key order (email, password, then the added name and
    passwordConfirm); the refinement runs after the fields, also when a field check
    failed, because a failed length or format check leaves the object only "dirty".
    Whether the email has zod's email format is a parameter (`emailFormatOk`). */
module AuthSchemas {
  import opened Common
  import SignupValidation

  const InvalidEmailMessage := "Invalid email address"
  const PasswordShortMessage := "Password must be at least 8 characters"
  const NameShortMessage := "Name must be at least 2 characters"
  const MismatchMessage := "Passwords don't match"

  datatype LoginInput = LoginInput(email: string, password: string)
  datatype RegisterInput = RegisterInput(email: string, password: string, name: string,
                                         passwordConfirm: string)

  /** Every issue `loginSchema.parse` reports. */
  function LoginIssues(input: LoginInput, emailFormatOk: bool): seq<Issue> {
    (if emailFormatOk then [] else [Issue(["email"], InvalidEmailMessage)]) +
    (if |input.password| < 8 then [Issue(["password"], PasswordShortMessage)] else [])
  }

  /** The login fields of a register input. */
  function LoginPart(input: RegisterInput): LoginInput {
    LoginInput(input.email, input.password)
  }

  /** Every issue `registerSchema.parse` reports: the login issues, the name's, then the
      refinement's at path `["passwordConfirm"]`. */
  function RegisterIssues(input: RegisterInput, emailFormatOk: bool): seq<Issue> {
    LoginIssues(LoginPart(input), emailFormatOk) +
    (if |input.name| < 2 then [Issue(["name"], NameShortMessage)] else []) +
    (if input.password != input.passwordConfirm then [Issue(["passwordConfirm"], MismatchMessage)]
     else [])
  }

  /** A login passes exactly when the email has the format and the password has at least
      8 characters; a short password is reported with its message. */
  lemma LoginAcceptedIff(input: LoginInput, emailFormatOk: bool)
    ensures LoginIssues(input, emailFormatOk) == [] <==> emailFormatOk && |input.password| >= 8
    ensures Issue(["password"], PasswordShortMessage) in LoginIssues(input, emailFormatOk) <==>
              |input.password| < 8
  {
  }

  /** The login schema has no character-class rules: eight lower-case letters pass it,
      although the signup rules refuse the same password. */
  lemma LowercasePasswordPassesLogin(email: string, password: string)
    requires |password| == 8 && forall i :: 0 <= i < |password| ==> 'a' <= password[i] <= 'z'
    ensures LoginIssues(LoginInput(email, password), true) == []
    ensures SignupValidation.PasswordIssues(password) != []
  {
    assert !SignupValidation.HasCharIn(password, '0', '9');
  }

  /** Every password the signup rules accept also passes the login schema. */
  lemma SignupPasswordPassesLogin(email: string, password: string)
    requires SignupValidation.PasswordIssues(password) == []
    ensures LoginIssues(LoginInput(email, password), true) == []
  {
  }

  /** The register schema checks everything the login schema checks, first: the login
      issues of the same email and password are a prefix of the register issues. */
  lemma RegisterExtendsLogin(input: RegisterInput, emailFormatOk: bool)
    ensures var l := LoginIssues(LoginPart(input), emailFormatOk);
            |l| <= |RegisterIssues(input, emailFormatOk)| &&
            RegisterIssues(input, emailFormatOk)[..|l|] == l
  {
  }

  /** A registration passes exactly when the login part passes, the name has at least
      2 characters and the confirmation equals the password. */
  lemma RegisterAcceptedIff(input: RegisterInput, emailFormatOk: bool)
    ensures RegisterIssues(input, emailFormatOk) == [] <==>
              LoginIssues(LoginPart(input), emailFormatOk) == [] &&
              |input.name| >= 2 && input.password == input.passwordConfirm
  {
  }

  /** The mismatch issue, at path `["passwordConfirm"]`, is reported exactly when the
      confirmation differs from the password, whatever else failed; it is the last issue. */
  lemma {:induction false} MismatchReportedIff(input: RegisterInput, emailFormatOk: bool)
    ensures Issue(["passwordConfirm"], MismatchMessage) in RegisterIssues(input, emailFormatOk) <==>
              input.password != input.passwordConfirm
    ensures input.password != input.passwordConfirm ==>
              var r := RegisterIssues(input, emailFormatOk);
              r[|r| - 1] == Issue(["passwordConfirm"], MismatchMessage)
  {
    var mismatch := Issue(["passwordConfirm"], MismatchMessage);
    var r := RegisterIssues(input, emailFormatOk);
    if input.password == input.passwordConfirm {
      forall x | x in r
        ensures x != mismatch
      {
        assert x.path[0] != mismatch.path[0] by {
          assert x.path[0][0] in "epn";
        }
      }
    }
  }
}
