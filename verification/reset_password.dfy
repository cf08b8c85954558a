/** The reset-password form (src/pages/ResetPasswordPage.tsx): on submit it clears the
    error, shows the loading state, refuses a confirmation that differs from the
    password, then a password shorter than 8 characters, and only then asks the auth
    service to update the password; on success it navigates to the login page.

    The auth service is not modelled: how `updatePassword` ends is a parameter, and the
    calls made to it and the navigations are recorded in the form's state. */
module ResetPassword {
  import opened Common

  const MismatchMessage := "Passwords do not match"
  const TooShortMessage := "Password must be at least 8 characters long"
  const UpdateFailedMessage := "Failed to update password"

  /** The message of the first local check that fails, or `None` when both pass. */
  function FirstFailedCheck(password: string, confirmPassword: string): Option<string> {
    if password != confirmPassword then Some(MismatchMessage)
    else if |password| < 8 then Some(TooShortMessage)
    else None
  }

  /** Both checks pass exactly when the two entries are equal and at least 8 long. */
  lemma ChecksPassIff(password: string, confirmPassword: string)
    ensures FirstFailedCheck(password, confirmPassword).None? <==>
              password == confirmPassword && |password| >= 8
  {
  }

  /** The mismatch is reported first: a short, mismatched pair gets the mismatch message,
      and the length message only appears when the two entries agree. */
  lemma MismatchCheckedFirst(password: string, confirmPassword: string)
    ensures password != confirmPassword ==>
              FirstFailedCheck(password, confirmPassword) == Some(MismatchMessage)
    ensures FirstFailedCheck(password, confirmPassword) == Some(TooShortMessage) <==>
              password == confirmPassword && |password| < 8
  {
  }

  /** The component's state, with the calls made to `updatePassword` and `navigate`. */
  datatype FormState = FormState(password: string, confirmPassword: string, error: string,
                                 loading: bool, updates: seq<string>, navigations: seq<string>)

  /** One `handleSubmit`, given how `updatePassword` would end (`None`: it resolved). */
  function SubmitStep(s: FormState, updateOutcome: Option<Thrown>): (t: FormState)
    ensures t.password == s.password && t.confirmPassword == s.confirmPassword
    ensures FirstFailedCheck(s.password, s.confirmPassword).Some? ==>
              t.error == FirstFailedCheck(s.password, s.confirmPassword).value && !t.loading &&
              t.updates == s.updates && t.navigations == s.navigations
    ensures FirstFailedCheck(s.password, s.confirmPassword).None? ==>
              t.updates == s.updates + [s.password]
    ensures FirstFailedCheck(s.password, s.confirmPassword).None? && updateOutcome.None? ==>
              t.error == "" && t.loading && t.navigations == s.navigations + ["/login"]
    ensures FirstFailedCheck(s.password, s.confirmPassword).None? && updateOutcome.Some? ==>
              t.error == MessageOr(updateOutcome.value, UpdateFailedMessage) && !t.loading &&
              t.navigations == s.navigations
  {
    match FirstFailedCheck(s.password, s.confirmPassword)
    case Some(msg) => s.(error := msg, loading := false)
    case None =>
      var s1 := s.(error := "", loading := true, updates := s.updates + [s.password]);
      match updateOutcome
      case None => s1.(navigations := s1.navigations + ["/login"])
      case Some(thrown) => s1.(error := MessageOr(thrown, UpdateFailedMessage), loading := false)
  }

  /** The password is sent to the service only when both local checks pass, and then
      exactly once; nothing is sent for a mismatched or short password. */
  lemma UpdateOnlyAfterChecks(s: FormState, updateOutcome: Option<Thrown>)
    ensures var t := SubmitStep(s, updateOutcome);
            |t.updates| == |s.updates| + (if s.password == s.confirmPassword && |s.password| >= 8 then 1 else 0)
  {
    ChecksPassIff(s.password, s.confirmPassword);
  }

  /** After a submit the form is still loading exactly when it is leaving for the login
      page: every path that stays on the page ends the loading state. */
  lemma LoadingOnlyWhileLeaving(s: FormState, updateOutcome: Option<Thrown>)
    ensures var t := SubmitStep(s, updateOutcome);
            t.loading <==> |t.navigations| == |s.navigations| + 1
  {
  }

  /** When both checks pass and the service fails, the password was sent once and the
      form shows the service's message (the fallback for a thrown non-Error). */
  lemma ServiceFailureShown(s: FormState, thrown: Thrown)
    requires s.password == s.confirmPassword && |s.password| >= 8
    ensures SubmitStep(s, Some(thrown)).error == MessageOr(thrown, UpdateFailedMessage)
    ensures SubmitStep(s, Some(thrown)).updates == s.updates + [s.password]
  {
    ChecksPassIff(s.password, s.confirmPassword);
  }

  class ResetPasswordForm {
    var password: string
    var confirmPassword: string
    var error: string
    var loading: bool
    var updates: seq<string>
    var navigations: seq<string>

    function State(): FormState
      reads this
    {
      FormState(password, confirmPassword, error, loading, updates, navigations)
    }

    /** The initial state: empty entries, no error, not loading, no calls yet. */
    constructor ()
      ensures State() == FormState("", "", "", false, [], [])
    {
      password, confirmPassword, error, loading := "", "", "", false;
      updates, navigations := [], [];
    }

    /** The two inputs' `onChange` handlers. */
    method SetPassword(value: string)
      modifies this
      ensures State() == old(State()).(password := value)
    {
      password := value;
    }

    method SetConfirmPassword(value: string)
      modifies this
      ensures State() == old(State()).(confirmPassword := value)
    {
      confirmPassword := value;
    }

    /** `handleSubmit`: clears the error and starts loading, runs the two checks in
        order, and only when both pass calls `updatePassword`. */
    method HandleSubmit(updateOutcome: Option<Thrown>)
      modifies this
      ensures State() == SubmitStep(old(State()), updateOutcome)
    {
      error := "";
      loading := true;
      if password != confirmPassword {
        error := MismatchMessage;
        loading := false;
        return;
      }
      if |password| < 8 {
        error := TooShortMessage;
        loading := false;
        return;
      }
      updates := updates + [password];
      match updateOutcome {
        case None =>
          navigations := navigations + ["/login"];
        case Some(thrown) =>
          error := MessageOr(thrown, UpdateFailedMessage);
          loading := false;
      }
    }
  }
}
