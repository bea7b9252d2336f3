/** The login card (src/components/AuthForm.tsx): one form that is a sign-in,
    a sign-up, a password-reset request or the verification step of a reset,
    depending on three flags. The account service's answer to each request is
    a parameter: the calls themselves are not part of this model. */
module AuthForm {
  import opened Js
  import opened Text
  import opened Lists

  const PasswordMismatch := "Las contraseñas no coinciden"
  const PasswordTooShort := "La contraseña debe tener al menos 6 caracteres"
  const DefaultFailure := "Ha ocurrido un error"
  const PasswordUpdated := "Contraseña actualizada exitosamente. Puedes iniciar sesión ahora."
  const CodeSent := "Se ha enviado un código de 6 dígitos a tu correo electrónico"
  const AccountCreated := "Cuenta creada exitosamente. Puedes iniciar sesión ahora."

  const MinPasswordLength: nat := 6
  const ResetCodeLength: nat := 6

  /** Every state variable of the form. */
  datatype AuthFields = AuthFields(
    isSignUp: bool,
    isResetPassword: bool,
    isVerifyCode: bool,
    email: string,
    password: string,
    confirmPassword: string,
    resetCode: string,
    showPassword: bool,
    showConfirmPassword: bool,
    loading: bool,
    error: string,
    message: string)

  /** What the form shows, decided by the flags in this order (the subtitle
      under the title follows the same cascade). */
  datatype Mode = SignIn | SignUp | Reset | Verify

  function ModeOf(s: AuthFields): Mode {
    if s.isVerifyCode then Verify
    else if s.isResetPassword then Reset
    else if s.isSignUp then SignUp
    else SignIn
  }

  /** The flag combinations the handlers can reach: sign-up and reset never
      together, and the verification step only inside a reset. */
  predicate ValidFlags(s: AuthFields) {
    !(s.isSignUp && s.isResetPassword) && (s.isVerifyCode ==> s.isResetPassword)
  }

  /** The request a submit sends to the account service. */
  datatype AuthCall =
    | NoCall
    | SignInCall(email: string, password: string)
    | SignUpCall(email: string, password: string)
    | RequestResetCall(email: string)
    | ResetWithCodeCall(email: string, code: string, password: string)

  /** The service's answer: success, or an error whose message may be missing. */
  datatype Outcome = Succeeded | Failed(errorMessage: Option<string>)

  // ---------------------------------------------------------------------
  // The handlers, as functions of the state
  // ---------------------------------------------------------------------

  /** The request `handleSubmit` sends: in the verification step only when
      the passwords agree and are long enough. */
  function SubmitCall(s: AuthFields): AuthCall {
    if s.isVerifyCode then
      if s.password != s.confirmPassword || |s.password| < MinPasswordLength then NoCall
      else ResetWithCodeCall(s.email, s.resetCode, s.password)
    else if s.isResetPassword then RequestResetCall(s.email)
    else if s.isSignUp then SignUpCall(s.email, s.password)
    else SignInCall(s.email, s.password)
  }

  /** The state after `handleSubmit` has finished: the messages cleared at
      the start, the branch's message or error, and `loading` back to false
      in the `finally`. */
  function AfterSubmit(s: AuthFields, outcome: Outcome): AuthFields {
    var t := s.(error := "", message := "", loading := false);
    if s.isVerifyCode && s.password != s.confirmPassword then t.(error := PasswordMismatch)
    else if s.isVerifyCode && |s.password| < MinPasswordLength then t.(error := PasswordTooShort)
    else if outcome.Failed? then t.(error := OrElse(outcome.errorMessage, DefaultFailure))
    else if s.isVerifyCode then t.(message := PasswordUpdated)
    else if s.isResetPassword then t.(message := CodeSent, isVerifyCode := true)
    else if s.isSignUp then t.(message := AccountCreated, isSignUp := false)
    else t
  }

  /** `resetForm`: every input, message and visibility toggle back to empty. */
  function Cleared(s: AuthFields): AuthFields {
    s.(email := "", password := "", confirmPassword := "", resetCode := "",
       error := "", message := "", showPassword := false, showConfirmPassword := false)
  }

  /** `handleModeChange`: a cleared form in the chosen mode. */
  function AfterModeChange(s: AuthFields, mode: Mode): AuthFields
    requires mode != Verify
  {
    Cleared(s).(isSignUp := mode == SignUp, isResetPassword := mode == Reset, isVerifyCode := false)
  }

  /** `handleBackToReset`: leave the verification step, forgetting the code,
      the passwords and the messages. */
  function AfterBackToReset(s: AuthFields): AuthFields {
    s.(isVerifyCode := false, resetCode := "", password := "", confirmPassword := "", error := "", message := "")
  }

  /** The timer callback after a successful password update: a cleared
      form, out of the reset. */
  function AfterResetCompleted(s: AuthFields): AuthFields {
    Cleared(s).(isResetPassword := false, isVerifyCode := false)
  }

  /** The code field's handler: `value.replace(/\D/g, '').slice(0, 6)`. */
  function SanitizeResetCode(typed: string): (r: string)
    ensures AllDigits(r) && |r| <= ResetCodeLength
    ensures r <= KeepDigits(typed)
    ensures |KeepDigits(typed)| <= ResetCodeLength ==> r == KeepDigits(typed)
  {
    Take(KeepDigits(typed), ResetCodeLength)
  }

  // ---------------------------------------------------------------------
  // What the handlers promise
  // ---------------------------------------------------------------------

  /** The field keeps a code it shows: sanitising twice is sanitising once,
      and a code of at most six digits is kept as typed. */
  lemma SanitizeResetCodeStable(typed: string)
    ensures SanitizeResetCode(SanitizeResetCode(typed)) == SanitizeResetCode(typed)
    ensures AllDigits(typed) && |typed| <= ResetCodeLength ==> SanitizeResetCode(typed) == typed
  {
  }

  /** A submit starts by clearing both messages: what it leaves does not
      depend on the messages from before, and it always ends not loading. */
  lemma SubmitForgetsOldMessages(s: AuthFields, outcome: Outcome, oldError: string, oldMessage: string)
    ensures AfterSubmit(s.(error := oldError, message := oldMessage), outcome) == AfterSubmit(s, outcome)
    ensures AfterSubmit(s, outcome).error == "" || AfterSubmit(s, outcome).message == ""
    ensures !AfterSubmit(s, outcome).loading
  {
  }

  /** In the verification step, mismatched passwords are reported first,
      even when they are also too short; a short password is reported next;
      in both cases no request is sent and the step is kept. Only a valid
      pair reaches the service. */
  lemma VerifyValidationOrder(s: AuthFields, outcome: Outcome)
    requires s.isVerifyCode
    ensures s.password != s.confirmPassword ==>
      AfterSubmit(s, outcome).error == PasswordMismatch && SubmitCall(s) == NoCall
    ensures s.password == s.confirmPassword && |s.password| < MinPasswordLength ==>
      AfterSubmit(s, outcome).error == PasswordTooShort && SubmitCall(s) == NoCall
    ensures SubmitCall(s).ResetWithCodeCall? <==> s.password == s.confirmPassword && |s.password| >= MinPasswordLength
    ensures SubmitCall(s) == NoCall ==> ModeOf(AfterSubmit(s, outcome)) == Verify
  {
  }

  /** A rejected request leaves the mode and the inputs as they were and
      shows the service's message, or the generic one when it has none. */
  lemma FailureKeepsMode(s: AuthFields, errorMessage: Option<string>)
    requires SubmitCall(s) != NoCall
    ensures var t := AfterSubmit(s, Failed(errorMessage));
      t.error == OrElse(errorMessage, DefaultFailure) && t.error != "" && t.message == ""
      && t.(error := s.error, message := s.message, loading := s.loading) == s
  {
  }

  /** The successful transitions: a reset request moves to the verification
      step keeping the email, a sign-up returns to sign-in, a sign-in or a
      password update leaves the mode for the app or the timer to change. */
  lemma SuccessTransitions(s: AuthFields)
    requires ValidFlags(s) && SubmitCall(s) != NoCall
    ensures var t := AfterSubmit(s, Succeeded);
      && (ModeOf(s) == Reset ==> ModeOf(t) == Verify && t.email == s.email && t.message == CodeSent)
      && (ModeOf(s) == SignUp ==> ModeOf(t) == SignIn && t.message == AccountCreated)
      && (ModeOf(s) == SignIn ==> ModeOf(t) == SignIn && t.message == "" && t.error == "")
      && (ModeOf(s) == Verify ==> ModeOf(t) == Verify && t.message == PasswordUpdated)
  {
  }

  /** After the password update the timer brings the form back to an empty sign-in. */
  lemma ResetCompletedSignsIn(s: AuthFields)
    requires ValidFlags(s) && ModeOf(s) == Verify
    ensures var t := AfterResetCompleted(s);
      ModeOf(t) == SignIn && t.email == "" && t.password == "" && t.resetCode == ""
  {
  }

  /** Choosing a mode yields exactly that mode with every input empty and
      the two exclusive flags not both set. */
  lemma ModeChangeSelectsMode(s: AuthFields, mode: Mode)
    requires mode != Verify
    ensures var t := AfterModeChange(s, mode);
      ModeOf(t) == mode && ValidFlags(t) && !t.isVerifyCode
      && t.email == "" && t.password == "" && t.confirmPassword == "" && t.resetCode == ""
      && t.error == "" && t.message == ""
  {
  }

  /** Going back from the verification step returns to the reset request
      with the email kept and the code and passwords gone. */
  lemma BackToResetKeepsEmail(s: AuthFields)
    requires ValidFlags(s) && ModeOf(s) == Verify
    ensures var t := AfterBackToReset(s);
      ModeOf(t) == Reset && t.email == s.email && t.resetCode == "" && t.password == "" && t.confirmPassword == ""
      && t.error == "" && t.message == ""
  {
  }

  /** No handler reaches a state where sign-up and reset are both on, or the
      verification step is shown outside a reset. */
  lemma HandlersKeepFlagsValid(s: AuthFields, outcome: Outcome, mode: Mode)
    requires ValidFlags(s) && mode != Verify
    ensures ValidFlags(AfterSubmit(s, outcome))
    ensures ValidFlags(AfterModeChange(s, mode))
    ensures ValidFlags(AfterBackToReset(s))
    ensures ValidFlags(AfterResetCompleted(s))
  {
  }

  // ---------------------------------------------------------------------
  // The component
  // ---------------------------------------------------------------------

  class AuthFormState {
    var isSignUp: bool
    var isResetPassword: bool
    var isVerifyCode: bool
    var email: string
    var password: string
    var confirmPassword: string
    var resetCode: string
    var showPassword: bool
    var showConfirmPassword: bool
    var loading: bool
    var error: string
    var message: string

    function Fields(): AuthFields
      reads this
    {
      AuthFields(isSignUp, isResetPassword, isVerifyCode, email, password, confirmPassword, resetCode,
        showPassword, showConfirmPassword, loading, error, message)
    }

    /** The form opens as an empty sign-in. */
    constructor ()
      ensures Fields() == AuthFields(false, false, false, "", "", "", "", false, false, false, "", "")
      ensures ModeOf(Fields()) == SignIn && ValidFlags(Fields())
    {
      isSignUp, isResetPassword, isVerifyCode := false, false, false;
      email, password, confirmPassword, resetCode := "", "", "", "";
      showPassword, showConfirmPassword, loading := false, false, false;
      error, message := "", "";
    }

    /** `handleSubmit`, given the service's answer to the request it sends. */
    method Submit(outcome: Outcome) returns (call: AuthCall)
      modifies this
      ensures call == SubmitCall(old(Fields()))
      ensures Fields() == AfterSubmit(old(Fields()), outcome)
    {
      loading := true;
      error := "";
      message := "";
      call := NoCall;
      if isVerifyCode {
        if password != confirmPassword {
          error := PasswordMismatch;
          loading := false;
          return;
        }
        if |password| < MinPasswordLength {
          error := PasswordTooShort;
          loading := false;
          return;
        }
        call := ResetWithCodeCall(email, resetCode, password);
        if outcome.Succeeded? {
          message := PasswordUpdated;
        }
      } else if isResetPassword {
        call := RequestResetCall(email);
        if outcome.Succeeded? {
          message := CodeSent;
          isVerifyCode := true;
        }
      } else if isSignUp {
        call := SignUpCall(email, password);
        if outcome.Succeeded? {
          message := AccountCreated;
          isSignUp := false;
        }
      } else {
        call := SignInCall(email, password);
      }
      if outcome.Failed? {
        error := OrElse(outcome.errorMessage, DefaultFailure);
      }
      loading := false;
    }

    /** `resetForm`. */
    method ResetForm()
      modifies this
      ensures Fields() == Cleared(old(Fields()))
    {
      email := "";
      password := "";
      confirmPassword := "";
      resetCode := "";
      error := "";
      message := "";
      showPassword := false;
      showConfirmPassword := false;
    }

    /** `handleModeChange`. */
    method ModeChange(mode: Mode)
      requires mode != Verify
      modifies this
      ensures Fields() == AfterModeChange(old(Fields()), mode)
    {
      ResetForm();
      isSignUp := mode == SignUp;
      isResetPassword := mode == Reset;
      isVerifyCode := false;
    }

    /** `handleBackToReset`. */
    method BackToReset()
      modifies this
      ensures Fields() == AfterBackToReset(old(Fields()))
    {
      isVerifyCode := false;
      resetCode := "";
      password := "";
      confirmPassword := "";
      error := "";
      message := "";
    }

    /** The callback the timer runs two seconds after a password update. */
    method ResetCompleted()
      modifies this
      ensures Fields() == AfterResetCompleted(old(Fields()))
    {
      ResetForm();
      isResetPassword := false;
      isVerifyCode := false;
    }

    /** Typing into the verification-code field. */
    method TypeResetCode(typed: string)
      modifies this
      ensures Fields() == old(Fields()).(resetCode := SanitizeResetCode(typed))
    {
      resetCode := SanitizeResetCode(typed);
    }
  }
}
