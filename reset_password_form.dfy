/** The page a password-recovery link opens (src/components/ResetPasswordForm.tsx):
    it checks the link's tokens, then takes the new password twice. The
    session service's and the account service's answers are parameters;
    navigation and the redirect timer are not part of this model. */
module ResetPasswordForm {
  import opened Js

  const InvalidLink := "Enlace de recuperación inválido o expirado"
  const NoUser := "No se pudo validar el usuario"
  const ValidationFailed := "Error al validar el enlace de recuperación"
  const PasswordMismatch := "Las contraseñas no coinciden"
  const PasswordTooShort := "La contraseña debe tener al menos 6 caracteres"
  const UpdateFailed := "Error al actualizar la contraseña"

  const MinPasswordLength: nat := 6

  /** Every state variable of the page. */
  datatype ResetFields = ResetFields(
    password: string,
    confirmPassword: string,
    showPassword: bool,
    showConfirmPassword: bool,
    loading: bool,
    error: string,
    success: bool,
    validatingToken: bool)

  /** The page as it first renders: validating, nothing typed. */
  const Initial := ResetFields("", "", false, false, false, "", false, true)

  /** The session service's answer to the link's tokens. */
  datatype SessionOutcome = SessionOk(hasUser: bool) | SessionRejected | SessionThrew

  /** The account service's answer to the password update. */
  datatype Outcome = Succeeded | Failed(errorMessage: Option<string>)

  /** `!accessToken || !refreshToken || type !== 'recovery'` negated: both
      tokens present and non-empty, and a recovery link. */
  predicate LinkComplete(accessToken: Option<string>, refreshToken: Option<string>, linkType: Option<string>) {
    OrEmpty(accessToken) != "" && OrEmpty(refreshToken) != "" && linkType == Some("recovery")
  }

  /** The state after `validateTokens` has finished. */
  function AfterValidate(s: ResetFields, accessToken: Option<string>, refreshToken: Option<string>,
                         linkType: Option<string>, session: SessionOutcome): ResetFields
  {
    var t := s.(validatingToken := false);
    if !LinkComplete(accessToken, refreshToken, linkType) then t.(error := InvalidLink)
    else match session
      case SessionRejected => t.(error := InvalidLink)
      case SessionOk(hasUser) => if hasUser then t else t.(error := NoUser)
      case SessionThrew => t.(error := ValidationFailed)
  }

  /** Whether `handleSubmit` sends the new password: only a matching pair of
      at least six characters. */
  predicate SubmitSends(s: ResetFields) {
    s.password == s.confirmPassword && |s.password| >= MinPasswordLength
  }

  /** The state after `handleSubmit` has finished: the error cleared, then
      the first failed check's message, or the service's answer; every path
      ends not loading. */
  function AfterSubmit(s: ResetFields, outcome: Outcome): ResetFields {
    var t := s.(error := "", loading := false);
    if s.password != s.confirmPassword then t.(error := PasswordMismatch)
    else if |s.password| < MinPasswordLength then t.(error := PasswordTooShort)
    else match outcome
      case Succeeded => t.(success := true)
      case Failed(m) => t.(error := OrElse(m, UpdateFailed))
  }

  /** The four screens the component renders. */
  datatype Screen = Validating | InvalidLinkScreen | SuccessScreen | FormScreen

  /** The cascade of early returns in the render: the spinner while
      validating, then the invalid-link screen when there is an error and
      both password fields are empty, then the success screen, else the form. */
  function ScreenOf(s: ResetFields): Screen {
    if s.validatingToken then Validating
    else if s.error != "" && s.password == "" && s.confirmPassword == "" then InvalidLinkScreen
    else if s.success then SuccessScreen
    else FormScreen
  }

  /** The page shows the form after validation exactly when the link is
      complete and the session names a user; any other link or answer shows
      the invalid-link screen. */
  lemma ValidationDecidesScreen(accessToken: Option<string>, refreshToken: Option<string>,
                                linkType: Option<string>, session: SessionOutcome)
    ensures var t := AfterValidate(Initial, accessToken, refreshToken, linkType, session);
      && (ScreenOf(t) == FormScreen <==> LinkComplete(accessToken, refreshToken, linkType) && session == SessionOk(true))
      && (ScreenOf(t) == InvalidLinkScreen <==> !(LinkComplete(accessToken, refreshToken, linkType) && session == SessionOk(true)))
    ensures !LinkComplete(accessToken, refreshToken, linkType) ==>
      AfterValidate(Initial, accessToken, refreshToken, linkType, session).error == InvalidLink
  {
  }

  /** A mismatch is reported before a short password, neither sends the
      update, and every path, the early returns included, ends not loading. */
  lemma SubmitValidationOrder(s: ResetFields, outcome: Outcome)
    ensures s.password != s.confirmPassword ==> AfterSubmit(s, outcome).error == PasswordMismatch && !SubmitSends(s)
    ensures s.password == s.confirmPassword && |s.password| < MinPasswordLength ==>
      AfterSubmit(s, outcome).error == PasswordTooShort && !SubmitSends(s)
    ensures !AfterSubmit(s, outcome).loading
    ensures AfterSubmit(s, outcome).success != s.success ==> SubmitSends(s) && outcome.Succeeded?
  {
  }

  /** From the form, an accepted password leads to the success screen, and a
      rejected submit stays on the form with its message, as long as
      something was typed (the inputs are `required`). */
  lemma SubmitScreens(s: ResetFields, outcome: Outcome)
    requires ScreenOf(s) == FormScreen
    requires s.password != "" || s.confirmPassword != ""
    ensures SubmitSends(s) && outcome.Succeeded? ==> ScreenOf(AfterSubmit(s, outcome)) == SuccessScreen
    ensures !(SubmitSends(s) && outcome.Succeeded?) ==>
      ScreenOf(AfterSubmit(s, outcome)) == FormScreen && AfterSubmit(s, outcome).error != ""
  {
  }

  /** With both fields empty, the length message would be drawn on the
      invalid-link screen: the precedence puts that screen before the form.
      The inputs' `required` attribute keeps the browser from submitting so. */
  lemma EmptySubmitShowsInvalidLinkScreen(s: ResetFields, outcome: Outcome)
    requires ScreenOf(s) == FormScreen && s.password == "" && s.confirmPassword == ""
    ensures ScreenOf(AfterSubmit(s, outcome)) == InvalidLinkScreen
    ensures AfterSubmit(s, outcome).error == PasswordTooShort
  {
  }

  class ResetPasswordState {
    var password: string
    var confirmPassword: string
    var showPassword: bool
    var showConfirmPassword: bool
    var loading: bool
    var error: string
    var success: bool
    var validatingToken: bool

    function Fields(): ResetFields
      reads this
    {
      ResetFields(password, confirmPassword, showPassword, showConfirmPassword, loading, error, success, validatingToken)
    }

    constructor ()
      ensures Fields() == Initial && ScreenOf(Fields()) == Validating
    {
      password, confirmPassword := "", "";
      showPassword, showConfirmPassword, loading := false, false, false;
      error := "";
      success := false;
      validatingToken := true;
    }

    /** `validateTokens`, given the link's query parameters and the session
      service's answer; reports whether the tokens were sent to it. */
    method ValidateTokens(accessToken: Option<string>, refreshToken: Option<string>,
                          linkType: Option<string>, session: SessionOutcome)
      returns (sessionRequested: bool)
      modifies this
      ensures sessionRequested == LinkComplete(accessToken, refreshToken, linkType)
      ensures Fields() == AfterValidate(old(Fields()), accessToken, refreshToken, linkType, session)
    {
      if OrEmpty(accessToken) == "" || OrEmpty(refreshToken) == "" || linkType != Some("recovery") {
        error := InvalidLink;
        validatingToken := false;
        return false;
      }
      sessionRequested := true;
      match session {
        case SessionRejected =>
          error := InvalidLink;
        case SessionOk(hasUser) =>
          if !hasUser {
            error := NoUser;
          }
        case SessionThrew =>
          error := ValidationFailed;
      }
      validatingToken := false;
    }

    /** `handleSubmit`, given the account service's answer; reports whether
      the new password was sent. */
    method Submit(outcome: Outcome) returns (updateRequested: bool)
      modifies this
      ensures updateRequested == SubmitSends(old(Fields()))
      ensures Fields() == AfterSubmit(old(Fields()), outcome)
    {
      loading := true;
      error := "";
      if password != confirmPassword {
        error := PasswordMismatch;
        loading := false;
        return false;
      }
      if |password| < MinPasswordLength {
        error := PasswordTooShort;
        loading := false;
        return false;
      }
      updateRequested := true;
      match outcome {
        case Succeeded =>
          success := true;
        case Failed(m) =>
          error := OrElse(m, UpdateFailed);
      }
      loading := false;
    }
  }
}
