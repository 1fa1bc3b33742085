/** The registration page: the ordered local checks and the messages its submit handler sets. */
module RegisterPage {
  import opened Wrappers
  import opened Http
  import opened JsText
  import opened AuthService
  import opened AuthContext

  const PASSWORDS_DIFFER := "Şifreler eşleşmiyor!"
  const PASSWORD_TOO_SHORT := "Şifre en az 6 karakter olmalıdır."
  const REGISTER_FAILED := "Kayıt başarısız. Lütfen tekrar deneyin."
  const REDIRECT_NOTICE := ". Giriş sayfasına yönlendiriliyorsunuz..."
  const MIN_PASSWORD_LENGTH := 6

  /**
   * The local checks, in order: the message of the first that fails, or None when the form may be
   * sent. A mismatch is reported whatever the length; the length is JavaScript's, in UTF-16 units.
   */
  function PasswordProblem(password: string, confirmPassword: string): (p: Option<string>)
    ensures p.None? <==> password == confirmPassword && Utf16Length(password) >= MIN_PASSWORD_LENGTH
    ensures password != confirmPassword ==> p == Some(PASSWORDS_DIFFER)
    ensures p.Some? && p != Some(PASSWORDS_DIFFER) ==> p == Some(PASSWORD_TOO_SHORT) && password == confirmPassword
    ensures |password| >= MIN_PASSWORD_LENGTH && password == confirmPassword ==> p.None?
    ensures 2 * |password| < MIN_PASSWORD_LENGTH ==> p.Some?
  {
    if password != confirmPassword then Some(PASSWORDS_DIFFER)
    else if Utf16Length(password) < MIN_PASSWORD_LENGTH then Some(PASSWORD_TOO_SHORT)
    else None
  }

  /** `data.msg + ". Giriş sayfasına yönlendiriliyorsunuz..."`, where a missing `msg` reads "undefined". */
  function SuccessMessage(body: RegisterBody): (m: string)
    ensures |m| >= |REDIRECT_NOTICE| && m[|m| - |REDIRECT_NOTICE|..] == REDIRECT_NOTICE
    ensures body.msg.Some? ==> |m| == |body.msg.value| + |REDIRECT_NOTICE| && m[..|body.msg.value|] == body.msg.value
    ensures body.msg.None? ==> m == "undefined" + REDIRECT_NOTICE
  {
    Concatenable(body.msg) + REDIRECT_NOTICE
  }

  /** Three characters outside the Basic Multilingual Plane are six UTF-16 units: long enough. */
  lemma AstralPasswordIsLongEnough()
    ensures PasswordProblem("\U{1F600}\U{1F600}\U{1F600}", "\U{1F600}\U{1F600}\U{1F600}").None?
  {
    var p := "\U{1F600}\U{1F600}\U{1F600}";
    assert p[1..][1..][1..] == [];
    assert Utf16Length(p[1..][1..]) == 2;
  }

  /** The page's own state: the error line and the success line. */
  class RegisterForm {
    var error: string
    var successMessage: string
    const auth: AuthProvider

    constructor (auth: AuthProvider)
      ensures this.auth == auth && error == "" && successMessage == ""
    {
      this.auth := auth;
      error := "";
      successMessage := "";
    }

    /**
     * `handleSubmit`: clears both messages; a failed local check sets its message and sends nothing;
     * otherwise `register(username, password)` is sent and its outcome shown. The session is not touched.
     */
    method HandleSubmit(username: string, password: string, confirmPassword: string, response: Response<RegisterBody>)
      returns (request: Option<(string, string)>)
      modifies this
      ensures request.Some? <==> PasswordProblem(password, confirmPassword).None?
      ensures request.Some? ==> request.value == (username, password)
      ensures request.None? ==> error == PasswordProblem(password, confirmPassword).value && successMessage == ""
      ensures request.Some? && response.Ok? ==> error == "" && successMessage == SuccessMessage(response.value)
      ensures request.Some? && response.Err? ==> successMessage == "" && error == MessageOr(response.error, REGISTER_FAILED)
    {
      error := "";
      successMessage := "";
      if password != confirmPassword {
        error := PASSWORDS_DIFFER;
        return None;
      }
      if Utf16Length(password) < MIN_PASSWORD_LENGTH {
        error := PASSWORD_TOO_SHORT;
        return None;
      }
      request := Some((username, password));
      var r := auth.Register(response);
      match r
      case Ok(data) =>
        successMessage := SuccessMessage(data);
      case Err(e) =>
        error := MessageOr(e, REGISTER_FAILED);
    }
  }
}
