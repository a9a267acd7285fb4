/** The constants of the source's configuration that the modelled code reads. */
module Config {

  /** A `[min, max]` tuple from which a random delay in milliseconds is drawn. */
  datatype DelayRange = DelayRange(min: int, max: int)

  const Short := DelayRange(500, 1000)
  const Medium := DelayRange(1000, 2000)
  const Long := DelayRange(2000, 3000)
  const SpecialCharDelay := DelayRange(400, 800)
  const NormalCharDelay := DelayRange(100, 200)

  /** Cookies whose presence after a restore is taken as proof that the restore worked. */
  const CriticalCookies: seq<string> := ["user_uid", "recognized", "master_access_token"]

  /** The two files of the session store (relative to the compiled services' directory). */
  const CookiePath := "../data/auth/cookies.json"
  const LocalStoragePath := "../data/auth/localStorage.json"

  const EmailInput := "input#login_username"
  const PasswordInput := "input#login_password"
  const PasswordContinueButton := "button#login_password_continue"
  const LoginControlContinueButton := "button#login_control_continue"
  const KeepLoggedInCheckbox := "span[data-test=\"checkbox-input\"]"
}
