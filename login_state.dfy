/** The three progress flags of src/services/login-state.service.ts. */
module LoginState {
  datatype Flags = Flags(emailVerified: bool, passwordFieldReady: bool, passwordEntered: bool)

  const Cleared := Flags(false, false, false)

  class LoginStateService {
    var state: Flags

    /** A fresh service has every flag false. */
    constructor()
      ensures state == Cleared
    {
      state := Cleared;
    }

    function EmailVerified(): bool
      reads this
    {
      state.emailVerified
    }

    function PasswordFieldReady(): bool
      reads this
    {
      state.passwordFieldReady
    }

    function PasswordEntered(): bool
      reads this
    {
      state.passwordEntered
    }

    /** Sets one flag; the getter then returns the value set, and the other flags keep theirs. */
    method SetEmailVerified(value: bool)
      modifies this
      ensures state == old(state).(emailVerified := value)
      ensures EmailVerified() == value
      ensures PasswordFieldReady() == old(PasswordFieldReady()) && PasswordEntered() == old(PasswordEntered())
    {
      state := state.(emailVerified := value);
    }

    method SetPasswordFieldReady(value: bool)
      modifies this
      ensures state == old(state).(passwordFieldReady := value)
      ensures PasswordFieldReady() == value
      ensures EmailVerified() == old(EmailVerified()) && PasswordEntered() == old(PasswordEntered())
    {
      state := state.(passwordFieldReady := value);
    }

    method SetPasswordEntered(value: bool)
      modifies this
      ensures state == old(state).(passwordEntered := value)
      ensures PasswordEntered() == value
      ensures EmailVerified() == old(EmailVerified()) && PasswordFieldReady() == old(PasswordFieldReady())
    {
      state := state.(passwordEntered := value);
    }

    /** Every flag false, whatever the state before. */
    method Reset()
      modifies this
      ensures state == Cleared
    {
      state := Flags(false, false, false);
    }
  }
}
