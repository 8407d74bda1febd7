/** Client sign-up: the three password checks and the strength meter derived
    from them, the rule that enables the submit button, and the register
    handler with its mismatch guard and auto-login session writes. */
module Signup {
  import opened Wrappers
  import Text
  import Session

  /** The characters of the class `[!@#$%^&*(),.?":{}|<>]`. */
  const SpecialChars: string := "!@#$%^&*(),.?\":{}|<>"

  /** `password.length >= 5`, with the length in UTF-16 code units. */
  predicate HasMinLength(password: string) {
    Text.Utf16Length(password) >= 5
  }

  /** `/[A-Z]/.test(password)`. */
  predicate HasUppercase(password: string) {
    exists i :: 0 <= i < |password| && Text.IsUpper(password[i])
  }

  /** `/[!@#$%^&*(),.?":{}|<>]/.test(password)`. */
  predicate HasSpecialChar(password: string) {
    exists i :: 0 <= i < |password| && password[i] in SpecialChars
  }

  predicate AllRequirementsMet(password: string) {
    HasMinLength(password) && HasUppercase(password) && HasSpecialChar(password)
  }

  /** The number of checks the password passes. */
  function PasswordStrength(password: string): (n: nat)
    ensures n <= 3
    ensures n == 3 <==> AllRequirementsMet(password)
    ensures n == 0 <==> !HasMinLength(password) && !HasUppercase(password) && !HasSpecialChar(password)
  {
    (if HasMinLength(password) then 1 else 0)
    + (if HasUppercase(password) then 1 else 0)
    + (if HasSpecialChar(password) then 1 else 0)
  }

  /** Length is counted as the browser counts it: two emoji after `A!` make a
      six-unit password, which meets every requirement. */
  lemma AstralPasswordIsStrong()
    ensures PasswordStrength("A!\U{1F600}\U{1F600}") == 3
  {
    Text.AstralCountsTwice();
    assert Text.IsUpper("A!\U{1F600}\U{1F600}"[0]);
    assert "A!\U{1F600}\U{1F600}"[1] in SpecialChars;
  }

  const Green: string := "#4ade80"
  const Yellow: string := "#facc15"
  const Red: string := "#ef4444"

  /** The colour of the strength bar. */
  function StrengthColor(strength: nat): string {
    if strength == 3 then Green else if strength == 2 then Yellow else Red
  }

  /** The bar is green exactly when every requirement is met, yellow exactly
      when two checks pass, and red exactly when at most one does. */
  lemma StrengthColorMeaning(password: string)
    ensures StrengthColor(PasswordStrength(password)) == Green <==> AllRequirementsMet(password)
    ensures StrengthColor(PasswordStrength(password)) == Yellow <==> PasswordStrength(password) == 2
    ensures StrengthColor(PasswordStrength(password)) == Red <==> PasswordStrength(password) <= 1
  {
  }

  /** The submit button is enabled (the negation of its `disabled` expression). */
  predicate SubmitEnabled(loading: bool, name: string, email: string, password: string, confirm: string) {
    !(loading || name == "" || email == "" || password == "" || password != confirm || !AllRequirementsMet(password))
  }

  /** An enabled button means a full-strength password, a matching confirmation
      and non-empty name and e-mail. */
  lemma SubmitEnabledMeaning(loading: bool, name: string, email: string, password: string, confirm: string)
    ensures SubmitEnabled(loading, name, email, password, confirm) <==>
      !loading && name != "" && email != "" && password == confirm && PasswordStrength(password) == 3
  {
  }

  /** The body of `POST /api/register`. */
  datatype Registration = Registration(name: string, email: string, password: string)

  /** What the register request came back with. */
  datatype RegisterReply =
    | RegisterOk(token: string, role: string, user: string)
    | RegisterRejected(text: string)
    | RegisterThrown

  const MismatchError: string := "Passwords do not match."
  const RejectedFallback: string := "Registration failed."
  const ConnectionError: string := "Connection failed."

  /** `errorText || "Registration failed."`. */
  function RejectionMessage(text: string): (r: string)
    ensures r != ""
    ensures text != "" ==> r == text
    ensures text == "" ==> r == "Registration failed."
  {
    if text != "" then text else RejectedFallback
  }

  /** The sign-up form's state. */
  class SignupForm {
    var name: string
    var email: string
    var phone: string
    var password: string
    var confirmPassword: string
    var loading: bool
    var error: string
    var storage: Session.Storage

    constructor (st: Session.Storage)
      ensures name == "" && email == "" && phone == "" && password == "" && confirmPassword == ""
      ensures !loading && error == "" && storage == st
    {
      name, email, phone, password, confirmPassword := "", "", "", "", "";
      loading, error, storage := false, "", st;
    }

    /** `handleRegister`, run to completion. `request` is the registration sent
        (none when the passwords differ); `route` is where the page navigates. */
    method HandleRegister(reply: RegisterReply) returns (request: Option<Registration>, route: Option<string>)
      modifies this`loading, this`error, this`storage
      ensures password != confirmPassword ==>
        && error == MismatchError && request == None && route == None
        && loading == old(loading) && storage == old(storage)
      ensures password == confirmPassword ==>
        && request == Some(Registration(name, email, password))
        && !loading
        && (reply.RegisterOk? ==>
              && storage == Session.WriteSession(old(storage), reply.token, reply.role, reply.user, email)
              && error == "" && route == Some("/client/dashboard"))
        && (reply.RegisterRejected? ==>
              error == RejectionMessage(reply.text) && storage == old(storage) && route == None)
        && (reply.RegisterThrown? ==>
              error == ConnectionError && storage == old(storage) && route == None)
    {
      request, route := None, None;
      if password != confirmPassword {
        error := MismatchError;
        return;
      }
      loading := true;
      error := "";
      request := Some(Registration(name, email, password));
      match reply {
        case RegisterOk(token, role, user) =>
          storage := Session.WriteSession(storage, token, role, user, email);
          route := Some("/client/dashboard");
        case RegisterRejected(text) =>
          error := RejectionMessage(text);
        case RegisterThrown =>
          error := ConnectionError;
      }
      loading := false;
    }
  }
}
