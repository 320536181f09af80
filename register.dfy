/**
 * The registration page (src/app/auth/register/page.tsx): the password
 * strength meter and the checks `handleSubmit` makes before it sends the
 * registration request, with the form's `error` and `isLoading` state.
 */
module Register {
  import opened Wrappers
  import opened Http

  /** What `getPasswordStrength` returns (`label` is a Dafny keyword, hence `labelText`). */
  datatype Strength = Strength(strength: nat, labelText: string, color: string)

  const NoStrength := Strength(0, "", "")
  const Weak := Strength(1, "Weak", "text-red-500")
  const Medium := Strength(2, "Medium", "text-yellow-500")
  const Strong := Strength(3, "Strong", "text-green-500")

  /** `/[A-Z]/.test(s)` */
  predicate HasUppercase(s: string) {
    exists i | 0 <= i < |s| :: 'A' <= s[i] <= 'Z'
  }

  /** `/[0-9]/.test(s)` */
  predicate HasDigit(s: string) {
    exists i | 0 <= i < |s| :: '0' <= s[i] <= '9'
  }

  function GetPasswordStrength(pass: string): (r: Strength)
    ensures r in {NoStrength, Weak, Medium, Strong}
    ensures r.strength <= 3
    ensures r.strength == 0 <==> pass == ""
    ensures r.strength == 3 ==> |pass| >= 10 && HasUppercase(pass) && HasDigit(pass)
  {
    if |pass| == 0 then NoStrength
    else if |pass| < 6 then Weak
    else if |pass| < 10 then Medium
    else if |pass| >= 10 && HasUppercase(pass) && HasDigit(pass) then Strong
    else Medium
  }

  /**
   * Up to nine characters only the length counts; from ten on, a password is
   * Strong exactly when it has an ASCII capital and an ASCII digit, and
   * Medium otherwise.
   */
  lemma StrengthClassification(pass: string)
    ensures 1 <= |pass| <= 5 ==> GetPasswordStrength(pass) == Weak
    ensures 6 <= |pass| <= 9 ==> GetPasswordStrength(pass) == Medium
    ensures |pass| >= 10 ==>
              GetPasswordStrength(pass) == (if HasUppercase(pass) && HasDigit(pass) then Strong else Medium)
  {
  }

  /** Two passwords of the same length under ten characters rate the same, whatever they contain. */
  lemma ShortPasswordsRateByLengthOnly(p: string, q: string)
    requires |p| == |q| < 10
    ensures GetPasswordStrength(p) == GetPasswordStrength(q)
  {
  }

  /** Typing more characters never lowers the rating. */
  lemma StrengthMonotone(p: string, more: string)
    ensures GetPasswordStrength(p).strength <= GetPasswordStrength(p + more).strength
  {
    if GetPasswordStrength(p) == Strong {
      var u :| 0 <= u < |p| && 'A' <= p[u] <= 'Z';
      var d :| 0 <= d < |p| && '0' <= p[d] <= '9';
      assert (p + more)[u] == p[u] && (p + more)[d] == p[d];
    }
  }

  const PasswordsDontMatch := "Passwords don't match"
  const PasswordTooShort := "Password must be at least 6 characters"
  const RegistrationFailed := "Registration failed"
  const SomethingWentWrong := "Something went wrong"

  /** The first pre-submit check that fails, in the order `handleSubmit` makes them. */
  function SubmitCheck(password: string, confirmPassword: string): (e: Option<string>)
    ensures e.None? <==> password == confirmPassword && |password| >= 6
    ensures password != confirmPassword ==> e == Some(PasswordsDontMatch)
    ensures password == confirmPassword && |password| < 6 ==> e == Some(PasswordTooShort)
  {
    if password != confirmPassword then Some(PasswordsDontMatch)
    else if |password| < 6 then Some(PasswordTooShort)
    else None
  }

  /** A password that passes the pre-submit checks is rated at least Medium. */
  lemma SubmittedPasswordAtLeastMedium(password: string, confirmPassword: string)
    requires SubmitCheck(password, confirmPassword).None?
    ensures GetPasswordStrength(password).strength >= 2
  {
  }

  /**
   * How the registration attempt after the checks ends: the server accepted
   * it and `signIn` resolved (ok or not), the server answered with an error
   * status and this message (`data.message`, "" when absent), or the
   * request, the body parsing or the sign-in threw.
   */
  datatype Attempt =
    | SignedUp(signInOk: bool)
    | ServerRejected(message: string)
    | Threw(cause: Thrown)

  /** The message `setError(error.message || "Something went wrong")` shows for a failed attempt. */
  function AttemptError(attempt: Attempt): (e: Option<string>)
    ensures e.None? <==> attempt.SignedUp?
    ensures e.Some? ==> e.value != ""
    ensures attempt.ServerRejected? ==>
              e == Some(if attempt.message == "" then RegistrationFailed else attempt.message)
    ensures attempt.Threw? && attempt.cause.ErrorObject? ==>
              e == Some(if attempt.cause.message == "" then SomethingWentWrong else attempt.cause.message)
    ensures attempt.Threw? && attempt.cause.OtherValue? ==> e == Some(SomethingWentWrong)
  {
    match attempt
    case SignedUp(_) => None
    case ServerRejected(m) => Some(if m == "" then RegistrationFailed else m)
    case Threw(ErrorObject(m)) => Some(if m == "" then SomethingWentWrong else m)
    case Threw(OtherValue) => Some(SomethingWentWrong)
  }

  /** One call of a state setter of the page. */
  datatype StateUpdate = ErrorSet(error: string) | LoadingSet(loading: bool)

  /** The error shown after a sequence of setter calls: the last value given to `setError`, else "". */
  function ShownError(log: seq<StateUpdate>): string {
    if log == [] then ""
    else match log[|log| - 1]
      case ErrorSet(v) => v
      case LoadingSet(_) => ShownError(log[..|log| - 1])
  }

  /** The loading flag after a sequence of setter calls: the last value given to `setIsLoading`, else false. */
  function ShownLoading(log: seq<StateUpdate>): bool {
    if log == [] then false
    else match log[|log| - 1]
      case LoadingSet(v) => v
      case ErrorSet(_) => ShownLoading(log[..|log| - 1])
  }

  /** The form state of the registration page. */
  class RegisterForm {
    var password: string
    var confirmPassword: string
    var error: string
    var isLoading: bool
    /** Every call of `setError` and `setIsLoading`, in order. */
    ghost var updates: seq<StateUpdate>

    /** The state shows what the setter calls so far leave shown. */
    ghost predicate Valid()
      reads this
    {
      error == ShownError(updates) && isLoading == ShownLoading(updates)
    }

    constructor ()
      ensures Valid()
      ensures password == "" && confirmPassword == "" && error == "" && !isLoading
      ensures updates == []
    {
      password, confirmPassword := "", "";
      error, isLoading := "", false;
      updates := [];
    }

    /** The password field's `onChange`. */
    method SetPassword(value: string)
      modifies this`password
      ensures password == value
    {
      password := value;
    }

    /** The confirm-password field's `onChange`. */
    method SetConfirmPassword(value: string)
      modifies this`confirmPassword
      ensures confirmPassword == value
    {
      confirmPassword := value;
    }

    method SetError(value: string)
      requires Valid()
      modifies this`error, this`updates
      ensures Valid()
      ensures updates == old(updates) + [ErrorSet(value)]
      ensures error == value
    {
      assert (updates + [ErrorSet(value)])[..|updates|] == updates;
      error := value;
      updates := updates + [ErrorSet(value)];
    }

    method SetIsLoading(value: bool)
      requires Valid()
      modifies this`isLoading, this`updates
      ensures Valid()
      ensures updates == old(updates) + [LoadingSet(value)]
      ensures isLoading == value
    {
      assert (updates + [LoadingSet(value)])[..|updates|] == updates;
      isLoading := value;
      updates := updates + [LoadingSet(value)];
    }

    /**
     * `handleSubmit`. The error is cleared first; a failed check shows its
     * message and returns before any request and without touching
     * `isLoading`; otherwise loading is switched on for the request, a
     * failed attempt's message is shown, and loading is switched off last
     * however the attempt ends. Returns whether the request was sent and
     * whether the page navigates to the tournament list.
     */
    method HandleSubmit(attempt: Attempt) returns (requested: bool, navigated: bool)
      requires Valid()
      modifies this`error, this`isLoading, this`updates
      ensures Valid()
      ensures requested <==> SubmitCheck(password, confirmPassword).None?
      ensures !requested ==>
                updates == old(updates) + [ErrorSet(""), ErrorSet(SubmitCheck(password, confirmPassword).value)]
      ensures requested ==>
                && updates == old(updates) + [ErrorSet(""), LoadingSet(true)] +
                     (if AttemptError(attempt).Some? then [ErrorSet(AttemptError(attempt).value)] else []) +
                     [LoadingSet(false)]
                && !isLoading
      ensures error == if requested then AttemptError(attempt).GetOr("") else SubmitCheck(password, confirmPassword).value
      ensures !requested ==> isLoading == old(isLoading)
      ensures navigated <==> requested && attempt == SignedUp(true)
    {
      navigated := false;
      SetError("");
      if password != confirmPassword {
        SetError(PasswordsDontMatch);
        return false, false;
      }
      if |password| < 6 {
        SetError(PasswordTooShort);
        return false, false;
      }
      requested := true;
      SetIsLoading(true);
      match attempt {
        case SignedUp(ok) =>
          navigated := ok;
        case _ =>
          SetError(AttemptError(attempt).value);
      }
      SetIsLoading(false);
    }

    /**
     * `handleSocialLogin`. Loading is switched on before the external
     * sign-in, with no pre-submit check, and nothing switches it off again.
     */
    method HandleSocialLogin()
      requires Valid()
      modifies this`isLoading, this`updates
      ensures Valid()
      ensures updates == old(updates) + [LoadingSet(true)]
      ensures isLoading && error == old(error)
    {
      SetIsLoading(true);
    }
  }
}
