/** The password part of the profile page (`src/pages/Profile.tsx`): the
    strength meter shown while typing, the policy a new password must meet,
    and the checks of the change-password form, in the order it makes them,
    before and after the calls to the authentication service. */
module Profile {
  import opened Basics

  /** `[@$!%*?&]` */
  predicate IsSpecial(c: char) {
    c == '@' || c == '$' || c == '!' || c == '%' || c == '*' || c == '?' || c == '&'
  }

  /** `[a-zA-Z\d@$!%*?&]`: the characters the policy admits. */
  predicate InPasswordClass(c: char) {
    IsAlnum(c) || IsSpecial(c)
  }

  // ---------------------------------------------------------------------
  // Strength meter

  function Point(b: bool): nat {
    if b then 1 else 0
  }

  /** One point for each criterion met: at least 8 characters (UTF-16 code
      units, as `password.length` counts them), a lower-case
      letter, an upper-case letter, a digit, one of `@$!%*?&`. */
  function Score(p: string): (n: nat)
    ensures n <= 5
    ensures n == 5 <==> Utf16Length(p) >= 8 && HasChar(p, IsLower) && HasChar(p, IsUpper) && HasChar(p, IsDigit) && HasChar(p, IsSpecial)
    ensures n == 0 <==> Utf16Length(p) < 8 && !HasChar(p, IsLower) && !HasChar(p, IsUpper) && !HasChar(p, IsDigit) && !HasChar(p, IsSpecial)
  {
    Point(Utf16Length(p) >= 8) + Point(HasChar(p, IsLower)) + Point(HasChar(p, IsUpper))
    + Point(HasChar(p, IsDigit)) + Point(HasChar(p, IsSpecial))
  }

  datatype Strength = Strength(score: nat, text: string)

  /** The label for a score. */
  function StrengthLabel(score: nat): (l: string)
    ensures l == "Very Weak" <==> score <= 1
    ensures l == "Weak" <==> score == 2
    ensures l == "Fair" <==> score == 3
    ensures l == "Good" <==> score == 4
    ensures l == "Strong" <==> score >= 5
  {
    if score <= 1 then "Very Weak"
    else if score <= 2 then "Weak"
    else if score <= 3 then "Fair"
    else if score <= 4 then "Good"
    else "Strong"
  }

  /** `getPasswordStrength`: nothing for an empty password, otherwise the
      score and its label. */
  function PasswordStrength(p: string): (s: Strength)
    ensures s.score <= 5
    ensures s.text == "" <==> p == ""
    ensures p == "" ==> s.score == 0
    ensures p != "" ==> s.score == Score(p) && s.text == StrengthLabel(s.score)
  {
    if p == "" then Strength(0, "")
    else Strength(Score(p), StrengthLabel(Score(p)))
  }

  // ---------------------------------------------------------------------
  // Password policy

  /** The policy the change-password regular expression states: at least 8
      characters, all from the admitted class, with a lower-case letter, an
      upper-case letter and a digit somewhere. */
  predicate MeetsPolicy(p: string) {
    |p| >= 8
    && (forall i :: 0 <= i < |p| ==> InPasswordClass(p[i]))
    && HasChar(p, IsLower) && HasChar(p, IsUpper) && HasChar(p, IsDigit)
  }

  /** What the scan has seen so far: the three look-aheads of the regular
      expression. */
  datatype Seen = Seen(lower: bool, upper: bool, digit: bool)

  function Note(seen: Seen, c: char): Seen {
    Seen(seen.lower || IsLower(c), seen.upper || IsUpper(c), seen.digit || IsDigit(c))
  }

  /** One left-to-right pass over `p[i..]`: fail on a character outside the
      class, and at the end require the three kinds to have been seen. */
  function Scan(p: string, i: nat, seen: Seen): bool
    requires i <= |p|
    decreases |p| - i
  {
    if i == |p| then seen.lower && seen.upper && seen.digit
    else InPasswordClass(p[i]) && Scan(p, i + 1, Note(seen, p[i]))
  }

  lemma {:induction false} ScanMeaning(p: string, i: nat, seen: Seen)
    requires i <= |p|
    ensures Scan(p, i, seen) <==>
              (forall j :: i <= j < |p| ==> InPasswordClass(p[j]))
              && (seen.lower || exists j :: i <= j < |p| && IsLower(p[j]))
              && (seen.upper || exists j :: i <= j < |p| && IsUpper(p[j]))
              && (seen.digit || exists j :: i <= j < |p| && IsDigit(p[j]))
    decreases |p| - i
  {
    if i < |p| {
      ScanMeaning(p, i + 1, Note(seen, p[i]));
    }
  }

  /** `validatePassword`: the regular-expression test, as one pass over
      the password. */
  function ValidatePassword(p: string): (ok: bool)
    ensures ok <==> MeetsPolicy(p)
  {
    ScanMeaning(p, 0, Seen(false, false, false));
    |p| >= 8 && Scan(p, 0, Seen(false, false, false))
  }

  /** A password the policy admits scores at least 4 on the meter, so the
      meter calls it "Good" or "Strong". */
  lemma {:induction false} PolicyMeansGood(p: string)
    requires ValidatePassword(p)
    ensures PasswordStrength(p).score >= 4
    ensures PasswordStrength(p).text == "Good" || PasswordStrength(p).text == "Strong"
  {
    assert p != "";
  }

  /** The meter and the policy disagree: a password may score 5, "Strong",
      and still be refused because it holds a character outside the class. */
  lemma StrongButRefused()
    ensures var p := "Abcdef1@#";
            PasswordStrength(p).text == "Strong" && !ValidatePassword(p)
  {
    var p := "Abcdef1@#";
    assert IsLower(p[1]) && IsUpper(p[0]) && IsDigit(p[6]) && IsSpecial(p[7]);
    assert !InPasswordClass(p[8]);
  }

  // ---------------------------------------------------------------------
  // Change-password form

  datatype PasswordForm = PasswordForm(oldPassword: string, newPassword: string, confirmPassword: string)

  /** The form's own checks, each with its message. */
  datatype FormError =
    | MissingField   // "Please fill in all password fields"
    | Mismatch       // "New passwords do not match"
    | TooWeak        // "Password must be at least 8 characters with uppercase, lowercase, and number"
    | SameAsOld      // "New password must be different from old password"

  /** The checks made before any call, in order; `None` when all pass. */
  function FormCheck(f: PasswordForm): (r: Option<FormError>)
    ensures r == Some(MissingField) <==> f.oldPassword == "" || f.newPassword == "" || f.confirmPassword == ""
    ensures r == Some(Mismatch) <==> r != Some(MissingField) && f.newPassword != f.confirmPassword
    ensures r == Some(TooWeak) <==> r != Some(MissingField) && f.newPassword == f.confirmPassword
                                    && !MeetsPolicy(f.newPassword)
    ensures r.None? <==> f.oldPassword != "" && f.newPassword == f.confirmPassword
                         && MeetsPolicy(f.newPassword) && f.oldPassword != f.newPassword
  {
    if f.oldPassword == "" || f.newPassword == "" || f.confirmPassword == "" then Some(MissingField)
    else if f.newPassword != f.confirmPassword then Some(Mismatch)
    else if !ValidatePassword(f.newPassword) then Some(TooWeak)
    else if f.oldPassword == f.newPassword then Some(SameAsOld)
    else None
  }

  /** The error codes of the authentication service the page tells apart. */
  datatype AuthResult = AuthOk | WrongPassword | WeakPassword | OtherAuthError

  /** How a submission ends. */
  datatype ChangeOutcome =
    | Refused(error: FormError)
    | NotAuthenticated        // "User not authenticated": no signed-in user with an email
    | CurrentPasswordIncorrect
    | NewPasswordTooWeak
    | ChangeFailed
    | Changed                 // the form is cleared and closed

  function FailureOf(r: AuthResult): (o: ChangeOutcome)
    requires r != AuthOk
    ensures o != Changed && !o.Refused? && o != NotAuthenticated
  {
    match r
    case WrongPassword => CurrentPasswordIncorrect
    case WeakPassword => NewPasswordTooWeak
    case OtherAuthError => ChangeFailed
  }

  /** `handleChangePassword`: the form's checks, then the signed-in user,
      then re-authentication with the old password, then the update. The
      authentication service is a parameter: `signedIn` says whether there
      is a current user with an email, `reauth` and `update` what the two
      calls answer. */
  function ChangePassword(f: PasswordForm, signedIn: bool, reauth: AuthResult, update: AuthResult): (o: ChangeOutcome)
    ensures o.Refused? <==> FormCheck(f).Some?
    ensures o.Refused? ==> o.error == FormCheck(f).value
    ensures o == NotAuthenticated <==> FormCheck(f).None? && !signedIn
    ensures o == Changed <==> FormCheck(f).None? && signedIn && reauth == AuthOk && update == AuthOk
  {
    match FormCheck(f)
    case Some(e) => Refused(e)
    case None =>
      if !signedIn then NotAuthenticated
      else if reauth != AuthOk then FailureOf(reauth)
      else if update != AuthOk then FailureOf(update)
      else Changed
  }

  /** A changed password met the policy, differs from the old one, and so
      rates "Good" or better. */
  lemma {:induction false} ChangedMeansPolicy(f: PasswordForm, signedIn: bool, reauth: AuthResult, update: AuthResult)
    requires ChangePassword(f, signedIn, reauth, update) == Changed
    ensures MeetsPolicy(f.newPassword) && f.newPassword != f.oldPassword
    ensures PasswordStrength(f.newPassword).score >= 4
  {
    PolicyMeansGood(f.newPassword);
  }

  /** A failed re-authentication stops the submission before the update:
      whatever the update would answer, the outcome is the same. */
  lemma {:induction false} ReauthGuardsUpdate(f: PasswordForm, reauth: AuthResult, u1: AuthResult, u2: AuthResult)
    requires reauth != AuthOk
    ensures ChangePassword(f, true, reauth, u1) == ChangePassword(f, true, reauth, u2)
  {
  }
}
