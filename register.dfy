/** The sign-up form (`src/pages/auth/Register.tsx`): the password rules
    with their messages and checklist, the mismatch message of the retype
    field, when the submit button is enabled, and what a submission does. */
module Register {
  import opened Basics
  import opened Store

  predicate IsNotAlnum(c: char) {
    !IsAlnum(c)
  }

  /** The four rules of the checklist, in order. */
  datatype Rule = MinLength | Capital | Number | Special

  const Rules := [MinLength, Capital, Number, Special]

  /** Whether a password meets one rule (`passwordChecks[k].valid`). The
      length is JavaScript's, in UTF-16 code units. */
  predicate Meets(p: string, r: Rule) {
    match r
    case MinLength => Utf16Length(p) >= 6
    case Capital => HasChar(p, IsUpper)
    case Number => HasChar(p, IsDigit)
    case Special => HasChar(p, IsNotAlnum)
  }

  function Message(r: Rule): string {
    match r
    case MinLength => "Password must be at least 6 characters."
    case Capital => "Password must contain at least one capital letter."
    case Number => "Password must contain at least one number."
    case Special => "Password must contain at least one special character."
  }

  /** `validatePassword`: the message of the first rule broken, or '' when
      all four hold. */
  function ValidatePassword(p: string): (msg: string)
    ensures msg == "" <==> Meets(p, MinLength) && Meets(p, Capital) && Meets(p, Number) && Meets(p, Special)
    ensures msg == Message(MinLength) <==> !Meets(p, MinLength)
    ensures msg == Message(Capital) <==> Meets(p, MinLength) && !Meets(p, Capital)
    ensures msg == Message(Number) <==> Meets(p, MinLength) && Meets(p, Capital) && !Meets(p, Number)
    ensures msg == Message(Special) <==> Meets(p, MinLength) && Meets(p, Capital) && Meets(p, Number) && !Meets(p, Special)
  {
    if Utf16Length(p) < 6 then Message(MinLength)
    else if !HasChar(p, IsUpper) then Message(Capital)
    else if !HasChar(p, IsDigit) then Message(Number)
    else if !HasChar(p, IsNotAlnum) then Message(Special)
    else ""
  }

  /** The checklist shown under the password field: one line per rule,
      ticked when the rule holds. */
  function Checklist(p: string): (ticks: seq<bool>)
    ensures |ticks| == 4
    ensures ticks[0] == Meets(p, MinLength) && ticks[1] == Meets(p, Capital)
    ensures ticks[2] == Meets(p, Number) && ticks[3] == Meets(p, Special)
  {
    [Utf16Length(p) >= 6, HasChar(p, IsUpper), HasChar(p, IsDigit), HasChar(p, IsNotAlnum)]
  }

  /** The length rule counts code units, not characters: four characters,
      two of them emoji, make a password long enough. */
  lemma {:induction false} EmojiCountTwice()
    ensures var p := "A1\U{1F600}\U{1F600}";
            |p| == 4 && Meets(p, MinLength) && Checklist(p)[0]
  {
    var p := "A1\U{1F600}\U{1F600}";
    assert Utf16Length(p[3..]) == 2;
    assert Utf16Length(p[2..]) == 2 + Utf16Length(p[3..]);
    assert Utf16Length(p[1..]) == 1 + Utf16Length(p[2..]);
  }

  /** The error message is empty exactly when every line of the checklist is
      ticked, and otherwise names the first unticked line. */
  lemma {:induction false} MessageMatchesChecklist(p: string)
    ensures ValidatePassword(p) == "" <==> forall k :: 0 <= k < 4 ==> Checklist(p)[k]
    ensures ValidatePassword(p) != "" ==>
              exists k :: 0 <= k < 4 && !Checklist(p)[k] && (forall j :: 0 <= j < k ==> Checklist(p)[j])
                          && ValidatePassword(p) == Message(Rules[k])
  {
    var ticks := Checklist(p);
    var msg := ValidatePassword(p);
    if !ticks[0] {
      assert msg == Message(Rules[0]);
    } else if !ticks[1] {
      assert msg == Message(Rules[1]);
    } else if !ticks[2] {
      assert msg == Message(Rules[2]);
    } else if !ticks[3] {
      assert msg == Message(Rules[3]) && forall j :: 0 <= j < 3 ==> ticks[j];
    }
  }

  // ---------------------------------------------------------------------
  // Form state

  const MismatchMessage := "Passwords do not match."

  datatype Form = Form(password: string, retype: string, passwordError: string, retypeError: string)

  const EmptyForm := Form("", "", "", "")

  /** `handlePasswordChange`: the password's error is recomputed; the
      mismatch message is set only when the retype field is non-empty and
      differs, and cleared otherwise. */
  function EditPassword(f: Form, v: string): (g: Form)
    ensures g.password == v && g.retype == f.retype
    ensures g.passwordError == ValidatePassword(v)
    ensures g.retypeError == MismatchMessage <==> f.retype != "" && v != f.retype
    ensures g.retypeError != MismatchMessage ==> g.retypeError == ""
  {
    Form(v, f.retype, ValidatePassword(v), if f.retype != "" && v != f.retype then MismatchMessage else "")
  }

  /** `handleRetypeChange`: the mismatch message is set whenever the two
      fields differ, and cleared otherwise. */
  function EditRetype(f: Form, v: string): (g: Form)
    ensures g.retype == v && g.password == f.password && g.passwordError == f.passwordError
    ensures g.retypeError == MismatchMessage <==> f.password != v
    ensures g.retypeError != MismatchMessage ==> g.retypeError == ""
  {
    Form(f.password, v, f.passwordError, if f.password != v then MismatchMessage else "")
  }

  /** `isFormInvalid`. */
  predicate FormInvalid(f: Form) {
    f.passwordError != "" || f.retypeError != "" || f.password == "" || f.retype == "" || f.password != f.retype
  }

  /** What every edit keeps true: the password error belongs to the current
      password (or, before the first edit, is empty along with it), and a
      mismatch message is shown only when the fields differ. */
  predicate Consistent(f: Form) {
    (f.passwordError == ValidatePassword(f.password) || (f.password == "" && f.passwordError == ""))
    && (f.retypeError != "" ==> f.password != f.retype)
  }

  lemma {:induction false} EditsKeepConsistent(f: Form, v: string)
    requires Consistent(f)
    ensures Consistent(EditPassword(f, v)) && Consistent(EditRetype(f, v))
  {
  }

  lemma EmptyFormConsistent()
    ensures Consistent(EmptyForm) && FormInvalid(EmptyForm)
  {
  }

  /** On a form reached by edits, the form is valid exactly when the two
      fields are equal and non-empty and the password meets all four rules:
      a stale mismatch message can never block a good form. */
  lemma {:induction false} ValidFormMeansGoodPassword(f: Form)
    requires Consistent(f)
    ensures !FormInvalid(f) <==>
              f.password != "" && f.password == f.retype
              && Meets(f.password, MinLength) && Meets(f.password, Capital)
              && Meets(f.password, Number) && Meets(f.password, Special)
  {
  }

  // ---------------------------------------------------------------------
  // Submission

  /** The submit button is enabled only while nothing is loading and the
      form is valid. */
  predicate SubmitEnabled(f: Form, loading: bool) {
    !loading && !FormInvalid(f)
  }

  /** While the form is consistent, an enabled submit button means the two
      password fields agree and the password breaks none of the rules. */
  lemma {:induction false} SubmitMeansGoodPassword(f: Form, loading: bool)
    requires Consistent(f) && SubmitEnabled(f, loading)
    ensures ValidatePassword(f.password) == "" && f.password == f.retype && f.password != ""
  {
    ValidFormMeansGoodPassword(f);
  }

  datatype SubmitOutcome =
    | CaptchaMissing                 // "Please verify that you are not a robot."
    | RegisterFailed(message: string)
    | Registered(dashboard: string)

  /** `handleSubmit`: without a reCAPTCHA token nothing is sent; otherwise
      the registration's error is shown, or the user is taken to the
      dashboard of the chosen role. The registration service is a
      parameter: `result` is the message of its error, if any. */
  function Submit(token: Option<string>, role: Role, result: Option<string>): (o: SubmitOutcome)
    ensures o == CaptchaMissing <==> token.None?
    ensures o.Registered? <==> token.Some? && result.None?
    ensures o.Registered? ==> o.dashboard == (if role == Farmer then "/farmer/dashboard" else "/retailer/dashboard")
  {
    if token.None? then CaptchaMissing
    else if result.Some? then RegisterFailed(result.value)
    else Registered(if role == Farmer then "/farmer/dashboard" else "/retailer/dashboard")
  }

  /** Without a token the registration is never reached: the outcome does
      not depend on what it would have answered. */
  lemma {:induction false} CaptchaGuardsRegister(role: Role, r1: Option<string>, r2: Option<string>)
    ensures Submit(None, role, r1) == Submit(None, role, r2) == CaptchaMissing
  {
  }
}
