/** The one-time-password backend (`otp-backend/index.js`): an in-memory map
    from e-mail address to the code last issued for it, with the request,
    verify and reset-password endpoints, the periodic sweep of expired codes,
    and the pure helpers of the server (private-key normalisation, the e-mail
    pattern, the input checks of the order endpoint).

    Time is the `now` parameter (milliseconds). The code's random draw, the
    mail transport and the identity provider are parameters of the handlers
    that use them. */
module Otp {
  import opened Basics

  const OtpTtl: int := 10 * 60 * 1000
  const MaxRequestsPerWindow: nat := 5
  const MaxVerifyAttempts: nat := 6
  /** The sliding window of the request limit. */
  const RequestWindow: int := 10 * 60 * 1000

  /** An HTTP reply: its status code, the `success` flag of its body and the
      body's `error` text (`""` when there is none). */
  datatype Reply = Reply(status: nat, success: bool, error: string)

  const Ok := Reply(200, true, "")

  // ---------------------------------------------------------------------
  // The e-mail pattern `^[^@]+@[^@]+\.[^@]+$`

  predicate NoAt(s: string) {
    forall i :: 0 <= i < |s| ==> s[i] != '@'
  }

  /** The pattern read as a regular expression: `s` splits at an `@` at `i`
      and a `.` at `j` into three non-empty parts free of `@`. */
  ghost predicate MatchesEmailPattern(s: string) {
    exists i, j :: 0 < i && i + 1 < j && j + 1 < |s| && s[i] == '@' && s[j] == '.'
                   && NoAt(s[..i]) && NoAt(s[i + 1..j]) && NoAt(s[j + 1..])
  }

  /** Index of the first `c` in `s`. */
  function IndexOf(s: string, c: char): (r: Option<nat>)
    ensures r.None? ==> forall k :: 0 <= k < |s| ==> s[k] != c
    ensures r.Some? ==> r.value < |s| && s[r.value] == c && forall k :: 0 <= k < r.value ==> s[k] != c
  {
    if s == [] then None
    else if s[0] == c then Some(0)
    else
      var r := IndexOf(s[1..], c);
      if r.None? then None else Some(r.value + 1)
  }

  /** Some `.` of `s` is neither its first nor its last character. */
  predicate HasInnerDot(s: string) {
    exists j :: 0 < j < |s| - 1 && s[j] == '.'
  }

  /** The pattern decided in one pass: exactly one `@`, not first, and after
      it a `.` with something on each side. */
  predicate ValidEmail(s: string) {
    match IndexOf(s, '@')
    case None => false
    case Some(i) => 0 < i && NoAt(s[i + 1..]) && HasInnerDot(s[i + 1..])
  }

  /** The one-pass check accepts exactly the strings the pattern matches. */
  lemma ValidEmailIsPattern(s: string)
    ensures ValidEmail(s) <==> MatchesEmailPattern(s)
  {
    if ValidEmail(s) {
      ValidEmailMatches(s);
    }
    if MatchesEmailPattern(s) {
      var i, j :| 0 < i && i + 1 < j && j + 1 < |s| && s[i] == '@' && s[j] == '.'
                  && NoAt(s[..i]) && NoAt(s[i + 1..j]) && NoAt(s[j + 1..]);
      PatternIsValidEmail(s, i, j);
    }
  }

  lemma ValidEmailMatches(s: string)
    requires ValidEmail(s)
    ensures MatchesEmailPattern(s)
  {
    var i := IndexOf(s, '@').value;
    var rest := s[i + 1..];
    var j' :| 0 < j' < |rest| - 1 && rest[j'] == '.';
    var j := i + 1 + j';
    assert s[i + 1..j] == rest[..j'];
    assert s[j + 1..] == rest[j' + 1..];
    assert NoAt(s[..i]);
    assert 0 < i && i + 1 < j && j + 1 < |s| && s[i] == '@' && s[j] == '.';
  }

  lemma PatternIsValidEmail(s: string, i: int, j: int)
    requires 0 < i && i + 1 < j && j + 1 < |s| && s[i] == '@' && s[j] == '.'
    requires NoAt(s[..i]) && NoAt(s[i + 1..j]) && NoAt(s[j + 1..])
    ensures ValidEmail(s)
  {
    assert forall k :: 0 <= k < i ==> s[..i][k] == s[k];
    assert IndexOf(s, '@') == Some(i);
    var rest := s[i + 1..];
    assert rest[j - i - 1] == '.';
    forall k | 0 <= k < |rest|
      ensures rest[k] != '@'
    {
      if k < j - i - 1 {
        assert rest[k] == s[i + 1..j][k];
      } else if k > j - i - 1 {
        assert rest[k] == s[j + 1..][k - (j - i)];
      }
    }
  }

  /** Strings without `@` (such as `undefined`, the key a missing address
      is looked up under) are never valid addresses. */
  lemma NoAtIsNoEmail(s: string)
    requires NoAt(s)
    ensures !ValidEmail(s)
  {
  }

  // ---------------------------------------------------------------------
  // normalizePrivateKey

  /** The line terminators, which `.` in a JavaScript pattern does not match. */
  predicate IsLineTerminator(c: char) {
    c == '\n' || c == '\r' || c == '\U{2028}' || c == '\U{2029}'
  }

  /** `s.replace(/^"(.*)"$/, '$1')`: one enclosing pair of double quotes is
      removed when what they enclose holds no line terminator. */
  function StripQuotes(s: string): (r: string)
    ensures |r| <= |s|
  {
    if |s| >= 2 && s[0] == '"' && s[|s| - 1] == '"'
       && forall k :: 1 <= k < |s| - 1 ==> !IsLineTerminator(s[k])
    then s[1..|s| - 1]
    else s
  }

  /** `s` holds a backslash followed by `n` at `i`. */
  predicate EscapeAt(s: string, i: int) {
    0 <= i && i + 1 < |s| && s[i] == '\\' && s[i + 1] == 'n'
  }

  /** `s.replace(/\\n/g, '\n')`: every backslash-n pair, scanning from the
      left, becomes a newline. */
  function UnescapeNewlines(s: string): string {
    if |s| < 2 then s
    else if EscapeAt(s, 0) then "\n" + UnescapeNewlines(s[2..])
    else [s[0]] + UnescapeNewlines(s[1..])
  }

  /** The rewrite leaves no backslash-n pair behind, and a first character
      other than a backslash stays first. */
  lemma {:induction false} UnescapeLeavesNoEscape(s: string)
    ensures forall i :: !EscapeAt(UnescapeNewlines(s), i)
    ensures |s| > 0 && s[0] != '\\' ==> |UnescapeNewlines(s)| > 0 && UnescapeNewlines(s)[0] == s[0]
  {
    if |s| >= 2 {
      if EscapeAt(s, 0) {
        UnescapeLeavesNoEscape(s[2..]);
        var r := UnescapeNewlines(s[2..]);
        assert UnescapeNewlines(s) == "\n" + r;
        forall i
          ensures !EscapeAt(UnescapeNewlines(s), i)
        {
          if i > 0 {
            assert EscapeAt(UnescapeNewlines(s), i) ==> EscapeAt(r, i - 1);
          }
        }
      } else {
        UnescapeLeavesNoEscape(s[1..]);
        var r := UnescapeNewlines(s[1..]);
        assert UnescapeNewlines(s) == [s[0]] + r;
        forall i
          ensures !EscapeAt(UnescapeNewlines(s), i)
        {
          if i > 0 {
            assert EscapeAt(UnescapeNewlines(s), i) ==> EscapeAt(r, i - 1);
          } else if i == 0 && s[0] == '\\' {
            // `s[1]` is not `n`, and it heads the rest's rewrite unless it is a backslash.
            if s[1] != '\\' {
              assert |r| > 0 && r[0] == s[1];
            } else if |r| > 0 {
              assert r[0] == '\\' || r[0] == '\n' by {
                if |s[1..]| >= 2 && EscapeAt(s[1..], 0) {
                } else {
                  assert r[0] == s[1];
                }
              }
            }
          }
        }
      }
    }
  }

  /** A string without backslashes comes through unchanged. */
  lemma {:induction false} UnescapeWithoutBackslash(s: string)
    requires forall k :: 0 <= k < |s| ==> s[k] != '\\'
    ensures UnescapeNewlines(s) == s
  {
    if |s| >= 2 {
      UnescapeWithoutBackslash(s[1..]);
      assert s == [s[0]] + s[1..];
    }
  }

  /** `normalizePrivateKey(pk)`; `None` stands for an unset variable. */
  function NormalizePrivateKey(pk: Option<string>): string {
    if pk.None? || pk.value == "" then "" else UnescapeNewlines(StripQuotes(pk.value))
  }

  /** An unset or empty key normalises to the empty string; otherwise the
      result holds no backslash-n pair, and a key that is neither quoted nor
      escaped is returned as it is. */
  lemma NormalizePrivateKeySpec(pk: Option<string>)
    ensures pk.None? || pk.value == "" ==> NormalizePrivateKey(pk) == ""
    ensures forall i :: !EscapeAt(NormalizePrivateKey(pk), i)
    ensures (pk.Some? && pk.value != [] && pk.value[0] != '"' && forall k :: 0 <= k < |pk.value| ==> pk.value[k] != '\\') ==>
      NormalizePrivateKey(pk) == pk.value
  {
    if pk.Some? && pk.value != "" {
      UnescapeLeavesNoEscape(StripQuotes(pk.value));
      if pk.value[0] != '"' && forall k :: 0 <= k < |pk.value| ==> pk.value[k] != '\\' {
        UnescapeWithoutBackslash(pk.value);
      }
    }
  }

  /** A quoted key loses exactly its enclosing quotes. */
  lemma NormalizeQuotedKey(body: string)
    requires forall k :: 0 <= k < |body| ==> body[k] != '\\' && !IsLineTerminator(body[k])
    ensures NormalizePrivateKey(Some("\"" + body + "\"")) == body
  {
    var s := "\"" + body + "\"";
    assert s[1..|s| - 1] == body;
    UnescapeWithoutBackslash(body);
  }

  // ---------------------------------------------------------------------
  // Codes

  /** The range `Math.floor(100000 + Math.random() * 900000)` draws from. */
  predicate InOtpRange(n: int) {
    100000 <= n <= 999999
  }

  /** Six decimal digits, the first not `0`. */
  predicate IsOtpCode(code: string) {
    |code| == 6 && (forall k :: 0 <= k < |code| ==> IsDigit(code[k])) && code[0] != '0'
  }

  /** The codes are exactly the decimal numerals of the numbers in the range. */
  lemma OtpCodeIsDraw(code: string)
    ensures IsOtpCode(code) <==> exists n: nat :: InOtpRange(n) && code == Digits(n)
  {
    if IsOtpCode(code) {
      var n := DigitsValue(code);
      DigitsValueBounds(code);
      assert Pow10(5) == 100000 && Pow10(6) == 1000000;
      DigitsOfValue(code);
      assert InOtpRange(n) && code == Digits(n);
    }
    if exists n: nat :: InOtpRange(n) && code == Digits(n) {
      var n: nat :| InOtpRange(n) && code == Digits(n);
      SixDigits(n);
    }
  }

  /** `generateOtp()`: a draw from the range, rendered in decimal. The draw
      is a free choice here. */
  method GenerateOtp() returns (code: string)
    ensures exists n: nat :: InOtpRange(n) && code == Digits(n)
    ensures IsOtpCode(code)
  {
    var n: nat :| 100000 <= n <= 999999;
    SixDigits(n);
    code := Digits(n);
  }

  // ---------------------------------------------------------------------
  // The code store

  /** What the server remembers for an address. */
  datatype OtpRecord = OtpRecord(otp: string, expires: int, attempts: nat, history: seq<int>, verified: bool)

  /** The request times of `history` that lie within the window before `now`. */
  function Recent(history: seq<int>, now: int): (r: seq<int>)
    ensures |r| <= |history|
    ensures forall k :: 0 <= k < |r| ==> now - r[k] < RequestWindow && r[k] in history
    ensures forall k :: 0 <= k < |history| && now - history[k] < RequestWindow ==> history[k] in r
  {
    FilterMembers(history, (ts: int) => now - ts < RequestWindow);
    Filter(history, (ts: int) => now - ts < RequestWindow)
  }

  /** What the identity provider answers a password reset. */
  datatype AccountUpdate = NoSuchUser | UpdateFailed | Updated

  /** Each stored record is keyed by a valid address, holds a code, and has
      seen no more requests within its window and no more checks than the
      limits allow. */
  ghost predicate WellFormed(otps: map<string, OtpRecord>) {
    && (forall e :: e in otps ==> ValidEmail(e))
    && (forall e :: e in otps ==> Sound(otps[e]))
  }

  predicate Sound(rec: OtpRecord) {
    && IsOtpCode(rec.otp)
    && |rec.history| <= MaxRequestsPerWindow
    && rec.attempts <= MaxVerifyAttempts
  }

  lemma WellFormedPut(otps: map<string, OtpRecord>, e: string, rec: OtpRecord)
    requires WellFormed(otps) && ValidEmail(e) && Sound(rec)
    ensures WellFormed(otps[e := rec])
  {
  }

  lemma WellFormedDelete(otps: map<string, OtpRecord>, e: string)
    requires WellFormed(otps)
    ensures WellFormed(otps - {e})
  {
  }

  /** The records the sweep keeps. */
  function Unexpired(otps: map<string, OtpRecord>, now: int): (r: map<string, OtpRecord>)
  {
    map e | e in otps && now <= otps[e].expires :: otps[e]
  }

  /** The sweep removes exactly the expired records and keeps the others
      as they were. */
  lemma UnexpiredSpec(otps: map<string, OtpRecord>, now: int)
    ensures forall e :: e in Unexpired(otps, now) <==> e in otps && !(now > otps[e].expires)
    ensures forall e :: e in Unexpired(otps, now) ==> Unexpired(otps, now)[e] == otps[e]
    ensures WellFormed(otps) ==> WellFormed(Unexpired(otps, now))
  {
  }

  /** The loop of the sweep: the keys are visited one at a time, and each
      whose record expired before `now` is deleted. */
  method DropExpired(otps: map<string, OtpRecord>, now: int) returns (kept: map<string, OtpRecord>)
    ensures kept == Unexpired(otps, now)
  {
    kept := otps;
    var keys := otps.Keys;
    while keys != {}
      invariant keys <= otps.Keys
      invariant forall e :: e in kept <==> e in otps && (e in keys || now <= otps[e].expires)
      invariant forall e :: e in kept ==> kept[e] == otps[e]
      decreases |keys|
    {
      var e :| e in keys;
      if now > kept[e].expires {
        kept := kept - {e};
      }
      keys := keys - {e};
    }
  }

  /** A request without an address looks up the key `undefined`, under
      which nothing is ever stored. */
  lemma UndefinedHasNoRecord(otps: map<string, OtpRecord>)
    requires WellFormed(otps)
    ensures "undefined" !in otps
  {
    NoAtIsNoEmail("undefined");
  }

  // ---------------------------------------------------------------------
  // Looking an address up in the object literal `otps`

  /** What `otps[email]` yields: a stored record, a member the object
      inherits from `Object.prototype` (truthy, but with no code, expiry or
      attempt count), or `undefined`. */
  datatype Lookup = Stored(rec: OtpRecord) | Inherited | Absent

  function LookUp(otps: map<string, OtpRecord>, email: string): Lookup {
    if email in otps then Stored(otps[email])
    else if email in InheritedNames then Inherited
    else Absent
  }

  /** The reply `/verify-otp` is meant to give, reading only the records
      the server stored: success exactly for the stored, unexpired code of
      an address checked fewer than six times before. */
  function VerifyReply(otps: map<string, OtpRecord>, email: string, otp: Option<string>, now: int): (r: Reply)
    ensures r.success <==>
      && email in otps && !(now > otps[email].expires) && otps[email].attempts < MaxVerifyAttempts
      && otp == Some(otps[email].otp)
    ensures r.success ==> r == Ok
    ensures !r.success ==> r.status == 200 && r.error != ""
    ensures email !in otps ==> r.error == "OTP not found"
  {
    if email !in otps then Reply(200, false, "OTP not found")
    else if now > otps[email].expires then Reply(200, false, "OTP expired")
    else if otps[email].attempts >= MaxVerifyAttempts then Reply(200, false, "Too many attempts")
    else if otp != Some(otps[email].otp) then Reply(200, false, "Invalid OTP")
    else Ok
  }

  /** The reply `/verify-otp` gives as written. For an inherited member the
      expiry and attempt tests compare with `undefined` and fail, and the
      code sent is compared with the member's missing `otp`: a request
      without a code passes. Every other address is answered as intended. */
  function VerifyReplyAsWritten(otps: map<string, OtpRecord>, email: string, otp: Option<string>, now: int): (r: Reply)
    ensures LookUp(otps, email).Inherited? ==> (r.success <==> otp.None?)
    ensures !LookUp(otps, email).Inherited? ==> r == VerifyReply(otps, email, otp, now)
  {
    match LookUp(otps, email)
    case Inherited => if otp.None? then Ok else Reply(200, false, "Invalid OTP")
    case _ => VerifyReply(otps, email, otp, now)
  }

  /** The discrepancy: `constructor` was never issued a code (it is no
      address, so nothing is stored under it), yet a verification for it
      that sends no code succeeds; the intended reply is "OTP not found". */
  lemma InheritedNameVerifies(otps: map<string, OtpRecord>, now: int)
    requires WellFormed(otps)
    ensures "constructor" !in otps
    ensures VerifyReplyAsWritten(otps, "constructor", None, now) == Ok
    ensures VerifyReply(otps, "constructor", None, now) == Reply(200, false, "OTP not found")
  {
    NoAtIsNoEmail("constructor");
  }

  /** The intended reply never verifies an address the server holds no
      code for, and whenever it succeeds the code sent is the stored one. */
  lemma VerifiedOnlyByStoredCode(otps: map<string, OtpRecord>, email: string, otp: Option<string>, now: int)
    requires WellFormed(otps)
    ensures VerifyReply(otps, email, otp, now).success ==>
      ValidEmail(email) && otp.Some? && IsOtpCode(otp.value) && otp.value == otps[email].otp
  {
  }

  class OtpService {
    var otps: map<string, OtpRecord>

    ghost predicate Valid()
      reads this
    {
      WellFormed(otps)
    }

    constructor()
      ensures Valid() && otps == map[]
    {
      otps := map[];
    }

    /** `/request-otp`. An address that is missing or does not match the
        pattern is refused with 400 and nothing is stored. Otherwise the
        requests of the last ten minutes are counted: five or more are
        refused with 429, and the stored record (if any) keeps everything
        but its history, which is cut down to those requests. Below the
        limit a fresh record replaces the old one, whatever the mailer then
        does (`mailSent` false gives 500). */
    method RequestOtp(email: Option<string>, now: int, mailSent: bool) returns (reply: Reply)
      requires Valid()
      modifies this
      ensures Valid()
      ensures email.None? || !ValidEmail(email.value) ==>
        reply == Reply(400, false, "Invalid email") && otps == old(otps)
      ensures email.Some? && ValidEmail(email.value) ==>
        var e := email.value;
        var recent := Recent(if e in old(otps) then old(otps)[e].history else [], now);
        if |recent| >= MaxRequestsPerWindow then
          && reply == Reply(429, false, "Too many OTP requests. Try later.")
          && otps == if e in old(otps) then old(otps)[e := old(otps)[e].(history := recent)] else old(otps)
        else
          && reply == (if mailSent then Ok else Reply(500, false, "Failed to send OTP"))
          && e in otps && otps == old(otps)[e := otps[e]]
          && IsOtpCode(otps[e].otp)
          && otps[e] == OtpRecord(otps[e].otp, now + OtpTtl, 0, recent + [now], false)
    {
      if email.None? || email.value == "" || !ValidEmail(email.value) {
        return Reply(400, false, "Invalid email");
      }
      var e := email.value;
      var recent := Recent(if e in otps then otps[e].history else [], now);
      if |recent| >= MaxRequestsPerWindow {
        // The record read is the stored one, so its history is cut in place.
        if e in otps {
          WellFormedPut(otps, e, otps[e].(history := recent));
          otps := otps[e := otps[e].(history := recent)];
        }
        return Reply(429, false, "Too many OTP requests. Try later.");
      }
      var code := GenerateOtp();
      WellFormedPut(otps, e, OtpRecord(code, now + OtpTtl, 0, recent + [now], false));
      otps := otps[e := OtpRecord(code, now + OtpTtl, 0, recent + [now], false)];
      reply := if mailSent then Ok else Reply(500, false, "Failed to send OTP");
    }

    /** `/verify-otp` for the address `email` (a missing one is the key
        `undefined`). No record: "OTP not found". An expired record, or one
        already checked six times, is deleted. Otherwise the check is
        counted first, and only the stored code itself marks the record
        verified. Names inherited from `Object.prototype` are answered as
        absent (see `VerifyReplyAsWritten` for what the handler does). */
    method VerifyOtp(email: string, otp: Option<string>, now: int) returns (reply: Reply)
      requires Valid()
      modifies this
      ensures Valid()
      ensures reply == VerifyReply(old(otps), email, otp, now)
      ensures email !in old(otps) ==> reply == Reply(200, false, "OTP not found") && otps == old(otps)
      ensures email in old(otps) && now > old(otps)[email].expires ==>
        reply == Reply(200, false, "OTP expired") && otps == old(otps) - {email}
      ensures email in old(otps) && !(now > old(otps)[email].expires)
              && old(otps)[email].attempts >= MaxVerifyAttempts ==>
        reply == Reply(200, false, "Too many attempts") && otps == old(otps) - {email}
      ensures email in old(otps) && !(now > old(otps)[email].expires)
              && old(otps)[email].attempts < MaxVerifyAttempts ==>
        var rec := old(otps)[email].(attempts := old(otps)[email].attempts + 1);
        && (otp != Some(rec.otp) ==> reply == Reply(200, false, "Invalid OTP") && otps == old(otps)[email := rec])
        && (otp == Some(rec.otp) ==> reply == Ok && otps == old(otps)[email := rec.(verified := true)])
    {
      if email !in otps {
        return Reply(200, false, "OTP not found");
      }
      var rec := otps[email];
      if now > rec.expires {
        otps := otps - {email};
        return Reply(200, false, "OTP expired");
      }
      if rec.attempts >= MaxVerifyAttempts {
        otps := otps - {email};
        return Reply(200, false, "Too many attempts");
      }
      reply := Check(email, otp);
    }

    /** The counted comparison of `/verify-otp`: the check is counted
        before the codes are compared, and only the stored code marks the
        record verified. */
    method Check(email: string, otp: Option<string>) returns (reply: Reply)
      requires Valid() && email in otps && otps[email].attempts < MaxVerifyAttempts
      modifies this
      ensures Valid()
      ensures var rec := old(otps)[email].(attempts := old(otps)[email].attempts + 1);
        && (otp != Some(rec.otp) ==> reply == Reply(200, false, "Invalid OTP") && otps == old(otps)[email := rec])
        && (otp == Some(rec.otp) ==> reply == Ok && otps == old(otps)[email := rec.(verified := true)])
    {
      var rec := otps[email].(attempts := otps[email].attempts + 1);
      if otp != Some(rec.otp) {
        WellFormedPut(otps, email, rec);
        otps := otps[email := rec];
        return Reply(200, false, "Invalid OTP");
      }
      rec := rec.(verified := true);
      WellFormedPut(otps, email, rec);
      otps := otps[email := rec];
      reply := Ok;
    }

    /** `/reset-password`. Missing fields give 400. Then the record must
        exist and be unexpired (an expired one is deleted), and the code
        sent must be the stored one and verified; a name the object inherits
        gets past the first two tests and fails the third. An unknown account leaves
        the record in place; an update that throws gives 500 and leaves it
        too; a completed update deletes it. */
    method ResetPassword(email: Option<string>, otp: Option<string>, newPassword: Option<string>, now: int,
                         account: AccountUpdate) returns (reply: Reply)
      requires Valid()
      modifies this
      ensures Valid()
      ensures reply.success <==>
        && email.Some? && email.value != "" && otp.Some? && otp.value != ""
        && newPassword.Some? && newPassword.value != ""
        && email.value in old(otps) && !(now > old(otps)[email.value].expires)
        && otp.value == old(otps)[email.value].otp && old(otps)[email.value].verified
        && account == Updated
      ensures email.None? || email.value == "" || otp.None? || otp.value == "" || newPassword.None? || newPassword.value == "" ==>
        reply == Reply(400, false, "Missing fields") && otps == old(otps)
      ensures email.Some? && email.value != "" && otp.Some? && otp.value != "" && newPassword.Some? && newPassword.value != "" ==>
        var e := email.value;
        if e !in old(otps) && e in InheritedNames then
          reply == Reply(200, false, "OTP not verified") && otps == old(otps)
        else if e !in old(otps) then
          reply == Reply(200, false, "OTP not found") && otps == old(otps)
        else if now > old(otps)[e].expires then
          reply == Reply(200, false, "OTP expired") && otps == old(otps) - {e}
        else if otp.value != old(otps)[e].otp || !old(otps)[e].verified then
          reply == Reply(200, false, "OTP not verified") && otps == old(otps)
        else if account == NoSuchUser then
          reply == Reply(200, false, "User not found") && otps == old(otps)
        else if account == UpdateFailed then
          reply == Reply(500, false, "Reset failed") && otps == old(otps)
        else
          reply == Ok && otps == old(otps) - {e}
    {
      if email.None? || email.value == "" || otp.None? || otp.value == "" || newPassword.None? || newPassword.value == "" {
        return Reply(400, false, "Missing fields");
      }
      var e := email.value;
      if e !in otps && e in InheritedNames {
        // The inherited member passes the presence and expiry tests, but has no code.
        return Reply(200, false, "OTP not verified");
      }
      if e !in otps {
        return Reply(200, false, "OTP not found");
      }
      var rec := otps[e];
      if now > rec.expires {
        otps := otps - {e};
        return Reply(200, false, "OTP expired");
      }
      if otp.value != rec.otp || !rec.verified {
        return Reply(200, false, "OTP not verified");
      }
      match account {
        case NoSuchUser =>
          return Reply(200, false, "User not found");
        case UpdateFailed =>
          return Reply(500, false, "Reset failed");
        case Updated =>
          otps := otps - {e};
          reply := Ok;
      }
    }

    /** The body of the five-minute interval: every record whose expiry lies
        before `now` is deleted, one key at a time. */
    method Sweep(now: int)
      requires Valid()
      modifies this
      ensures Valid()
      ensures otps == Unexpired(old(otps), now)
    {
      UnexpiredSpec(otps, now);
      otps := DropExpired(otps, now);
    }
  }

  // ---------------------------------------------------------------------
  // /create-order

  /** The `amount` of the request body: absent, something `isNaN` holds of,
      or a number (money is whole rupees here). */
  datatype AmountInput = NoAmount | NotANumber | Amount(value: int)

  /** What the order endpoint does before calling the payment gateway. */
  datatype OrderCheck = Refuse(reply: Reply) | CallGateway(amount: int, currency: string, receipt: string)

  /** `/create-order` up to the gateway call: the amount must be present,
      numeric and positive, the receipt present, and both gateway keys set. */
  function CheckOrder(amount: AmountInput, currency: Option<string>, receipt: Option<string>,
                      keyId: Option<string>, keySecret: Option<string>): (r: OrderCheck)
    ensures r.CallGateway? <==>
      amount.Amount? && amount.value > 0 && receipt.Some? && receipt.value != ""
      && keyId.Some? && keyId.value != "" && keySecret.Some? && keySecret.value != ""
    ensures r.CallGateway? ==> r.amount == amount.value && r.receipt == receipt.value
    ensures r.CallGateway? ==> r.currency == currency.GetOr("INR")
    ensures !(amount.Amount? && amount.value > 0) ==> r == Refuse(Reply(400, false, "Invalid amount"))
    ensures amount.Amount? && amount.value > 0 && (receipt.None? || receipt.value == "") ==>
      r == Refuse(Reply(400, false, "Receipt required"))
    ensures r.Refuse? ==> r.reply.status in {400, 500} && !r.reply.success
  {
    if amount.NoAmount? || amount.NotANumber? || amount.value <= 0 then
      Refuse(Reply(400, false, "Invalid amount"))
    else if receipt.None? || receipt.value == "" then
      Refuse(Reply(400, false, "Receipt required"))
    else if keyId.None? || keyId.value == "" || keySecret.None? || keySecret.value == "" then
      Refuse(Reply(500, false, "Razorpay not configured"))
    else
      CallGateway(amount.value, currency.GetOr("INR"), receipt.value)
  }
}
