/** The SMS side of the backend: the phone-number check, the one-time
    verification-code store with its issue and verify operations, and the
    announcement fan-out. The HTTP post to the SMS provider is reduced to the
    form it would carry and an outcome supplied by the caller; the sender
    number (the `TWILIO_PHONE_NUMBER` environment variable) is a parameter. */
module Twilio {
  import opened Wrappers

  datatype SmsError =
    | SenderNotSet                         // the sender number is empty or unset
    | InvalidPhoneNumber(phoneNumber: string)
    | DispatchFailed                       // the provider call for a verification code failed

  /** One field of the url-encoded form posted to the provider. */
  datatype FormField = FormField(name: string, value: string)

  predicate IsDigit(c: char) { '0' <= c <= '9' }

  predicate IsLeadingDigit(c: char) { '1' <= c <= '9' }

  predicate AllDigits(s: string)
  {
    forall i :: 0 <= i < |s| ==> IsDigit(s[i])
  }

  // ---------------------------------------------------------------------------
  // Phone numbers: the pattern `^\+?[1-9]\d{1,14}$`, run as an automaton.

  datatype MatchState = Start | AfterPlus | Digits(count: nat) | Rejected

  function Step(st: MatchState, c: char): MatchState
  {
    match st
    case Start => if c == '+' then AfterPlus else if IsLeadingDigit(c) then Digits(1) else Rejected
    case AfterPlus => if IsLeadingDigit(c) then Digits(1) else Rejected
    case Digits(n) => if IsDigit(c) && n < 15 then Digits(n + 1) else Rejected
    case Rejected => Rejected
  }

  function Run(st: MatchState, s: string): MatchState
    decreases |s|
  {
    if s == [] then st else Run(Step(st, s[0]), s[1..])
  }

  predicate Accepting(st: MatchState)
  {
    st.Digits? && 2 <= st.count <= 15
  }

  /** The `validatePhoneNumber` regex test: the automaton ends accepting,
      which happens exactly on the strings of the pattern's shape. */
  predicate PhonePatternTest(s: string): (r: bool)
    ensures r <==> E164Shape(s)
  {
    PhonePatternMatchesE164Shape(s);
    Accepting(Run(Start, s))
  }

  /** `s` without its leading `+`, if it has one. */
  function Unsigned(s: string): string
  {
    if |s| > 0 && s[0] == '+' then s[1..] else s
  }

  /** The shape the pattern describes: an optional `+`, a digit 1-9, then 1 to
      14 more digits, and nothing else. */
  ghost predicate E164Shape(s: string)
  {
    var d := Unsigned(s);
    2 <= |d| <= 15 && IsLeadingDigit(d[0]) && AllDigits(d[1..])
  }

  lemma {:induction false} RunRejected(s: string)
    ensures Run(Rejected, s) == Rejected
  {
    if s != [] {
      RunRejected(s[1..]);
    }
  }

  /** Once in the digit run, the automaton accepts exactly when the rest is
      all digits and the run ends with 2 to 15 of them. */
  lemma {:induction false} RunDigits(n: nat, s: string)
    requires 1 <= n <= 15
    ensures Accepting(Run(Digits(n), s)) <==> AllDigits(s) && 2 <= n + |s| <= 15
    decreases |s|
  {
    if s != [] {
      if IsDigit(s[0]) && n < 15 {
        RunDigits(n + 1, s[1..]);
        assert AllDigits(s) <==> AllDigits(s[1..]) by {
          if AllDigits(s[1..]) {
            forall i | 0 <= i < |s| ensures IsDigit(s[i]) {
              if i > 0 { assert s[i] == s[1..][i - 1]; }
            }
          }
        }
      } else {
        RunRejected(s[1..]);
      }
    }
  }

  /** The automaton accepts exactly the strings of the pattern's shape. */
  lemma PhonePatternMatchesE164Shape(s: string)
    ensures Accepting(Run(Start, s)) <==> E164Shape(s)
  {
    if s == [] {
    } else if s[0] == '+' {
      var t := s[1..];
      assert Run(Start, s) == Run(AfterPlus, t);
      if t == [] {
      } else if IsLeadingDigit(t[0]) {
        assert Run(Start, s) == Run(Digits(1), t[1..]) by {
          assert t[1..] == s[2..];
        }
        RunDigits(1, t[1..]);
      } else {
        RunRejected(t[1..]);
      }
    } else if IsLeadingDigit(s[0]) {
      RunDigits(1, s[1..]);
    } else {
      RunRejected(s[1..]);
    }
  }

  /** `validatePhoneNumber`: passes exactly on numbers of the pattern's
      shape, and otherwise throws naming the number. */
  function ValidatePhoneNumber(phoneNumber: string): (r: Outcome<SmsError>)
    ensures r.Pass? <==> E164Shape(phoneNumber)
    ensures r.Fail? ==> r.error == InvalidPhoneNumber(phoneNumber)
  {
    if PhonePatternTest(phoneNumber) then Pass else Fail(InvalidPhoneNumber(phoneNumber))
  }

  function DigitCount(s: string): nat
  {
    if s == [] then 0 else (if IsDigit(s[0]) then 1 else 0) + DigitCount(s[1..])
  }

  lemma {:induction false} AllDigitsCount(s: string)
    requires AllDigits(s)
    ensures DigitCount(s) == |s|
  {
    if s != [] {
      assert AllDigits(s[1..]) by {
        forall i | 0 <= i < |s[1..]| ensures IsDigit(s[1..][i]) {
          assert s[1..][i] == s[i + 1];
        }
      }
      AllDigitsCount(s[1..]);
    }
  }

  /** An accepted number has 2 to 15 digits, all of it but a leading `+`,
      and is 2 to 16 characters long. */
  lemma AcceptedNumberBounds(phoneNumber: string)
    requires ValidatePhoneNumber(phoneNumber).Pass?
    ensures DigitCount(phoneNumber) == |Unsigned(phoneNumber)|
    ensures 2 <= DigitCount(phoneNumber) <= 15
    ensures 2 <= |phoneNumber| <= 16
  {
    var d := Unsigned(phoneNumber);
    assert AllDigits(d) by {
      forall i | 0 <= i < |d| ensures IsDigit(d[i]) {
        if i > 0 { assert d[i] == d[1..][i - 1]; }
      }
    }
    AllDigitsCount(d);
    if phoneNumber[0] == '+' {
      assert phoneNumber[1..] == d;
    }
  }

  // ---------------------------------------------------------------------------
  // Verification codes: a number in [100000, 999999] rendered in decimal.

  function DigitChar(d: nat): (c: char)
    requires d < 10
    ensures IsDigit(c)
  {
    (('0' as int) + d) as char
  }

  function DigitValue(c: char): nat
    requires IsDigit(c)
  {
    (c as int) - ('0' as int)
  }

  /** `n.toString()` for a natural number: its decimal digits, most
      significant first, with no leading zero. */
  function DecimalString(n: nat): (r: string)
    ensures |r| >= 1 && AllDigits(r)
    ensures n > 0 ==> IsLeadingDigit(r[0])
  {
    if n < 10 then [DigitChar(n)] else DecimalString(n / 10) + [DigitChar(n % 10)]
  }

  /** The number a string of decimal digits denotes. */
  function DecimalValue(s: string): nat
    requires AllDigits(s)
  {
    if s == [] then 0 else 10 * DecimalValue(s[..|s| - 1]) + DigitValue(s[|s| - 1])
  }

  /** Reading a rendered number gives the number back. */
  lemma {:induction false} DecimalRoundTrip(n: nat)
    ensures DecimalValue(DecimalString(n)) == n
  {
    var s := DecimalString(n);
    if n >= 10 {
      assert s[..|s| - 1] == DecimalString(n / 10);
      DecimalRoundTrip(n / 10);
    }
  }

  /** Different numbers are rendered as different codes. */
  lemma DecimalStringInjective(n: nat, m: nat)
    requires DecimalString(n) == DecimalString(m)
    ensures n == m
  {
    DecimalRoundTrip(n);
    DecimalRoundTrip(m);
  }

  function Pow10(k: nat): nat
  {
    if k == 0 then 1 else 10 * Pow10(k - 1)
  }

  lemma {:induction false} DecimalLength(n: nat, k: nat)
    requires 1 <= k && Pow10(k - 1) <= n < Pow10(k)
    ensures |DecimalString(n)| == k
  {
    if k > 1 {
      assert Pow10(k - 1) == 10 * Pow10(k - 2);
      DecimalLength(n / 10, k - 1);
    }
  }

  /** A verification code: six digits, the first not zero. */
  predicate IsCode(code: string)
  {
    |code| == 6 && IsLeadingDigit(code[0]) && AllDigits(code)
  }

  /** Every value `Math.floor(100000 + Math.random() * 900000)` can produce renders as a six-digit code that
      reads back as that number. */
  lemma IssuedCodeShape(n: nat)
    requires 100000 <= n <= 999999
    ensures IsCode(DecimalString(n))
    ensures DecimalValue(DecimalString(n)) == n
  {
    assert Pow10(5) == 100000 && Pow10(6) == 1000000;
    DecimalLength(n, 6);
    DecimalRoundTrip(n);
  }

  // ---------------------------------------------------------------------------
  // The code store.

  /** The sender number counts as unset (is falsy) when it is absent or
      empty; any other string counts as set. */
  predicate SenderUnset(sender: Option<string>): (r: bool)
    ensures !r <==> sender.Some? && |sender.value| > 0
  {
    sender.None? || sender.value == ""
  }

  /** The checks `sendVerificationCode` runs, in order, before it stores anything. */
  function IssueCheck(phoneNumber: string, sender: Option<string>): (r: Outcome<SmsError>)
    ensures r.Pass? <==> !SenderUnset(sender) && E164Shape(phoneNumber) && E164Shape(sender.value)
    ensures SenderUnset(sender) ==> r == Fail(SenderNotSet)
    ensures !SenderUnset(sender) && !E164Shape(phoneNumber) ==> r == Fail(InvalidPhoneNumber(phoneNumber))
    ensures !SenderUnset(sender) && E164Shape(phoneNumber) && !E164Shape(sender.value) ==>
              r == Fail(InvalidPhoneNumber(sender.value))
  {
    if SenderUnset(sender) then Fail(SenderNotSet)
    else if ValidatePhoneNumber(phoneNumber).Fail? then ValidatePhoneNumber(phoneNumber)
    else ValidatePhoneNumber(sender.value)
  }

  /** The text of a verification SMS before its code. */
  const CodeMessagePrefix := "Your verification code is: "

  /** The form posted for a verification code: recipient, sender, and a body
      from which the code is read back after the fixed prefix. */
  function VerificationForm(to: string, from: string, code: string): (form: seq<FormField>)
    ensures |form| == 3
    ensures form[0] == FormField("To", to) && form[1] == FormField("From", from)
    ensures form[2].name == "Body" && |form[2].value| == 27 + |code|
    ensures form[2].value[..27] == "Your verification code is: " && form[2].value[27..] == code
  {
    [FormField("To", to), FormField("From", from), FormField("Body", CodeMessagePrefix + code)]
  }

  class CodeStore {
    /** The live code of each phone number: the `verificationCodes` map. */
    var codes: map<string, string>

    ghost predicate Valid()
      reads this
    {
      forall p :: p in codes ==> IsCode(codes[p])
    }

    constructor ()
      ensures Valid() && codes == map[]
    {
      codes := map[];
    }

    /** `sendVerificationCode` with the random draw given as `n` and the
        provider's answer as `dispatchOk`. When a check fails nothing is
        stored or sent; otherwise the new code replaces any earlier one for
        the number and stays stored even when the dispatch fails. */
    method SendVerificationCode(phoneNumber: string, sender: Option<string>, n: nat, dispatchOk: bool)
      returns (r: Outcome<SmsError>, request: Option<seq<FormField>>)
      requires Valid()
      requires 100000 <= n <= 999999
      modifies this
      ensures Valid()
      ensures IssueCheck(phoneNumber, sender).Fail? ==>
        r == IssueCheck(phoneNumber, sender) && codes == old(codes) && request == None
      ensures IssueCheck(phoneNumber, sender).Pass? ==>
        && codes == old(codes)[phoneNumber := DecimalString(n)]
        && request == Some(VerificationForm(phoneNumber, sender.value, DecimalString(n)))
        && r == (if dispatchOk then Pass else Fail(DispatchFailed))
    {
      if SenderUnset(sender) {
        return Fail(SenderNotSet), None;
      }
      r := ValidatePhoneNumber(phoneNumber);
      if r.Fail? {
        return r, None;
      }
      r := ValidatePhoneNumber(sender.value);
      if r.Fail? {
        return r, None;
      }
      var code := DecimalString(n);
      IssuedCodeShape(n);
      codes := codes[phoneNumber := code];
      request := Some(VerificationForm(phoneNumber, sender.value, code));
      r := if dispatchOk then Pass else Fail(DispatchFailed);
    }

    /** `verifyCode`: true exactly when the number has a live code equal to
        `code`, which is then consumed; on false nothing changes. */
    method VerifyCode(phoneNumber: string, code: string) returns (ok: bool)
      requires Valid()
      modifies this
      ensures Valid()
      ensures ok <==> phoneNumber in old(codes) && old(codes)[phoneNumber] == code
      ensures codes == if ok then old(codes) - {phoneNumber} else old(codes)
    {
      // the stored code must be truthy (non-empty) as well as equal
      if phoneNumber in codes && codes[phoneNumber] != "" && codes[phoneNumber] == code {
        codes := codes - {phoneNumber};
        return true;
      }
      return false;
    }
  }

  /** A code issued for a number verifies once and is refused the second time. */
  method CodeReplayScenario(n: nat) returns (first: bool, second: bool)
    requires 100000 <= n <= 999999
    ensures first && !second
  {
    var store := new CodeStore();
    assert E164Shape("+15551234567") && E164Shape("+15550000000");
    var r, request := store.SendVerificationCode("+15551234567", Some("+15550000000"), n, true);
    first := store.VerifyCode("+15551234567", DecimalString(n));
    second := store.VerifyCode("+15551234567", DecimalString(n));
  }

  /** Issuing a second code for a number invalidates the first one. */
  method ReissueScenario(n1: nat, n2: nat) returns (stale: bool, current: bool)
    requires 100000 <= n1 <= 999999 && 100000 <= n2 <= 999999 && n1 != n2
    ensures !stale && current
  {
    var store := new CodeStore();
    assert E164Shape("+15551234567") && E164Shape("+15550000000");
    var r, request := store.SendVerificationCode("+15551234567", Some("+15550000000"), n1, true);
    r, request := store.SendVerificationCode("+15551234567", Some("+15550000000"), n2, false);
    if DecimalString(n1) == DecimalString(n2) {
      DecimalStringInjective(n1, n2);
    }
    stale := store.VerifyCode("+15551234567", DecimalString(n1));
    current := store.VerifyCode("+15551234567", DecimalString(n2));
  }

  // ---------------------------------------------------------------------------
  // Announcements.

  /** The form of one announcement SMS: recipient, sender, body, then one
      `MediaUrl` field per URL, in order. */
  ghost predicate IsAnnouncementForm(form: seq<FormField>, to: string, from: string, message: string, mediaUrls: seq<string>)
  {
    && |form| == 3 + |mediaUrls|
    && form[0] == FormField("To", to)
    && form[1] == FormField("From", from)
    && form[2] == FormField("Body", message)
    && forall j :: 3 <= j < |form| ==> form[j] == FormField("MediaUrl", mediaUrls[j - 3])
  }

  method BuildAnnouncementForm(to: string, from: string, message: string, mediaUrls: seq<string>)
    returns (form: seq<FormField>)
    ensures IsAnnouncementForm(form, to, from, message, mediaUrls)
  {
    form := [FormField("To", to), FormField("From", from), FormField("Body", message)];
    if |mediaUrls| > 0 {
      for k := 0 to |mediaUrls|
        invariant |form| == 3 + k
        invariant form[0] == FormField("To", to) && form[1] == FormField("From", from)
        invariant form[2] == FormField("Body", message)
        invariant forall j :: 3 <= j < |form| ==> form[j] == FormField("MediaUrl", mediaUrls[j - 3])
      {
        form := form + [FormField("MediaUrl", mediaUrls[k])];
      }
    }
  }

  /** The recipients whose send failed, in order: the ones the announcement
      loop logs (the log itself is not modelled). */
  function Undelivered(recipients: seq<string>, delivered: seq<bool>): (r: seq<string>)
    requires |recipients| == |delivered|
    ensures |r| <= |recipients|
  {
    if recipients == [] then []
    else
      var last := |recipients| - 1;
      Undelivered(recipients[..last], delivered[..last]) + (if delivered[last] then [] else [recipients[last]])
  }

  /** The logged numbers are exactly the recipients whose send failed. */
  lemma {:induction false} UndeliveredExactly(recipients: seq<string>, delivered: seq<bool>, p: string)
    requires |recipients| == |delivered|
    ensures p in Undelivered(recipients, delivered) <==>
      exists i :: 0 <= i < |recipients| && recipients[i] == p && !delivered[i]
  {
    if recipients != [] {
      var last := |recipients| - 1;
      var front, flags := recipients[..last], delivered[..last];
      UndeliveredExactly(front, flags, p);
      if p in Undelivered(front, flags) {
        var i :| 0 <= i < |front| && front[i] == p && !flags[i];
        assert recipients[i] == p && !delivered[i];
      }
      if exists i :: 0 <= i < |recipients| && recipients[i] == p && !delivered[i] {
        var i :| 0 <= i < |recipients| && recipients[i] == p && !delivered[i];
        if i < last {
          assert front[i] == p && !flags[i];
        }
      }
    }
  }

  /** `sendAnnouncementSMS` over the users of the area, `recipients`, with
      the provider's answer to the i-th send as `delivered[i]`. A failed send
      is only logged, but an invalid number throws outside the per-send
      `try`: the sends made are those to the recipients before the first
      invalid number. */
  method SendAnnouncementSMS(title: string, body: string, mediaUrls: seq<string>, sender: Option<string>,
                             recipients: seq<string>, delivered: seq<bool>)
    returns (r: Outcome<SmsError>, requests: seq<seq<FormField>>, failed: seq<string>)
    requires |delivered| == |recipients|
    ensures SenderUnset(sender) ==> r == Fail(SenderNotSet) && requests == [] && failed == []
    ensures !SenderUnset(sender) && !E164Shape(sender.value) ==>
      r == Fail(InvalidPhoneNumber(sender.value)) && requests == [] && failed == []
    ensures !SenderUnset(sender) && E164Shape(sender.value) ==>
      && |requests| <= |recipients|
      && (forall i :: 0 <= i < |requests| ==>
            E164Shape(recipients[i]) &&
            IsAnnouncementForm(requests[i], recipients[i], sender.value, title + "\n\n" + body, mediaUrls))
      && (|requests| == |recipients| ==> r == Pass)
      && (|requests| < |recipients| ==>
            !E164Shape(recipients[|requests|]) && r == Fail(InvalidPhoneNumber(recipients[|requests|])))
      && failed == Undelivered(recipients[..|requests|], delivered[..|requests|])
  {
    requests, failed := [], [];
    if SenderUnset(sender) {
      return Fail(SenderNotSet), requests, failed;
    }
    r := ValidatePhoneNumber(sender.value);
    if r.Fail? {
      return r, requests, failed;
    }
    var message := title + "\n\n" + body;
    for i := 0 to |recipients|
      invariant |requests| == i
      invariant forall k :: 0 <= k < i ==>
        E164Shape(recipients[k]) &&
        IsAnnouncementForm(requests[k], recipients[k], sender.value, message, mediaUrls)
      invariant failed == Undelivered(recipients[..i], delivered[..i])
    {
      var check := ValidatePhoneNumber(recipients[i]);
      if check.Fail? {
        return check, requests, failed;
      }
      var form := BuildAnnouncementForm(recipients[i], sender.value, message, mediaUrls);
      requests := requests + [form];
      if !delivered[i] {
        failed := failed + [recipients[i]];
      }
      assert recipients[..i + 1][..i] == recipients[..i];
      assert delivered[..i + 1][..i] == delivered[..i];
    }
    assert recipients[..|recipients|] == recipients;
    r := Pass;
  }
}
