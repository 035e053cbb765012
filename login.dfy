/**
 * Phone sign-in: a phone number with at least ten digits gets a six-digit one-time code
 * (shown to the user, since nothing is sent), and the code typed back must match exactly.
 * Randomness is a parameter: the `Math.random()` draw in [0, 1).
 */
module Login {
  import opened Decimal

  /** The phone number with every character but 0-9 removed (`replace(/[^0-9]/g, '')`). */
  function DigitsOnly(s: string): (r: string)
    ensures AllDigits(r)
    ensures |r| <= |s|
    ensures AllDigits(s) ==> r == s
  {
    if s == [] then [] else (if IsDigit(s[0]) then [s[0]] else []) + DigitsOnly(s[1..])
  }

  /** Stripping distributes over concatenation. */
  lemma {:induction false} DigitsOnlyAppend(a: string, b: string)
    ensures DigitsOnly(a + b) == DigitsOnly(a) + DigitsOnly(b)
  {
    if a == [] {
      assert a + b == b;
    } else {
      var head := if IsDigit(a[0]) then [a[0]] else [];
      assert (a + b)[0] == a[0];
      assert (a + b)[1..] == a[1..] + b;
      DigitsOnlyAppend(a[1..], b);
      calc {
        DigitsOnly(a + b);
        head + DigitsOnly(a[1..] + b);
        head + (DigitsOnly(a[1..]) + DigitsOnly(b));
        (head + DigitsOnly(a[1..])) + DigitsOnly(b);
        DigitsOnly(a) + DigitsOnly(b);
      }
    }
  }

  /** A space, '+', '-' or any other non-digit anywhere in the number changes nothing. */
  lemma NonDigitsAreIgnored(a: string, c: char, b: string)
    requires !IsDigit(c)
    ensures DigitsOnly(a + [c] + b) == DigitsOnly(a + b)
  {
    DigitsOnlyAppend(a + [c], b);
    DigitsOnlyAppend(a, [c]);
    DigitsOnlyAppend(a, b);
  }

  /** The phone check: at least ten decimal digits once the rest is removed. */
  function IsValidPhone(phone: string): (valid: bool)
    ensures valid ==> |phone| >= 10
    ensures AllDigits(phone) ==> (valid <==> |phone| >= 10)
  {
    |DigitsOnly(phone)| >= 10
  }

  /**
   * Punctuation, spaces and any other non-digit never change whether a phone number is
   * accepted: only the digits it contains are counted.
   */
  lemma NonDigitsDoNotAffectValidity(a: string, c: char, b: string)
    requires !IsDigit(c)
    ensures IsValidPhone(a + [c] + b) == IsValidPhone(a + b)
  {
    NonDigitsAreIgnored(a, c, b);
  }

  /** A number is accepted exactly when its digits alone, as a string, would be accepted. */
  lemma {:induction false} ValidityDependsOnDigitsOnly(phone: string)
    ensures IsValidPhone(phone) == IsValidPhone(DigitsOnly(phone))
  {
    assert DigitsOnly(DigitsOnly(phone)) == DigitsOnly(phone);
  }

  /** The code `Math.floor(100000 + random * 900000)` for a draw `random` in [0, 1). */
  function OtpCode(random: real): (code: int)
    requires 0.0 <= random < 1.0
    ensures 100000 <= code <= 999999
  {
    (100000.0 + random * 900000.0).Floor
  }

  /** The code as text: always six decimal digits that read back as the code. */
  function OtpText(random: real): (text: string)
    requires 0.0 <= random < 1.0
    ensures |text| == 6 && AllDigits(text)
    ensures DecimalValue(text) == OtpCode(random)
  {
    var code := OtpCode(random);
    SixDigits(code);
    DecimalRoundTrip(code);
    NatToString(code)
  }

  /** Every code in [100000, 999999] can be drawn. */
  lemma EveryCodeCanBeDrawn(code: int)
    requires 100000 <= code <= 999999
    ensures OtpCode((code - 100000) as real / 900000.0) == code
  {
  }

  datatype LoginState = LoginState(
    phone: string,
    otp: string,
    otpSent: bool,
    generatedOtp: string,
    isLoading: bool,
    navigationPending: bool)

  const InitialState: LoginState := LoginState("", "", false, "", false, false)

  /** The alert a press raises. */
  datatype Alert = NoAlert | InvalidPhone | OtpSentAlert(code: string) | IncorrectOtp

  datatype Outcome = Outcome(state: LoginState, alert: Alert)

  /**
   * The primary button's handler. Phone phase: too few digits is refused with no change;
   * otherwise a fresh code is issued and the code phase begins. Code phase: anything but
   * exactly the issued code is refused with no change; the issued code starts the loading
   * state and the timed move to the welcome screen.
   */
  function HandlePhoneAuth(s: LoginState, random: real): (o: Outcome)
    requires 0.0 <= random < 1.0
    ensures !s.otpSent && !IsValidPhone(s.phone) ==> o == Outcome(s, InvalidPhone)
    ensures !s.otpSent && IsValidPhone(s.phone) ==>
      o.state == s.(otpSent := true, generatedOtp := OtpText(random)) && o.alert == OtpSentAlert(OtpText(random))
    ensures s.otpSent && s.otp != s.generatedOtp ==> o == Outcome(s, IncorrectOtp)
    ensures s.otpSent && s.otp == s.generatedOtp ==>
      o == Outcome(s.(isLoading := true, navigationPending := true), NoAlert)
  {
    if !s.otpSent then
      if |DigitsOnly(s.phone)| < 10 then Outcome(s, InvalidPhone)
      else
        var code := OtpText(random);
        Outcome(s.(generatedOtp := code, otpSent := true), OtpSentAlert(code))
    else if s.otp != s.generatedOtp then Outcome(s, IncorrectOtp)
    else Outcome(s.(isLoading := true, navigationPending := true), NoAlert)
  }

  /** Pressing the primary button; it is disabled while loading. */
  function PressPrimary(s: LoginState, random: real): (o: Outcome)
    requires 0.0 <= random < 1.0
    ensures s.isLoading ==> o == Outcome(s, NoAlert)
    ensures !s.isLoading ==> o == HandlePhoneAuth(s, random)
  {
    if s.isLoading then Outcome(s, NoAlert) else HandlePhoneAuth(s, random)
  }

  /**
   * Pressing "Resend OTP": shown only in the code phase and disabled while loading; it returns
   * to the phone phase and clears the typed code, keeping the phone and the issued code.
   */
  function PressResend(s: LoginState): (r: LoginState)
    ensures !s.otpSent || s.isLoading ==> r == s
    ensures s.otpSent && !s.isLoading ==> !r.otpSent && r.otp == ""
    ensures r.phone == s.phone && r.generatedOtp == s.generatedOtp && r.isLoading == s.isLoading
    ensures r.navigationPending == s.navigationPending
  {
    if !s.otpSent || s.isLoading then s else s.(otpSent := false, otp := "")
  }

  /** Typing into the phone field, which is shown only in the phone phase. */
  function TypePhone(s: LoginState, text: string): (r: LoginState)
    ensures !s.otpSent ==> r == s.(phone := text)
    ensures s.otpSent ==> r == s
  {
    if s.otpSent then s else s.(phone := text)
  }

  /** Typing into the code field, which is shown only in the code phase. */
  function TypeOtp(s: LoginState, text: string): (r: LoginState)
    ensures s.otpSent ==> r == s.(otp := text)
    ensures !s.otpSent ==> r == s
  {
    if s.otpSent then s.(otp := text) else s
  }

  /** The one-second timer after a correct code: loading ends (and the app moves on). */
  function NavigationTimerFired(s: LoginState): (r: LoginState)
    requires s.navigationPending
    ensures !r.isLoading && !r.navigationPending
    ensures r.(isLoading := s.isLoading, navigationPending := true) == s
  {
    s.(isLoading := false, navigationPending := false)
  }

  /**
   * The whole happy path: a valid phone gets a code, typing exactly that code and pressing
   * again signs in.
   */
  lemma IssuedCodeIsAccepted(phone: string, random: real, random2: real)
    requires IsValidPhone(phone) && 0.0 <= random < 1.0 && 0.0 <= random2 < 1.0
    ensures var sent := PressPrimary(TypePhone(InitialState, phone), random);
      sent.alert.OtpSentAlert? &&
      var typed := TypeOtp(sent.state, sent.alert.code);
      var done := PressPrimary(typed, random2);
      done.state.isLoading && done.alert == NoAlert
  {
  }

  /** Any typed code other than the issued one is refused, however often it is tried. */
  lemma WrongCodeIsRefused(s: LoginState, text: string, random: real)
    requires s.otpSent && !s.isLoading && text != s.generatedOtp && 0.0 <= random < 1.0
    ensures PressPrimary(TypeOtp(s, text), random) == Outcome(TypeOtp(s, text), IncorrectOtp)
  {
  }

  /** The screen's state, changed by its inputs, its buttons and the sign-in timer. */
  class LoginScreen {
    var phone: string
    var otp: string
    var otpSent: bool
    var generatedOtp: string
    var isLoading: bool
    var navigationPending: bool

    function State(): LoginState
      reads this
    {
      LoginState(phone, otp, otpSent, generatedOtp, isLoading, navigationPending)
    }

    constructor ()
      ensures State() == InitialState
    {
      phone, otp, otpSent, generatedOtp, isLoading, navigationPending := "", "", false, "", false, false;
    }

    method OnPhoneChange(text: string)
      modifies this
      ensures State() == TypePhone(old(State()), text)
    {
      if !otpSent {
        phone := text;
      }
    }

    method OnOtpChange(text: string)
      modifies this
      ensures State() == TypeOtp(old(State()), text)
    {
      if otpSent {
        otp := text;
      }
    }

    /** The primary button, with the random draw passed in; returns the alert raised. */
    method OnPrimaryPress(random: real) returns (alert: Alert)
      requires 0.0 <= random < 1.0
      modifies this
      ensures State() == PressPrimary(old(State()), random).state
      ensures alert == PressPrimary(old(State()), random).alert
    {
      if isLoading {
        return NoAlert;
      }
      if !otpSent {
        var digits := DigitsOnly(phone);
        if |digits| < 10 {
          return InvalidPhone;
        }
        var code := OtpText(random);
        generatedOtp := code;
        otpSent := true;
        alert := OtpSentAlert(code);
      } else {
        if otp != generatedOtp {
          return IncorrectOtp;
        }
        isLoading := true;
        navigationPending := true;
        alert := NoAlert;
      }
    }

    method OnResendPress()
      modifies this
      ensures State() == PressResend(old(State()))
    {
      if !otpSent || isLoading {
        return;
      }
      otpSent := false;
      otp := "";
    }

    method OnNavigationTimeout()
      requires navigationPending
      modifies this
      ensures State() == NavigationTimerFired(old(State()))
    {
      isLoading := false;
      navigationPending := false;
    }
  }
}
