/** The sign-in form: a phone step, then a one-time-code step that logs the
    user in through the store. The decisions are pure functions; the form
    is an object whose fields are the form's state. */
module SignInScreen {
  import opened Domain
  import Numerals
  import InputFilter
  import Session
  import Store

  datatype Step = PhoneStep | OtpStep

  const InvalidPhoneMessage: string := "Please enter a valid 10-digit phone number."
  const InvalidOtpMessage: string := "Invalid OTP. Please try again."
  const LoginFailedMessage: string := "Failed to log in. User not found."
  const AdminOtp: string := "admin123"
  const MockOtp: string := "123456"
  const MockProviderPhone: string := "8765432109"

  /** The phone step lets a number through when it has at least ten
      characters or is the administrator's. */
  predicate PhoneAccepted(phone: string) {
    |phone| >= 10 || phone == Session.AdminPhone
  }

  /** The administrator's number has ten characters itself, so the gate is
      a length check and nothing more. */
  lemma PhoneGateIsLength(phone: string)
    ensures PhoneAccepted(phone) <==> |phone| >= 10
  {
  }

  /** What submitting the code does. */
  datatype OtpAction = AdminShortcut | LoginAs(role: Role) | RejectOtp

  /** The administrator's phone with the administrator's code takes the
      shortcut; the mock code logs in, as a provider for the mock provider's
      phone and as a customer otherwise; any other code is refused. */
  function DecideOtp(phone: string, otp: string): (a: OtpAction)
    ensures a == AdminShortcut <==> phone == Session.AdminPhone && otp == AdminOtp
    ensures a.LoginAs? <==> otp == MockOtp
    ensures a.LoginAs? ==> (a.role == PROVIDER <==> phone == MockProviderPhone) && a.role != ADMIN
    ensures a == RejectOtp <==> otp != MockOtp && !(phone == Session.AdminPhone && otp == AdminOtp)
  {
    if phone == Session.AdminPhone && otp == AdminOtp then AdminShortcut
    else if otp == MockOtp then LoginAs(if phone == MockProviderPhone then PROVIDER else USER)
    else RejectOtp
  }

  /** The administrator's code has a letter in it, so no code made only of
      digits takes the shortcut. */
  lemma DigitCodeNeverAdmin(phone: string, otp: string)
    requires Numerals.AllDigits(otp)
    ensures DecideOtp(phone, otp) != AdminShortcut
  {
    assert !Numerals.IsDigit(AdminOtp[0]);
  }

  /** The code field keeps digits only, so no code typed into the field
      takes the shortcut. */
  lemma AdminShortcutUnreachable(phone: string, raw: string)
    ensures DecideOtp(phone, InputFilter.OtpInput(raw)) != AdminShortcut
  {
    DigitCodeNeverAdmin(phone, InputFilter.OtpInput(raw));
  }

  /** The administrator still gets in with the mock code: the form asks for
      a customer login, and the store maps the administrator's phone to the
      administrator regardless. */
  lemma AdminViaMockOtp(s: Session.State, now: nat)
    ensures DecideOtp(Session.AdminPhone, MockOtp) == LoginAs(USER)
    ensures Session.Login(s, Session.AdminPhone, USER, now).user == Some(Session.AdminUser)
    ensures Session.Login(s, Session.AdminPhone, USER, now).history == [AdminDashboard]
  {
  }

  class SignInForm {
    var step: Step
    var phone: string
    var otp: string
    var error: string

    /** Both fields only ever hold what their filters let through. */
    ghost predicate Valid()
      reads this
    {
      && Numerals.AllDigits(phone) && |phone| <= InputFilter.PhoneLength
      && Numerals.AllDigits(otp) && |otp| <= InputFilter.OtpLength
    }

    constructor ()
      ensures Valid()
      ensures step == PhoneStep && phone == "" && otp == "" && error == ""
    {
      step := PhoneStep;
      phone := "";
      otp := "";
      error := "";
    }

    /** Typing into the phone field. */
    method ChangePhone(raw: string)
      modifies this
      ensures old(Valid()) ==> Valid()
      ensures phone == InputFilter.PhoneInput(raw)
      ensures step == old(step) && otp == old(otp) && error == old(error)
    {
      phone := InputFilter.PhoneInput(raw);
    }

    /** Typing into the code field. */
    method ChangeOtp(raw: string)
      modifies this
      ensures old(Valid()) ==> Valid()
      ensures otp == InputFilter.OtpInput(raw)
      ensures step == old(step) && phone == old(phone) && error == old(error)
    {
      otp := InputFilter.OtpInput(raw);
    }

    /** `handlePhoneSubmit`: an accepted number moves on to the code and
        clears the error; otherwise the error is shown and the step stays. */
    method SubmitPhone()
      modifies this
      ensures old(Valid()) ==> Valid()
      ensures PhoneAccepted(old(phone)) ==> step == OtpStep && error == ""
      ensures !PhoneAccepted(old(phone)) ==> step == old(step) && error == InvalidPhoneMessage
      ensures phone == old(phone) && otp == old(otp)
    {
      if |phone| >= 10 || phone == Session.AdminPhone {
        error := "";
        step := OtpStep;
      } else {
        error := InvalidPhoneMessage;
      }
    }

    /** `handleOtpSubmit`, with `now` the clock reading the store uses for a
        new identity. The store changes only by a login, and only when the
        code is taken. On a valid form the shortcut is never taken. */
    method SubmitOtp(store: Store.AppStore, now: nat)
      requires store.Valid()
      modifies this, store
      ensures store.Valid()
      ensures old(Valid()) ==> Valid() && DecideOtp(phone, otp) != AdminShortcut
      ensures step == old(step) && phone == old(phone) && otp == old(otp)
      ensures match DecideOtp(phone, otp)
        case AdminShortcut =>
          store.Snapshot() == Session.Login(old(store.Snapshot()), phone, USER, now) && error == old(error)
        case LoginAs(role) =>
          store.Snapshot() == Session.Login(old(store.Snapshot()), phone, role, now) && error == ""
        case RejectOtp =>
          store.Snapshot() == old(store.Snapshot()) && error == InvalidOtpMessage
    {
      if Valid() {
        DigitCodeNeverAdmin(phone, otp);
      }
      if phone == Session.AdminPhone && otp == AdminOtp {
        var _ := store.Login(phone, USER, now);
        return;
      }
      if otp == MockOtp {
        error := "";
        var role := if phone == MockProviderPhone then PROVIDER else USER;
        var loggedIn := store.Login(phone, role, now);
        error := if loggedIn.None? then LoginFailedMessage else error;
      } else {
        error := InvalidOtpMessage;
      }
    }
  }
}
