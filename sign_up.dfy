/** The sign-up form: details (role, name, phone), then a one-time code
    that logs the user in through the store with the chosen role. */
module SignUpScreen {
  import opened Domain
  import InputFilter
  import Session
  import Store

  datatype Step = DetailsStep | OtpStep

  const InvalidNameMessage: string := "Please enter a valid name."
  const InvalidPhoneMessage: string := "Please enter a valid 10-digit phone number."
  const InvalidOtpMessage: string := "Invalid OTP. Please try again."
  const MockOtp: string := "123456"

  /** The checks of the details step, in order: the name first, then the
      phone; the first one that fails gives the message. */
  function DetailsError(name: string, phone: string): (e: Option<string>)
    ensures e == Some(InvalidNameMessage) <==> |name| < 2
    ensures e == Some(InvalidPhoneMessage) <==> |name| >= 2 && |phone| < 10
    ensures e.None? <==> |name| >= 2 && |phone| >= 10
  {
    if |name| < 2 then Some(InvalidNameMessage)
    else if |phone| < 10 then Some(InvalidPhoneMessage)
    else None
  }

  /** A phone that went through the phone field passes the details step
      exactly when it has all ten digits. */
  lemma FilteredPhonePasses(name: string, raw: string)
    requires |name| >= 2
    ensures DetailsError(name, InputFilter.PhoneInput(raw)).None?
            <==> |InputFilter.DigitsOnly(raw)| >= 10
  {
  }

  /** For a phone outside the fixed roster the chosen role is the role of
      the new identity and decides its home screen; for a roster phone the
      roster entry logs in, whatever role was chosen. */
  lemma ChosenRoleTakesEffect(s: Session.State, phone: string, role: Role, now: nat)
    ensures !Session.KnownPhone(phone) ==>
      && Session.Login(s, phone, role, now).user.value.role == role
      && Session.Login(s, phone, role, now).history == [Session.HomeFor(role)]
    ensures Session.KnownPhone(phone) ==>
      Session.Login(s, phone, role, now).user.value in Session.MockUsers
  {
  }

  class SignUpForm {
    var step: Step
    var name: string
    var phone: string
    var otp: string
    var error: string
    var role: Role

    constructor ()
      ensures step == DetailsStep && name == "" && phone == "" && otp == "" && error == ""
      ensures role == USER
    {
      step := DetailsStep;
      name := "";
      phone := "";
      otp := "";
      error := "";
      role := USER;
    }

    /** The role selector: the only way the role changes. */
    method SelectRole(r: Role)
      modifies this
      ensures role == r
      ensures step == old(step) && name == old(name) && phone == old(phone)
      ensures otp == old(otp) && error == old(error)
    {
      role := r;
    }

    /** Typing into the name field: taken as it is. */
    method ChangeName(raw: string)
      modifies this
      ensures name == raw
      ensures step == old(step) && phone == old(phone) && otp == old(otp)
      ensures error == old(error) && role == old(role)
    {
      name := raw;
    }

    method ChangePhone(raw: string)
      modifies this
      ensures phone == InputFilter.PhoneInput(raw)
      ensures step == old(step) && name == old(name) && otp == old(otp)
      ensures error == old(error) && role == old(role)
    {
      phone := InputFilter.PhoneInput(raw);
    }

    method ChangeOtp(raw: string)
      modifies this
      ensures otp == InputFilter.OtpInput(raw)
      ensures step == old(step) && name == old(name) && phone == old(phone)
      ensures error == old(error) && role == old(role)
    {
      otp := InputFilter.OtpInput(raw);
    }

    /** `handleDetailsSubmit`: a failed check shows its message and keeps
        the step; passing both clears the error and moves to the code. */
    method SubmitDetails()
      modifies this
      ensures DetailsError(name, phone).Some? ==>
        error == DetailsError(name, phone).value && step == old(step)
      ensures DetailsError(name, phone).None? ==> error == "" && step == OtpStep
      ensures name == old(name) && phone == old(phone) && otp == old(otp) && role == old(role)
    {
      if |name| < 2 {
        error := InvalidNameMessage;
        return;
      }
      if |phone| < 10 {
        error := InvalidPhoneMessage;
        return;
      }
      error := "";
      step := OtpStep;
    }

    /** `handleOtpSubmit`, with `now` the clock reading the store uses for a
        new identity: the mock code clears the error and logs in with the
        chosen role; any other code shows the error and leaves the store
        alone. */
    method SubmitOtp(store: Store.AppStore, now: nat)
      requires store.Valid()
      modifies this, store
      ensures store.Valid()
      ensures step == old(step) && name == old(name) && phone == old(phone)
      ensures otp == old(otp) && role == old(role)
      ensures otp == MockOtp ==>
        error == "" && store.Snapshot() == Session.Login(old(store.Snapshot()), phone, role, now)
      ensures otp != MockOtp ==>
        error == InvalidOtpMessage && store.Snapshot() == old(store.Snapshot())
    {
      if otp == MockOtp {
        error := "";
        var _ := store.Login(phone, role, now);
      } else {
        error := InvalidOtpMessage;
      }
    }
  }
}
