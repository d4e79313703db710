/**
 * The sign-in dialog of components/login-modal.tsx: three steps (the provider options, the
 * e-mail address, the profile details) over three text fields. `onLogin` is counted by
 * `logins`; `onOpenChange(false)` clears `open`, a prop the parent owns.
 *
 * Each input is shown on one step only, so it can be typed into on that step only; with the
 * guard on "Continue", the details step is therefore never reached with an empty address.
 */
module LoginModal {

  datatype LoginStep = Options | Email | Details

  class Login {
    var open: bool
    var step: LoginStep
    var email: string
    var name: string
    var age: string
    var logins: nat

    /** The details step is only ever reached with an address. */
    ghost predicate Valid()
      reads this
    {
      step == Details ==> email != ""
    }

    constructor (open: bool)
      ensures Valid() && this.open == open && step == Options
      ensures email == "" && name == "" && age == "" && logins == 0
    {
      this.open := open;
      step := Options;
      email := "";
      name := "";
      age := "";
      logins := 0;
    }

    /** The back arrow is rendered on every step but the first. */
    predicate BackShown()
      reads this
    {
      step != Options
    }

    /** "Continue" on the e-mail step is disabled while the address is empty. */
    predicate ContinueDisabled()
      reads this
    {
      email == ""
    }

    /** "Continue" on the details step is disabled while the name or the age is empty. */
    predicate SubmitDisabled()
      reads this
    {
      name == "" || age == ""
    }

    /** "Continue with Email". */
    method ChooseEmail()
      requires Valid() && step == Options
      modifies this
      ensures Valid() && step == Email
      ensures open == old(open) && email == old(email) && name == old(name) && age == old(age)
      ensures logins == old(logins)
    {
      step := Email;
    }

    /** The address input, rendered on the e-mail step. */
    method SetEmail(text: string)
      requires Valid() && step == Email
      modifies this
      ensures Valid() && email == text
      ensures open == old(open) && step == old(step) && name == old(name) && age == old(age)
      ensures logins == old(logins)
    {
      email := text;
    }

    /** The name input, rendered on the details step. */
    method SetName(text: string)
      requires Valid() && step == Details
      modifies this
      ensures Valid() && name == text
      ensures open == old(open) && step == old(step) && email == old(email) && age == old(age)
      ensures logins == old(logins)
    {
      name := text;
    }

    /** The age input, rendered on the details step. */
    method SetAge(text: string)
      requires Valid() && step == Details
      modifies this
      ensures Valid() && age == text
      ensures open == old(open) && step == old(step) && email == old(email) && name == old(name)
      ensures logins == old(logins)
    {
      age := text;
    }

    /** `handleEmailContinue`: on to the details only with an address; the guard is the button's. */
    method HandleEmailContinue()
      requires Valid()
      modifies this
      ensures Valid()
      ensures old(ContinueDisabled()) ==> unchanged(this)
      ensures !old(ContinueDisabled()) ==> step == Details
      ensures open == old(open) && email == old(email) && name == old(name) && age == old(age)
      ensures logins == old(logins)
    {
      if email != "" {
        step := Details;
      }
    }

    /**
     * `handleSubmit`: with a name and an age, log in, close, and clear the form back to the
     * options; otherwise nothing, exactly when the button is disabled.
     */
    method HandleSubmit()
      requires Valid()
      modifies this
      ensures Valid()
      ensures old(SubmitDisabled()) ==> unchanged(this)
      ensures !old(SubmitDisabled()) ==>
        && logins == old(logins) + 1 && !open
        && step == Options && email == "" && name == "" && age == ""
    {
      if name != "" && age != "" {
        logins := logins + 1;
        open := false;
        step := Options;
        email := "";
        name := "";
        age := "";
      }
    }

    /** `handleGoogleLogin` and `handleAppleLogin`: log in and close, keeping the step and the fields. */
    method HandleProviderLogin()
      requires Valid()
      modifies this
      ensures Valid() && logins == old(logins) + 1 && !open
      ensures step == old(step) && email == old(email) && name == old(name) && age == old(age)
    {
      logins := logins + 1;
      open := false;
    }

    /** The back arrow: details to e-mail, e-mail to the options. */
    method Back()
      requires Valid() && BackShown()
      modifies this
      ensures Valid()
      ensures step == (if old(step) == Details then Email else Options)
      ensures open == old(open) && email == old(email) && name == old(name) && age == old(age)
      ensures logins == old(logins)
    {
      step := if step == Details then Email else Options;
    }
  }
}
