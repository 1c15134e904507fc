/**
 * The login form (src/app/auth/login/page.tsx).  React state becomes
 * fields; `router.push` becomes the recorded `destination`; the 500 ms
 * error timer becomes a flag for the scheduled callback and an explicit
 * `FireErrorTimer` step.
 */
module Login {
  import opened Options
  import opened DevAuth

  const StudioPath := "/studio"
  const InvalidCredentialsMessage := "Invalid email or password. Use dev@example.com / dev12345 for dev mode."

  class LoginPage {
    const browser: Browser
    var email: string
    var password: string
    var isLoading: bool
    var error: string
    /** The last route passed to `router.push`, if any. */
    var destination: Option<string>
    /** The error callback scheduled with `setTimeout(…, 500)` has not run yet. */
    var errorTimerArmed: bool

    /** A scheduled error callback always finds the form still loading. */
    ghost predicate Valid()
      reads this
    {
      errorTimerArmed ==> isLoading
    }

    /**
     * `disabled={isLoading}` on the submit button: a disabled button, and
     * the implicit submission it is the default button of, do not submit.
     * While an error callback is pending the form cannot be submitted again.
     */
    predicate SubmitDisabled()
      reads this
      ensures Valid() && errorTimerArmed ==> SubmitDisabled()
    {
      isLoading
    }

    constructor (browser: Browser)
      ensures Valid() && this.browser == browser
      ensures email == "" && password == "" && !isLoading && error == ""
      ensures destination == None && !errorTimerArmed
    {
      this.browser := browser;
      email, password := "", "";
      isLoading, error := false, "";
      destination, errorTimerArmed := None, false;
    }

    method SetEmail(value: string)
      requires Valid()
      modifies this`email
      ensures Valid() && email == value
    {
      email := value;
    }

    method SetPassword(value: string)
      requires Valid()
      modifies this`password
      ensures Valid() && password == value
    {
      password := value;
    }

    /**
     * `handleSubmit`, reachable only while the submit button is enabled:
     * clear the error and start loading; then either set the flag and go
     * to the studio, or schedule the delayed error.  Either way the button
     * is disabled afterwards.
     */
    method HandleSubmit()
      requires Valid() && !SubmitDisabled()
      modifies this`error, this`isLoading, this`destination, this`errorTimerArmed, browser
      ensures Valid() && error == "" && isLoading && SubmitDisabled()
      ensures ValidateDevCredentials(email, password) ==>
        && browser.State() == AfterSetDevAuth(old(browser.State()))
        && destination == Some(StudioPath)
        && !errorTimerArmed
      ensures !ValidateDevCredentials(email, password) ==>
        && browser.State() == old(browser.State())
        && destination == old(destination)
        && errorTimerArmed
    {
      error := "";
      isLoading := true;
      if ValidateDevCredentials(email, password) {
        browser.SetDevAuth();
        destination := Some(StudioPath);
        return;
      }
      errorTimerArmed := true;
    }

    /** The scheduled error callback runs: loading stops, the fixed message is shown and the form can be submitted again. */
    method FireErrorTimer()
      requires Valid() && errorTimerArmed
      modifies this`error, this`isLoading, this`errorTimerArmed
      ensures Valid() && !errorTimerArmed
      ensures !isLoading && !SubmitDisabled() && error == InvalidCredentialsMessage
    {
      isLoading := false;
      error := InvalidCredentialsMessage;
      errorTimerArmed := false;
    }
  }
}
