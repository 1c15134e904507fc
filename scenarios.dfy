/**
 * End-to-end runs of the pages against one browser, each from a fresh
 * page with no stored session: sign in and open the studio, sign out,
 * leave a session until its cookie expires, and run the generation demo
 * through editing and teardown.
 */
module Scenarios {
  import opened Options
  import opened JsString
  import opened Generation
  import opened DevAuth
  import opened ServerAuth
  import Login
  import Navigation
  import Landing

  /**
   * Submit the login form once (and let its error timer run when one is
   * scheduled), then request the studio route with the browser's cookies.
   */
  method SignInThenOpenStudio(email: string, password: string, now: nat)
    returns (response: StudioResponse, error: string, destination: Option<string>)
    ensures ValidateDevCredentials(email, password) ==>
      response == RenderStudio(DevUser) && error == "" && destination == Some(Login.StudioPath)
    ensures !ValidateDevCredentials(email, password) ==>
      response == Redirect(LoginPath) && error == Login.InvalidCredentialsMessage && destination == None
  {
    var browser := new Browser(true, map[], map[], now);
    var page := new Login.LoginPage(browser);
    page.SetEmail(email);
    page.SetPassword(password);
    page.HandleSubmit();
    if page.errorTimerArmed {
      page.FireErrorTimer();
    }
    SessionCookieLifetime(BrowserState(true, map[], map[], [], now), now);
    response := StudioPage(browser.RequestCookies());
    error := page.error;
    destination := page.destination;
  }

  /**
   * Submit a wrong pair: the button stays disabled until the error
   * callback has run.  Then correct the pair and submit again: the flag is
   * set, the studio opens, and no error callback is left to run.
   */
  method FailThenRetry(wrongPassword: string, now: nat)
    returns (disabledWhileWaiting: bool, response: StudioResponse, error: string, timerLeft: bool)
    requires wrongPassword != DevPassword
    ensures disabledWhileWaiting
    ensures response == RenderStudio(DevUser) && error == "" && !timerLeft
  {
    var browser := new Browser(true, map[], map[], now);
    var page := new Login.LoginPage(browser);
    page.SetEmail(DevEmail);
    page.SetPassword(wrongPassword);
    page.HandleSubmit();
    disabledWhileWaiting := page.SubmitDisabled();
    page.FireErrorTimer();
    page.SetPassword(DevPassword);
    page.HandleSubmit();
    SessionCookieLifetime(BrowserState(true, map[], map[], [], now), now);
    response := StudioPage(browser.RequestCookies());
    error := page.error;
    timerLeft := page.errorTimerArmed;
  }

  /**
   * Sign in with the dev pair, open a navigation bar, then log out from it:
   * the client read, the bar and the server all see a signed-out user.
   */
  method SignInThenLogOut(now: nat)
    returns (clientActive: bool, barAuthenticated: bool, response: StudioResponse, destination: Option<string>)
    ensures !clientActive && !barAuthenticated
    ensures response == Redirect(LoginPath)
    ensures destination == Some(LoginPath)
  {
    var browser := new Browser(true, map[], map[], now);
    var page := new Login.LoginPage(browser);
    page.SetEmail(DevEmail);
    page.SetPassword(DevPassword);
    page.HandleSubmit();
    var bar := new Navigation.NavBar(browser, "/studio", false);
    bar.Mount();
    bar.HandleLogout();
    clientActive := IsDevAuthActive(browser.State());
    barAuthenticated := bar.isAuthenticated;
    response := StudioPage(browser.RequestCookies());
    destination := bar.destination;
  }

  /**
   * Sign in, let seven days pass and the bar's interval tick: the bar
   * still shows a signed-in user, because storage still says "true",
   * while the server, which only sees the expired cookie, redirects.
   */
  method SessionOutlivesCookie(now: nat)
    returns (barAuthenticated: bool, response: StudioResponse)
    ensures barAuthenticated
    ensures response == Redirect(LoginPath)
  {
    var browser := new Browser(true, map[], map[], now);
    var bar := new Navigation.NavBar(browser, "/auth/login", false);
    bar.Mount();
    var page := new Login.LoginPage(browser);
    page.SetEmail(DevEmail);
    page.SetPassword(DevPassword);
    page.HandleSubmit();
    ghost var signedIn := browser.State();
    assert signedIn == AfterSetDevAuth(BrowserState(true, map[], map[], [], now));
    SetThenActive(BrowserState(true, map[], map[], [], now));
    bar.OnAuthStateChanged();
    browser.Elapse(CookieLifetimeMs);
    assert browser.State() == signedIn.(now := now + CookieLifetimeMs);
    ExpiredCookieWhileStorageSaysTrue(browser.State());
    bar.OnIntervalTick();
    barAuthenticated := bar.isAuthenticated;
    response := StudioPage(browser.RequestCookies());
  }

  /**
   * Type `text`, press Generate and let the armed timer fire: blank text
   * is refused and nothing is produced; otherwise the result is shown
   * with the truncated title and a 50-sample waveform.
   */
  method GenerateDemo(text: string, random: seq<real>)
    returns (shown: bool, song: Option<Landing.GeneratedSong>)
    requires |random| >= Landing.WaveformSamples && AreUnitSamples(random)
    ensures IsBlank(text) ==> !shown && song == None
    ensures !IsBlank(text) ==>
      && shown && song.Some?
      && song.value.title == TitleOf(text)
      && song.value.duration == Landing.SongDuration
      && |song.value.waveform| == Landing.WaveformSamples
      && InAmplitudeRange(song.value.waveform)
  {
    var demo := new Landing.LandingDemo();
    demo.SetDemoText(text);
    demo.HandleGenerate();
    demo.FireTimer(0, random);
    shown := demo.ShowsResult();
    song := demo.generatedSong;
  }

  /**
   * Start generating from `first`, change the text to `second` before the
   * delay ends: the first timer has been cleared and does nothing; the
   * re-armed one completes with the second text.
   */
  method EditWhileGenerating(first: string, second: string, random: seq<real>)
    returns (afterFirstTimer: Option<Landing.GeneratedSong>, afterSecondTimer: Option<Landing.GeneratedSong>)
    requires !IsBlank(first) && second != first
    requires |random| >= Landing.WaveformSamples && AreUnitSamples(random)
    ensures afterFirstTimer == None
    ensures afterSecondTimer.Some? && afterSecondTimer.value.title == TitleOf(second)
  {
    var demo := new Landing.LandingDemo();
    demo.SetDemoText(first);
    demo.HandleGenerate();
    assert demo.pending == Some(Timer(0, Landing.CompletionDelayMs)) && demo.isGenerating;
    assert demo.nextTimerId == 1 && demo.demoText == first;
    demo.SetDemoText(second);
    assert demo.pending == Some(Timer(1, Landing.CompletionDelayMs)) && demo.generatedSong == None;
    demo.FireTimer(0, random);
    afterFirstTimer := demo.generatedSong;
    demo.FireTimer(1, random);
    afterSecondTimer := demo.generatedSong;
  }

  /** Start generating, then tear the page down: the completion never runs. */
  method UnmountWhileGenerating(text: string, random: seq<real>)
    returns (song: Option<Landing.GeneratedSong>, generating: bool)
    requires |random| >= Landing.WaveformSamples && AreUnitSamples(random)
    ensures song == None
    ensures generating <==> !IsBlank(text)
  {
    var demo := new Landing.LandingDemo();
    demo.SetDemoText(text);
    demo.HandleGenerate();
    ghost var blank := IsBlank(text);
    assert demo.isGenerating <==> !blank;
    demo.Unmount();
    demo.FireTimer(0, random);
    song := demo.generatedSong;
    generating := demo.isGenerating;
  }
}
