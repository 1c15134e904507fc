# MuseAI front end: the dev-auth flag and the page state machines

MuseAI is a Next.js front end for an AI music generator. Most of it is
layout and static content. This project models the parts that have
behaviour and proves what they promise:

- **The temporary dev login flag** (`dev-auth.ts`). One boolean,
  "a dev session is active", is kept in two independent places: a
  key-value storage entry that the client reads, and a cookie that the
  server reads. Each write also dispatches an `auth-state-changed` event.
  The browser is a class `DevAuth.Browser` with one field per copy, an
  event log and a millisecond clock, so the two copies can drift apart.
- **The two readers of the flag.** The client-side `isDevAuthActive`
  reads storage only. The server-side `getCurrentUser`, and the studio
  route guard built on it, read the request's cookies only.
- **The login form** (`LoginPage`): the credential check, setting the
  flag, navigating to `/studio`, and the error shown after a 500 ms delay.
- **The navigation bar** (`NavBar`). It keeps a local copy of the flag,
  refreshed on mount, on a route change, on storage events for the flag's
  key, on the `auth-state-changed` event and on every 2 s tick. It also
  holds the link list, the "Login" badge, navigation and logout.
- **The simulated generation** of the landing-page demo and of the studio.
  Each moves from idle to generating to done and is guarded by
  "the input is not blank after `trim()`". A completion timer is armed by
  an effect and, while generating, re-armed whenever a dependency changes.
- **The explore page**: the liked-song set, the single playing song, the
  displayed like counts and the detail view.
- **The pricing table**: the price lookup by billing period and the
  "Save 17%" claim, checked in integer arithmetic.

The state and handlers of the flows modelled here, on the login,
navigation, landing, studio and explore pages, become the fields and
methods of a class, each method with a `modifies` clause. The pricing page's only state, the billing
period, is a parameter of its pure lookup, with the initial period as a
constant. `router.push` is recorded as a
`destination` field. Timers, events and interval ticks are explicit method
calls:

- An armed `setTimeout` is a `Timer` record with a handle.
- Firing a handle that has been cleared does nothing.
- While generating, a dependency change clears the armed timer and arms a
  new one; outside generation it arms nothing.
- Unmounting clears it.

The values of `Math.random()` and `Date.now()` are parameters.
`String.prototype.trim` is modelled exactly: it removes the ECMAScript
WhiteSpace and LineTerminator characters.

Cookie expiry follows section 5.3 of RFC 6265. A cookie is sent with a
request only while the request's time is before its expiry. Writing a
cookie whose expiry lies in the past, as `clearDevAuth` does, therefore
means it is never sent again.

Module `Scenarios` runs the pages together against one browser:

- sign in, then open the studio;
- submit a wrong password, wait for the error, then retry with the dev
  pair and reach the studio;
- sign in, then log out from the navigation bar;
- keep a session until its cookie expires: the bar still shows a
  signed-in user, but the server redirects;
- run the landing-page demo, edit its text mid-generation, and unmount it
  mid-generation.

Two details of the source shape the model.

- The login button is `disabled={isLoading}`, and only the error
  callback sets loading back to false. So the form cannot be submitted
  again while an error callback is pending, and no stale callback can
  follow a later successful login (`Login.LoginPage.SubmitDisabled`,
  `Scenarios.FailThenRetry`).
- The studio reads `Date.now()` once per track. The first track's id is
  the first reading. The variation's id is the second reading plus one.
  It exceeds the first id whenever the clock does not run backwards,
  and equals the first id plus one only when both readings are equal.

## Model

| member | source | states |
|---|---|---|
| JsString.Trim | src/app/studio/studio-content.tsx:80 | `s.trim()` is never longer than `s`; what it keeps and drops is stated by the two lemmas below. |
| JsString.IsBlank | frontend/src/app/page.tsx:138 | `!s.trim()`: the empty string is blank, and a string that starts with a character other than white space or a line terminator is not. |
| JsString.TrimStartSpec | frontend/src/app/page.tsx:138 | `trimStart` keeps a suffix of its input. Every character it drops is trimmable, and what it keeps does not start with a trimmable character. |
| JsString.TrimEndSpec | frontend/src/app/page.tsx:138 | `trimEnd` keeps a prefix of its input. Every character it drops is trimmable, and what it keeps does not end with a trimmable character. |
| JsString.BlankIffAllTrimmable | frontend/src/app/page.tsx:138 | `!s.trim()` holds exactly when every character of `s` is white space or a line terminator. The empty string is blank. |
| JsString.TrimHasNoOuterWhiteSpace | src/app/studio/studio-content.tsx:80 | A trimmed string that is not empty has no trimmable character at either end. |
| JsString.TrimIdempotent | src/app/studio/studio-content.tsx:80 | Trimming twice gives the same string as trimming once. |
| JsString.SliceFromStart | frontend/src/app/page.tsx:128 | `slice(0, n)` is a prefix of its input. Its length is the smaller of `n` and the input's length. |
| Generation.TitleOf | frontend/src/app/page.tsx:128 | A generated title is a prefix of the input followed by `...`. Its length is min(input length, 30) + 3. |
| Generation.BuildWaveform | frontend/src/app/page.tsx:130 | The waveform has exactly the requested number of samples. Sample i is 100 times the i-th random value, so every sample lies in [0, 100). |
| DevAuth.SessionExpiry | frontend/src/lib/dev-auth.ts:39-41 | The recorded expiry is a whole second, at most seven days and more than seven days less one second after the time of setting, because `toUTCString` keeps whole seconds only. |
| DevAuth.SessionCookie | frontend/src/lib/dev-auth.ts:39-41 | The cookie `setDevAuth` writes has value "true", path "/" and SameSite=Lax, and it expires after the time it was set. |
| DevAuth.ValidateDevCredentials | frontend/src/lib/dev-auth.ts:71-73 | Only the dev pair can be accepted, and an empty email or password is refused. |
| DevAuth.IsDevAuthActive | frontend/src/lib/dev-auth.ts:63-66 | A true read needs a window and a `dev-auth` storage entry. |
| DevAuth.AfterSetDevAuth | frontend/src/lib/dev-auth.ts:32-45 | With a window, storage `dev-auth` becomes "true" and cookie `dev-auth` becomes the session cookie. One event with `authenticated: true` is appended. Every other storage key and cookie is unchanged. Without a window nothing changes. |
| DevAuth.AfterClearDevAuth | frontend/src/lib/dev-auth.ts:50-58 | With a window, storage `dev-auth` is removed and cookie `dev-auth` becomes an empty cookie that expired at the epoch. One event with `authenticated: false` is appended. Every other storage key and cookie is unchanged. Without a window nothing changes. |
| DevAuth.CookieHeader | src/lib/auth.ts:12-13 | A request carries a cookie exactly when the cookie is stored and has not expired. The value carried is the stored value. |
| DevAuth.Browser.SetDevAuth | frontend/src/lib/dev-auth.ts:32-45 | The browser's new state is `AfterSetDevAuth` of its old state. |
| DevAuth.Browser.ClearDevAuth | frontend/src/lib/dev-auth.ts:50-58 | The browser's new state is `AfterClearDevAuth` of its old state. |
| DevAuth.ValidateDevCredentialsExact | frontend/src/lib/dev-auth.ts:71-73 | Credentials are accepted exactly when the email is `dev@example.com` and the password is `dev12345`. An empty email or password is refused. |
| DevAuth.SetThenActive | frontend/src/lib/dev-auth.ts:32-66 | After `setDevAuth`, `isDevAuthActive` is true exactly when a window exists, whatever the state before. |
| DevAuth.ClearThenInactive | frontend/src/lib/dev-auth.ts:50-66 | After `clearDevAuth`, `isDevAuthActive` is false, whatever the state before. |
| DevAuth.NoWindowIsInert | frontend/src/lib/dev-auth.ts:33-64 | Without a window, the read is false, and set and clear change nothing and dispatch nothing. |
| DevAuth.ActiveIgnoresCookies | frontend/src/lib/dev-auth.ts:63-66 | The client-side read gives the same answer for any cookie store: it consults storage only. |
| DevAuth.SessionCookieLifetime | frontend/src/lib/dev-auth.ts:39-41 | After `setDevAuth`, the `dev-auth` cookie is sent with value "true" exactly until its recorded expiry, and never after. |
| DevAuth.ClearedCookieNeverSent | frontend/src/lib/dev-auth.ts:54 | After `clearDevAuth`, no request carries the `dev-auth` cookie. |
| DevAuth.OtherCookiesUntouched | frontend/src/lib/dev-auth.ts:36-54 | Set and clear do not change whether any other cookie is sent, or its value. |
| ServerAuth.GetCurrentUser | src/lib/auth.ts:10-29 | A returned user is always the fixed dev record and needs the `dev-auth` cookie. Without that cookie there is no user. |
| ServerAuth.StudioPage | frontend/src/app/studio/page.tsx:9-10 | The studio redirects to `/auth/login` exactly when `getCurrentUser` finds no user. Otherwise it renders for the fixed dev user. |
| ServerAuth.CurrentUserIffCookieTrue | src/lib/auth.ts:12-20 | `getCurrentUser` returns a user exactly when cookie `dev-auth` is present with value "true". The user is always the fixed dev record. |
| ServerAuth.MissingOrEmptyCookieYieldsNoUser | src/lib/auth.ts:15-28 | A missing cookie, or the empty value `clearDevAuth` writes, yields no user. |
| ServerAuth.StudioOpenForSevenDaysAfterSet | frontend/src/app/studio/page.tsx:9-10 | After `setDevAuth`, the studio renders until the cookie's recorded expiry and redirects to the login page from then on. It renders for at least seven days less one second and redirects from seven days on. |
| ServerAuth.StudioClosedAfterClear | frontend/src/app/studio/page.tsx:9-10 | After `clearDevAuth`, the studio redirects to the login page. |
| ServerAuth.ExpiredCookieWhileStorageSaysTrue | src/lib/auth.ts:13-15 | Once the cookie has expired, the server finds no user and redirects, even while client storage still says "true". |
| Login.LoginPage.SetEmail | src/app/auth/login/page.tsx:101 | The email field holds the typed value. |
| Login.LoginPage.SetPassword | src/app/auth/login/page.tsx:121 | The password field holds the typed value. |
| Login.LoginPage.SubmitDisabled | src/app/auth/login/page.tsx:146 | The submit button is disabled while loading, so it is disabled whenever an error callback is pending. |
| Login.LoginPage.HandleSubmit | src/app/auth/login/page.tsx:22-41 | A submission happens only while the button is enabled. It clears the error and sets loading, which disables the button. Valid credentials set the flag and record `/studio` as the destination, with no error callback. Invalid ones leave the browser and the destination alone and schedule the error callback. |
| Login.LoginPage.FireErrorTimer | src/app/auth/login/page.tsx:37-40 | When the scheduled error callback runs, loading stops, the button is enabled again and the fixed message naming the dev credentials is shown. |
| Navigation.Links | src/components/layout/navigation.tsx:63-65 | The links are `NAV_LINKS`, followed by the dashboard link exactly when `showDashboard` is set. |
| Navigation.ShowsLoginBadge | src/components/layout/navigation.tsx:110 | `link.locked && !isAuthenticated`: an authenticated user never sees the "Login" badge. |
| Navigation.StorageEventRechecks | src/components/layout/navigation.tsx:40 | A `storage` event re-checks the session only for the `dev-auth` key or a cleared storage (`key === null`); any other key is ignored. |
| Navigation.LoginBadgeOnlyOnStudio | src/components/layout/navigation.tsx:110 | Among the displayed links, the "Login" badge appears exactly on the studio link, and only while not authenticated. |
| Navigation.NavBar.CheckAuth | src/components/layout/navigation.tsx:31-33 | The bar's `isAuthenticated` becomes exactly the client-side read of the flag. |
| Navigation.NavBar.Mount | src/components/layout/navigation.tsx:36-54 | Mounting checks the flag and installs the listeners and the interval. |
| Navigation.NavBar.ChangePathname | src/components/layout/navigation.tsx:61 | A different path re-runs the effect, which checks the flag again. The same path changes nothing. |
| Navigation.NavBar.OnStorage | src/components/layout/navigation.tsx:39-43 | A storage event with key `dev-auth` or a null key re-checks. Any other key leaves `isAuthenticated` unchanged. |
| Navigation.NavBar.OnAuthStateChanged | src/components/layout/navigation.tsx:46-51 | The `auth-state-changed` event re-checks while the listener is installed. |
| Navigation.NavBar.OnIntervalTick | src/components/layout/navigation.tsx:54 | Each 2 s tick re-checks while the interval is installed. |
| Navigation.NavBar.Unmount | src/components/layout/navigation.tsx:56-60 | The cleanup removes the listeners and the interval. |
| Navigation.NavBar.HandleNav | src/components/layout/navigation.tsx:67-70 | The given route is recorded as the destination, and the mobile menu closes. |
| Navigation.NavBar.HandleLogout | src/components/layout/navigation.tsx:72-77 | The flag is cleared in the browser, `isAuthenticated` becomes false, `/auth/login` is the destination and the mobile menu closes. |
| Navigation.NavBar.ToggleMobileMenu | src/components/layout/navigation.tsx:153 | The menu button flips `mobileOpen`. |
| Landing.LandingDemo.SetDemoText | frontend/src/app/page.tsx:215 | The text is stored. A different text while generating clears the armed completion and arms a new 2400 ms one. Otherwise the timer is kept. |
| Landing.LandingDemo.GenerateDisabled | frontend/src/app/page.tsx:223 | The Generate button is disabled while generating, and also while the text is blank. |
| Landing.LandingDemo.ShowsResult | frontend/src/app/page.tsx:244 | The result card is on screen only in the done phase. |
| Landing.LandingDemo.HandleGenerate | frontend/src/app/page.tsx:137-140 | Blank text changes nothing. Otherwise the demo is generating, and a completion is armed if none was. A click on an enabled Generate button arms a fresh 2400 ms completion. A disabled button's handler would change nothing. |
| Landing.LandingDemo.FireTimer | frontend/src/app/page.tsx:124-135 | Only the armed timer completes. It builds the song from the current text: the truncated title, "3:24", and 50 samples from the random values. Generation then stops and the result is shown. A cleared handle changes nothing. |
| Landing.LandingDemo.TogglePlay | frontend/src/app/page.tsx:252 | The play button flips `isPlaying` and nothing else. |
| Landing.LandingDemo.Unmount | frontend/src/app/page.tsx:134 | Teardown clears the armed completion. |
| Studio.LyricsOrPlaceholder | src/app/studio/studio-content.tsx:63 | A track's lyrics are never empty: they are the current lyrics when there are any, and the placeholder otherwise. |
| Studio.LyricsTemplate | src/app/studio/studio-content.tsx:84-88 | The template holds the prompt right after the "[Verse 1]" line, and its length is the prompt's plus the fixed text's. |
| Studio.TemplateSecondLineIsPrompt | src/app/studio/studio-content.tsx:84-88 | For a one-line prompt, the lyrics template's first line is "[Verse 1]" and its second line is the prompt. |
| Studio.StudioContent.SetPrompt | src/app/studio/studio-content.tsx:103 | The prompt is stored. A different prompt while generating restarts the 3800 ms completion. |
| Studio.StudioContent.SetLyrics | src/app/studio/studio-content.tsx:121 | The lyrics are stored. Different lyrics while generating restart the 3800 ms completion. |
| Studio.StudioContent.GenerateLyrics | src/app/studio/studio-content.tsx:84-88 | The lyrics become the template built from the prompt. A change while generating restarts the completion. |
| Studio.StudioContent.GenerateDisabled | src/app/studio/studio-content.tsx:210 | The Generate button is disabled while generating, and also while the prompt is blank. |
| Studio.StudioContent.HandleGenerate | src/app/studio/studio-content.tsx:79-82 | A blank prompt changes nothing. Otherwise the studio is generating, and a completion is armed if none was. A click on an enabled Generate button arms a fresh 3800 ms completion. A disabled button's handler would change nothing. |
| Studio.StudioContent.FireTimer | src/app/studio/studio-content.tsx:54-77 | Only the armed timer completes, with exactly two tracks. The second title is the first plus " (Variation)", and the ids are increasing. The durations are "3:24" and "3:18". Each track has 80 samples in [0, 100). Lyrics are the current ones, or the placeholder when empty. Generation then stops. |
| Studio.StudioContent.PlayTrack | src/app/studio/studio-content.tsx:278 | Playing track i stops it if it was playing, and otherwise makes it the playing track. |
| Studio.StudioContent.Unmount | src/app/studio/studio-content.tsx:76 | Teardown clears the armed completion. |
| Explore.Toggled | src/app/explore/page.tsx:110-114 | Toggling flips the membership of the given id and of no other id. |
| Explore.ToggleTwiceRestores | src/app/explore/page.tsx:110-114 | Toggling the same id twice restores the liked set. |
| Explore.DisplayedLikes | src/app/explore/page.tsx:232 | The displayed count is the stored count or one more. |
| Explore.ToggleChangesOneCard | src/app/explore/page.tsx:225-232 | In the page's song list, liking or unliking a song changes the count on its own card and on no other card. |
| Explore.DisplayedLikesBounds | src/app/explore/page.tsx:232 | The displayed count is the stored count plus one exactly when the song is liked, and the stored count otherwise. |
| Explore.DisplayedLikesAfterToggle | src/app/explore/page.tsx:342 | A like toggle moves the toggled song's displayed count by exactly one and leaves every other song's count alone. |
| Explore.IdSet.Add | src/app/explore/page.tsx:112 | `add` inserts the id into the copied set. |
| Explore.IdSet.Delete | src/app/explore/page.tsx:112 | `delete` removes the id from the copied set. |
| Explore.ExplorePage.ToggleLike | src/app/explore/page.tsx:110-114 | The page holds a fresh set equal to the old one with the id toggled. The previous set object is not mutated. |
| Explore.ExplorePage.TogglePlay | src/app/explore/page.tsx:116-118 | The playing id becomes none if it was this id, and this id otherwise, so at most one song plays. |
| Explore.ExplorePage.OpenSong | src/app/explore/page.tsx:189 | Clicking a card opens that song in the detail view. |
| Explore.ExplorePage.CloseSong | src/app/explore/page.tsx:255 | The backdrop and the close button close the detail view. |
| Pricing.PriceFor | frontend/src/app/pricing/page.tsx:146 | The shown price is one of the plan's two prices. For a plan whose year costs ten months, the yearly price is ten times the monthly one. |
| Pricing.RenderPriceCard | frontend/src/app/pricing/page.tsx:176-181 | A card shows `plan.price[billingPeriod]` with suffix `/mo` or `/yr`. The per-month line is shown only for yearly billing. |
| Pricing.TenMonthsSaves17Percent | frontend/src/app/pricing/page.tsx:133 | A yearly price of ten monthly prices saves a share of twelve payments that rounds to 17 percent, and to no other whole percentage. |
| Pricing.EveryPlanSavesAdvertisedPercent | frontend/src/app/pricing/page.tsx:15-56 | Every plan's yearly price is ten monthly prices, so every plan saves the advertised 17 percent. |
| Pricing.YearlyCardIsTenMonthlyCards | frontend/src/app/pricing/page.tsx:146-176 | For every plan, the yearly card shows ten times the monthly card's amount. |
| Pricing.OnlyCreatorIsPopular | frontend/src/app/pricing/page.tsx:18-56 | Exactly one plan, Creator, is marked popular. |
| Pricing.MonthlyPricesIncrease | frontend/src/app/pricing/page.tsx:15-53 | Monthly prices strictly increase from Starter to Creator to Pro. |
| Pricing.OpensOnMonthly | frontend/src/app/pricing/page.tsx:97 | The page opens on monthly prices, without the per-month line. |
| Scenarios.SignInThenOpenStudio | src/app/auth/login/page.tsx:22-41 | The dev pair leads to the studio with no error. Any other pair leads to the fixed error, no navigation, and a redirect from the studio. |
| Scenarios.FailThenRetry | src/app/auth/login/page.tsx:22-41 | After a wrong password the button stays disabled until the error callback runs. A corrected retry then opens the studio with no error and no callback left to run. |
| Scenarios.SignInThenLogOut | src/components/layout/navigation.tsx:72-77 | After logout, the client read, the bar and the server all see a signed-out user, and the bar goes to `/auth/login`. |
| Scenarios.SessionOutlivesCookie | src/lib/auth.ts:13-15 | Seven days after sign-in, the bar still shows a signed-in user from storage, while the server redirects. |
| Scenarios.GenerateDemo | frontend/src/app/page.tsx:124-140 | Blank text produces nothing. Any other text produces a shown song with the truncated title, "3:24" and 50 samples in [0, 100). |
| Scenarios.EditWhileGenerating | frontend/src/app/page.tsx:124-135 | After a mid-generation edit, the first timer does nothing and the second completes with the edited text's title. |
| Scenarios.UnmountWhileGenerating | frontend/src/app/page.tsx:134 | After teardown, the completion never produces a song. |

## Left out

- `backend/api/music_routes.py` is not part of this model. It forwards to a generation service, downloads and serves files, and its behaviour depends entirely on calls outside it.
- Presentational files, the dashboard, and the signup and reset pages are not part of this model. They hold layout, static data, and loading flags flipped after a delay.
- Real timers, `setInterval`, event-listener registration and concurrency are not modelled. Each firing, tick and event is an explicit method call.
- Events are delivered only where a page dispatches to itself. `HandleLogout` runs the bar's own listener, because `clearDevAuth` dispatches synchronously. Any other listener receives an event only when a scenario calls its method.
- `Math.random()` and `Date.now()` are not modelled. Their values are parameters.
- `document.cookie` string syntax, `toUTCString` date formatting, cookie domains and path matching are not modelled. Every cookie here uses path "/", and the cookie store is a map keyed by name.
- DevAuth.SessionCookie: `setDate(getDate() + 7)` is taken as exactly seven days. A daylight-saving change in local time would shift the expiry by an hour. The loss of milliseconds in `toUTCString` is modelled in `DevAuth.SessionExpiry`.
- DevAuth.Browser.SetDevAuth: a storage write that throws (storage full or disabled) is not modelled. In the browser, `setDevAuth` would then stop before writing the cookie or dispatching the event, and `handleSubmit` would reject without navigating.
- Pricing.RenderPriceCard: the per-month amount `(price / 12).toFixed(2)` is floating-point formatting and is not modelled. Only whether the line is shown is modelled.
- JsString.SliceFromStart: JavaScript strings are sequences of UTF-16 code units. Here they are sequences of characters, so a surrogate pair counts as one character in `slice(0, 30)`.
- Login.LoginPage.HandleSubmit: the form's own `required` and `type="email"` checks, which the browser applies before submitting, are not modelled. Any pair of strings can be submitted.
- Studio presentational state (voice, genre, tempo, energy, mood, advanced panel) is not modelled. The completion does not read it.
- The explore page's All/Trending/New filter (`selectedFilter` and its three buttons) is not modelled. It only highlights the chosen button: the song grid is drawn from the full list whatever the filter.
- The landing page's hero buttons are not modelled: one navigates to `/studio`, the other scrolls to the demo. Neither touches the demo's state.
- Studio.StudioContent.FireTimer: the variation's id is the second `Date.now()` reading plus one. The contract states ids increase, given readings that do not decrease. It states "first id plus one" only when both readings are equal.
- Animations, image loading and routing internals are not modelled. `router.push` is recorded as a destination.
