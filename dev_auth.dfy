/**
 * The temporary development login flag (frontend/src/lib/dev-auth.ts).
 *
 * One boolean, "a dev session is active", is kept in two independent
 * places: an entry of the window's key-value storage (`localStorage`) and
 * a cookie that the server can read.  Every write also dispatches an
 * `auth-state-changed` event.  The two copies are separate fields here so
 * that they can drift apart, as they do in the browser.
 */
module DevAuth {

  /** The one accepted credential pair. */
  const DevEmail := "dev@example.com"
  const DevPassword := "dev12345"

  const DevAuthCookieName := "dev-auth"
  const DevAuthStorageKey := "dev-auth"
  const FlagValue := "true"

  const MsPerDay: nat := 24 * 60 * 60 * 1000
  /** `expires.setDate(expires.getDate() + 7)`, taken as exactly seven days. */
  const CookieLifetimeMs: nat := 7 * MsPerDay
  const RootPath := "/"

  /**
   * A cookie as the browser stores it after an assignment to
   * `document.cookie`: its value and the Expires, Path and SameSite
   * attributes of the Set-Cookie syntax of section 4.1.1 of RFC 6265.
   * `expiresAt` is in milliseconds since the epoch.
   */
  datatype Cookie = Cookie(value: string, expiresAt: int, path: string, sameSiteLax: bool)

  /** `new CustomEvent('auth-state-changed', { detail: { authenticated } })` */
  datatype AuthEvent = AuthStateChanged(authenticated: bool)

  /**
   * What the dev-auth functions can see of the browser: whether a window
   * exists at all (it does not during server rendering), the key-value
   * storage, the cookie store keyed by cookie name (every cookie here uses
   * path "/"), the events dispatched on the window so far, and the clock.
   */
  datatype BrowserState = BrowserState(
    hasWindow: bool,
    storage: map<string, string>,
    cookies: map<string, Cookie>,
    events: seq<AuthEvent>,
    now: nat)

  /** `validateDevCredentials(email, password)` */
  function ValidateDevCredentials(email: string, password: string): (ok: bool)
    ensures ok ==> email == DevEmail && password == DevPassword
    ensures email == "" || password == "" ==> !ok
  {
    email == DevEmail && password == DevPassword
  }

  /**
   * The expiry the browser records for a cookie set at `now`: seven days
   * later, written with `toUTCString`, which keeps whole seconds only.
   */
  function SessionExpiry(now: nat): (expiresAt: int)
    ensures now + CookieLifetimeMs - 1000 < expiresAt <= now + CookieLifetimeMs
    ensures expiresAt % 1000 == 0
  {
    (now + CookieLifetimeMs) / 1000 * 1000
  }

  /** The cookie `setDevAuth` writes at time `now`: "true", expiring seven days later, path "/", SameSite=Lax. */
  function SessionCookie(now: nat): (c: Cookie)
    ensures c.value == FlagValue && c.path == RootPath && c.sameSiteLax
    ensures c.expiresAt > now
  {
    Cookie(FlagValue, SessionExpiry(now), RootPath, true)
  }

  /** The cookie `clearDevAuth` writes: an empty value that expired at the epoch, path "/". */
  const ClearingCookie := Cookie("", 0, RootPath, false)

  /** The state `setDevAuth()` leaves behind. */
  function AfterSetDevAuth(s: BrowserState): (t: BrowserState)
    ensures !s.hasWindow ==> t == s
    ensures s.hasWindow ==>
      && t.storage.Keys == s.storage.Keys + {DevAuthStorageKey}
      && t.storage[DevAuthStorageKey] == FlagValue
      && t.cookies.Keys == s.cookies.Keys + {DevAuthCookieName}
      && t.cookies[DevAuthCookieName] == SessionCookie(s.now)
      && t.events == s.events + [AuthStateChanged(true)]
    ensures t.hasWindow == s.hasWindow && t.now == s.now
    ensures forall k :: k in s.storage && k != DevAuthStorageKey ==> t.storage[k] == s.storage[k]
    ensures forall n :: n in s.cookies && n != DevAuthCookieName ==> t.cookies[n] == s.cookies[n]
  {
    if !s.hasWindow then s
    else s.(storage := s.storage[DevAuthStorageKey := FlagValue],
            cookies := s.cookies[DevAuthCookieName := SessionCookie(s.now)],
            events := s.events + [AuthStateChanged(true)])
  }

  /** The state `clearDevAuth()` leaves behind. */
  function AfterClearDevAuth(s: BrowserState): (t: BrowserState)
    ensures !s.hasWindow ==> t == s
    ensures s.hasWindow ==>
      && t.storage.Keys == s.storage.Keys - {DevAuthStorageKey}
      && t.cookies.Keys == s.cookies.Keys + {DevAuthCookieName}
      && t.cookies[DevAuthCookieName] == ClearingCookie
      && t.events == s.events + [AuthStateChanged(false)]
    ensures t.hasWindow == s.hasWindow && t.now == s.now
    ensures forall k :: k in t.storage ==> t.storage[k] == s.storage[k]
    ensures forall n :: n in s.cookies && n != DevAuthCookieName ==> t.cookies[n] == s.cookies[n]
  {
    if !s.hasWindow then s
    else s.(storage := s.storage - {DevAuthStorageKey},
            cookies := s.cookies[DevAuthCookieName := ClearingCookie],
            events := s.events + [AuthStateChanged(false)])
  }

  /** `isDevAuthActive()`: reads the storage copy only, never the cookie. */
  predicate IsDevAuthActive(s: BrowserState)
    ensures IsDevAuthActive(s) ==> s.hasWindow && DevAuthStorageKey in s.storage
  {
    s.hasWindow && DevAuthStorageKey in s.storage && s.storage[DevAuthStorageKey] == FlagValue
  }

  /**
   * The Cookie header of a request sent at time `now`: name and value of
   * every stored cookie that has not expired.  A user agent evicts expired
   * cookies, and storing a cookie whose expiry lies in the past removes the
   * old one (section 5.3 of RFC 6265); leaving them in the store but never
   * sending them is the same as far as any server can tell.
   */
  function CookieHeader(jar: map<string, Cookie>, now: int): (header: map<string, string>)
    ensures forall n :: n in header <==> n in jar && now < jar[n].expiresAt
    ensures forall n :: n in header ==> header[n] == jar[n].value
  {
    map n | n in jar && now < jar[n].expiresAt :: jar[n].value
  }

  /** The browser window: one field per copy of the flag, so that they can disagree. */
  class Browser {
    const hasWindow: bool
    var storage: map<string, string>
    var cookies: map<string, Cookie>
    var events: seq<AuthEvent>
    var now: nat

    function State(): BrowserState
      reads this
    {
      BrowserState(hasWindow, storage, cookies, events, now)
    }

    constructor (hasWindow: bool, storage: map<string, string>, cookies: map<string, Cookie>, now: nat)
      ensures State() == BrowserState(hasWindow, storage, cookies, [], now)
    {
      this.hasWindow := hasWindow;
      this.storage := storage;
      this.cookies := cookies;
      this.events := [];
      this.now := now;
    }

    method SetDevAuth()
      modifies this
      ensures State() == AfterSetDevAuth(old(State()))
    {
      if !hasWindow {
        return;
      }
      storage := storage[DevAuthStorageKey := FlagValue];
      cookies := cookies[DevAuthCookieName := SessionCookie(now)];
      events := events + [AuthStateChanged(true)];
    }

    method ClearDevAuth()
      modifies this
      ensures State() == AfterClearDevAuth(old(State()))
    {
      if !hasWindow {
        return;
      }
      storage := storage - {DevAuthStorageKey};
      cookies := cookies[DevAuthCookieName := ClearingCookie];
      events := events + [AuthStateChanged(false)];
    }

    /** Time passes; nothing else changes. */
    method Elapse(ms: nat)
      modifies this`now
      ensures now == old(now) + ms
    {
      now := now + ms;
    }

    /** The cookies a request to the server carries now. */
    function RequestCookies(): map<string, string>
      reads this
    {
      CookieHeader(cookies, now)
    }
  }

  /** Exactly the fixed pair is accepted; in particular empty strings are refused. */
  lemma ValidateDevCredentialsExact(email: string, password: string)
    ensures ValidateDevCredentials(email, password) <==> email == "dev@example.com" && password == "dev12345"
    ensures email == "" || password == "" ==> !ValidateDevCredentials(email, password)
  {
  }

  /** With a window, setting the flag makes the client-side read true, whatever the state before. */
  lemma SetThenActive(s: BrowserState)
    ensures IsDevAuthActive(AfterSetDevAuth(s)) <==> s.hasWindow
  {
  }

  /** Clearing the flag makes the client-side read false, whatever the state before. */
  lemma ClearThenInactive(s: BrowserState)
    ensures !IsDevAuthActive(AfterClearDevAuth(s))
  {
  }

  /** Without a window the read is false and set and clear change nothing and dispatch nothing. */
  lemma NoWindowIsInert(s: BrowserState)
    requires !s.hasWindow
    ensures !IsDevAuthActive(s)
    ensures AfterSetDevAuth(s) == s && AfterClearDevAuth(s) == s
  {
  }

  /** The client-side read depends on the storage copy only: any cookie store gives the same answer. */
  lemma ActiveIgnoresCookies(s: BrowserState, jar: map<string, Cookie>)
    ensures IsDevAuthActive(s.(cookies := jar)) == IsDevAuthActive(s)
  {
  }

  /** The session cookie is sent on every request until its recorded expiry, seven days after `setDevAuth` less under a second, and never after. */
  lemma SessionCookieLifetime(s: BrowserState, t: int)
    requires s.hasWindow
    ensures var header := CookieHeader(AfterSetDevAuth(s).cookies, t);
      (DevAuthCookieName in header <==> t < SessionExpiry(s.now))
      && (DevAuthCookieName in header ==> header[DevAuthCookieName] == FlagValue)
  {
  }

  /** After `clearDevAuth` no request from a time after the epoch carries the cookie. */
  lemma ClearedCookieNeverSent(s: BrowserState, t: nat)
    requires s.hasWindow
    ensures DevAuthCookieName !in CookieHeader(AfterClearDevAuth(s).cookies, t)
  {
  }

  /** Set and clear leave every other cookie as it was sent before. */
  lemma OtherCookiesUntouched(s: BrowserState, t: int, n: string)
    requires n != DevAuthCookieName
    ensures var before := CookieHeader(s.cookies, t);
      && (n in CookieHeader(AfterSetDevAuth(s).cookies, t) <==> n in before)
      && (n in CookieHeader(AfterClearDevAuth(s).cookies, t) <==> n in before)
      && (n in before ==> CookieHeader(AfterSetDevAuth(s).cookies, t)[n] == before[n]
                          == CookieHeader(AfterClearDevAuth(s).cookies, t)[n])
  {
  }
}
