/** `camera.py`: a diagnostic capture. Cookies are read, stripped of the two
    keys the browser context refuses, and added; the home timeline is opened;
    a load timeout is swallowed and the screenshot is taken regardless. */
module Camera {
  import opened Runtime

  const SameSite := "sameSite"
  const StoreId := "storeId"
  const HomeUrl := "https://x.com/home"
  const EvidencePath := "evidence.png"

  /** Neither of the two refused keys is present. */
  predicate Clean(c: Cookie)
  {
    SameSite !in c && StoreId !in c
  }

  /** One pass of the loop body: `sameSite` is deleted if present, then `storeId`. */
  function Sanitized(c: Cookie): (r: Cookie)
    ensures Clean(r)
    ensures r.Keys == c.Keys - {SameSite, StoreId}
    ensures forall k :: k in r ==> r[k] == c[k]
  {
    var c' := if SameSite in c then c - {SameSite} else c;
    if StoreId in c' then c' - {StoreId} else c'
  }

  /** A cookie without either key passes through untouched, so sanitising is idempotent. */
  lemma SanitizedKeepsClean(c: Cookie)
    ensures Clean(c) ==> Sanitized(c) == c
    ensures Sanitized(Sanitized(c)) == Sanitized(c)
  {
  }

  /** The list after the whole loop. */
  function SanitizedAll(cs: seq<Cookie>): (r: seq<Cookie>)
    ensures |r| == |cs|
    ensures forall i :: 0 <= i < |cs| ==> r[i] == Sanitized(cs[i])
  {
    if cs == [] then [] else [Sanitized(cs[0])] + SanitizedAll(cs[1..])
  }

  /** After the loop no cookie holds `sameSite` or `storeId`, and every
      other key of every cookie keeps its value; count and order are kept. */
  lemma SanitizedAllClean(cs: seq<Cookie>, i: nat)
    requires i < |cs|
    ensures SameSite !in SanitizedAll(cs)[i] && StoreId !in SanitizedAll(cs)[i]
    ensures forall k :: k in cs[i] && k != SameSite && k != StoreId ==>
      k in SanitizedAll(cs)[i] && SanitizedAll(cs)[i][k] == cs[i][k]
  {
  }

  /** Running the loop a second time changes nothing. */
  lemma SanitizedAllIdempotent(cs: seq<Cookie>)
    ensures SanitizedAll(SanitizedAll(cs)) == SanitizedAll(cs)
  {
  }

  /** A list that is already clean is left exactly as it is. */
  lemma SanitizedAllOfClean(cs: seq<Cookie>)
    requires forall i :: 0 <= i < |cs| ==> Clean(cs[i])
    ensures SanitizedAll(cs) == cs
  {
  }

  /** The `for c in cookies` loop: each dictionary is edited where it stands. */
  method SanitizeCookies(a: array<Cookie>)
    modifies a
    ensures a[..] == SanitizedAll(old(a[..]))
  {
    var i := 0;
    while i < a.Length
      invariant 0 <= i <= a.Length
      invariant forall j :: 0 <= j < i ==> a[j] == Sanitized(old(a[j]))
      invariant forall j :: i <= j < a.Length ==> a[j] == old(a[j])
    {
      if SameSite in a[i] {
        a[i] := a[i] - {SameSite};
      }
      if StoreId in a[i] {
        a[i] := a[i] - {StoreId};
      }
      i := i + 1;
    }
  }

  /** How far the cookie step gets: on to the page with these cookies added,
      or an uncaught exception from reading the file or from `add_cookies`. */
  datatype Stage = Proceed(cookies: seq<Cookie>) | Abort(message: string)

  /** The cookie step. A missing file is only reported; there is no `try`
      around reading or adding, so either raising ends the run. */
  function CookieStage(file: CookieFile, adding: Outcome): (s: Stage)
    ensures file.Absent? ==> s == Proceed([])
    ensures s.Abort? <==> file.Unreadable? || (file.Parsed? && adding.Threw?)
    ensures file.Unreadable? ==> s == Abort(file.message)
    ensures file.Parsed? && adding.Threw? ==> s == Abort(adding.message)
    ensures s.Proceed? ==> forall i :: 0 <= i < |s.cookies| ==> Clean(s.cookies[i])
    ensures file.Parsed? && adding.Ok? ==> s == Proceed(SanitizedAll(file.cookies))
  {
    match file
    case Absent => Proceed([])
    case Unreadable(message) => Abort(message)
    case Parsed(cookies) =>
      if adding.Threw? then Abort(adding.message) else Proceed(SanitizedAll(cookies))
  }

  /** How a run ends: the photo was taken (after a swallowed load timeout
      or not), or an exception escaped `take_photo`. */
  datatype PhotoRun = Completed(loadTimedOut: bool) | Crashed(message: string)

  /** The run `take_photo` makes, from the outcomes of its raising steps. */
  function PhotoOutcome(file: CookieFile, adding: Outcome, goto: Outcome, settle: Outcome, shot: Outcome)
    : (run: PhotoRun)
    ensures run.Completed? <==> CookieStage(file, adding).Proceed? && shot.Ok?
    ensures run.Completed? ==> (run.loadTimedOut <==> goto.Threw? || settle.Threw?)
    ensures CookieStage(file, adding).Abort? ==> run == Crashed(CookieStage(file, adding).message)
    ensures CookieStage(file, adding).Proceed? && shot.Threw? ==> run == Crashed(shot.message)
  {
    match CookieStage(file, adding)
    case Abort(message) => Crashed(message)
    case Proceed(_) =>
      var timedOut := goto.Threw? || (goto.Ok? && settle.Threw?);
      if shot.Threw? then Crashed(shot.message) else Completed(timedOut)
  }

  /** Whether the photo is taken never depends on how navigation went. */
  lemma NavigationIrrelevant(file: CookieFile, adding: Outcome, goto: Outcome, settle: Outcome, shot: Outcome)
    ensures PhotoOutcome(file, adding, goto, settle, shot).Completed?
        == PhotoOutcome(file, adding, Ok, Ok, shot).Completed?
  {
  }

  /** `take_photo()`. The browser it launches is returned so that callers
      can see what was done to it. Once the page exists the screenshot is
      attempted whatever navigation did; the browser is closed only when
      no exception escaped, since there is no `finally`. */
  method TakePhoto(file: CookieFile, adding: Outcome, goto: Outcome, settle: Outcome, shot: Outcome)
    returns (browser: Browser, run: PhotoRun)
    ensures fresh(browser)
    ensures run == PhotoOutcome(file, adding, goto, settle, shot)
    ensures browser.closeCount == if run.Completed? then 1 else 0
    ensures CookieStage(file, adding).Proceed? ==>
      var cookies := CookieStage(file, adding).cookies;
      && browser.cookies == cookies
      && browser.pages == 1
      && browser.visits == [Visit(HomeUrl, cookies)]
      && browser.screenshots == [EvidencePath]
    ensures CookieStage(file, adding).Abort? ==>
      browser.cookies == [] && browser.pages == 0 && browser.visits == [] && browser.screenshots == []
  {
    browser := new Browser.Launch();
    match file {
      case Absent =>
      case Unreadable(message) =>
        return browser, Crashed(message);
      case Parsed(cs) =>
        var cookies := new Cookie[|cs|](i requires 0 <= i < |cs| => cs[i]);
        assert cookies[..] == cs;
        SanitizeCookies(cookies);
        if adding.Threw? {
          return browser, Crashed(adding.message);
        }
        browser.AddCookies(cookies[..]);
    }
    browser.NewPage();

    var timedOut := false;
    browser.Goto(HomeUrl);
    if goto.Threw? {
      timedOut := true;
    } else if settle.Threw? {
      timedOut := true;
    }

    browser.Screenshot(EvidencePath);
    if shot.Threw? {
      return browser, Crashed(shot.message);
    }
    browser.Close();
    run := Completed(timedOut);
  }
}
