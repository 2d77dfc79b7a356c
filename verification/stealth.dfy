/** `stealth.py`: one scrape of one post. Cookies are loaded into a fresh
    browser context, the page is navigated and awaited, three fields are read
    with per-field fallbacks, and exactly one record is printed before the
    browser is closed. */
module Stealth {
  import opened Runtime

  const NoTextFound := "No text found"
  const UnknownAuthor := "Unknown Author"
  const NoUrlProvided := "No URL provided"
  const GuestWarning := "Warning: cookies.json not found. Running as guest."
  const CookieWarningPrefix := "Warning: Could not load cookies: "

  /** The record printed on stdout. `ArgumentError` is the record of the
      argument guard, the only one without a `url` key. */
  datatype Record =
    | Success(url: string, author: string, content: string, timestamp: Option<string>, scrapedAt: string)
    | Failure(message: string, url: string)
    | ArgumentError(message: string)

  /** The JSON values a record holds: strings, and `null` for a `time`
      element without a `datetime` attribute. */
  datatype Json = Str(s: string) | Null

  const SuccessKeys: set<string> := {"status", "url", "author", "content", "timestamp", "scraped_at"}
  const FailureKeys: set<string> := {"status", "message", "url"}
  const ArgumentErrorKeys: set<string> := {"status", "message"}

  /** The dictionary handed to `json.dumps`. */
  function Fields(r: Record): (m: map<string, Json>)
    ensures "status" in m && (m["status"] == Str("success") || m["status"] == Str("error"))
    ensures m["status"] == Str("success") <==> r.Success?
    ensures m.Keys == if r.Success? then SuccessKeys else if r.Failure? then FailureKeys else ArgumentErrorKeys
  {
    match r
    case Success(url, author, content, timestamp, scrapedAt) =>
      map["status" := Str("success"), "url" := Str(url), "author" := Str(author), "content" := Str(content),
          "timestamp" := (if timestamp.Some? then Str(timestamp.value) else Null), "scraped_at" := Str(scrapedAt)]
    case Failure(message, url) =>
      map["status" := Str("error"), "message" := Str(message), "url" := Str(url)]
    case ArgumentError(message) =>
      map["status" := Str("error"), "message" := Str(message)]
  }

  /** What a consumer of stdout reads back from a dictionary. */
  function Parse(m: map<string, Json>): Option<Record>
  {
    if m.Keys == SuccessKeys && m["status"] == Str("success")
       && m["url"].Str? && m["author"].Str? && m["content"].Str? && m["scraped_at"].Str?
    then
      var timestamp := if m["timestamp"].Str? then Some(m["timestamp"].s) else None;
      Some(Success(m["url"].s, m["author"].s, m["content"].s, timestamp, m["scraped_at"].s))
    else if m.Keys == FailureKeys && m["status"] == Str("error") && m["message"].Str? && m["url"].Str? then
      Some(Failure(m["message"].s, m["url"].s))
    else if m.Keys == ArgumentErrorKeys && m["status"] == Str("error") && m["message"].Str? then
      Some(ArgumentError(m["message"].s))
    else
      None
  }

  /** Every record is recovered intact from the dictionary that is printed:
      the field names and the status tag identify the variant. */
  lemma ParseFields(r: Record)
    ensures Parse(Fields(r)) == Some(r)
  {
  }

  /** `author.replace("\n", " ")`: the pattern is one character long, so
      each occurrence is replaced where it stands. */
  function ReplaceNewlines(s: string): (r: string)
    ensures |r| == |s| && '\n' !in r
    ensures forall k :: 0 <= k < |s| && s[k] == '\n' ==> r[k] == ' '
    ensures forall k :: 0 <= k < |s| && s[k] != '\n' ==> r[k] == s[k]
  {
    seq(|s|, k requires 0 <= k < |s| => if s[k] == '\n' then ' ' else s[k])
  }

  /** Replacing leaves a string alone exactly when it has no newline. */
  lemma ReplaceNewlinesFixes(s: string)
    ensures ReplaceNewlines(s) == s <==> '\n' !in s
  {
  }

  /** One lookup on the page: `query_selector` finds nothing, or the element's
      text or attribute is read, or one of the two calls raises. */
  datatype Probe<T> = Missing | Found(value: T) | Failed(message: string)

  /** The page as the scrape observes it, one entry per awaited step in
      `scrape_tweet`'s try block. `time` is `Found(None)` when the `time`
      element has no `datetime` attribute. */
  datatype Page = Page(
    goto: Outcome,
    ready: Outcome,
    text: Probe<string>,
    author: Probe<string>,
    time: Probe<Option<string>>)

  /** The two readings of `datetime.now().isoformat()`: the timestamp
      fallback and `scraped_at`. */
  datatype Clock = Clock(fallback: string, scrapedAt: string)

  /** The message of the first step of the try block that raises, if any:
      goto, the selector wait, then the text, author and `time` lookups. */
  function FirstFailure(page: Page): (f: Option<string>)
    ensures f == None <==>
      page.goto.Ok? && page.ready.Ok? && !page.text.Failed? && !page.author.Failed? && !page.time.Failed?
    ensures page.goto.Threw? ==> f == Some(page.goto.message)
    ensures page.goto.Ok? && page.ready.Threw? ==> f == Some(page.ready.message)
    ensures page.goto.Ok? && page.ready.Ok? && page.text.Failed? ==> f == Some(page.text.message)
    ensures page.goto.Ok? && page.ready.Ok? && !page.text.Failed? && page.author.Failed? ==>
      f == Some(page.author.message)
    ensures page.goto.Ok? && page.ready.Ok? && !page.text.Failed? && !page.author.Failed? && page.time.Failed? ==>
      f == Some(page.time.message)
  {
    if page.goto.Threw? then Some(page.goto.message)
    else if page.ready.Threw? then Some(page.ready.message)
    else if page.text.Failed? then Some(page.text.message)
    else if page.author.Failed? then Some(page.author.message)
    else if page.time.Failed? then Some(page.time.message)
    else None
  }

  /** A lookup that did not raise: the value read, or the fallback when the
      element is absent. */
  function Observed<T>(p: Probe<T>, fallback: T): (v: T)
    requires !p.Failed?
    ensures p.Found? ==> v == p.value
    ensures p.Missing? ==> v == fallback
  {
    if p.Found? then p.value else fallback
  }

  /** The record `scrape_tweet` prints for `url` against `page`. */
  function ScrapeRecord(url: string, page: Page, clock: Clock): (r: Record)
    ensures !r.ArgumentError? && r.url == url
    ensures r.Success? <==> FirstFailure(page) == None
    ensures r.Failure? ==> Some(r.message) == FirstFailure(page)
    ensures r.Success? ==> '\n' !in r.author && r.scrapedAt == clock.scrapedAt
    ensures r.Success? && page.text.Found? ==> r.content == page.text.value
    ensures r.Success? && page.author.Found? ==> r.author == ReplaceNewlines(page.author.value)
    ensures r.Success? && page.time.Found? ==> r.timestamp == page.time.value
  {
    match FirstFailure(page)
    case Some(message) => Failure(message, url)
    case None =>
      Success(url,
              ReplaceNewlines(Observed(page.author, UnknownAuthor)),
              Observed(page.text, NoTextFound),
              Observed(page.time, Some(clock.fallback)),
              clock.scrapedAt)
  }

  /** A success record carries the input URL and the six fixed keys. */
  lemma SuccessRecord(url: string, page: Page, clock: Clock)
    requires FirstFailure(page) == None
    ensures var m := Fields(ScrapeRecord(url, page, clock));
      && m.Keys == SuccessKeys
      && m["status"] == Str("success")
      && m["url"] == Str(url)
      && m["scraped_at"] == Str(clock.scrapedAt)
  {
  }

  /** The success record's author is the observed author text with every
      newline turned into a space and every other character kept in place. */
  lemma AuthorNormalised(url: string, page: Page, clock: Clock)
    requires FirstFailure(page) == None && page.author.Found?
    ensures var a, r := page.author.value, ScrapeRecord(url, page, clock);
      && |r.author| == |a|
      && '\n' !in r.author
      && (forall k :: 0 <= k < |a| && a[k] == '\n' ==> r.author[k] == ' ')
      && (forall k :: 0 <= k < |a| && a[k] != '\n' ==> r.author[k] == a[k])
  {
  }

  /** With every element present, the success record carries what was read:
      the text as content, the author with newlines as spaces, and the
      `datetime` attribute as timestamp. */
  lemma FoundFields(url: string, page: Page, clock: Clock, text: string, author: string, time: string)
    requires page.goto.Ok? && page.ready.Ok?
    requires page.text == Found(text) && page.author == Found(author) && page.time == Found(Some(time))
    ensures ScrapeRecord(url, page, clock).content == text
    ensures ScrapeRecord(url, page, clock).timestamp == Some(time)
    ensures Fields(ScrapeRecord(url, page, clock)) == map[
      "status" := Str("success"), "url" := Str(url), "author" := Str(ReplaceNewlines(author)),
      "content" := Str(text), "timestamp" := Str(time), "scraped_at" := Str(clock.scrapedAt)]
  {
  }

  /** Any raising step gives the error record with that step's message and
      the input URL, and no success record. */
  lemma FailureRecord(url: string, page: Page, clock: Clock, message: string)
    requires FirstFailure(page) == Some(message)
    ensures Fields(ScrapeRecord(url, page, clock))
      == map["status" := Str("error"), "message" := Str(message), "url" := Str(url)]
  {
  }

  /** A missing text element yields the fallback content and changes nothing
      else: the record is the one the page would give had the element held
      the fallback text. */
  lemma TextFallback(url: string, page: Page, clock: Clock)
    requires FirstFailure(page) == None && page.text.Missing?
    ensures ScrapeRecord(url, page, clock).content == NoTextFound
    ensures ScrapeRecord(url, page, clock) == ScrapeRecord(url, page.(text := Found(NoTextFound)), clock)
  {
  }

  /** A missing author element yields the fallback author, unaltered by the
      newline replacement, and changes nothing else. */
  lemma AuthorFallback(url: string, page: Page, clock: Clock)
    requires FirstFailure(page) == None && page.author.Missing?
    ensures ScrapeRecord(url, page, clock).author == UnknownAuthor
    ensures ScrapeRecord(url, page, clock) == ScrapeRecord(url, page.(author := Found(UnknownAuthor)), clock)
  {
    ReplaceNewlinesFixes(UnknownAuthor);
  }

  /** A missing `time` element yields the clock reading as timestamp and
      changes nothing else. */
  lemma TimeFallback(url: string, page: Page, clock: Clock)
    requires FirstFailure(page) == None && page.time.Missing?
    ensures ScrapeRecord(url, page, clock).timestamp == Some(clock.fallback)
    ensures ScrapeRecord(url, page, clock) == ScrapeRecord(url, page.(time := Found(Some(clock.fallback))), clock)
  {
  }

  /** What loading cookies before navigation leaves behind: the cookies the
      context holds and the lines written to stderr. */
  datatype Hydration = Hydration(cookies: seq<Cookie>, warnings: seq<string>)

  /** Cookie loading never stops the scrape: it either applies every cookie
      of the file, unfiltered, or writes one warning and applies none. */
  function Hydrate(file: CookieFile, adding: Outcome): (h: Hydration)
    ensures |h.warnings| <= 1
    ensures h.warnings == [] <==> file.Parsed? && adding.Ok?
    ensures h.warnings == [] ==> h.cookies == file.cookies
    ensures h.warnings != [] ==> h.cookies == []
    ensures file.Absent? ==> h.warnings == [GuestWarning]
  {
    match file
    case Absent => Hydration([], [GuestWarning])
    case Unreadable(message) => Hydration([], [CookieWarningPrefix + message])
    case Parsed(cookies) =>
      if adding.Ok? then Hydration(cookies, [])
      else Hydration([], [CookieWarningPrefix + adding.message])
  }

  /** The process's two output streams: records on stdout, warning lines on stderr. */
  class Console {
    var stdout: seq<Record>
    var stderr: seq<string>

    constructor ()
      ensures stdout == [] && stderr == []
    {
      stdout, stderr := [], [];
    }

    method Emit(r: Record)
      modifies this`stdout
      ensures stdout == old(stdout) + [r]
    {
      stdout := stdout + [r];
    }

    method Warn(line: string)
      modifies this`stderr
      ensures stderr == old(stderr) + [line]
    {
      stderr := stderr + [line];
    }
  }

  /** The cookie step before the try block: a missing file or a raising load
      becomes a warning, never an error. */
  method LoadCookies(browser: Browser, file: CookieFile, adding: Outcome, console: Console)
    modifies browser`cookies, console`stderr
    ensures browser.cookies == old(browser.cookies) + Hydrate(file, adding).cookies
    ensures console.stderr == old(console.stderr) + Hydrate(file, adding).warnings
  {
    match file {
      case Absent =>
        console.Warn(GuestWarning);
      case Unreadable(message) =>
        console.Warn(CookieWarningPrefix + message);
      case Parsed(cookies) =>
        if adding.Threw? {
          console.Warn(CookieWarningPrefix + adding.message);
        } else {
          browser.AddCookies(cookies);
        }
    }
  }

  /** `scrape_tweet(url)`. The browser it launches is returned so that callers
      can see what was done to it: navigated once with the hydrated cookies,
      closed exactly once, and exactly one record printed, whatever raised. */
  method ScrapeTweet(url: string, file: CookieFile, adding: Outcome, page: Page, clock: Clock, console: Console)
    returns (browser: Browser)
    modifies console
    ensures fresh(browser)
    ensures console.stdout == old(console.stdout) + [ScrapeRecord(url, page, clock)]
    ensures console.stderr == old(console.stderr) + Hydrate(file, adding).warnings
    ensures browser.cookies == Hydrate(file, adding).cookies
    ensures browser.pages == 1 && browser.visits == [Visit(url, Hydrate(file, adding).cookies)]
    ensures browser.screenshots == [] && browser.closeCount == 1
  {
    browser := new Browser.Launch();
    LoadCookies(browser, file, adding, console);
    browser.NewPage();

    // The guarded block: each step runs only while nothing has raised.
    var raised: Option<string> := None;
    browser.Goto(url);
    if page.goto.Threw? {
      raised := Some(page.goto.message);
    }
    if raised == None && page.ready.Threw? {
      raised := Some(page.ready.message);
    }
    var text := NoTextFound;
    if raised == None {
      match page.text {
        case Missing =>
        case Found(t) => text := t;
        case Failed(message) => raised := Some(message);
      }
    }
    var author := UnknownAuthor;
    if raised == None {
      match page.author {
        case Missing =>
        case Found(a) => author := a;
        case Failed(message) => raised := Some(message);
      }
    }
    var timestamp := Some(clock.fallback);
    if raised == None {
      match page.time {
        case Missing =>
        case Found(t) => timestamp := t;
        case Failed(message) => raised := Some(message);
      }
    }
    var record: Record;
    if raised == None {
      record := Success(url, ReplaceNewlines(author), text, timestamp, clock.scrapedAt);
    } else {
      // The handler: the first raised message becomes the error record.
      record := Failure(raised.value, url);
    }
    assert record == ScrapeRecord(url, page, clock);
    console.Emit(record);
    // Closing happens on both paths.
    browser.Close();
  }

  /** The `__main__` block. With fewer than two argv entries the scrape is
      never reached: the argument error is the only output and the exit code
      is 1. Otherwise `argv[1]` is scraped and the process exits normally. */
  method RunScript(argv: seq<string>, file: CookieFile, adding: Outcome, page: Page, clock: Clock, console: Console)
    returns (exitCode: int, browser: Browser?)
    modifies console
    ensures |argv| < 2 ==>
      && exitCode == 1 && browser == null
      && console.stdout == old(console.stdout) + [ArgumentError(NoUrlProvided)]
      && console.stderr == old(console.stderr)
    ensures |argv| >= 2 ==>
      && exitCode == 0 && browser != null && fresh(browser) && browser.closeCount == 1
      && console.stdout == old(console.stdout) + [ScrapeRecord(argv[1], page, clock)]
      && console.stderr == old(console.stderr) + Hydrate(file, adding).warnings
  {
    if |argv| < 2 {
      console.Emit(ArgumentError(NoUrlProvided));
      return 1, null;
    }
    var b := ScrapeTweet(argv[1], file, adding, page, clock, console);
    return 0, b;
  }

  /** The argument-error record is exactly `{"status": "error", "message": "No URL provided"}`. */
  lemma ArgumentErrorFields()
    ensures Fields(ArgumentError(NoUrlProvided)) == map["status" := Str("error"), "message" := Str(NoUrlProvided)]
  {
  }
}
