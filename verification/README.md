# x-stealth scrape pipeline: a Dafny model

This project models the decision logic of the x-stealth skill. The skill scrapes
one post from X with a headless browser that carries an authenticated session.
Three Python files are modelled:

- `stealth.py` is the scraper. It loads `cookies.json` into a fresh browser
  context. It navigates to the URL and waits for the post text to render. It
  then reads the text, the author and the `time` attribute, each with its own
  fallback. It prints exactly one record (success or error) and closes the
  browser in a `finally`. Its `__main__` guard rejects a missing URL argument.
- `camera.py` is the diagnostic capture. It deletes the `sameSite` and `storeId`
  keys, in place, from every cookie. It opens the home timeline, swallows a
  load timeout, and takes a screenshot anyway.
- `handler.py` is the dispatch handler. It chooses an interpreter, runs the
  scraper as a subprocess, and maps the outcome to the string it returns.

Everything foreign becomes an input. The page is an oracle that says, for each
awaited step, whether it completes, what it returns, or what it raises. The
clock is a pair of readings. The cookie file is its parsed content or a read
error. The subprocess is a function from command line to outcome. The browser
is a class that records what is done to it: cookies added, pages opened,
navigations (each with the cookies held at that moment), screenshots and
`close` calls. The process's stdout and stderr form a `Console` class holding
the printed records and the warning lines.

Modules:

- `Runtime` (runtime.dfy): `Option`, `Outcome`, `Cookie`, `CookieFile`, and the
  `Browser` recorder.
- `Stealth` (stealth.dfy): the records and the dictionaries they print as, the
  page oracle, and the specification function `ScrapeRecord`. It also has the
  `Console` class and the imperative `ScrapeTweet` and `RunScript`.
- `Camera` (camera.dfy): the cookie sanitiser as a pure function and as an
  in-place loop over an `array<Cookie>`, plus the photo run.
- `Handler` (handler.dfy): substring search, Python's
  `strip`, and the outcome classification.

Three behaviours of the code are easy to misread. The model follows the code
in each:

- The comment at stealth.py:36 speaks of filtering the cookies, but no filter
  follows it: `stealth.py` passes the parsed cookies to `add_cookies` as read. Only
  `camera.py` strips them (camera.py:18-20). `Hydrate` therefore applies the
  file's cookies as they are, and a rejection by `add_cookies` becomes a warning.
- `handler.py` reports a configuration error for a non-zero exit only when
  stderr contains `No module named` (handler.py:33-37). Any other non-zero exit
  returns `Script Error: ` followed by stderr.
- The fallback clock reading is taken only when the `time` element is absent
  (stealth.py:60-61). An element without a `datetime` attribute yields `None`,
  which is printed as JSON `null`. The model keeps `timestamp: Option<string>`.

## Model

| member | source | states |
|---|---|---|
| `Stealth.Fields` | stealth.py:63-80 | every printed dictionary has a `status` of `success` or `error`; a success has exactly the keys status, url, author, content, timestamp, scraped_at; a scrape error has exactly status, message, url; the argument error has exactly status, message |
| `Stealth.ParseFields` | stealth.py:63-80 | every record is read back intact from the dictionary that is printed, so the key names and status tag identify the variant |
| `Stealth.ReplaceNewlines` | stealth.py:66 | the normalised author has the raw author's length, contains no newline, has a space wherever the raw author had a newline, and keeps every other character at its place |
| `Stealth.ReplaceNewlinesFixes` | stealth.py:66 | replacement leaves a string unchanged exactly when the string has no newline |
| `Stealth.FirstFailure` | stealth.py:48-61 | no step raised exactly when goto and the selector wait completed and none of the text, author and `time` lookups raised; each raising step reports its own message, and the first one to raise wins, in the order goto, selector wait, text, author, `time` |
| `Stealth.Observed` | stealth.py:54-61 | a lookup that found its element gives the value read; a missing element gives the fallback |
| `Stealth.ScrapeRecord` | stealth.py:47-80 | the record always carries the input URL; it is a success exactly when no awaited step raised, and otherwise an error whose message is the first raised message; a success's author has no newline and its scraped_at is the clock reading; a found text is the content, a found author is the author with newlines as spaces, and a found `time` element's attribute is the timestamp |
| `Stealth.FoundFields` | stealth.py:54-70 | with every element present and nothing raised, the content is the text read, the timestamp is the `datetime` attribute, and the printed dictionary is exactly status `success`, the URL, the normalised author, the text, that timestamp and the scraped_at reading |
| `Stealth.SuccessRecord` | stealth.py:63-70 | when nothing raised, the printed dictionary has the six success keys, status `success`, the input URL and the scraped_at reading |
| `Stealth.AuthorNormalised` | stealth.py:57-66 | a found author is printed with the same length, with no newline, with a space at every place the raw author had a newline, and with every other character unchanged in place |
| `Stealth.FailureRecord` | stealth.py:74-80 | if goto, the selector wait or any extraction step raises, the printed dictionary is exactly status `error`, that exception's message and the input URL |
| `Stealth.TextFallback` | stealth.py:54-55 | a missing text element gives content `No text found`; the record is otherwise the same as if the element had held that text |
| `Stealth.AuthorFallback` | stealth.py:57-58 | a missing author element gives author `Unknown Author`, unaltered by the newline replacement; nothing else changes |
| `Stealth.TimeFallback` | stealth.py:60-61 | a missing `time` element gives the fallback clock reading as timestamp; nothing else changes |
| `Stealth.Hydrate` | stealth.py:31-43 | cookie loading yields at most one stderr warning; there is no warning exactly when the file parsed and `add_cookies` succeeded, and then every cookie of the file is applied unfiltered; after a warning no cookie is applied; a missing file gives the guest warning |
| `Stealth.LoadCookies` | stealth.py:31-43 | the context gains exactly the cookies `Hydrate` applies and stderr gains exactly its warnings |
| `Stealth.ScrapeTweet` | stealth.py:11-83 | stdout gains exactly one record, `ScrapeRecord` of the inputs; stderr gains only the cookie warnings; the fresh browser opens one page, navigates once to the URL after the cookies are in place whatever the cookie outcome, and is closed exactly once on every path |
| `Stealth.RunScript` | stealth.py:85-91 | with fewer than two argv entries the only output is the argument-error record, the exit code is 1 and no browser is launched; otherwise `argv[1]` is scraped, the browser is closed once and the exit code is 0 |
| `Stealth.ArgumentErrorFields` | stealth.py:86-88 | the argument-error record prints as exactly `{"status": "error", "message": "No URL provided"}` |
| `Camera.Sanitized` | camera.py:19-20 | a sanitised cookie has neither `sameSite` nor `storeId`, has exactly the other keys, and keeps their values |
| `Camera.SanitizedKeepsClean` | camera.py:18-20 | a cookie without either key is left as it is, so sanitising a cookie twice equals sanitising it once |
| `Camera.SanitizedAll` | camera.py:18-20 | the loop keeps the number and order of cookies and sanitises each one |
| `Camera.SanitizedAllClean` | camera.py:18-21 | after the loop no cookie has `sameSite` or `storeId`, and every other key of every cookie keeps its value |
| `Camera.SanitizedAllIdempotent` | camera.py:18-20 | running the loop a second time leaves the list unchanged |
| `Camera.SanitizedAllOfClean` | camera.py:18-20 | a list with neither key anywhere is left exactly as it is |
| `Camera.SanitizeCookies` | camera.py:18-20 | the in-place loop leaves the array equal to the sanitised list of its old contents |
| `Camera.CookieStage` | camera.py:12-24 | a missing cookie file adds no cookies and the run continues; cookies that are added are all clean, and they are the sanitised file contents; the run is aborted exactly when the file cannot be read or `add_cookies` raises, with that exception's message |
| `Camera.PhotoOutcome` | camera.py:26-38 | the run completes exactly when the cookie step went through and the screenshot did not raise; a completed run reports a swallowed timeout exactly when goto or the settle wait raised; an escaping exception from the cookie step or the screenshot is the run's crash message |
| `Camera.NavigationIrrelevant` | camera.py:29-36 | whether the photo is taken does not depend on whether goto or the settle wait raised |
| `Camera.TakePhoto` | camera.py:6-38 | once the page exists the screenshot is attempted whatever navigation did; the browser is closed once when the run completes and never when an exception escapes; the context holds exactly the sanitised cookies when navigating |
| `Handler.Contains` | handler.py:35 | a string that starts with the needle contains it, and a string shorter than the needle never does |
| `Handler.ContainsIff` | handler.py:35 | the left-to-right scan finds the substring exactly when it occurs at some index |
| `Handler.ContainsSuffix` | handler.py:36 | a message ending with stderr contains stderr |
| `Handler.LeadingSpace` | handler.py:39 | counts the whitespace run that starts the string: all counted characters are whitespace and the next one is not |
| `Handler.TrailingSpace` | handler.py:39 | counts the whitespace run that ends the string: all counted characters are whitespace and the one before is not |
| `Handler.Strip` | handler.py:39 | the stripped text is a contiguous slice of the input; everything cut before and after it is whitespace; it has no whitespace at either end |
| `Handler.StripIdempotent` | handler.py:39 | stripping twice equals stripping once |
| `Handler.Interpreter` | handler.py:19 | the venv's python is chosen when it exists, `python3` otherwise |
| `Handler.Classify` | handler.py:24-42 | a launch exception gives `Failed to execute stealth scraper: ` and the message; a non-zero exit with `No module named` in stderr begins with `Configuration Error: Dependencies not found.` and contains stderr; without it, the result is `Script Error: ` and stderr; a zero exit gives stdout stripped: no whitespace at either end, and a slice of stdout |
| `Handler.ReadXPost` | handler.py:5-42 | a missing script gives exactly the not-found message; otherwise the command run is the venv python when it exists, else `python3`, then the script path and the URL, and its outcome is classified |
| `Handler.MissingScriptRunsNothing` | handler.py:21-22 | with the script missing the result does not depend on the subprocess at all, so nothing is run |

## Left out

- Browser launch flags, the user agent, the viewport and `HEADLESS` (stealth.py:16-29, camera.py:9-10) are opaque library configuration: `Browser.Launch` stands for them.
- DOM queries, the selectors and `inner_text`/`get_attribute` are the page oracle. A `Probe` merges `query_selector` and the read that follows it, because either raising ends the try block alike.
- JSON text is not modelled. A record is modelled as the dictionary passed to `json.dumps` (`Fields`), so key order is not modelled. `json.load` is modelled as its parsed result.
- `datetime.now()` is the `Clock` parameter: one reading for the timestamp fallback and one for `scraped_at`.
- File existence checks and path construction (stealth.py:13, camera.py:13, handler.py:12-16) are inputs.
- `subprocess.run` is the `run` parameter. Its 300 s timeout raises, so it is one of the `LaunchFailed` outcomes.
- asyncio scheduling and the timeout durations: a timeout only matters as a step that raised.
- The progress prints of camera.py and the greeting print at handler.py:9 are output for humans and are not modelled. The screenshot file itself is only the recorded path.
- Exceptions from browser launch, `new_context` or `new_page` are not modelled: in stealth.py they happen before the `try` and escape `scrape_tweet`; in camera.py (camera.py:9, 10, 26) they escape `take_photo`. The model assumes these calls succeed.
- `browser.close()` (stealth.py:83, camera.py:38) is assumed not to raise in either script.
- Cookie values are kept as strings. JSON numbers and booleans (`expires`, `httpOnly`) are not told apart, because no modelled logic looks at them.
- `add_cookies` is modelled as all-or-nothing: when it raises, no cookie is taken to be applied.
- Handler.Classify: for the missing-dependency case, the contract states the fixed opening sentence and that stderr is included, rather than the exact message with its venv hint and `Debug:` line.
