/** The outside world the scripts drive: outcomes of steps that may raise,
    the cookies read from disk, and the Playwright browser, reduced to a
    recorder of what was done to it. */
module Runtime {

  datatype Option<+T> = None | Some(value: T)

  /** The outcome of an awaited call that returns nothing the caller keeps:
      it either completes or raises an exception whose `str(e)` is `message`. */
  datatype Outcome = Ok | Threw(message: string)

  /** One cookie record as `json.load` yields it: a dictionary from key to value. */
  type Cookie = map<string, string>

  /** What reading `cookies.json` yields. */
  datatype CookieFile =
    | Absent                        // `os.path.exists` is false
    | Unreadable(message: string)   // `open` or `json.load` raised
    | Parsed(cookies: seq<Cookie>)

  /** One call of `page.goto`: the URL and the cookies the context held at that moment. */
  datatype Visit = Visit(url: string, cookies: seq<Cookie>)

  /** A launched browser with its single context. Every field only grows:
      it is the record of the calls the scripts made on it. */
  class Browser {
    var cookies: seq<Cookie>      // cookies accepted by `context.add_cookies`
    var pages: nat                // calls of `context.new_page`
    var visits: seq<Visit>        // calls of `page.goto`, in order
    var screenshots: seq<string>  // paths passed to `page.screenshot`
    var closeCount: nat           // calls of `browser.close`

    constructor Launch()
      ensures cookies == [] && pages == 0 && visits == [] && screenshots == [] && closeCount == 0
    {
      cookies, pages, visits, screenshots, closeCount := [], 0, [], [], 0;
    }

    method AddCookies(cs: seq<Cookie>)
      modifies this`cookies
      ensures cookies == old(cookies) + cs
    {
      cookies := cookies + cs;
    }

    method NewPage()
      modifies this`pages
      ensures pages == old(pages) + 1
    {
      pages := pages + 1;
    }

    /** Navigation is recorded whether or not it then times out. */
    method Goto(url: string)
      modifies this`visits
      ensures visits == old(visits) + [Visit(url, cookies)]
    {
      visits := visits + [Visit(url, cookies)];
    }

    method Screenshot(path: string)
      modifies this`screenshots
      ensures screenshots == old(screenshots) + [path]
    {
      screenshots := screenshots + [path];
    }

    method Close()
      modifies this`closeCount
      ensures closeCount == old(closeCount) + 1
    {
      closeCount := closeCount + 1;
    }
  }
}
