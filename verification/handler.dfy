/** `handler.py`: the dispatch handler. It picks an interpreter, runs the
    scraper as a subprocess and turns the subprocess's outcome into the
    string it returns. */
module Handler {

  const NotFoundMessage := "Error: stealth.py not found in the x-stealth skill folder."
  const ConfigurationHead := "Configuration Error: Dependencies not found."
  const ConfigurationPrefix := ConfigurationHead + " Did you create the venv?\nDebug: "
  const ScriptErrorPrefix := "Script Error: "
  const LaunchFailurePrefix := "Failed to execute stealth scraper: "
  const MissingModule := "No module named"
  const SystemPython := "python3"

  /** What `subprocess.run` gives: it raises (including on its 300 s
      timeout), or the child exits with a code and its captured output. */
  datatype RunOutcome =
    | LaunchFailed(message: string)
    | Exited(returnCode: int, stdout: string, stderr: string)

  /** The two paths the handler builds next to itself and whether they exist. */
  datatype Layout = Layout(venvPython: string, venvExists: bool, scriptPath: string, scriptExists: bool)

  predicate StartsWith(s: string, prefix: string)
  {
    |prefix| <= |s| && s[..|prefix|] == prefix
  }

  /** `t` occurs in `s` starting at index `i`. */
  predicate OccursAt(s: string, t: string, i: int)
  {
    0 <= i && i + |t| <= |s| && s[i..i + |t|] == t
  }

  /** Python's `t in s`, scanning `s` from the left. */
  function Contains(s: string, t: string): (found: bool)
    ensures StartsWith(s, t) ==> found
    ensures found ==> |t| <= |s|
  {
    StartsWith(s, t) || (s != [] && Contains(s[1..], t))
  }

  /** The scan finds `t` exactly when `t` occurs somewhere in `s`. */
  lemma {:induction false} ContainsIff(s: string, t: string)
    ensures Contains(s, t) <==> exists i :: OccursAt(s, t, i)
  {
    if s != [] {
      ContainsIff(s[1..], t);
    }
    if Contains(s, t) {
      if StartsWith(s, t) {
        assert OccursAt(s, t, 0);
      } else {
        var i :| OccursAt(s[1..], t, i);
        assert s[i + 1..i + 1 + |t|] == s[1..][i..i + |t|];
        assert OccursAt(s, t, i + 1);
      }
    }
    if exists i :: OccursAt(s, t, i) {
      var i :| OccursAt(s, t, i);
      if i == 0 {
        assert StartsWith(s, t);
      } else {
        assert s[1..][i - 1..i - 1 + |t|] == s[i..i + |t|];
        assert OccursAt(s[1..], t, i - 1);
      }
    }
  }

  /** A string contains whatever it ends with. */
  lemma {:induction false} ContainsSuffix(prefix: string, t: string)
    ensures Contains(prefix + t, t)
  {
    if prefix == [] {
      assert prefix + t == t;
    } else {
      assert (prefix + t)[1..] == prefix[1..] + t;
      ContainsSuffix(prefix[1..], t);
    }
  }

  /** The characters `str.isspace` accepts. */
  predicate IsSpace(c: char)
  {
    || c == ' ' || ('\t' <= c <= '\r') || ('\U{1C}' <= c <= '\U{1F}')
    || c == '\U{85}' || c == '\U{A0}' || c == '\U{1680}'
    || ('\U{2000}' <= c <= '\U{200A}') || c == '\U{2028}' || c == '\U{2029}'
    || c == '\U{202F}' || c == '\U{205F}' || c == '\U{3000}'
  }

  /** The length of the run of whitespace that starts `s`. */
  function LeadingSpace(s: string): (n: nat)
    ensures n <= |s|
    ensures forall k :: 0 <= k < n ==> IsSpace(s[k])
    ensures n < |s| ==> !IsSpace(s[n])
  {
    if s == [] || !IsSpace(s[0]) then 0 else 1 + LeadingSpace(s[1..])
  }

  /** The length of the run of whitespace that ends `s`. */
  function TrailingSpace(s: string): (n: nat)
    ensures n <= |s|
    ensures forall k :: |s| - n <= k < |s| ==> IsSpace(s[k])
    ensures n < |s| ==> !IsSpace(s[|s| - 1 - n])
  {
    if s == [] || !IsSpace(s[|s| - 1]) then 0 else 1 + TrailingSpace(s[..|s| - 1])
  }

  /** `s.strip()`: the slice of `s` left after the whitespace at both ends is
      cut off. Nothing but whitespace is cut, and none is left at either end. */
  function Strip(s: string): (r: string)
    ensures LeadingSpace(s) + |r| <= |s|
    ensures r == s[LeadingSpace(s)..LeadingSpace(s) + |r|]
    ensures forall k :: LeadingSpace(s) + |r| <= k < |s| ==> IsSpace(s[k])
    ensures r != [] ==> !IsSpace(r[0]) && !IsSpace(r[|r| - 1])
  {
    var lead := LeadingSpace(s);
    var rest := s[lead..];
    var trail := TrailingSpace(rest);
    var r := rest[..|rest| - trail];
    assert r == s[lead..lead + |r|];
    assert forall k :: lead + |r| <= k < |s| ==> s[k] == rest[k - lead];
    assert r != [] ==> r[0] == s[lead] && r[|r| - 1] == rest[|rest| - 1 - trail];
    r
  }

  /** Stripping twice is stripping once. */
  lemma StripIdempotent(s: string)
    ensures Strip(Strip(s)) == Strip(s)
  {
  }

  /** The interpreter: the venv's python when it exists, else `python3`. */
  function Interpreter(layout: Layout): (exe: string)
    ensures layout.venvExists ==> exe == layout.venvPython
    ensures !layout.venvExists ==> exe == SystemPython
  {
    if layout.venvExists then layout.venvPython else SystemPython
  }

  /** The string returned for a subprocess that was started. */
  function Classify(outcome: RunOutcome): (r: string)
    ensures outcome.LaunchFailed? ==> r == LaunchFailurePrefix + outcome.message
    ensures outcome.Exited? && outcome.returnCode != 0 && Contains(outcome.stderr, MissingModule) ==>
      StartsWith(r, ConfigurationHead) && Contains(r, outcome.stderr)
    ensures outcome.Exited? && outcome.returnCode != 0 && !Contains(outcome.stderr, MissingModule) ==>
      r == ScriptErrorPrefix + outcome.stderr
    ensures outcome.Exited? && outcome.returnCode == 0 ==>
      && r == Strip(outcome.stdout)
      && (r != [] ==> !IsSpace(r[0]) && !IsSpace(r[|r| - 1]))
      && exists i :: OccursAt(outcome.stdout, r, i)
  {
    match outcome
    case LaunchFailed(message) => LaunchFailurePrefix + message
    case Exited(code, stdout, stderr) =>
      if code != 0 then
        if Contains(stderr, MissingModule) then
          ContainsSuffix(ConfigurationPrefix, stderr);
          assert ConfigurationPrefix[..|ConfigurationHead|] == ConfigurationHead;
          assert (ConfigurationPrefix + stderr)[..|ConfigurationHead|] == ConfigurationPrefix[..|ConfigurationHead|];
          ConfigurationPrefix + stderr
        else
          ScriptErrorPrefix + stderr
      else
        var r := Strip(stdout);
        assert OccursAt(stdout, r, LeadingSpace(stdout));
        r
  }

  /** `read_x_post(url)`, with `run` standing for `subprocess.run`. Without
      the script nothing is run; otherwise the command is the chosen
      interpreter, the script and the URL, and its outcome is classified. */
  function ReadXPost(url: string, layout: Layout, run: seq<string> -> RunOutcome): (r: string)
    ensures !layout.scriptExists ==> r == NotFoundMessage
    ensures layout.scriptExists ==>
      r == Classify(run([if layout.venvExists then layout.venvPython else SystemPython, layout.scriptPath, url]))
  {
    if !layout.scriptExists then NotFoundMessage
    else Classify(run([Interpreter(layout), layout.scriptPath, url]))
  }

  /** A missing script runs nothing: the answer is the same whatever the
      subprocess would have done. */
  lemma MissingScriptRunsNothing(url: string, layout: Layout, run1: seq<string> -> RunOutcome, run2: seq<string> -> RunOutcome)
    requires !layout.scriptExists
    ensures ReadXPost(url, layout, run1) == ReadXPost(url, layout, run2)
  {
  }
}
