/**
 * The Pagefind backend: finding a way to run the Pagefind command, running
 * it over the build output, and reading the number of indexed pages from
 * what it prints.
 *
 * Processes, the search path and the file system are not modelled; a
 * `Host` value says what they answer. The commands the backend starts are
 * recorded in a ghost log.
 */
module Pagefind {
  import opened Wrappers
  import opened Text
  import opened Config
  import opened Scripts
  import Templates

  const PagefindCli := "pagefind"
  const DefaultOutputDir := "_pagefind"

  /*
   * Reading the page count. Each pattern is a case-insensitive regular
   * expression search. In `word\s+(\d+)\s+page`, whitespace and digits are
   * disjoint classes, so a match at a position exists exactly when the
   * maximal whitespace run, the maximal digit run and the next maximal
   * whitespace run are all non-empty and are followed by `page`; the group
   * is that maximal digit run.
   */

  /** The two character classes the patterns use: `\d` and `\s`. */
  predicate InClass(c: char, digits: bool)
  {
    if digits then IsDigit(c) else IsSpace(c)
  }

  /** The length of the run of digits (or of whitespace) that starts at `i`. */
  function RunLength(s: string, i: nat, digits: bool): (n: nat)
    requires i <= |s|
    ensures i + n <= |s|
    ensures forall k {:trigger InClass(s[k], digits)} :: i <= k < i + n ==> InClass(s[k], digits)
    ensures i + n == |s| || !InClass(s[i + n], digits)
    decreases |s| - i
  {
    if i < |s| && InClass(s[i], digits) then 1 + RunLength(s, i + 1, digits) else 0
  }

  /** `s[i..]` starts with `word`, letters compared without regard to case. */
  predicate LiteralAt(s: string, i: nat, word: string)
  {
    i + |word| <= |s| && EqualsIgnoreCase(s[i..i + |word|], word)
  }

  /**
   * Where the captured digits lie when a match of the pattern starts at
   * `i`. The pattern is `word\s+(\d+)\s+page` for a non-empty `word`, and
   * `(\d+)\s+page` for the empty one.
   */
  function DigitSpan(s: string, word: string, i: nat): (r: Option<(nat, nat)>)
    requires i <= |s|
    ensures r.Some? ==> i + |word| <= r.value.0 < r.value.1 <= |s|
    ensures r.Some? ==> forall k :: r.value.0 <= k < r.value.1 ==> InClass(s[k], true)
  {
    if !LiteralAt(s, i, word) then None
    else
      var p := i + |word|;
      var lead := if word == [] then 0 else RunLength(s, p, false);
      var d := RunLength(s, p + lead, true);
      var gap := RunLength(s, p + lead + d, false);
      if (word != [] && lead == 0) || d == 0 || gap == 0 || !LiteralAt(s, p + lead + d + gap, "page") then None
      else Some((p + lead, p + lead + d))
  }

  lemma SliceDigits(s: string, a: nat, b: nat)
    requires a <= b <= |s|
    requires forall k :: a <= k < b ==> InClass(s[k], true)
    ensures AllDigits(s[a..b])
  {
    assert forall k :: 0 <= k < b - a ==> s[a..b][k] == s[a + k];
  }

  /** The number the pattern captures when its match starts at `i`. */
  function MatchAt(s: string, word: string, i: nat): (r: Option<nat>)
    requires i <= |s|
    ensures r.Some? ==> exists a, b :: i <= a < b <= |s| && AllDigits(s[a..b]) && r.value == NumeralValue(s[a..b])
  {
    var span := DigitSpan(s, word, i);
    if span.None? then None
    else
      var (a, b) := span.value;
      SliceDigits(s, a, b);
      Some(NumeralValue(s[a..b]))
  }

  /** Where `re.search` from position `i` finds its match: the leftmost start. */
  function FirstMatch(s: string, word: string, i: nat): (r: Option<nat>)
    requires i <= |s|
    ensures r.Some? ==> i <= r.value <= |s| && MatchAt(s, word, r.value).Some?
    ensures r.Some? ==> forall k :: i <= k < r.value ==> MatchAt(s, word, k).None?
    ensures r.None? ==> forall k :: i <= k <= |s| ==> MatchAt(s, word, k).None?
    decreases |s| - i
  {
    if MatchAt(s, word, i).Some? then Some(i)
    else if i == |s| then None
    else FirstMatch(s, word, i + 1)
  }

  /** The number `re.search` captures, if the pattern occurs at all. */
  function Search(s: string, word: string): (r: Option<nat>)
    ensures r.None? <==> forall k :: 0 <= k <= |s| ==> MatchAt(s, word, k).None?
    ensures r.Some? ==> exists j :: 0 <= j <= |s| && MatchAt(s, word, j) == r &&
                          forall k :: 0 <= k < j ==> MatchAt(s, word, k).None?
  {
    var j := FirstMatch(s, word, 0);
    if j.Some? then MatchAt(s, word, j.value) else None
  }

  /**
   * `_parse_page_count`: "Indexed N page", then "on N page", then any
   * "N page"; the first pattern that matches anywhere decides, and 0 means
   * none did.
   */
  function ParsePageCount(output: string): (n: nat)
    ensures Search(output, "indexed").Some? ==> n == Search(output, "indexed").value
    ensures Search(output, "indexed").None? && Search(output, "on").Some? ==> n == Search(output, "on").value
    ensures Search(output, "indexed").None? && Search(output, "on").None? ==>
              n == if Search(output, "").Some? then Search(output, "").value else 0
  {
    var indexed := Search(output, "indexed");
    if indexed.Some? then indexed.value
    else
      var on := Search(output, "on");
      if on.Some? then on.value
      else
        var bare := Search(output, "");
        if bare.Some? then bare.value else 0
  }

  /** A non-zero count is the value of a run of digits in the output. */
  lemma PageCountComesFromOutput(output: string)
    ensures ParsePageCount(output) != 0 ==>
              exists a, b :: 0 <= a < b <= |output| && AllDigits(output[a..b]) && ParsePageCount(output) == NumeralValue(output[a..b])
  {
  }

  /** Output without a single digit yields 0. */
  lemma NoDigitsNoCount(output: string)
    requires forall k :: 0 <= k < |output| ==> !IsDigit(output[k])
    ensures ParsePageCount(output) == 0
  {
    forall word: string, j: nat | j <= |output|
      ensures MatchAt(output, word, j).None?
    {
      NoDigitsNoSpan(output, word, j);
    }
  }

  lemma NoDigitsNoSpan(output: string, word: string, j: nat)
    requires j <= |output|
    requires forall k :: 0 <= k < |output| ==> !IsDigit(output[k])
    ensures DigitSpan(output, word, j).None?
  {
  }

  /** A run is as long as the stretch of `p` characters that ends where `p` stops holding. */
  lemma RunExact(s: string, i: nat, digits: bool, n: nat)
    requires i + n <= |s|
    requires forall k :: i <= k < i + n ==> InClass(s[k], digits)
    requires i + n == |s| || !InClass(s[i + n], digits)
    ensures RunLength(s, i, digits) == n
  {
  }

  /**
   * The digits a match captures are fixed by the runs that follow the
   * word, here single spaces around the number as Pagefind prints them.
   */
  lemma SpanFromRuns(s: string, word: string, i: nat, d: nat)
    requires word != [] && LiteralAt(s, i, word)
    requires 0 < d
    requires i + |word| + d + 2 <= |s|
    requires RunLength(s, i + |word|, false) == 1
    requires RunLength(s, i + |word| + 1, true) == d
    requires RunLength(s, i + |word| + 1 + d, false) == 1
    requires LiteralAt(s, i + |word| + d + 2, "page")
    ensures DigitSpan(s, word, i) == Some((i + |word| + 1, i + |word| + 1 + d))
  {
  }

  lemma PageStartIsNotSpace(c: char)
    requires Lower(c) == 'p'
    ensures !IsSpace(c) && !IsDigit(c)
  {
  }

  /** The layout of a summary line: the word, a space, the digits, a space, then "page...". */
  lemma SummaryLayout(indexed: string, digits: string, pages: string)
    requires |indexed| == 7 && |pages| >= 4
    ensures var s := indexed + " " + digits + " " + pages;
            var k := |digits|;
            |s| == 13 + k + |pages| - 4 && s[0..7] == indexed && s[7] == ' ' &&
            s[8..8 + k] == digits && s[8 + k] == ' ' && s[9 + k..13 + k] == pages[..4]
  {
  }

  /** Where the digits of a line laid out as a summary lie. */
  lemma {:induction false} SummarySpan(s: string, indexed: string, digits: string, pages: string)
    requires EqualsIgnoreCase(indexed, "indexed")
    requires digits != [] && AllDigits(digits)
    requires |pages| >= 4 && EqualsIgnoreCase(pages[..4], "page")
    requires |s| >= 13 + |digits| && s[0..7] == indexed && s[7] == ' '
    requires s[8..8 + |digits|] == digits && s[8 + |digits|] == ' ' && s[9 + |digits|..13 + |digits|] == pages[..4]
    ensures DigitSpan(s, "indexed", 0) == Some((8, 8 + |digits|))
  {
    var k := |digits|;
    assert LiteralAt(s, 0, "indexed");
    assert s[8] == digits[0];
    RunExact(s, 7, false, 1);
    forall j | 8 <= j < 8 + k
      ensures InClass(s[j], true)
    {
      assert s[j] == s[8..8 + k][j - 8];
    }
    RunExact(s, 8, true, k);
    assert s[9 + k] == pages[0];
    PageStartIsNotSpace(s[9 + k]);
    RunExact(s, 8 + k, false, 1);
    assert LiteralAt(s, 9 + k, "page");
    SpanFromRuns(s, "indexed", 0, k);
  }

  /**
   * Pagefind's own summary is read back exactly: "Indexed N pages" gives N
   * whatever the case of the two words and whether "page" is plural.
   */
  lemma {:induction false} SummaryRoundTrip(indexed: string, n: nat, pages: string)
    requires EqualsIgnoreCase(indexed, "indexed")
    requires |pages| >= 4 && EqualsIgnoreCase(pages[..4], "page")
    ensures ParsePageCount(indexed + " " + NatToString(n) + " " + pages) == n
  {
    var digits := NatToString(n);
    var s := indexed + " " + digits + " " + pages;
    SummaryLayout(indexed, digits, pages);
    SummarySpan(s, indexed, digits, pages);
    NumeralRoundTrip(n);
    assert MatchAt(s, "indexed", 0) == Some(n);
    assert FirstMatch(s, "indexed", 0) == Some(0);
  }

  /** The ways to run Pagefind that the host offers. */
  datatype Tools = Tools(
    pythonPackage: bool,
    pythonExecutable: string,
    pagefindOnPath: Option<string>,
    npxOnPath: Option<string>)

  /** `shutil.which` found something usable: a non-empty path. */
  predicate Found(path: Option<string>)
  {
    path.Some? && path.value != ""
  }

  /**
   * `_find_pagefind_command`: the Python package, then a `pagefind` on the
   * search path, then `npx`; none of them gives no command.
   */
  function FindCommand(t: Tools): (cmd: Option<seq<string>>)
    ensures t.pythonPackage ==> cmd == Some([t.pythonExecutable, "-m", "pagefind"])
    ensures !t.pythonPackage && Found(t.pagefindOnPath) ==> cmd == Some([PagefindCli])
    ensures !t.pythonPackage && !Found(t.pagefindOnPath) && Found(t.npxOnPath) ==> cmd == Some([t.npxOnPath.value, "pagefind"])
    ensures cmd.None? <==> !t.pythonPackage && !Found(t.pagefindOnPath) && !Found(t.npxOnPath)
    ensures cmd.Some? ==> cmd.value != [] && cmd.value[|cmd.value| - 1] == "pagefind"
  {
    if t.pythonPackage then Some([t.pythonExecutable, "-m", "pagefind"])
    else if Found(t.pagefindOnPath) then Some([PagefindCli])
    else if Found(t.npxOnPath) then Some([t.npxOnPath.value, "pagefind"])
    else None
  }

  /** How running the command ended. */
  datatype RunOutcome =
    | TimedOut
    | CliNotFound
    | OSFailure
    | Completed(returnCode: int, stdout: string, stderr: string)

  /** The machine the build runs on. */
  datatype Host = Host(
    buildDir: string,
    buildDirExists: bool,
    tools: Tools,
    run: seq<string> -> RunOutcome)

  /** The command line: the finder's command, then the site and the index location inside it. */
  function CommandLine(cmd: seq<string>, buildDir: string, outputDir: string): (line: seq<string>)
    ensures |line| == |cmd| + 4 && line[..|cmd|] == cmd
    ensures line[|cmd|..] == ["--site", buildDir, "--output-path", buildDir + "/" + outputDir]
  {
    cmd + ["--site", buildDir, "--output-path", buildDir + "/" + outputDir]
  }

  /** `_run_pagefind` once the process has ended: the page count only for a clean exit. */
  function RunCount(outcome: RunOutcome): (n: nat)
    ensures !outcome.Completed? ==> n == 0
    ensures outcome.Completed? && outcome.returnCode != 0 ==> n == 0
    ensures outcome.Completed? && outcome.returnCode == 0 ==> n == ParsePageCount(outcome.stdout)
  {
    match outcome
    case Completed(code, out, _) => if code == 0 then ParsePageCount(out) else 0
    case _ => 0
  }

  /** The commands `index_all` starts: one when the site exists and a command was found, none otherwise. */
  function IndexCommands(outputDir: string, host: Host): seq<seq<string>>
  {
    if !host.buildDirExists || FindCommand(host.tools).None? then []
    else [CommandLine(FindCommand(host.tools).value, host.buildDir, outputDir)]
  }

  /** The value of `index_all`. */
  function IndexCount(outputDir: string, host: Host): nat
  {
    var commands := IndexCommands(outputDir, host);
    if commands == [] then 0 else RunCount(host.run(commands[0]))
  }

  /**
   * Nothing runs and the count is 0 when the site is missing or no command
   * is found; otherwise exactly one command runs and a non-zero count comes
   * from a clean exit.
   */
  lemma IndexAllGuards(outputDir: string, host: Host)
    ensures !host.buildDirExists || FindCommand(host.tools).None? ==>
              IndexCommands(outputDir, host) == [] && IndexCount(outputDir, host) == 0
    ensures host.buildDirExists && FindCommand(host.tools).Some? ==>
              |IndexCommands(outputDir, host)| == 1 &&
              IndexCommands(outputDir, host)[0][|FindCommand(host.tools).value|..] ==
                ["--site", host.buildDir, "--output-path", host.buildDir + "/" + outputDir]
    ensures IndexCount(outputDir, host) != 0 ==>
              var outcome := host.run(IndexCommands(outputDir, host)[0]);
              outcome.Completed? && outcome.returnCode == 0 && IndexCount(outputDir, host) == ParsePageCount(outcome.stdout)
  {
  }

  /** `PagefindBackend`. */
  class PagefindBackend {
    const app: Settings
    const name: string
    var outputDir: string
    ghost var commands: seq<seq<string>>

    constructor(app: Settings)
      ensures this.app == app && name == "pagefind" && outputDir == DefaultOutputDir && commands == []
    {
      this.app := app;
      name := "pagefind";
      outputDir := DefaultOutputDir;
      commands := [];
    }

    /** `index_all`: checks the site and the command, then runs Pagefind once. */
    method IndexAll(host: Host) returns (count: nat)
      modifies this
      ensures count == IndexCount(old(outputDir), host)
      ensures commands == old(commands) + IndexCommands(old(outputDir), host)
      ensures outputDir == old(outputDir)
    {
      if !host.buildDirExists {
        return 0;
      }
      var cmd := FindCommand(host.tools);
      if cmd.None? {
        return 0;
      }
      count := RunPagefind(cmd.value, host);
    }

    /** `_run_pagefind`: every failure to run, and every non-zero exit, gives 0. */
    method RunPagefind(cmd: seq<string>, host: Host) returns (count: nat)
      modifies this
      ensures count == RunCount(host.run(CommandLine(cmd, host.buildDir, old(outputDir))))
      ensures commands == old(commands) + [CommandLine(cmd, host.buildDir, old(outputDir))]
      ensures outputDir == old(outputDir)
    {
      var line := cmd + ["--site", host.buildDir, "--output-path", host.buildDir + "/" + outputDir];
      commands := commands + [line];
      var outcome := host.run(line);
      if outcome.TimedOut? || outcome.CliNotFound? || outcome.OSFailure? {
        return 0;
      }
      if outcome.returnCode != 0 {
        return 0;
      }
      count := ParsePageCount(outcome.stdout);
    }

    /** `is_available`: some way to run Pagefind exists. */
    function IsAvailable(t: Tools): (r: bool)
      ensures r <==> t.pythonPackage || Found(t.pagefindOnPath) || Found(t.npxOnPath)
    {
      FindCommand(t).Some?
    }

    function JsFiles(): (files: seq<(string, int)>)
      ensures files == [("pagefind-init.js", 500)]
    {
      [("pagefind-init.js", 500)]
    }

    function CssFiles(): (files: seq<string>)
      ensures files == ["pagefind-ui.css"]
    {
      ["pagefind-ui.css"]
    }

    /** `get_config_script`: the index is looked up under the output directory. */
    function ConfigScript(): (r: Script)
      reads this
      ensures r.Assignment? && r.global == PagefindGlobal && !r.tagged
      ensures r.entries == PagefindEntries(app, "/" + outputDir + "/")
    {
      Assignment(PagefindGlobal, PagefindEntries(app, "/" + outputDir + "/"), false)
    }
  }

  /**
   * With the default output directory the backend's script carries the
   * same entries as the script the page template writes.
   */
  lemma DefaultConfigMatchesTemplate(b: PagefindBackend)
    requires b.outputDir == DefaultOutputDir
    ensures b.ConfigScript().entries == Templates.PagefindConfigScript(b.app).entries
  {
    assert "/" + DefaultOutputDir + "/" == Templates.PagefindBasePath;
  }
}
