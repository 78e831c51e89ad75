/** The command that opens a target on this machine.

    A runner maps an open target to the platform opener's command line
    (`xdg-open T`, `open T` or `cmd /c start T`).  Running it spawns that
    command; a dry run only renders it as text.  The spawn itself belongs to
    the operating system and appears here as an abstract outcome. */
module Cmd {
  import opened Cli

  /** The one way running an opener can fail: the process could not be
      spawned.  The message is the operating system's error text. */
  datatype OpenError = CouldNotRun(msg: string)

  /** Success with a value, or an `OpenError`. */
  datatype Result<T> = Ok(value: T) | Err(error: OpenError)

  /** A program and its arguments, in order. */
  datatype OpenCommand = OpenCommand(program: string, args: seq<string>)

  /** The platform openers. */
  datatype Runner = LinuxOpen | MacOSOpen | WindowsOpen

  /** The operating system the program was built for. */
  datatype TargetOs = Linux | MacOS | Windows

  /** What the operating system answered when asked to start a process. */
  datatype Spawn = Spawned | SpawnFailed(reason: string)

  const CouldNotRunPrefix: string := "Could not run: "
  const WouldRun: string := "Would run: "

  // ---------------------------------------------------------------------
  // Text helpers

  /** `s` occurs somewhere inside `text`. */
  predicate Contains(text: string, s: string) {
    exists i :: 0 <= i <= |text| - |s| && s <= text[i..]
  }

  /** The sum of the lengths of `parts`. */
  function TotalLength(parts: seq<string>): nat {
    if |parts| == 0 then 0 else |parts[0]| + TotalLength(parts[1..])
  }

  /** `parts` joined with one space between neighbours (Rust's `join(" ")`). */
  function JoinWithSpaces(parts: seq<string>): (s: string)
    ensures |parts| == 0 ==> s == ""
    ensures |parts| > 0 ==> |s| == TotalLength(parts) + |parts| - 1
    ensures |parts| > 0 ==> parts[0] <= s
  {
    if |parts| == 0 then ""
    else if |parts| == 1 then parts[0]
    else parts[0] + " " + JoinWithSpaces(parts[1..])
  }

  /** The position of the first space in `s`. */
  function FirstSpace(s: string): (i: nat)
    requires ' ' in s
    ensures i < |s| && s[i] == ' ' && ' ' !in s[..i]
  {
    if s[0] == ' ' then 0
    else
      var i := 1 + FirstSpace(s[1..]);
      assert s[..i] == [s[0]] + s[1..][..i - 1];
      i
  }

  /** `s` cut at every space (Rust's `split(' ')`): the inverse of
      `JoinWithSpaces` on words that hold no space. */
  function SplitOnSpaces(s: string): (words: seq<string>)
    ensures |words| > 0
    ensures forall k :: 0 <= k < |words| ==> ' ' !in words[k]
    decreases |s|
  {
    if ' ' !in s then [s]
    else
      var i := FirstSpace(s);
      [s[..i]] + SplitOnSpaces(s[i + 1..])
  }

  /** No word of `words` holds a space. */
  predicate SpaceFree(words: seq<string>) {
    forall k :: 0 <= k < |words| ==> ' ' !in words[k]
  }

  lemma FirstSpaceAfterWord(w: string, rest: string)
    requires ' ' !in w
    ensures FirstSpace(w + " " + rest) == |w|
  {
    var s := w + " " + rest;
    var i := FirstSpace(s);
    assert s[..|w|] == w;
    assert forall k :: 0 <= k < |w| ==> s[k] == w[k];
    assert s[|w|] == ' ';
  }

  /** Splitting a joined list of space-free words gives the words back. */
  lemma {:induction false} SplitJoin(words: seq<string>)
    requires |words| > 0 && SpaceFree(words)
    ensures SplitOnSpaces(JoinWithSpaces(words)) == words
  {
    if |words| > 1 {
      var s := JoinWithSpaces(words);
      var rest := JoinWithSpaces(words[1..]);
      assert s == words[0] + " " + rest;
      assert s[|words[0]|] == ' ';
      FirstSpaceAfterWord(words[0], rest);
      assert s[..|words[0]|] == words[0];
      assert s[|words[0]| + 1..] == rest;
      SplitJoin(words[1..]);
      assert words == [words[0]] + words[1..];
    }
  }

  /** Joining the pieces of a split gives the string back. */
  lemma {:induction false} JoinSplit(s: string)
    ensures JoinWithSpaces(SplitOnSpaces(s)) == s
    decreases |s|
  {
    if ' ' in s {
      var i := FirstSpace(s);
      var words := SplitOnSpaces(s[i + 1..]);
      JoinSplit(s[i + 1..]);
      assert SplitOnSpaces(s)[1..] == words;
      assert s == s[..i] + " " + s[i + 1..];
    }
  }

  /** The last word of a join ends the joined text. */
  lemma {:induction false} JoinEndsWithLast(parts: seq<string>)
    requires |parts| > 0
    ensures var s := JoinWithSpaces(parts);
            var last := parts[|parts| - 1];
            |last| <= |s| && s[|s| - |last|..] == last
  {
    if |parts| > 1 {
      JoinEndsWithLast(parts[1..]);
      var rest := JoinWithSpaces(parts[1..]);
      assert JoinWithSpaces(parts) == (parts[0] + " ") + rest;
    }
  }

  // ---------------------------------------------------------------------
  // Errors and commands as text

  /** How an `OpenError` is displayed: `Could not run: <msg>`. */
  function ErrorText(e: OpenError): (s: string)
    ensures |s| == |CouldNotRunPrefix| + |e.msg|
    ensures s[..|CouldNotRunPrefix|] == CouldNotRunPrefix
    ensures s[|CouldNotRunPrefix|..] == e.msg
  {
    match e
    case CouldNotRun(msg) => CouldNotRunPrefix + msg
  }

  /** Two errors display alike exactly when they are the same error. */
  lemma ErrorTextInjective(e1: OpenError, e2: OpenError)
    ensures ErrorText(e1) == ErrorText(e2) <==> e1 == e2
  {
  }

  /** How an `OpenCommand` is displayed: the program, one space, then the
      arguments joined with single spaces. */
  function Render(c: OpenCommand): (s: string)
    ensures c.program + " " <= s
    ensures |s| == |c.program| + 1 + |JoinWithSpaces(c.args)|
    ensures s[|c.program| + 1..] == JoinWithSpaces(c.args)
  {
    c.program + " " + JoinWithSpaces(c.args)
  }

  /** When neither the program nor any argument holds a space, the displayed
      command splits back into exactly the program followed by its
      arguments. */
  lemma RenderSplitsIntoArgv(c: OpenCommand)
    requires |c.args| > 0 && ' ' !in c.program && SpaceFree(c.args)
    ensures SplitOnSpaces(Render(c)) == [c.program] + c.args
  {
    var argv := [c.program] + c.args;
    assert argv[1..] == c.args;
    assert JoinWithSpaces(argv) == Render(c);
    SplitJoin(argv);
  }

  /** The last argument of a command ends its display. */
  lemma RenderEndsWithLastArg(c: OpenCommand)
    requires |c.args| > 0
    ensures var s := Render(c);
            var last := c.args[|c.args| - 1];
            |last| <= |s| && s[|s| - |last|..] == last
  {
    JoinEndsWithLast(c.args);
  }

  // ---------------------------------------------------------------------
  // Runners

  /** The command each runner uses to open `open`. */
  function Cmd(r: Runner, open: OpenTarget): (res: Result<OpenCommand>)
    ensures res.Ok?
    ensures |res.value.args| > 0
    ensures res.value.args[|res.value.args| - 1] == open.target
  {
    match r
    case LinuxOpen => Ok(OpenCommand("xdg-open", [open.target]))
    case MacOSOpen => Ok(OpenCommand("open", [open.target]))
    case WindowsOpen => Ok(OpenCommand("cmd", ["/c", "start", open.target]))
  }

  /** The program a runner starts. */
  function Program(r: Runner): string {
    match r
    case LinuxOpen => "xdg-open"
    case MacOSOpen => "open"
    case WindowsOpen => "cmd"
  }

  /** The arguments a runner puts before the target. */
  function LeadingArgs(r: Runner): seq<string> {
    match r
    case LinuxOpen => []
    case MacOSOpen => []
    case WindowsOpen => ["/c", "start"]
  }

  /** Every runner's command is its fixed template with the target appended
      verbatim as one final argument: nothing else depends on the target. */
  lemma CmdIsTemplate(r: Runner, open: OpenTarget)
    ensures Cmd(r, open) == Ok(OpenCommand(Program(r), LeadingArgs(r) + [open.target]))
  {
    match r
    case LinuxOpen => assert LeadingArgs(r) + [open.target] == [open.target];
    case MacOSOpen => assert LeadingArgs(r) + [open.target] == [open.target];
    case WindowsOpen => assert LeadingArgs(r) + [open.target] == ["/c", "start", open.target];
  }

  /** Distinct targets give distinct commands, under every runner. */
  lemma CmdInjective(r: Runner, t1: OpenTarget, t2: OpenTarget)
    ensures Cmd(r, t1) == Cmd(r, t2) <==> t1 == t2
  {
  }

  /** The text a runner's command displays before the target. */
  function Banner(r: Runner): string {
    match r
    case LinuxOpen => "xdg-open "
    case MacOSOpen => "open "
    case WindowsOpen => "cmd /c start "
  }

  /** A runner's command displays as its banner followed by the target. */
  lemma RenderedCmd(r: Runner, open: OpenTarget)
    ensures Render(Cmd(r, open).value) == Banner(r) + open.target
  {
    var t := open.target;
    match r
    case LinuxOpen =>
    case MacOSOpen =>
    case WindowsOpen =>
      assert JoinWithSpaces(["/c", "start", t]) == "/c" + " " + JoinWithSpaces(["start", t]);
      assert ["/c", "start", t][1..] == ["start", t];
      assert ["start", t][1..] == [t];
  }

  /** For a target without spaces, the displayed command splits back into
      the exact argument vector the runner would start. */
  lemma RenderedCmdSplitsIntoArgv(r: Runner, open: OpenTarget)
    requires ' ' !in open.target
    ensures SplitOnSpaces(Render(Cmd(r, open).value))
         == [Program(r)] + LeadingArgs(r) + [open.target]
  {
    CmdIsTemplate(r, open);
    var c := Cmd(r, open).value;
    assert forall k :: 0 <= k < |c.args| ==> c.args[k] in LeadingArgs(r) + [open.target];
    RenderSplitsIntoArgv(c);
  }

  // ---------------------------------------------------------------------
  // Running and dry-running, for any way of building the command

  /** The default `run`: build the command, spawn it, and report an empty
      string on success.  A spawn failure becomes `CouldNotRun`; a failure
      to build the command is passed on unchanged. */
  function RunWith(cmd: Result<OpenCommand>, spawn: Spawn): (res: Result<string>)
    ensures res.Ok? <==> cmd.Ok? && spawn.Spawned?
    ensures res.Ok? ==> res.value == ""
    ensures cmd.Err? ==> res.error == cmd.error
    ensures cmd.Ok? && spawn.SpawnFailed? ==> res.error == CouldNotRun(spawn.reason)
  {
    match cmd
    case Err(e) => Err(e)
    case Ok(_) =>
      match spawn
      case Spawned => Ok("")
      case SpawnFailed(reason) => Err(CouldNotRun(reason))
  }

  /** The default `dry_run`: build the command and describe it as
      `Would run: <command>`; a failure to build it is passed on unchanged. */
  function DryRunWith(cmd: Result<OpenCommand>): (res: Result<string>)
    ensures res.Ok? <==> cmd.Ok?
    ensures cmd.Err? ==> res.error == cmd.error
    ensures res.Ok? ==> WouldRun <= res.value && res.value[|WouldRun|..] == Render(cmd.value)
  {
    match cmd
    case Err(e) => Err(e)
    case Ok(c) => Ok(WouldRun + Render(c))
  }

  /** `run` for one of the platform runners. */
  function Run(r: Runner, open: OpenTarget, spawn: Spawn): (res: Result<string>)
    ensures res.Ok? <==> spawn.Spawned?
    ensures res.Ok? ==> res.value == ""
    ensures res.Err? ==> ErrorText(res.error) == CouldNotRunPrefix + spawn.reason
  {
    RunWith(Cmd(r, open), spawn)
  }

  /** `dry_run` for one of the platform runners. */
  function DryRun(r: Runner, open: OpenTarget): (res: Result<string>)
    ensures res.Ok?
  {
    DryRunWith(Cmd(r, open))
  }

  /** A dry run always succeeds, with `Would run: ` then the runner's banner
      then the target. */
  lemma DryRunText(r: Runner, open: OpenTarget)
    ensures DryRun(r, open) == Ok(WouldRun + Banner(r) + open.target)
  {
    RenderedCmd(r, open);
    var c := Cmd(r, open).value;
    assert DryRun(r, open) == Ok(WouldRun + Render(c));
    assert WouldRun + (Banner(r) + open.target) == WouldRun + Banner(r) + open.target;
  }

  /** A dry run names the action and the target, and the opener it would
      start. */
  lemma DryRunMentions(r: Runner, open: OpenTarget)
    ensures Contains(DryRun(r, open).value, "Would run:")
    ensures Contains(DryRun(r, open).value, open.target)
    ensures r == LinuxOpen ==> Contains(DryRun(r, open).value, "xdg-open")
    ensures r != WindowsOpen ==> Contains(DryRun(r, open).value, "open")
    ensures r == WindowsOpen ==> Contains(DryRun(r, open).value, "cmd")
    ensures r == WindowsOpen ==> Contains(DryRun(r, open).value, "start")
  {
    DryRunText(r, open);
    var s := DryRun(r, open).value;
    var t := open.target;
    var b := Banner(r);
    assert s == WouldRun + b + t;
    assert "Would run:" <= s[0..];
    assert s[|s| - |t|..] == t;
    match r
    case LinuxOpen =>
      assert "xdg-open" <= s[|WouldRun|..];
      assert "open" <= s[|WouldRun| + |"xdg-"|..];
    case MacOSOpen =>
      assert "open" <= s[|WouldRun|..];
    case WindowsOpen =>
      assert "cmd" <= s[|WouldRun|..];
      assert "start" <= s[|WouldRun| + |"cmd /c "|..];
  }

  /** The dry-run text identifies both the runner and the target: two dry
      runs read the same exactly when they use the same runner and the same
      target. */
  lemma DryRunInjective(r1: Runner, t1: OpenTarget, r2: Runner, t2: OpenTarget)
    ensures DryRun(r1, t1) == DryRun(r2, t2) <==> r1 == r2 && t1 == t2
  {
    if DryRun(r1, t1) == DryRun(r2, t2) {
      DryRunText(r1, t1);
      DryRunText(r2, t2);
      var s := DryRun(r1, t1).value;
      var b1, b2 := Banner(r1), Banner(r2);
      assert s == WouldRun + b1 + t1.target;
      assert s == WouldRun + b2 + t2.target;
      // The banners already differ in their first letter.
      assert s[|WouldRun|] == b1[0] && s[|WouldRun|] == b2[0];
      assert r1 == r2;
      assert t1.target == s[|WouldRun| + |b1|..];
      assert t2.target == s[|WouldRun| + |b2|..];
    }
  }

  /** Running and dry-running build the same command, so a failure to build
      it surfaces identically in both, whatever the spawn would have done. */
  lemma BuildFailureSharedByRunAndDryRun(cmd: Result<OpenCommand>, spawn: Spawn)
    requires cmd.Err?
    ensures RunWith(cmd, spawn) == DryRunWith(cmd) == Err(cmd.error)
  {
  }

  // ---------------------------------------------------------------------
  // Choosing the runner

  /** The runner compiled in for each operating system. */
  function SystemRunner(os: TargetOs): (r: Runner)
    ensures Program(r) == match os
                         case Linux => "xdg-open"
                         case MacOS => "open"
                         case Windows => "cmd"
  {
    match os
    case Linux => LinuxOpen
    case MacOS => MacOSOpen
    case Windows => WindowsOpen
  }

  /** Each operating system gets its own runner, and every runner is some
      operating system's. */
  lemma SystemRunnerBijective(o1: TargetOs, o2: TargetOs, r: Runner)
    ensures SystemRunner(o1) == SystemRunner(o2) <==> o1 == o2
    ensures exists os :: SystemRunner(os) == r
  {
    match r
    case LinuxOpen => assert SystemRunner(Linux) == r;
    case MacOSOpen => assert SystemRunner(MacOS) == r;
    case WindowsOpen => assert SystemRunner(Windows) == r;
  }
}
