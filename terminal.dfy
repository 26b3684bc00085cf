/** The App component's state and its command dispatcher: the scrollback `lines`, the
    cosmetic directory `cwd` and the text field `input`, changed by `onCommand` and by
    the quick-action buttons. React's batched setters are modelled by their net
    sequential effect on that state. */
module Terminal {
  import opened Text
  import opened Cwd
  import opened Content
  import opened Opening
  import opened Reveal

  /** Which of the two `openCmd` definitions the dispatcher reaches. */
  datatype OpenRule = KeyedLookup | PlainUrl

  function OpenCmd(rule: OpenRule, arg: string, succeeded: bool): string {
    match rule
    case KeyedLookup => OpenCmdKeyed(arg, succeeded)
    case PlainUrl => OpenCmdPlain(arg, succeeded)
  }

  /** The cases of the `switch` in `onCommand`; aliases share a case. */
  datatype Command = Help | Clear | About | Skills | Projects | Open | Cd | Links | NotFound

  /** The names the `switch` recognises, in lower case. */
  const COMMAND_NAMES: set<string> :=
    {"help", "clear", "whoami", "about", "skills", "projects", "ls", "open", "cd", "social", "links"}

  /** The `switch` on the lower-cased command name. */
  function Lookup(name: string): Command {
    var n := Lower(name);
    if n == "help" then Help
    else if n == "clear" then Clear
    else if n == "whoami" || n == "about" then About
    else if n == "skills" then Skills
    else if n == "projects" || n == "ls" then Projects
    else if n == "open" then Open
    else if n == "cd" then Cd
    else if n == "social" || n == "links" then Links
    else NotFound
  }

  /** Lookup ignores letter case, and falls through to the default case exactly for
      the names outside the table. */
  lemma LookupIgnoresCase(a: string, b: string)
    ensures Lower(a) == Lower(b) ==> Lookup(a) == Lookup(b)
    ensures Lookup(Lower(a)) == Lookup(a)
    ensures Lookup(a) == NotFound <==> Lower(a) !in COMMAND_NAMES
  {
    LowerIdempotent(a);
  }

  /** A few names in the letter cases a user might type. */
  lemma LookupExamples()
    ensures Lookup("HELP") == Help && Lookup("Clear") == Clear && Lookup("LS") == Projects
    ensures Lookup("WhoAmI") == About && Lookup("foo") == NotFound
    ensures Lookup("cd") == Cd && Lookup("open") == Open
  {
    assert Lower("cd") == "cd";
    assert Lower("open") == "open";
    assert Lower("HELP") == "help";
    assert Lower("Clear") == "clear";
    assert Lower("LS") == "ls";
    assert Lower("WhoAmI") == "whoami";
    assert Lower("foo") == "foo";
  }

  /** What `push` is handed: one string, or an array that is spliced in element by element. */
  datatype Output = Single(line: string) | Many(lines: seq<string>)

  /** `Array.isArray(out) ? out : [out]`. */
  function Flatten(out: Output): seq<string> {
    match out
    case Single(line) => [line]
    case Many(lines) => lines
  }

  /** What a command does after its echo: print something, wipe the screen, or move. */
  datatype Effect = Print(out: Output) | Wipe | ChangeDir(path: string)

  /** The lines an effect adds after the echo. */
  function Printed(e: Effect): seq<string> {
    if e.Print? then Flatten(e.out) else []
  }

  /** The default case's message; the name keeps the letter case it was typed in. */
  function NotFoundMessage(name: string): string {
    "Command not found: " + name + ". Type 'help'"
  }

  /** The `switch` of `onCommand`, for command word `name` and the words after it. */
  function Respond(name: string, args: seq<string>, rule: OpenRule, succeeded: bool): Effect {
    match Lookup(name)
    case Help => Print(Many(HELP_LINES))
    case Clear => Wipe
    case About => Print(Many(ABOUT_LINES))
    case Skills => Print(Many(SKILLS_LINES))
    case Projects => Print(Many(RenderProjects()))
    case Open => Print(Single(OpenCmd(rule, Join(args, ' '), succeeded)))
    case Cd => ChangeDir(if |args| > 0 then args[0] else "")
    case Links => Print(Many(LINKS_LINES))
    case NotFound => Print(Single(NotFoundMessage(name)))
  }

  /** Names that differ only in letter case get the same response, except in the
      default case, whose message quotes the name as typed. */
  lemma RespondIgnoresCase(a: string, b: string, args: seq<string>, rule: OpenRule, succeeded: bool)
    requires Lower(a) == Lower(b)
    ensures Lookup(a) != NotFound ==> Respond(a, args, rule, succeeded) == Respond(b, args, rule, succeeded)
    ensures Lookup(a) == NotFound ==> Lookup(b) == NotFound
                                      && Respond(b, args, rule, succeeded) == Print(Single(NotFoundMessage(b)))
  {
    LookupIgnoresCase(a, b);
  }

  /** `guest@you:${cwd}$`. */
  function Prompt(cwd: string): string {
    "guest@you:" + cwd + "$"
  }

  /** The echo entry: the prompt, a space, and the trimmed command. */
  function Echo(cwd: string, cmd: string): string {
    Prompt(cwd) + " " + cmd
  }

  /** The state the dispatcher works on. */
  datatype Screen = Screen(lines: seq<string>, cwd: string, input: string)

  /** What the `switch` does to the state once the echo is on screen. Clearing wipes the
      echo as well: the clear is applied after the batched push. */
  function Perform(s: Screen, e: Effect): Screen {
    match e
    case Print(out) => Screen(s.lines + Flatten(out), s.cwd, s.input)
    case Wipe => Screen([], s.cwd, s.input)
    case ChangeDir(path) => Screen(s.lines, ResolveCwd(s.cwd, path), s.input)
  }

  /** The net effect of `onCommand(raw)` on the state: nothing for a blank line;
      otherwise the echo, the `switch`, and an emptied text field. */
  function Submit(s: Screen, raw: string, rule: OpenRule, succeeded: bool): Screen {
    var cmd := Trim(raw);
    if cmd == "" then s
    else
      var words := SplitWs(cmd);
      var echoed := Screen(s.lines + [Echo(s.cwd, cmd)], s.cwd, s.input);
      Perform(echoed, Respond(words[0], words[1..], rule, succeeded)).(input := "")
  }

  /** The command word of a submission and the words after it. */
  function CommandName(raw: string): string {
    SplitWs(Trim(raw))[0]
  }

  function CommandArgs(raw: string): seq<string> {
    SplitWs(Trim(raw))[1..]
  }

  /** The command word of a non-blank submission, and every later word, is non-empty, so
      the `(name || "")` fallback of the `switch` never applies. */
  lemma CommandWordsNonEmpty(raw: string)
    requires !AllSpace(raw)
    ensures CommandName(raw) != ""
    ensures forall k :: 0 <= k < |CommandArgs(raw)| ==> CommandArgs(raw)[k] != ""
  {
    var t := Trim(raw);
    TrimEmptyIffBlank(raw);
    TrimTrimmed(raw);
    TrimmedPiecesNonEmpty(t);
    var w := SplitWs(t);
    forall k | 0 <= k < |CommandArgs(raw)| ensures CommandArgs(raw)[k] != "" {
      assert CommandArgs(raw)[k] == w[k + 1];
    }
  }

  /** The kind of effect follows the `switch` case alone. */
  lemma RespondKinds(name: string, args: seq<string>, rule: OpenRule, succeeded: bool)
    ensures Respond(name, args, rule, succeeded).Wipe? <==> Lookup(name) == Clear
    ensures Respond(name, args, rule, succeeded).ChangeDir? <==> Lookup(name) == Cd
    ensures Lookup(name) == Cd ==> Respond(name, args, rule, succeeded).path
                                     == if |args| > 0 then args[0] else ""
  {
  }

  /** A non-blank submission is the echo followed by the `switch` on its first word. */
  lemma SubmitSteps(s: Screen, raw: string, rule: OpenRule, succeeded: bool)
    requires !AllSpace(raw)
    ensures Submit(s, raw, rule, succeeded)
              == Perform(Screen(s.lines + [Echo(s.cwd, Trim(raw))], s.cwd, s.input),
                         Respond(CommandName(raw), CommandArgs(raw), rule, succeeded)).(input := "")
  {
    TrimEmptyIffBlank(raw);
  }

  /** Submitting only white space changes nothing at all, not even the text field. */
  lemma SubmitBlankIsNoOp(s: Screen, raw: string, rule: OpenRule, succeeded: bool)
    requires AllSpace(raw)
    ensures Submit(s, raw, rule, succeeded) == s
  {
    TrimEmptyIffBlank(raw);
  }

  /** Any other submission that is not `clear` keeps the old scrollback, then adds the
      echo (with the directory from before the command) and the command's own lines,
      and empties the text field. */
  lemma SubmitAppends(s: Screen, raw: string, rule: OpenRule, succeeded: bool)
    requires !AllSpace(raw) && Lookup(CommandName(raw)) != Clear
    ensures var e := Respond(CommandName(raw), CommandArgs(raw), rule, succeeded);
            Submit(s, raw, rule, succeeded).lines == s.lines + [Echo(s.cwd, Trim(raw))] + Printed(e)
    ensures Submit(s, raw, rule, succeeded).input == ""
  {
    SubmitSteps(s, raw, rule, succeeded);
    RespondKinds(CommandName(raw), CommandArgs(raw), rule, succeeded);
  }

  /** `clear`, in any letter case, leaves an empty scrollback (no echo survives) and
      the directory as it was. */
  lemma SubmitClear(s: Screen, raw: string, rule: OpenRule, succeeded: bool)
    requires !AllSpace(raw) && Lookup(CommandName(raw)) == Clear
    ensures Submit(s, raw, rule, succeeded) == Screen([], s.cwd, "")
  {
    SubmitSteps(s, raw, rule, succeeded);
    RespondKinds(CommandName(raw), CommandArgs(raw), rule, succeeded);
  }

  /** `cd` prints nothing beyond its echo and moves by the first argument only. */
  lemma SubmitCd(s: Screen, raw: string, rule: OpenRule, succeeded: bool)
    requires !AllSpace(raw) && Lookup(CommandName(raw)) == Cd
    ensures var args := CommandArgs(raw);
            Submit(s, raw, rule, succeeded)
              == Screen(s.lines + [Echo(s.cwd, Trim(raw))],
                        ResolveCwd(s.cwd, if |args| > 0 then args[0] else ""), "")
  {
    SubmitSteps(s, raw, rule, succeeded);
    RespondKinds(CommandName(raw), CommandArgs(raw), rule, succeeded);
  }

  /** Every command other than `cd` leaves the directory alone. */
  lemma SubmitKeepsCwd(s: Screen, raw: string, rule: OpenRule, succeeded: bool)
    requires AllSpace(raw) || Lookup(CommandName(raw)) != Cd
    ensures Submit(s, raw, rule, succeeded).cwd == s.cwd
  {
    if AllSpace(raw) {
      SubmitBlankIsNoOp(s, raw, rule, succeeded);
    } else {
      SubmitSteps(s, raw, rule, succeeded);
      RespondKinds(CommandName(raw), CommandArgs(raw), rule, succeeded);
    }
  }

  /** An unknown name prints exactly one line naming it as typed. */
  lemma SubmitUnknown(s: Screen, raw: string, rule: OpenRule, succeeded: bool)
    requires !AllSpace(raw) && Lookup(CommandName(raw)) == NotFound
    ensures Submit(s, raw, rule, succeeded).lines
              == s.lines + [Echo(s.cwd, Trim(raw))] + [NotFoundMessage(CommandName(raw))]
  {
    SubmitSteps(s, raw, rule, succeeded);
  }

  /** `open` prints one line: the reply of `openCmd` to the remaining words joined by
      single spaces. */
  lemma SubmitOpen(s: Screen, raw: string, rule: OpenRule, succeeded: bool)
    requires !AllSpace(raw) && Lookup(CommandName(raw)) == Open
    ensures Submit(s, raw, rule, succeeded).lines
              == s.lines + [Echo(s.cwd, Trim(raw))] + [OpenCmd(rule, Join(CommandArgs(raw), ' '), succeeded)]
  {
    SubmitSteps(s, raw, rule, succeeded);
  }

  /** The scrollback is append-only between clears: a submission either empties it or
      keeps every earlier entry, unchanged and in place. */
  lemma SubmitKeepsHistory(s: Screen, raw: string, rule: OpenRule, succeeded: bool)
    ensures var t := Submit(s, raw, rule, succeeded); t.lines == [] || s.lines <= t.lines
  {
    var t := Submit(s, raw, rule, succeeded);
    if AllSpace(raw) {
      SubmitBlankIsNoOp(s, raw, rule, succeeded);
      assert t.lines == s.lines;
    } else if Lookup(CommandName(raw)) == Clear {
      SubmitClear(s, raw, rule, succeeded);
      assert t.lines == [];
    } else {
      SubmitAppends(s, raw, rule, succeeded);
      var out := Printed(Respond(CommandName(raw), CommandArgs(raw), rule, succeeded));
      PrefixOfAppend(s.lines, [Echo(s.cwd, Trim(raw))], out);
    }
  }

  /** A sequence is a prefix of itself with anything appended. */
  lemma PrefixOfAppend(a: seq<string>, b: seq<string>, c: seq<string>)
    ensures a <= a + b + c
  {
    assert (a + b + c)[..|a|] == a;
  }

  /** No line of a sequence gets the typewriter effect. */
  predicate NoBanner(ls: seq<string>) {
    forall k :: 0 <= k < |ls| ==> !IsBanner(ls[k])
  }

  /** The scrollback invariant: only the first entry may be a banner, and then it is the
      welcome banner. */
  predicate BannerOnlyOnTop(ls: seq<string>) {
    forall k :: 0 <= k < |ls| && IsBanner(ls[k]) ==> k == 0 && ls[k] == WelcomeBanner()
  }

  /** The invariant the dispatcher keeps: a non-empty directory and only the greeting
      revealed character by character. */
  predicate ScreenOk(s: Screen) {
    s.cwd != "" && BannerOnlyOnTop(s.lines)
  }

  /** The greeting is revealed character by character, and the first render satisfies
      the invariant. */
  lemma GreetingIsTyped()
    ensures IsBanner(WelcomeBanner())
    ensures ScreenOk(Screen([WelcomeBanner()], HOME_DIR, ""))
  {
    BannerOpensWithCorner();
    var b := WelcomeBanner();
    assert b[..1] == [b[0]];
  }

  /** Appending lines that are not banners keeps the invariant. */
  lemma AppendPlain(ls: seq<string>, extra: seq<string>)
    requires BannerOnlyOnTop(ls) && NoBanner(extra)
    ensures BannerOnlyOnTop(ls + extra)
  {
  }

  /** The static blocks contain no banner. */
  lemma StaticBlocksPlain()
    ensures NoBanner(HELP_LINES) && NoBanner(ABOUT_LINES)
    ensures NoBanner(SKILLS_LINES) && NoBanner(LINKS_LINES)
  {
    forall k | 0 <= k < |HELP_LINES| ensures !IsBanner(HELP_LINES[k]) {
      NotBannerByFirstChar(HELP_LINES[k]);
    }
    forall k | 0 <= k < |ABOUT_LINES| ensures !IsBanner(ABOUT_LINES[k]) {
      NotBannerByFirstChar(ABOUT_LINES[k]);
    }
    forall k | 0 <= k < |SKILLS_LINES| ensures !IsBanner(SKILLS_LINES[k]) {
      NotBannerByFirstChar(SKILLS_LINES[k]);
    }
    forall k | 0 <= k < |LINKS_LINES| ensures !IsBanner(LINKS_LINES[k]) {
      NotBannerByFirstChar(LINKS_LINES[k]);
    }
  }

  /** The project list contains no banner. */
  lemma ProjectsPlain()
    ensures NoBanner(RenderProjects())
  {
    var r := RenderProjects();
    forall k | 0 <= k < |r| ensures !IsBanner(r[k]) {
      if k == 0 {
        NotBannerByFirstChar(r[0]);
      } else if k < |r| - 1 {
        assert r[k] == CardText(PROJECT_CARDS[k - 1]);
        NotBannerByFirstChar(r[k]);
      } else {
        NotBannerByFirstChar(r[k]);
      }
    }
  }

  /** The replies of `open` are not banners. */
  lemma OpenReplyPlain(rule: OpenRule, arg: string, succeeded: bool)
    ensures !IsBanner(OpenCmd(rule, arg, succeeded))
  {
    var r := OpenCmd(rule, arg, succeeded);
    if Trim(arg) == "" {
      NotBannerByFirstChar(r);
    } else {
      var t := if rule.KeyedLookup? then KeyedTarget(Trim(arg)) else Trim(arg);
      assert r == Report(t, succeeded);
      assert r[0] == (if succeeded then 'o' else 'f');
      NotBannerByFirstChar(r);
    }
  }

  /** Whatever a command prints, and its echo, is shown at once, never typed out. */
  lemma RespondPlain(cwd: string, cmd: string, name: string, args: seq<string>, rule: OpenRule, succeeded: bool)
    ensures !IsBanner(Echo(cwd, cmd))
    ensures NoBanner(Printed(Respond(name, args, rule, succeeded)))
  {
    assert Echo(cwd, cmd)[0] == 'g';
    NotBannerByFirstChar(Echo(cwd, cmd));
    StaticBlocksPlain();
    match Lookup(name)
    case Projects => ProjectsPlain();
    case Open => OpenReplyPlain(rule, Join(args, ' '), succeeded);
    case NotFound =>
      assert NotFoundMessage(name)[0] == 'C';
      NotBannerByFirstChar(NotFoundMessage(name));
    case _ =>
  }

  /** Every submission keeps the invariant. */
  lemma SubmitKeepsInvariant(s: Screen, raw: string, rule: OpenRule, succeeded: bool)
    requires ScreenOk(s)
    ensures ScreenOk(Submit(s, raw, rule, succeeded))
  {
    if AllSpace(raw) {
      SubmitBlankIsNoOp(s, raw, rule, succeeded);
    } else {
      var cmd, name, args := Trim(raw), CommandName(raw), CommandArgs(raw);
      var e := Respond(name, args, rule, succeeded);
      SubmitSteps(s, raw, rule, succeeded);
      RespondPlain(s.cwd, cmd, name, args, rule, succeeded);
      AppendPlain(s.lines, [Echo(s.cwd, cmd)]);
      var echoed := Screen(s.lines + [Echo(s.cwd, cmd)], s.cwd, s.input);
      PerformKeepsInvariant(echoed, e);
    }
  }

  /** Applying an effect that prints no banner keeps the invariant. */
  lemma PerformKeepsInvariant(s: Screen, e: Effect)
    requires ScreenOk(s) && NoBanner(Printed(e))
    ensures ScreenOk(Perform(s, e).(input := ""))
  {
    match e
    case Print(out) => AppendPlain(s.lines, Flatten(out));
    case Wipe =>
    case ChangeDir(path) => ResolveNonEmpty(s.cwd, path);
  }

  /** How the dispatcher reads a typed `a b` of two words. */
  lemma ReadTwoWords(a: string, b: string)
    requires a != [] && NoSpace(a) && b != [] && NoSpace(b)
    ensures !AllSpace(a + " " + b) && Trim(a + " " + b) == a + " " + b
    ensures CommandName(a + " " + b) == a && CommandArgs(a + " " + b) == [b]
  {
    TwoWords(a, b);
    TrimEmptyIffBlank(a + " " + b);
  }

  /** How the dispatcher reads a command line of any number of words typed with single
      spaces: the first is the command word and the others are its arguments, in order. */
  lemma ReadWords(words: seq<string>)
    requires |words| >= 1
    requires forall k :: 0 <= k < |words| ==> words[k] != [] && NoSpace(words[k])
    ensures var line := Join(words, ' ');
            !AllSpace(line) && Trim(line) == line
            && CommandName(line) == words[0] && CommandArgs(line) == words[1..]
  {
    var line := Join(words, ' ');
    JoinedWordsTrimmed(words);
    SplitWsJoin(words);
    TrimEmptyIffBlank(line);
  }

  /** `cd name` followed by `cd ..` returns to the directory it started from, and both
      commands leave just their echoes. */
  lemma CdThereAndBack(s: Screen, name: string, rule: OpenRule, succeeded: bool)
    requires s.cwd != "" && IsRelative(name) && NoSpace(name) && '/' !in name
    ensures var s1 := Submit(s, "cd " + name, rule, succeeded);
            var s2 := Submit(s1, "cd ..", rule, succeeded);
            s1.cwd == s.cwd + "/" + name && s2.cwd == s.cwd
            && s2.lines == s.lines + [Echo(s.cwd, "cd " + name)] + [Echo(s1.cwd, "cd ..")]
  {
    assert Lookup("cd") == Cd by { assert Lower("cd") == "cd"; }
    assert NoSpace("..");
    var raw1, raw2 := "cd " + name, "cd ..";
    assert raw1 == "cd" + " " + name;
    assert raw2 == "cd" + " " + "..";
    ReadTwoWords("cd", name);
    ReadTwoWords("cd", "..");
    var s1 := Submit(s, raw1, rule, succeeded);
    SubmitCd(s, raw1, rule, succeeded);
    assert s1 == Screen(s.lines + [Echo(s.cwd, raw1)], ResolveCwd(s.cwd, name), "");
    ResolveCases(s.cwd, name);
    var s2 := Submit(s1, raw2, rule, succeeded);
    SubmitCd(s1, raw2, rule, succeeded);
    assert s2 == Screen(s1.lines + [Echo(s1.cwd, raw2)], ResolveCwd(s1.cwd, ".."), "");
    UpUndoesRelative(s.cwd, name);
  }

  /** `open KEY`, with the keyed `openCmd` and the key in any letter case, prints the
      stored url of that project. */
  lemma OpenKeyEndToEnd(s: Screen, word: string, i: nat, succeeded: bool)
    requires word != [] && NoSpace(word) && i < |PROJECTS| && Lower(word) == Lower(PROJECTS[i].key)
    ensures Submit(s, "open " + word, KeyedLookup, succeeded).lines
              == s.lines + [Echo(s.cwd, "open " + word)] + [Report(PROJECTS[i].url, succeeded)]
  {
    assert Lookup("open") == Open by { assert Lower("open") == "open"; }
    var raw := "open " + word;
    assert raw == "open" + " " + word;
    ReadTwoWords("open", word);
    SubmitOpen(s, raw, KeyedLookup, succeeded);
    OpenKeyWord(word, i, succeeded);
  }

  /** The keyed `openCmd` of one key word, in any letter case, reports its project's url. */
  lemma OpenKeyWord(word: string, i: nat, succeeded: bool)
    requires word != [] && NoSpace(word) && i < |PROJECTS| && Lower(word) == Lower(PROJECTS[i].key)
    ensures OpenCmd(KeyedLookup, Join([word], ' '), succeeded) == Report(PROJECTS[i].url, succeeded)
  {
    assert Join([word], ' ') == word;
    assert !IsSpace(word[0]) && !IsSpace(word[|word| - 1]);
    TrimFixed(word);
    VariantsDifferOnKeys(word, succeeded, i);
  }

  /** Typing `foo` prints the echo and then the not-found message naming `foo`. */
  lemma UnknownFoo(s: Screen, rule: OpenRule, succeeded: bool)
    ensures Submit(s, "foo", rule, succeeded).lines
              == s.lines + [Echo(s.cwd, "foo")] + [NotFoundMessage("foo")]
  {
    assert NoSpace("foo");
    SplitWsWord("foo");
    TrimFixed("foo");
    TrimEmptyIffBlank("foo");
    assert Lower("foo") == "foo";
    assert CommandName("foo") == "foo";
    SubmitUnknown(s, "foo", rule, succeeded);
  }

  /** The three quick-action buttons of the top bar. */
  datatype Button = HelpButton | ProjectsButton | AboutButton

  /** The block a button pushes. */
  function ButtonOutput(b: Button): seq<string> {
    match b
    case HelpButton => HELP_LINES
    case ProjectsButton => RenderProjects()
    case AboutButton => ABOUT_LINES
  }

  /** A button prints the same block as the command of the same name, without the echo,
      and keeps the invariant. */
  lemma ButtonMatchesCommand(s: Screen, b: Button, rule: OpenRule, succeeded: bool)
    requires ScreenOk(s)
    ensures var name := match b case HelpButton => "help" case ProjectsButton => "projects"
                                case AboutButton => "about";
            ButtonOutput(b) == Printed(Respond(name, [], rule, succeeded))
    ensures ScreenOk(Screen(s.lines + ButtonOutput(b), s.cwd, s.input))
  {
    match b {
      case HelpButton => assert Lower("help") == "help" && Lookup("help") == Help;
      case ProjectsButton => assert Lower("projects") == "projects" && Lookup("projects") == Projects;
      case AboutButton => assert Lower("about") == "about" && Lookup("about") == About;
    }
    ButtonPlain(b);
    AppendPlain(s.lines, ButtonOutput(b));
  }

  /** No block a button pushes contains a banner. */
  lemma ButtonPlain(b: Button)
    ensures NoBanner(ButtonOutput(b))
  {
    StaticBlocksPlain();
    ProjectsPlain();
  }

  /** The App component's state. */
  class App {
    /** The `openCmd` definition this page's dispatcher calls. */
    const rule: OpenRule
    var lines: seq<string>
    var cwd: string
    var input: string

    function Snapshot(): Screen
      reads this
    {
      Screen(lines, cwd, input)
    }

    ghost predicate Valid()
      reads this
    {
      ScreenOk(Snapshot())
    }

    /** First render: the banner alone, the start directory and an empty text field. */
    constructor (rule: OpenRule)
      ensures Valid() && this.rule == rule
      ensures lines == [WelcomeBanner()] && cwd == HOME_DIR && input == ""
    {
      this.rule := rule;
      lines := [WelcomeBanner()];
      cwd := HOME_DIR;
      input := "";
    }

    /** `push(out)`: splice the output onto the end of the scrollback. */
    method Push(out: Output)
      modifies this
      ensures lines == old(lines) + Flatten(out) && cwd == old(cwd) && input == old(input)
    {
      lines := lines + Flatten(out);
    }

    /** `onCommand(cmdRaw)`: echo the trimmed command, run the `switch` on its first
        word, and empty the text field; a blank command does nothing. */
    method OnCommand(raw: string, succeeded: bool)
      requires Valid()
      modifies this
      ensures Valid()
      ensures Snapshot() == Submit(old(Snapshot()), raw, rule, succeeded)
    {
      var cmd := Trim(raw);
      if cmd == "" {
        return;
      }
      Push(Single(Echo(cwd, cmd)));
      var words := SplitWs(cmd);
      Dispatch(words[0], words[1..], succeeded);
      input := "";
      SubmitKeepsInvariant(old(Snapshot()), raw, rule, succeeded);
    }

    /** The `switch` of `onCommand` on the lower-cased command word. */
    method Dispatch(name: string, args: seq<string>, succeeded: bool)
      modifies this
      ensures Snapshot() == Perform(old(Snapshot()), Respond(name, args, rule, succeeded))
    {
      match Lookup(name) {
        case Help => Push(Many(HELP_LINES));
        case Clear => lines := [];
        case About => Push(Many(ABOUT_LINES));
        case Skills => Push(Many(SKILLS_LINES));
        case Projects => Push(Many(RenderProjects()));
        case Open => Push(Single(OpenCmd(rule, Join(args, ' '), succeeded)));
        case Cd => cwd := ResolveCwd(cwd, if |args| > 0 then args[0] else "");
        case Links => Push(Many(LINKS_LINES));
        case NotFound => Push(Single(NotFoundMessage(name)));
      }
    }

    /** The text field's `onChange`. */
    method SetInput(text: string)
      requires Valid()
      modifies this
      ensures Valid()
      ensures input == text && lines == old(lines) && cwd == old(cwd)
    {
      input := text;
    }

    /** Enter in the text field submits what it holds. */
    method PressEnter(succeeded: bool)
      requires Valid()
      modifies this
      ensures Valid()
      ensures Snapshot() == Submit(old(Snapshot()), old(input), rule, succeeded)
    {
      OnCommand(input, succeeded);
    }

    /** A quick-action button: a plain `push`, with no echo. */
    method PressButton(b: Button)
      requires Valid()
      modifies this
      ensures Valid()
      ensures lines == old(lines) + ButtonOutput(b) && cwd == old(cwd) && input == old(input)
    {
      match b {
        case HelpButton => Push(Many(HELP_LINES));
        case ProjectsButton => Push(Many(RenderProjects()));
        case AboutButton => Push(Many(ABOUT_LINES));
      }
      ButtonMatchesCommand(old(Snapshot()), b, rule, false);
    }
  }
}
