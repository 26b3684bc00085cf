/** The `open` command: both definitions of `openCmd` the source declares, and the
    project-key table the first one consults. Whether the browser's `window.open` threw
    is the parameter `succeeded` (true: it returned normally). */
module Opening {
  import opened Text

  datatype Option<T> = None | Some(value: T)

  /** One entry of `PROJECTS`. */
  datatype ProjectLink = ProjectLink(key: string, url: string)

  const PROJECTS: seq<ProjectLink> := [
    ProjectLink("discord-bot", "https://github.com/" + "Swag-iwnl-m1/Dampang-Bot"),
    ProjectLink("roblox-game",
      "https://www.roblox.com/share" + "?code=b07d1de09e05904082cd79912dc4a567"
        + "&type=ExperienceDetails" + "&stamp=1756125186597")
  ]

  /** `links.find(p => p.key.toLowerCase() === q.toLowerCase())`: the first entry whose
      key matches `q` ignoring case, or nothing when no key does. */
  function FindProject(links: seq<ProjectLink>, q: string): (r: Option<ProjectLink>)
    ensures r.None? <==> forall i :: 0 <= i < |links| ==> Lower(links[i].key) != Lower(q)
    ensures r.Some? ==> exists i :: 0 <= i < |links| && links[i] == r.value
                          && Lower(r.value.key) == Lower(q)
                          && forall j :: 0 <= j < i ==> Lower(links[j].key) != Lower(q)
  {
    if links == [] then None
    else if Lower(links[0].key) == Lower(q) then Some(links[0])
    else
      var r := FindProject(links[1..], q);
      assert r.Some? ==> exists i :: 0 <= i < |links[1..]| && links[1..][i] == r.value
                          && forall j :: 0 <= j < i ==> Lower(links[1..][j].key) != Lower(q);
      assert forall i :: 0 <= i < |links[1..]| ==> links[1..][i] == links[i + 1];
      r
  }

  /** The two message shapes both variants produce once they have a target. */
  function Report(target: string, succeeded: bool): string {
    (if succeeded then "opening → " else "failed to open: ") + target
  }

  /** A report can be read back: it names its target and whether the open succeeded. */
  lemma ReportDecodes(t1: string, ok1: bool, t2: string, ok2: bool)
    requires Report(t1, ok1) == Report(t2, ok2)
    ensures t1 == t2 && ok1 == ok2
  {
    var r := Report(t1, ok1);
    assert r[0] == (if ok1 then 'o' else 'f');
    assert Report(t2, ok2)[0] == (if ok2 then 'o' else 'f');
    if ok1 == ok2 {
      var n := if ok1 then |"opening → "| else |"failed to open: "|;
      assert r[n..] == t1;
      assert r[n..] == t2;
    }
  }

  const USAGE_KEYED: string := "Usage: open <url|project-key>"
  const USAGE_PLAIN: string := "Usage: open <url>"

  /** Both keys are stored in lower case, so lowering them changes nothing. */
  lemma KeysAreLowerCase()
    ensures Lower(PROJECTS[0].key) == "discord-bot"
    ensures Lower(PROJECTS[1].key) == "roblox-game"
  {
    assert PROJECTS[0].key == "discord-bot" && PROJECTS[1].key == "roblox-game";
    LowerOfLowerCase("discord-bot");
    LowerOfLowerCase("roblox-game");
  }

  /** The target the keyed variant opens: the url of the project whose key matches `q`
      ignoring case, or `q` itself. */
  function KeyedTarget(q: string): (t: string)
    ensures forall i :: 0 <= i < |PROJECTS| && Lower(PROJECTS[i].key) == Lower(q)
              ==> t == PROJECTS[i].url
    ensures (forall i :: 0 <= i < |PROJECTS| ==> Lower(PROJECTS[i].key) != Lower(q)) ==> t == q
  {
    KeysAreLowerCase();
    match FindProject(PROJECTS, q)
    case Some(p) => p.url
    case None => q
  }

  /** The first `openCmd` (with project-key lookup). */
  function OpenCmdKeyed(arg: string, succeeded: bool): string {
    var q := Trim(arg);
    if q == "" then USAGE_KEYED else Report(KeyedTarget(q), succeeded)
  }

  /** The second `openCmd` (no lookup: the trimmed argument is the target). */
  function OpenCmdPlain(url: string, succeeded: bool): string {
    var u := Trim(url);
    if u == "" then USAGE_PLAIN else Report(u, succeeded)
  }

  /** Each variant prints its usage line exactly when the argument is all white space:
      a report begins with `o` or `f`, a usage line with `U`. */
  lemma UsageIffBlank(arg: string, succeeded: bool)
    ensures OpenCmdKeyed(arg, succeeded) == USAGE_KEYED <==> AllSpace(arg)
    ensures OpenCmdPlain(arg, succeeded) == USAGE_PLAIN <==> AllSpace(arg)
  {
    TrimEmptyIffBlank(arg);
    var q := Trim(arg);
    if q != "" {
      var r := Report(KeyedTarget(q), succeeded);
      assert r[0] == (if succeeded then 'o' else 'f');
      assert USAGE_KEYED[0] == 'U';
      var u := Report(q, succeeded);
      assert u[0] == (if succeeded then 'o' else 'f');
      assert USAGE_PLAIN[0] == 'U';
    }
  }

  /** Away from the project keys both variants report the trimmed argument itself on
      every non-blank argument, and on a blank one each gives its own usage line. */
  lemma VariantsAgreeOffKeys(arg: string, succeeded: bool)
    requires forall i :: 0 <= i < |PROJECTS| ==> Lower(PROJECTS[i].key) != Lower(Trim(arg))
    ensures Trim(arg) != "" ==> OpenCmdKeyed(arg, succeeded) == OpenCmdPlain(arg, succeeded)
                                  == Report(Trim(arg), succeeded)
    ensures Trim(arg) == "" ==> OpenCmdKeyed(arg, succeeded) != OpenCmdPlain(arg, succeeded)
  {
    assert |USAGE_KEYED| != |USAGE_PLAIN|;
  }

  /** On a project key, in any letter case, the keyed variant opens the stored url
      while the plain variant opens the key itself. */
  lemma VariantsDifferOnKeys(arg: string, succeeded: bool, i: nat)
    requires i < |PROJECTS| && Lower(Trim(arg)) == Lower(PROJECTS[i].key)
    ensures OpenCmdKeyed(arg, succeeded) == Report(PROJECTS[i].url, succeeded)
    ensures OpenCmdPlain(arg, succeeded) == Report(Trim(arg), succeeded)
  {
    KeysAreLowerCase();
    var q := Trim(arg);
    assert |q| == |Lower(q)|;
    assert q != "";
    assert KeyedTarget(q) == PROJECTS[i].url;
  }

  /** A key resolves whatever its letter case. */
  lemma KeyInAnyCase()
    ensures KeyedTarget("discord-bot") == PROJECTS[0].url
    ensures KeyedTarget("DISCORD-BOT") == PROJECTS[0].url
  {
    KeysAreLowerCase();
    LowerOfLowerCase("discord-bot");
    assert Lower("DISCORD-BOT") == "discord-bot";
  }

  /** The display name of the second project, `Roblox game`, is not a key and stays a
      literal target. */
  lemma DisplayNameIsNoKey()
    ensures KeyedTarget("Roblox game") == "Roblox game"
  {
    KeysAreLowerCase();
    var r := Lower("Roblox game");
    assert r[0] == 'r' && r[6] == ' ';
  }
}
