/** The text the commands print: the welcome banner, the static blocks and the
    generated project list. */
module Content {
  import opened Text

  // Literals longer than a few dozen characters are written as concatenations of shorter
  // pieces; the verifier reads the first characters of a short literal more cheaply.

  /** The four lines of box art that make up the greeting, each 46 characters wide: a
      44-character run of `─` or of padding between the two sides of the box. */
  const BANNER_ART: seq<string> := [
    "┌" + Repeat('─', 44) + "┐",
    "│  Terminal" + Repeat(' ', 34) + "│",
    "│  Type 'help' to get started" + Repeat(' ', 16) + "│",
    "└" + Repeat('─', 44) + "┘"
  ]

  /** `welcomeBanner()`: the art joined into one entry with newlines. */
  function WelcomeBanner(): string {
    Join(BANNER_ART, '\n')
  }

  /** The banner begins with the first art line, hence with its corner `┌`. */
  lemma BannerOpensWithCorner()
    ensures StartsWith(WelcomeBanner(), BANNER_ART[0])
    ensures WelcomeBanner()[0] == '┌'
  {
    JoinStartsWithFirst(BANNER_ART, '\n');
    assert WelcomeBanner()[0] == BANNER_ART[0][..|BANNER_ART[0]|][0];
  }

  /** A line of the art built from pieces without newlines has none. */
  lemma PaddedNoNewline(left: string, fill: char, n: nat, right: string)
    requires '\n' !in left && fill != '\n' && '\n' !in right
    ensures '\n' !in left + Repeat(fill, n) + right
  {
  }

  /** No art line contains a newline. */
  lemma ArtHasNoNewline()
    ensures forall k :: 0 <= k < |BANNER_ART| ==> '\n' !in BANNER_ART[k]
  {
    PaddedNoNewline("┌", '─', 44, "┐");
    PaddedNoNewline("│  Terminal", ' ', 34, "│");
    PaddedNoNewline("│  Type 'help' to get started", ' ', 16, "│");
    PaddedNoNewline("└", '─', 44, "┘");
  }

  /** Splitting the banner on newlines gives the art back line by line. */
  lemma BannerSplitsIntoArt()
    ensures Split(WelcomeBanner(), '\n') == BANNER_ART
  {
    ArtHasNoNewline();
    SplitJoin(BANNER_ART, '\n');
  }

  /** `renderHelp()`. */
  const HELP_LINES: seq<string> := [
    "\nAvailable commands:",
    "  help        — show this help",
    "  projects    — " + "list featured projects",
    "  about       — short bio",
    "  skills      — tech stack",
    "  links       — GitHub/Discord",
    "  clear       — clear the screen",
    "  cd <path>   — " + "change directory (cosmetic)",
    "  open <url>  — open a link",
    ""
  ]

  /** `renderAbout()`. */
  const ABOUT_LINES: seq<string> := [
    "\nabout.txt:",
    "  I’m a developer that focus " + "on Backend, Game development with roblox studio & cybersecurity.",
    "  Sometimes i like to learn " + "physics and math to spare time",
    ""
  ]

  /** `renderSkills()`. */
  const SKILLS_LINES: seq<string> := [
    "\nskills.json:",
    "  [C, C++, Python, PHP, Linux, Lua]",
    ""
  ]

  /** `renderLinks()`. */
  const LINKS_LINES: seq<string> := [
    "\nlinks:",
    "  GitHub   → " + "https://github.com/swag-iwnl-m1",
    "  Discord  → add kido8518 "
  ]

  /** One record of the list `renderProjects` prints. */
  datatype ProjectCard = ProjectCard(name: string, description: string, tech: string, url: string)

  /** The list built inside `renderProjects`. */
  const PROJECT_CARDS: seq<ProjectCard> := [
    ProjectCard("discord-bot", "Moderation + music + AI Gemini", "Python, discord.py",
      "https://github.com/" + "Swag-iwnl-m1/Dampang-Bot"),
    ProjectCard("Roblox game", "Make horror game about my campus", "Lua, Roblox studio",
      "https://www.roblox.com/share" + "?code=b07d1de09e05904082cd79912dc4a567"
        + "&type=ExperienceDetails" + "&stamp=1756125186597")
  ]

  /** The four-line block one project is printed as. */
  function CardText(p: ProjectCard): string {
    "  - " + p.name + "\n      " + p.description + "\n      tech: " + p.tech + "\n      open: " + p.url
  }

  /** The header, one block per card in order, and a closing empty line. */
  function RenderProjectList(cards: seq<ProjectCard>): seq<string> {
    var header := "\n./projects (" + NatToString(|cards|) + "):\n";
    [header] + seq(|cards|, i requires 0 <= i < |cards| => CardText(cards[i])) + [""]
  }

  /** `renderProjects()`. */
  function RenderProjects(): seq<string> {
    RenderProjectList(PROJECT_CARDS)
  }

  /** The project list announces its two projects and prints each card in order. */
  lemma ProjectsShape()
    ensures |RenderProjects()| == 4
    ensures RenderProjects()[0] == "\n./projects (2):\n"
    ensures RenderProjects()[1] == CardText(PROJECT_CARDS[0])
    ensures RenderProjects()[2] == CardText(PROJECT_CARDS[1])
    ensures RenderProjects()[3] == ""
  {
    assert NatToString(2) == "2";
  }
}
