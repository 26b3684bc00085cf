# porto-terminal in Dafny

A model of the logic behind the terminal-style portfolio page `src/App.jsx`. Its parts:

- The command dispatcher `onCommand` and the scrollback buffer it appends to with `push`.
- The cosmetic working directory and the `cd` rule `resolveCwd`.
- The two definitions of `openCmd`, with the project-key table `PROJECTS`.
- The typewriter reveal of the `Line` component.
- The text the commands print.

Modules:

- `Text`: the JavaScript string built-ins the page uses.
  - `trim`, over the ECMAScript WhiteSpace and LineTerminator characters.
  - `split(/\s+/)`, `split("/")`, `join`, `startsWith` and number-to-string.
  - ASCII `toLowerCase`.
- `Cwd`: `resolveCwd` and its `..` case (`Parent`).
- `Content`: `welcomeBanner`, the `render*` blocks as constants, and `renderProjects` as a function of its card list.
- `Opening`: `PROJECTS`, the keyed `openCmd` (`OpenCmdKeyed`) and the plain one (`OpenCmdPlain`).
  - Whether `window.open` returned normally is the boolean `succeeded`.
- `Reveal`: the `Line` component as the class `LineView`.
  - Each firing of the interval is a call of `Tick`.
  - Clearing the interval sets `stopped`.
- `Terminal`: the command `switch` (`Lookup`, `Respond`) and the effect of one submission (`Submit`, built from `Perform`).
  - The class `App` holds the component's state `lines`, `cwd` and `input`, updated in place by `OnCommand`, `Push` and the buttons.
  - Every `OnCommand` is proved equal to `Submit` on the state before it.
  - The class keeps the invariant `ScreenOk`: the directory is non-empty, and only the first entry may get the typewriter effect, in which case it is the welcome banner.

React runs its batched state setters as one update. The model applies them in order. So `clear` pushes its echo and then wipes it, leaving an empty buffer.

The file declares `openCmd` twice, at lines 201 and 237. The file is an ECMAScript module. Section 16.2.1.1 of ECMA-262 makes duplicate top-level declarations in a module an early error. The model therefore keeps both definitions, and which one the dispatcher reaches is the constant `App.rule`.

## Model

| member | source | states |
|---|---|---|
| Text.TrimStart | src/App.jsx:21 | the result is a suffix of the input, everything removed is white space, and the result does not start with white space |
| Text.TrimEnd | src/App.jsx:21 | the result is a prefix of the input, everything removed is white space, and the result does not end with white space |
| Text.TrimEmptyIffBlank | src/App.jsx:21-22 | the trimmed command is empty exactly when the raw input is all white space, so the early return fires exactly on blank input |
| Text.TrimTrimmed | src/App.jsx:21 | a trimmed string has white space at neither end, and trimming it again changes nothing |
| Text.SplitWs | src/App.jsx:27 | a whitespace split has at least one piece, so `name` always exists, and its first piece is no longer than the input |
| Text.SplitWsNoSpace | src/App.jsx:27 | no piece of a whitespace split contains white space |
| Text.SplitWsWord | src/App.jsx:27 | a single word splits into exactly itself |
| Text.SplitWsWordThen | src/App.jsx:27 | a word followed by any run of white space, several characters or tabs included, splits into the word and then the split of what follows that run |
| Text.SplitWsLaterPieces | src/App.jsx:27 | when the string does not end in white space, every piece after the first is non-empty |
| Text.TrimmedPiecesNonEmpty | src/App.jsx:21-27 | a trimmed, non-empty command splits into non-empty words only |
| Text.SplitWsJoin | src/App.jsx:27 | any number of non-empty words without white space, joined by single spaces, split back into exactly those words, in order |
| Text.JoinedWordsTrimmed | src/App.jsx:21 | such a line of words is non-empty and is its own trim |
| Text.TwoWords | src/App.jsx:21-27 | `a b` for two words splits into exactly `[a, b]` and is its own trim |
| Text.LowerIdempotent | src/App.jsx:29 | lowering a lowered string changes nothing |
| Text.Split | src/App.jsx:231 | `split("/")` gives one more piece than there are separators, and no piece contains the separator |
| Text.JoinSplit | src/App.jsx:231 | joining the pieces of a split with that separator gives back the string |
| Text.SplitJoin | src/App.jsx:149 | splitting a join of separator-free pieces on the separator gives back the pieces |
| Text.JoinDropLastSplit | src/App.jsx:231 | dropping the last piece of a split and joining cuts the string just before its last separator |
| Text.NatToString | src/App.jsx:191 | a number's decimal text is non-empty, made of digits only, reads back as that number, and has no leading zero |
| Cwd.ResolveCases | src/App.jsx:229-235 | for `""` or `.` the directory is kept; a path starting with `/` or `~` replaces it; any other path except `..` is appended after a `/` |
| Cwd.UpWithoutSlash | src/App.jsx:231 | `..` on a directory without `/` gives `~` |
| Cwd.UpCutsLastSegment | src/App.jsx:231 | `..` cuts the directory at its last `/`, and gives `~` when the only `/` is the first character |
| Cwd.UpShrinks | src/App.jsx:231 | `..` never gives the empty directory, and it either reaches `~` or removes at least one `/` |
| Cwd.HomeIsFixed | src/App.jsx:231 | `~` is a fixed point of any number of `..` |
| Cwd.UpReachesHome | src/App.jsx:231 | more `..` steps than the directory has `/` always end at `~` |
| Cwd.UpFromNested | src/App.jsx:231 | from `~/a/b`, `..` gives `~/a`, then `~`, then `~` again |
| Cwd.UpUndoesRelative | src/App.jsx:231-234 | `..` undoes a relative step into one plain name |
| Cwd.ResolveNonEmpty | src/App.jsx:229-235 | `cd` from a non-empty directory always lands on a non-empty directory |
| Content.BannerOpensWithCorner | src/App.jsx:142-150 | the welcome banner starts with its first art line, hence with `┌` |
| Content.ArtHasNoNewline | src/App.jsx:143-148 | none of the four art lines contains a newline |
| Content.BannerSplitsIntoArt | src/App.jsx:142-150 | splitting the banner on newlines gives the four art lines back, in order |
| Content.ProjectsShape | src/App.jsx:186-194 | the project block has four entries, and the header reads `./projects (2):` |
| Opening.FindProject | src/App.jsx:205-207 | nothing is found exactly when no key equals the query ignoring case; otherwise the result is the first entry whose key does |
| Opening.KeysAreLowerCase | src/App.jsx:196-199 | both stored keys are already lower case |
| Opening.KeyedTarget | src/App.jsx:205-208 | a query matching a key ignoring case resolves to that project's url; any other query resolves to itself |
| Opening.ReportDecodes | src/App.jsx:210-215 | the success and failure messages name their target and outcome unambiguously |
| Opening.UsageIffBlank | src/App.jsx:201-246 | each definition prints its own usage line exactly when the argument is all white space, so the early return at lines 203 and 239 fires exactly on blank input |
| Opening.VariantsAgreeOffKeys | src/App.jsx:201-246 | away from the project keys both definitions report the trimmed argument itself, as opened or failed, for every non-blank argument, and give different usage lines otherwise |
| Opening.VariantsDifferOnKeys | src/App.jsx:201-246 | on a project key in any letter case, the keyed definition opens the stored url and the plain one opens the key itself |
| Opening.KeyInAnyCase | src/App.jsx:196-208 | `discord-bot` and `DISCORD-BOT` both resolve to the first project's url |
| Opening.DisplayNameIsNoKey | src/App.jsx:196-208 | the display name `Roblox game` is no key and resolves to itself |
| Reveal.NotBannerByFirstChar | src/App.jsx:127 | an entry whose first character is neither `┌` nor `W` gets no typewriter effect |
| Reveal.LineView.constructor | src/App.jsx:127-130 | a banner mounts empty with its timer running; any other entry mounts whole, with no timer |
| Reveal.LineView.Tick | src/App.jsx:132-136 | a running tick adds exactly one character of the text to the visible prefix and stops the timer exactly at full length; a stopped view does not change |
| Reveal.LineView.Dispose | src/App.jsx:137 | unmounting stops the timer and leaves the visible text as it is |
| Reveal.LineView.Advance | src/App.jsx:131-136 | `n` ticks show the first `min(old + n, length)` characters, and the timer is stopped exactly when all are shown; on a stopped view nothing changes and the timer stays stopped |
| Reveal.RunBanner | src/App.jsx:125-140 | a banner left for `n` ticks shows its first `n` characters, and shows all of it from `length` ticks on, when its timer stops |
| Reveal.ShowPlain | src/App.jsx:127-130 | a non-banner entry is whole from the start, with no timer |
| Terminal.LookupIgnoresCase | src/App.jsx:29-59 | the `switch` ignores letter case, and falls to its default exactly for names outside its table |
| Terminal.LookupExamples | src/App.jsx:29-57 | `HELP`, `Clear`, `LS`, `WhoAmI`, `cd` and `open` reach their cases; `foo` reaches the default |
| Terminal.RespondIgnoresCase | src/App.jsx:29-59 | names differing only in case get the same output, except the not-found message, which quotes the name as typed |
| Terminal.CommandWordsNonEmpty | src/App.jsx:21-29 | the command word and every argument of a non-blank submission are non-empty, so `name \|\| ""` is always `name` |
| Terminal.RespondKinds | src/App.jsx:33-52 | exactly `clear` wipes the screen and exactly `cd` changes the directory, by its first argument or `""` |
| Terminal.SubmitBlankIsNoOp | src/App.jsx:21-22 | a blank submission changes nothing at all, not even the text field |
| Terminal.SubmitAppends | src/App.jsx:25-61 | any other submission except `clear` keeps the old buffer, adds the echo with the directory from before the command and then the command's output, and empties the text field |
| Terminal.SubmitClear | src/App.jsx:33-34 | `clear` in any letter case leaves an empty buffer, with no echo, the same directory and an empty text field |
| Terminal.SubmitCd | src/App.jsx:50-52 | `cd` adds only its echo and moves by its first argument alone |
| Terminal.SubmitKeepsCwd | src/App.jsx:20-62 | every submission other than `cd` leaves the directory alone |
| Terminal.SubmitUnknown | src/App.jsx:57-58 | an unknown name adds the echo and exactly one not-found line that quotes the name as typed |
| Terminal.SubmitOpen | src/App.jsx:47-49 | `open` adds the echo and exactly one reply of `openCmd` to the remaining words joined by single spaces |
| Terminal.SubmitKeepsHistory | src/App.jsx:16-62 | a submission either empties the buffer or keeps every earlier entry in place |
| Terminal.GreetingIsTyped | src/App.jsx:5-7 | the greeting gets the typewriter effect, and the first render satisfies the invariant |
| Terminal.StaticBlocksPlain | src/App.jsx:152-225 | no entry of the help, about, skills or links blocks gets the typewriter effect |
| Terminal.ProjectsPlain | src/App.jsx:186-194 | no entry of the project block gets the typewriter effect |
| Terminal.OpenReplyPlain | src/App.jsx:201-246 | no reply of either `openCmd` gets the typewriter effect |
| Terminal.RespondPlain | src/App.jsx:25-58 | neither the echo nor anything a command prints gets the typewriter effect |
| Terminal.SubmitKeepsInvariant | src/App.jsx:20-62 | every submission keeps the directory non-empty and the greeting the only typed-out entry |
| Terminal.ReadWords | src/App.jsx:21-27 | a command line of any number of words typed with single spaces is read as its first word with the remaining words as arguments, in order |
| Terminal.ReadTwoWords | src/App.jsx:21-27 | a typed `a b` is read as command `a` with the single argument `b` |
| Terminal.CdThereAndBack | src/App.jsx:50-52 | `cd name` then `cd ..` returns to the starting directory, leaving just the two echoes |
| Terminal.OpenKeyEndToEnd | src/App.jsx:47-49 | `open KEY` with the keyed definition, in any letter case, prints the report for that project's url |
| Terminal.UnknownFoo | src/App.jsx:57-58 | typing `foo` adds its echo and the message `Command not found: foo. Type 'help'` |
| Terminal.ButtonMatchesCommand | src/App.jsx:78-80 | each button pushes exactly the block of the command of the same name, and keeps the invariant |
| Terminal.App.constructor | src/App.jsx:5-7 | the first render shows the banner alone, in `~/portfolio`, with an empty text field |
| Terminal.App.Push | src/App.jsx:16-18 | a string is appended as one entry and an array element by element; nothing else changes |
| Terminal.App.OnCommand | src/App.jsx:20-62 | the new state is `Submit` of the old one, and the invariant is kept |
| Terminal.App.Dispatch | src/App.jsx:29-59 | the `switch` changes the state as `Perform` of its case's effect |
| Terminal.App.SetInput | src/App.jsx:99 | typing replaces the text field and nothing else |
| Terminal.App.PressEnter | src/App.jsx:100-102 | Enter submits what the text field holds |
| Terminal.App.PressButton | src/App.jsx:78-80 | a button appends its block with no echo, leaves the directory and text field alone, and keeps the invariant |

## Left out

- JSX layout, styling, the footer and its `new Date().getFullYear()`: these are rendering only.
- The `scrollIntoView` effect: it is a DOM side effect.
- `window.open` and its arguments: a browser call. Only whether it threw is modelled, as `succeeded`.
- The 6 ms `setInterval` cadence: timer plumbing. Ticks are explicit calls, and the model does not follow a view after it unmounts.
- React's batching and re-rendering: only the net sequential state change per event is modelled. React reuses `Line` components by index (`key={i}`), and that reuse is not modelled. `Terminal.SubmitKeepsHistory` shows that a mounted entry's text never changes in place.
- The memoisation of the prompt with `useMemo`: `Prompt` is a plain function of `cwd`.
- Text.Lower: folds only ASCII `A`–`Z`, where JavaScript's `toLowerCase` folds all of Unicode.
- Strings are sequences of Unicode scalar values, while JavaScript counts UTF-16 code units. `length` and `slice` in the typewriter differ only for characters outside the Basic Multilingual Plane, which are counted once here.
- The `(arg || "")` and `(name || "")` fallbacks: both operands are always strings here, because `split` and `join` always produce one. `Terminal.CommandWordsNonEmpty` shows that `name` is never even empty.
- Which `openCmd` is in effect: this is the parameter `App.rule`, not a claim.
- The four `render*` blocks other than `renderProjects`: they are fixed constants, and only their verbatim appending is stated.
