/** The cosmetic working directory shown in the prompt and the rule `cd` uses to change it. */
module Cwd {
  import opened Text

  /** The directory the terminal starts in. */
  const HOME_DIR: string := "~/portfolio"

  /** `resolveCwd(prev, path)`: no check against any file system; every string is accepted. */
  function ResolveCwd(prev: string, path: string): string {
    if path == "" || path == "." then prev
    else if path == ".." then Parent(prev)
    else if StartsWith(path, "/") then path
    else if StartsWith(path, "~") then path
    else prev + "/" + path
  }

  /** The `..` case: every segment but the last, joined back with `/`, or `~` when that
      leaves nothing. */
  function Parent(prev: string): string {
    var up := Join(DropLast(Split(prev, '/')), '/');
    if up == "" then "~" else up
  }

  /** An argument that is neither empty, `.`, `..`, nor starts with `/` or `~`. */
  predicate IsRelative(path: string) {
    path != "" && path != "." && path != ".." && path[0] != '/' && path[0] != '~'
  }

  /** The four cases of the rule, other than `..`, in closed form. */
  lemma ResolveCases(prev: string, path: string)
    ensures path == "" || path == "." ==> ResolveCwd(prev, path) == prev
    ensures path != "" && (path[0] == '/' || path[0] == '~') ==> ResolveCwd(prev, path) == path
    ensures IsRelative(path) ==> ResolveCwd(prev, path) == prev + "/" + path
  {
    if path != "" && (path[0] == '/' || path[0] == '~') {
      assert path != "." && path != "..";
      assert path[..1] == [path[0]];
    }
  }

  /** `..` on a directory without `/` goes to `~`. */
  lemma UpWithoutSlash(prev: string)
    requires '/' !in prev
    ensures ResolveCwd(prev, "..") == "~"
  {
    NoSeparatorSplit(prev, '/');
  }

  /** `..` cuts the directory at its last `/`; a cut that leaves nothing gives `~`. */
  lemma UpCutsLastSegment(prev: string, k: nat)
    requires k < |prev| && prev[k] == '/' && '/' !in prev[k + 1..]
    ensures ResolveCwd(prev, "..") == if k == 0 then "~" else prev[..k]
  {
    JoinDropLastSplit(prev, '/', k);
  }

  /** `..` never yields the empty directory, and either goes to `~` or strictly reduces
      the number of `/` in the directory. */
  lemma UpShrinks(prev: string)
    ensures ResolveCwd(prev, "..") != ""
    ensures var up := ResolveCwd(prev, ".."); up == "~" || Count(up, '/') < Count(prev, '/')
  {
    if '/' in prev {
      var k := LastIndex(prev, '/');
      UpCutsLastSegment(prev, k);
      if k > 0 { CountPrefix(prev, '/', k); }
    } else {
      UpWithoutSlash(prev);
    }
  }

  /** `UpShrinks`, stated on the `..` case itself. */
  lemma ParentShrinks(prev: string)
    ensures Parent(prev) == "~" || Count(Parent(prev), '/') < Count(prev, '/')
  {
    UpShrinks(prev);
  }

  /** The position of the last occurrence of `c` in `s`. */
  function LastIndex(s: string, c: char): (k: nat)
    requires c in s
    ensures k < |s| && s[k] == c && c !in s[k + 1..]
  {
    if s[|s| - 1] == c then |s| - 1
    else
      assert c in s[..|s| - 1] by {
        var i :| 0 <= i < |s| && s[i] == c;
        assert s[..|s| - 1][i] == c;
      }
      var k := LastIndex(s[..|s| - 1], c);
      assert s[k + 1..] == s[..|s| - 1][k + 1..] + [s[|s| - 1]];
      k
  }

  /** `cd ..` applied `n` times. */
  function UpTimes(prev: string, n: nat): string
    decreases n
  {
    if n == 0 then prev else UpTimes(Parent(prev), n - 1)
  }

  /** `~` is a fixed point of `..`. */
  lemma HomeIsFixed(n: nat)
    ensures UpTimes("~", n) == "~"
  {
    UpWithoutSlash("~");
    if n > 0 { HomeIsFixed(n - 1); }
  }

  /** More `cd ..` steps than the directory has `/` always end at `~`. */
  lemma {:induction false} UpReachesHome(prev: string, n: nat)
    requires n > Count(prev, '/')
    ensures UpTimes(prev, n) == "~"
    decreases n
  {
    var up := Parent(prev);
    ParentShrinks(prev);
    if up == "~" {
      HomeIsFixed(n - 1);
    } else {
      UpReachesHome(up, n - 1);
    }
  }

  /** From `~/a/b`, `..` gives `~/a`, then `~`, then `~` again. */
  lemma UpFromNested()
    ensures ResolveCwd("~/a/b", "..") == "~/a"
    ensures ResolveCwd("~/a", "..") == "~"
    ensures ResolveCwd("~", "..") == "~"
  {
    var d2, d1 := "~/a/b", "~/a";
    assert d2[3] == '/' && d2[4..] == "b" && d2[..3] == d1;
    UpCutsLastSegment(d2, 3);
    assert d1[1] == '/' && d1[2..] == "a" && d1[..1] == "~";
    UpCutsLastSegment(d1, 1);
    UpWithoutSlash("~");
  }

  /** `..` undoes a relative step into a single plain name. */
  lemma UpUndoesRelative(prev: string, name: string)
    requires prev != "" && IsRelative(name) && '/' !in name
    ensures ResolveCwd(ResolveCwd(prev, name), "..") == prev
  {
    ResolveCases(prev, name);
    var next := prev + "/" + name;
    assert next[|prev| + 1..] == name;
    UpCutsLastSegment(next, |prev|);
    assert next[..|prev|] == prev;
  }

  /** Every `cd` from a non-empty directory lands on a non-empty directory. */
  lemma ResolveNonEmpty(prev: string, path: string)
    requires prev != ""
    ensures ResolveCwd(prev, path) != ""
  {
    if path == ".." { UpShrinks(prev); }
  }
}
