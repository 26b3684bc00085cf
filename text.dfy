/** The JavaScript string built-ins the terminal relies on: `trim`, `split(/\s+/)`,
    `split(sep)`, `join(sep)`, `toLowerCase`, `startsWith` and number-to-string. */
module Text {

  /** The characters ECMAScript counts as WhiteSpace or LineTerminator: exactly the
      ones `String.prototype.trim` strips and the regular-expression class `\s` matches. */
  predicate IsSpace(c: char) {
    c == '\t' || c == '\n' || c == '\U{B}' || c == '\U{C}' || c == '\r' || c == ' '
    || c == '\U{A0}' || c == '\U{1680}' || ('\U{2000}' <= c <= '\U{200A}')
    || c == '\U{2028}' || c == '\U{2029}' || c == '\U{202F}' || c == '\U{205F}'
    || c == '\U{3000}' || c == '\U{FEFF}'
  }

  /** A string made of white space only (the empty string included). */
  predicate AllSpace(s: string) {
    forall i :: 0 <= i < |s| ==> IsSpace(s[i])
  }

  /** A string with no white space in it. */
  predicate NoSpace(s: string) {
    forall i :: 0 <= i < |s| ==> !IsSpace(s[i])
  }

  /** `s.trimStart()`: the suffix of `s` left after its leading white space. */
  function TrimStart(s: string): (r: string)
    ensures |r| <= |s| && r == s[|s| - |r|..]
    ensures AllSpace(s[..|s| - |r|])
    ensures r == [] || !IsSpace(r[0])
  {
    if |s| > 0 && IsSpace(s[0]) then
      var r := TrimStart(s[1..]);
      assert s[..|s| - |r|] == [s[0]] + s[1..][..|s| - 1 - |r|];
      r
    else s
  }

  /** `s.trimEnd()`: the prefix of `s` left before its trailing white space. */
  function TrimEnd(s: string): (r: string)
    ensures |r| <= |s| && r == s[..|r|]
    ensures AllSpace(s[|r|..])
    ensures r == [] || !IsSpace(r[|r| - 1])
  {
    if |s| > 0 && IsSpace(s[|s| - 1]) then
      var r := TrimEnd(s[..|s| - 1]);
      assert s[|r|..] == s[..|s| - 1][|r|..] + [s[|s| - 1]];
      r
    else s
  }

  /** `s.trim()`. */
  function Trim(s: string): string {
    TrimEnd(TrimStart(s))
  }

  /** Trimming yields the empty string exactly when the input is all white space. */
  lemma TrimEmptyIffBlank(s: string)
    ensures Trim(s) == [] <==> AllSpace(s)
  {
    var t := TrimStart(s);
    if Trim(s) == [] {
      assert t[0..] == t;
      assert t == [];
      assert s[..|s|] == s;
    } else {
      assert !IsSpace(Trim(s)[0]) by { assert Trim(s)[0] == t[0]; }
      assert s[|s| - |t|] == t[0];
    }
  }

  /** A trimmed string has white space at neither end, and trimming again changes nothing. */
  lemma TrimTrimmed(s: string)
    ensures var t := Trim(s); t == [] || (!IsSpace(t[0]) && !IsSpace(t[|t| - 1]))
    ensures Trim(Trim(s)) == Trim(s)
  {
    var t := Trim(s);
    if t != [] {
      assert t[0] == TrimStart(s)[0];
    }
    TrimFixed(t);
  }

  /** A string with white space at neither end is its own trim. */
  lemma TrimFixed(s: string)
    requires s == [] || (!IsSpace(s[0]) && !IsSpace(s[|s| - 1]))
    ensures Trim(s) == s
  {
  }

  /** `s.split(/\s+/)`: the pieces between maximal runs of white space. A leading
      (trailing) run gives an empty first (last) piece, and `""` gives `[""]`. */
  function SplitWs(s: string): (r: seq<string>)
    ensures |r| >= 1 && |r[0]| <= |s|
    decreases |s|
  {
    if |s| == 0 then [""]
    else if IsSpace(s[0]) then [""] + SplitWs(TrimStart(s))
    else
      var rest := SplitWs(s[1..]);
      [[s[0]] + rest[0]] + rest[1..]
  }

  /** Every piece of a whitespace split is free of white space. */
  lemma {:induction false} SplitWsNoSpace(s: string)
    ensures forall k :: 0 <= k < |SplitWs(s)| ==> NoSpace(SplitWs(s)[k])
    decreases |s|
  {
    if |s| == 0 {
    } else if IsSpace(s[0]) {
      SplitWsNoSpace(TrimStart(s));
      var r := SplitWs(s);
      assert r == [""] + SplitWs(TrimStart(s));
      forall k | 0 <= k < |r| ensures NoSpace(r[k]) {
        if k > 0 { assert r[k] == SplitWs(TrimStart(s))[k - 1]; }
      }
    } else {
      var rest := SplitWs(s[1..]);
      SplitWsNoSpace(s[1..]);
      var r := SplitWs(s);
      NoSpaceCons(s[0], rest[0]);
      assert r == [[s[0]] + rest[0]] + rest[1..];
      forall k | 0 <= k < |r| ensures NoSpace(r[k]) {
        if k > 0 { assert r[k] == rest[k]; }
      }
    }
  }

  /** A single word splits into itself. */
  lemma {:induction false} SplitWsWord(w: string)
    requires w != [] && NoSpace(w)
    ensures SplitWs(w) == [w]
    decreases |w|
  {
    assert !IsSpace(w[0]);
    if |w| > 1 {
      SplitWsWord(w[1..]);
    }
    assert [w[0]] + w[1..] == w;
  }

  /** A word followed by white space splits into the word and then the split of what
      follows the white space. */
  lemma {:induction false} SplitWsWordThen(w: string, t: string)
    requires w != [] && NoSpace(w) && t != [] && IsSpace(t[0])
    ensures SplitWs(w + t) == [w] + SplitWs(TrimStart(t))
    decreases |w|
  {
    var s := w + t;
    assert s[0] == w[0] && !IsSpace(w[0]);
    if |w| == 1 {
      assert s[1..] == t;
    } else {
      assert s[1..] == w[1..] + t;
      SplitWsWordThen(w[1..], t);
    }
    assert [w[0]] + w[1..] == w;
  }

  /** `a + " " + b` for two words splits into exactly those two words, and is its own trim. */
  lemma TwoWords(a: string, b: string)
    requires a != [] && NoSpace(a) && b != [] && NoSpace(b)
    ensures SplitWs(a + " " + b) == [a, b]
    ensures Trim(a + " " + b) == a + " " + b
  {
    TwoWordsSplit(a, b);
    var s := a + " " + b;
    assert s[0] == a[0] && s[|s| - 1] == b[|b| - 1];
    TrimFixed(s);
  }

  /** The split half of `TwoWords`. */
  lemma TwoWordsSplit(a: string, b: string)
    requires a != [] && NoSpace(a) && b != [] && NoSpace(b)
    ensures SplitWs(a + " " + b) == [a, b]
  {
    var t := " " + b;
    assert a + " " + b == a + t;
    assert !IsSpace(b[0]);
    SingleSpaceThenWord(b);
    SplitWsWordThen(a, t);
    SplitWsWord(b);
  }

  /** One space in front of a string that starts with non-space is all `trimStart`
      removes. */
  lemma SingleSpaceThenWord(b: string)
    requires b != [] && !IsSpace(b[0])
    ensures (" " + b) != [] && IsSpace((" " + b)[0]) && TrimStart(" " + b) == b
  {
    var t := " " + b;
    assert t[1..] == b;
  }

  /** Words without white space, joined by single spaces, split back into those words:
      the reading of `args.join(" ")` and of a typed command line of any length. */
  lemma {:induction false} SplitWsJoin(words: seq<string>)
    requires |words| >= 1
    requires forall k :: 0 <= k < |words| ==> words[k] != [] && NoSpace(words[k])
    ensures SplitWs(Join(words, ' ')) == words
    decreases |words|
  {
    if |words| == 1 {
      SplitWsWord(words[0]);
    } else {
      var w, rest := words[0], words[1..];
      var j := Join(rest, ' ');
      JoinSpaceCons(words);
      SplitWsWordSpace(w, j);
      assert forall k :: 0 <= k < |rest| ==> rest[k] == words[k + 1];
      SplitWsJoin(rest);
      assert words == [w] + rest;
    }
  }

  /** A word, one space, and a string that starts with non-space split into the word
      and then the split of that string. */
  lemma SplitWsWordSpace(w: string, j: string)
    requires w != [] && NoSpace(w) && j != [] && !IsSpace(j[0])
    ensures SplitWs(w + (" " + j)) == [w] + SplitWs(j)
  {
    SingleSpaceThenWord(j);
    SplitWsWordThen(w, " " + j);
  }

  /** A join of two or more non-empty, space-free words is the first word, a space, and
      a join that starts with non-space. */
  lemma JoinSpaceCons(words: seq<string>)
    requires |words| >= 2 && words[1] != [] && NoSpace(words[1])
    ensures Join(words, ' ') == words[0] + (" " + Join(words[1..], ' '))
    ensures Join(words[1..], ' ') != [] && !IsSpace(Join(words[1..], ' ')[0])
  {
    var rest := words[1..];
    JoinStartsWithFirst(rest, ' ');
    var j := Join(rest, ' ');
    assert j[..|rest[0]|][0] == j[0];
  }

  /** Non-empty words without white space, joined by single spaces, are their own trim. */
  lemma JoinedWordsTrimmed(words: seq<string>)
    requires |words| >= 1
    requires forall k :: 0 <= k < |words| ==> words[k] != [] && NoSpace(words[k])
    ensures Join(words, ' ') != [] && Trim(Join(words, ' ')) == Join(words, ' ')
  {
    var line := Join(words, ' ');
    var w := words[|words| - 1];
    JoinStartsWithFirst(words, ' ');
    JoinEndsWithLast(words, ' ');
    assert line[..|words[0]|][0] == line[0];
    assert !IsSpace(words[0][0]);
    assert !IsSpace(w[|w| - 1]);
    TrimFixed(line);
  }

  /** When the string does not end in white space, every piece of its whitespace split
      after the first is non-empty. */
  lemma {:induction false} SplitWsLaterPieces(s: string)
    requires s == [] || !IsSpace(s[|s| - 1])
    ensures forall k :: 1 <= k < |SplitWs(s)| ==> SplitWs(s)[k] != []
    decreases |s|
  {
    if s != [] {
      if IsSpace(s[0]) {
        var t := TrimStart(s);
        assert forall i :: 0 <= i < |s| - |t| ==> IsSpace(s[i]);
        assert !IsSpace(s[|s| - 1]);
        assert t[|t| - 1] == s[|s| - 1];
        SplitWsLaterPieces(t);
        var r := SplitWs(s);
        forall k | 1 <= k < |r| ensures r[k] != [] {
          assert r[k] == SplitWs(t)[k - 1];
        }
      } else {
        assert s[1..] == [] || s[1..][|s[1..]| - 1] == s[|s| - 1];
        SplitWsLaterPieces(s[1..]);
        var rest := SplitWs(s[1..]);
        var r := SplitWs(s);
        forall k | 1 <= k < |r| ensures r[k] != [] {
          assert r[k] == rest[k];
        }
      }
    }
  }

  /** A trimmed, non-empty command splits into non-empty words only; in particular the
      command word is never `""`. */
  lemma TrimmedPiecesNonEmpty(s: string)
    requires s != [] && Trim(s) == s
    ensures forall k :: 0 <= k < |SplitWs(s)| ==> SplitWs(s)[k] != []
  {
    TrimTrimmed(s);
    SplitWsLaterPieces(s);
    assert SplitWs(s)[0][0] == s[0];
  }

  /** A non-space character in front of a space-free word keeps it space-free. */
  lemma NoSpaceCons(c: char, w: string)
    requires !IsSpace(c) && NoSpace(w)
    ensures NoSpace([c] + w)
  {
    forall i | 0 <= i < |[c] + w| ensures !IsSpace(([c] + w)[i]) {
      if i > 0 { assert ([c] + w)[i] == w[i - 1]; }
    }
  }

  /** ASCII `toLowerCase` on one character. */
  function LowerChar(c: char): char {
    if 'A' <= c <= 'Z' then (c as int + 32) as char else c
  }

  /** `s.toLowerCase()`, restricted to the ASCII letters. */
  function Lower(s: string): string {
    seq(|s|, i requires 0 <= i < |s| => LowerChar(s[i]))
  }

  /** Lowering is idempotent: a lowered string is already lower case. */
  lemma LowerIdempotent(s: string)
    ensures Lower(Lower(s)) == Lower(s)
  {
    assert forall i :: 0 <= i < |s| ==> LowerChar(LowerChar(s[i])) == LowerChar(s[i]);
  }

  /** A string without ASCII capitals is its own lower case. */
  lemma LowerOfLowerCase(s: string)
    requires forall i :: 0 <= i < |s| ==> !('A' <= s[i] <= 'Z')
    ensures Lower(s) == s
  {
  }

  /** `n` copies of `c`. */
  function Repeat(c: char, n: nat): (r: string)
    ensures |r| == n && forall i :: 0 <= i < n ==> r[i] == c
  {
    if n == 0 then [] else [c] + Repeat(c, n - 1)
  }

  /** `s.startsWith(p)`. */
  predicate StartsWith(s: string, p: string) {
    |p| <= |s| && s[..|p|] == p
  }

  /** Number of occurrences of `c` in `s`. */
  function Count(s: string, c: char): nat {
    if s == [] then 0 else (if s[0] == c then 1 else 0) + Count(s[1..], c)
  }

  /** `s.split(sep)` for a one-character separator: always at least one piece. */
  function Split(s: string, sep: char): (r: seq<string>)
    ensures |r| == Count(s, sep) + 1
    ensures forall k :: 0 <= k < |r| ==> sep !in r[k]
  {
    if s == [] then [""]
    else if s[0] == sep then [""] + Split(s[1..], sep)
    else
      var rest := Split(s[1..], sep);
      assert sep !in [s[0]] + rest[0];
      [[s[0]] + rest[0]] + rest[1..]
  }

  /** `parts.join(sep)`: `[]` joins to `""`. */
  function Join(parts: seq<string>, sep: char): string {
    if |parts| == 0 then ""
    else if |parts| == 1 then parts[0]
    else parts[0] + [sep] + Join(parts[1..], sep)
  }

  /** A join begins with its first piece. */
  lemma JoinStartsWithFirst(parts: seq<string>, sep: char)
    requires |parts| >= 1
    ensures StartsWith(Join(parts, sep), parts[0])
  {
    if |parts| > 1 {
      assert Join(parts, sep) == parts[0] + ([sep] + Join(parts[1..], sep));
    }
  }

  /** A join ends with the last character of its last piece, when that piece is
      non-empty. */
  lemma {:induction false} JoinEndsWithLast(parts: seq<string>, sep: char)
    requires |parts| >= 1 && parts[|parts| - 1] != []
    ensures var j, w := Join(parts, sep), parts[|parts| - 1]; j != [] && j[|j| - 1] == w[|w| - 1]
    decreases |parts|
  {
    if |parts| > 1 {
      var rest := parts[1..];
      assert rest[|rest| - 1] == parts[|parts| - 1];
      JoinEndsWithLast(rest, sep);
      var j := Join(rest, sep);
      assert Join(parts, sep) == (parts[0] + [sep]) + j;
    }
  }

  /** `parts.slice(0, -1)`: all but the last element. */
  function DropLast<T>(parts: seq<T>): seq<T> {
    if |parts| == 0 then [] else parts[..|parts| - 1]
  }

  /** Splitting and joining on the same separator give back the string. */
  lemma {:induction false} JoinSplit(s: string, sep: char)
    ensures Join(Split(s, sep), sep) == s
  {
    if s == [] {
    } else if s[0] == sep {
      JoinSplit(s[1..], sep);
      var rest := Split(s[1..], sep);
      assert Split(s, sep) == [""] + rest;
      assert Join([""] + rest, sep) == "" + [sep] + Join(rest, sep);
    } else {
      JoinSplit(s[1..], sep);
      JoinConsFirst(s[0], Split(s[1..], sep), sep);
    }
  }

  /** Prepending a character to the first piece prepends it to the joined string. */
  lemma JoinConsFirst(c: char, parts: seq<string>, sep: char)
    requires |parts| >= 1
    ensures Join([[c] + parts[0]] + parts[1..], sep) == [c] + Join(parts, sep)
  {
    var ps := [[c] + parts[0]] + parts[1..];
    if |parts| > 1 {
      assert ps[1..] == parts[1..];
    }
  }

  /** Joining pieces that do not contain the separator and splitting again give back the pieces. */
  lemma {:induction false} SplitJoin(parts: seq<string>, sep: char)
    requires |parts| >= 1
    requires forall k :: 0 <= k < |parts| ==> sep !in parts[k]
    ensures Split(Join(parts, sep), sep) == parts
    decreases |parts|, |parts[0]|
  {
    if parts[0] == [] {
      if |parts| > 1 {
        SplitJoin(parts[1..], sep);
        assert Join(parts, sep) == [sep] + Join(parts[1..], sep);
        assert ([sep] + Join(parts[1..], sep))[1..] == Join(parts[1..], sep);
        assert parts == [""] + parts[1..];
      }
    } else {
      var tail := [parts[0][1..]] + parts[1..];
      assert tail[1..] == parts[1..];
      assert parts[0] == [parts[0][0]] + parts[0][1..];
      assert sep !in parts[0][1..] by {
        forall x | x in parts[0][1..] ensures x != sep { assert x in parts[0]; }
      }
      SplitJoin(tail, sep);
      JoinConsFirst(parts[0][0], tail, sep);
      assert [[parts[0][0]] + tail[0]] + tail[1..] == parts;
      var j := Join(parts, sep);
      assert j == [parts[0][0]] + Join(tail, sep);
      assert j[1..] == Join(tail, sep);
      assert j[0] != sep;
    }
  }

  /** Dropping the last piece of a split and joining again cuts the string at its last
      separator, whose position is `k`. */
  lemma {:induction false} JoinDropLastSplit(s: string, sep: char, k: nat)
    requires k < |s| && s[k] == sep && sep !in s[k + 1..]
    ensures Join(DropLast(Split(s, sep)), sep) == s[..k]
  {
    var rest := Split(s[1..], sep);
    if k == 0 {
      assert s[1..] == s[k + 1..];
      NoSeparatorSplit(s[1..], sep);
      DropLastPrepend("", rest);
    } else {
      assert s[1..][k - 1 + 1..] == s[k + 1..];
      JoinDropLastSplit(s[1..], sep, k - 1);
      var d := DropLast(rest);
      assert s[..k] == [s[0]] + s[1..][..k - 1];
      if s[0] == sep {
        DropLastPrepend("", rest);
        JoinPrependEmpty(d, sep);
      } else {
        CountZeroIff(s[1..], sep);
        assert s[1..][k - 1] == sep;
        DropLastConsFirst(s[0], rest);
        JoinConsFirst(s[0], d, sep);
      }
    }
  }

  /** Dropping the last element commutes with putting one in front. */
  lemma DropLastPrepend<T>(x: T, xs: seq<T>)
    requires |xs| >= 1
    ensures DropLast([x] + xs) == [x] + DropLast(xs)
  {
    assert ([x] + xs)[..|xs|] == [x] + xs[..|xs| - 1];
  }

  /** Dropping the last piece commutes with extending the first of at least two pieces. */
  lemma DropLastConsFirst(c: char, parts: seq<string>)
    requires |parts| >= 2
    ensures DropLast([[c] + parts[0]] + parts[1..])
              == [[c] + DropLast(parts)[0]] + DropLast(parts)[1..]
  {
    var d := DropLast(parts);
    assert d[0] == parts[0];
    assert d[1..] == parts[1..|parts| - 1];
  }

  /** A string without the separator splits into itself alone. */
  lemma NoSeparatorSplit(s: string, sep: char)
    requires sep !in s
    ensures Split(s, sep) == [s]
  {
    if s != [] {
      assert sep !in s[1..] by {
        forall x | x in s[1..] ensures x != sep { assert x in s; }
      }
      NoSeparatorSplit(s[1..], sep);
      assert s[0] != sep by { assert s[0] in s; }
      assert [s[0]] + s[1..] == s;
    }
  }

  /** No occurrence counted means no occurrence, and conversely. */
  lemma CountZeroIff(s: string, sep: char)
    ensures Count(s, sep) == 0 <==> sep !in s
  {
    if s != [] {
      CountZeroIff(s[1..], sep);
      assert s == [s[0]] + s[1..];
    }
  }

  /** An empty first piece joins to a leading separator. */
  lemma JoinPrependEmpty(parts: seq<string>, sep: char)
    ensures Join([""] + parts, sep) == (if parts == [] then "" else [sep] + Join(parts, sep))
  {
    if parts != [] {
      assert ([""] + parts)[1..] == parts;
    }
  }

  /** The count of a character over a prefix never exceeds that over the whole string,
      and is strictly smaller when the cut falls on an occurrence. */
  lemma {:induction false} CountPrefix(s: string, c: char, k: nat)
    requires k < |s| && s[k] == c
    ensures Count(s[..k], c) < Count(s, c)
  {
    if k == 0 {
      assert s[..0] == [];
    } else {
      CountPrefix(s[1..], c, k - 1);
      assert s[..k][1..] == s[1..][..k - 1];
    }
  }

  /** A string of decimal digits only. */
  predicate AllDigits(r: string) {
    forall i :: 0 <= i < |r| ==> '0' <= r[i] <= '9'
  }

  /** The number a string of decimal digits denotes, most significant digit first. */
  function DecimalValue(r: string): nat
    requires AllDigits(r)
  {
    if r == [] then 0
    else DecimalValue(r[..|r| - 1]) * 10 + (r[|r| - 1] as int - '0' as int)
  }

  /** Decimal digits of a natural number, as `String(n)` writes them: they read back as
      `n`, and there is no leading zero. */
  function NatToString(n: nat): (r: string)
    ensures r != [] && AllDigits(r)
    ensures DecimalValue(r) == n
    ensures n > 0 ==> r[0] != '0'
    ensures n == 0 ==> r == "0"
  {
    var d := ['0' + ((n % 10) as char)];
    if n < 10 then d
    else
      var h := NatToString(n / 10);
      assert (h + d)[..|h + d| - 1] == h;
      h + d
  }
}
