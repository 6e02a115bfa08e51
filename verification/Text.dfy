/** The string operations the service leans on: whitespace, strip, lower, split and join.
    A string is a sequence of characters and whitespace is the set that Python's
    `str.isspace` recognises. Lower-casing is modelled for ASCII only. */
module Text {

  datatype Option<+T> = None | Some(value: T)

  predicate IsSpace(c: char) {
    || '\t' <= c <= '\r'
    || '\U{1c}' <= c <= ' '
    || c == '\U{85}' || c == '\U{a0}' || c == '\U{1680}' || c == '\U{2028}' || c == '\U{2029}'
    || c == '\U{202f}' || c == '\U{205f}' || c == '\U{3000}'
    || '\U{2000}' <= c <= '\U{200a}'
  }

  predicate NoSpace(s: string) {
    forall i :: 0 <= i < |s| ==> !IsSpace(s[i])
  }

  predicate AllSpace(s: string) {
    forall i :: 0 <= i < |s| ==> IsSpace(s[i])
  }

  /** A word as `str.split()` returns it: not empty and free of whitespace. */
  predicate IsWord(s: string) {
    s != [] && NoSpace(s)
  }

  // ---------------------------------------------------------------- strip

  function RStrip(s: string): string {
    if s != [] && IsSpace(s[|s| - 1]) then RStrip(s[..|s| - 1]) else s
  }

  function LStrip(s: string): string {
    if s != [] && IsSpace(s[0]) then LStrip(s[1..]) else s
  }

  /** `RStrip` cuts the string into a core that does not end in whitespace and a tail that
      is nothing but whitespace. */
  lemma {:induction false} RStripParts(s: string) returns (tail: string)
    ensures s == RStrip(s) + tail && AllSpace(tail)
    ensures RStrip(s) == [] || !IsSpace(RStrip(s)[|RStrip(s)| - 1])
  {
    hide IsSpace;
    if s != [] && IsSpace(s[|s| - 1]) {
      tail := RStripParts(s[..|s| - 1]);
      tail := tail + [s[|s| - 1]];
      assert s == s[..|s| - 1] + [s[|s| - 1]];
    } else {
      tail := [];
    }
  }

  lemma {:induction false} LStripParts(s: string) returns (head: string)
    ensures s == head + LStrip(s) && AllSpace(head)
    ensures LStrip(s) == [] || !IsSpace(LStrip(s)[0])
  {
    hide IsSpace;
    if s != [] && IsSpace(s[0]) {
      head := LStripParts(s[1..]);
      head := [s[0]] + head;
    } else {
      head := [];
    }
  }

  function Strip(s: string): (r: string) {
    RStrip(LStrip(s))
  }

  predicate Trimmed(s: string) {
    s == [] || (!IsSpace(s[0]) && !IsSpace(s[|s| - 1]))
  }

  /** Stripping is decided by its result: any decomposition into a core that does not end
      in whitespace and a tail of whitespace is the one `RStrip` finds. */
  lemma {:induction false} RStripUnique(core: string, tail: string)
    requires AllSpace(tail)
    requires core == [] || !IsSpace(core[|core| - 1])
    ensures RStrip(core + tail) == core
  {
    hide IsSpace;
    if tail == [] {
      assert core + tail == core;
    } else {
      assert (core + tail)[..|core + tail| - 1] == core + tail[..|tail| - 1];
      assert IsSpace(tail[|tail| - 1]);
      RStripUnique(core, tail[..|tail| - 1]);
    }
  }

  lemma {:induction false} LStripUnique(head: string, core: string)
    requires AllSpace(head)
    requires core == [] || !IsSpace(core[0])
    ensures LStrip(head + core) == core
  {
    hide IsSpace;
    if head == [] {
      assert head + core == core;
    } else {
      assert (head + core)[1..] == head[1..] + core;
      assert IsSpace(head[0]);
      LStripUnique(head[1..], core);
    }
  }

  lemma StripFixed(s: string)
    ensures Strip(s) == s <==> Trimmed(s)
  {
    if Trimmed(s) {
      LStripUnique([], s);
      RStripUnique(s, []);
      assert [] + s == s && s + [] == s;
    } else {
      StripTrimmed(s);
    }
  }

  lemma StripTrimmed(s: string)
    ensures Trimmed(Strip(s))
  {
    hide IsSpace;
    var _ := LStripParts(s);
    var _ := RStripParts(LStrip(s));
  }

  /** Stripping only the right side first changes nothing. */
  lemma StripRStrip(s: string)
    ensures Strip(RStrip(s)) == Strip(s)
  {
    hide IsSpace;
    var r := RStrip(s);
    var tail := RStripParts(s);
    var l := LStrip(r);
    var head := LStripParts(r);
    if l == [] {
      assert r == head;
      LStripUnique(s, []);
      assert s + [] == s;
    } else {
      assert s == head + (l + tail);
      LStripUnique(head, l + tail);
      assert l[|l| - 1] == r[|r| - 1];
      RStripUnique(l, tail);
      RStripUnique(l, []);
      assert l + [] == l;
    }
  }

  /** Wrapping a string that starts and ends with something visible is undone by strip. */
  lemma StripAround(core: string, tail: string)
    requires AllSpace(tail)
    requires core != [] && !IsSpace(core[0]) && !IsSpace(core[|core| - 1])
    ensures Strip(core + tail) == core
  {
    hide IsSpace;
    LStripUnique([], core + tail);
    assert [] + (core + tail) == core + tail;
    RStripUnique(core, tail);
  }

  /** So stripping is: the core of a string between its outer whitespace. */
  lemma StripIs(head: string, core: string, tail: string)
    requires AllSpace(head) && AllSpace(tail) && Trimmed(core)
    ensures Strip(head + core + tail) == core
  {
    hide IsSpace;
    if core == [] {
      assert head + core + tail == (head + tail) + [];
      LStripUnique(head + tail, []);
      assert RStrip([]) == [];
    } else {
      assert head + core + tail == head + (core + tail);
      LStripUnique(head, core + tail);
      RStripUnique(core, tail);
    }
  }

  /** Blanks, tabs and line ends are whitespace, also the no-break and the ideographic one; no
      visible ASCII character is. */
  lemma Blanks()
    ensures AllSpace(" \t\n\r") && IsSpace('\U{a0}') && IsSpace('\U{3000}')
    ensures forall c :: '!' <= c <= '~' ==> !IsSpace(c)
  {
  }

  // ---------------------------------------------------------------- lower

  function LowerChar(c: char): char {
    if 'A' <= c <= 'Z' then c + ' ' else c
  }

  function Lower(s: string): string {
    if s == [] then [] else [LowerChar(s[0])] + Lower(s[1..])
  }

  function UpperChar(c: char): char {
    if 'a' <= c <= 'z' then c - ' ' else c
  }

  function Upper(s: string): (u: string)
    ensures |u| == |s| && forall i :: 0 <= i < |s| ==> u[i] == UpperChar(s[i])
  {
    if s == [] then [] else [UpperChar(s[0])] + Upper(s[1..])
  }

  predicate SameLetter(c: char, d: char) {
    c == d || ('A' <= c <= 'Z' && d == c + ' ') || ('A' <= d <= 'Z' && c == d + ' ')
  }

  /** The same text up to the case of ASCII letters. */
  predicate SameIgnoringCase(a: string, b: string) {
    |a| == |b| && forall i :: 0 <= i < |a| ==> SameLetter(a[i], b[i])
  }

  lemma {:induction false} LowerAt(s: string)
    ensures |Lower(s)| == |s|
    ensures forall i :: 0 <= i < |s| ==> Lower(s)[i] == LowerChar(s[i])
  {
    if s != [] { LowerAt(s[1..]); }
  }

  /** Lower-casing and upper-casing identify exactly the texts that differ in case only, and
      leave no letter of the other case. */
  lemma CaseFolds(a: string, b: string)
    ensures Lower(a) == Lower(b) <==> SameIgnoringCase(a, b)
    ensures Upper(a) == Upper(b) <==> SameIgnoringCase(a, b)
    ensures SameIgnoringCase(Lower(a), a) && forall c :: c in Lower(a) ==> !('A' <= c <= 'Z')
    ensures SameIgnoringCase(Upper(a), a) && forall c :: c in Upper(a) ==> !('a' <= c <= 'z')
  {
    hide Lower, Upper;
    LowerAt(a);
    LowerAt(b);
    if SameIgnoringCase(a, b) {
      assert Lower(a) == Lower(b) && Upper(a) == Upper(b);
    }
    if Lower(a) == Lower(b) {
      forall i | 0 <= i < |a| ensures SameLetter(a[i], b[i]) { assert Lower(a)[i] == Lower(b)[i]; }
    }
    if Upper(a) == Upper(b) {
      forall i | 0 <= i < |a| ensures SameLetter(a[i], b[i]) { assert Upper(a)[i] == Upper(b)[i]; }
    }
  }

  // ---------------------------------------------------------------- split and join

  /** Python's `str.split()`: `cur` is the word being read. */
  function WordsFrom(cur: string, s: string): (words: seq<string>)
    requires NoSpace(cur)
    ensures forall w :: w in words ==> IsWord(w)
    decreases |s|
  {
    if s == [] then
      if cur == [] then [] else [cur]
    else if IsSpace(s[0]) then
      (if cur == [] then [] else [cur]) + WordsFrom([], s[1..])
    else
      WordsFrom(cur + [s[0]], s[1..])
  }

  function Split(s: string): (words: seq<string>)
    ensures forall w :: w in words ==> IsWord(w)
  {
    WordsFrom([], s)
  }

  /** Python's `" ".join(words)`. */
  function Join(words: seq<string>): string {
    if words == [] then []
    else if |words| == 1 then words[0]
    else words[0] + [' '] + Join(words[1..])
  }

  lemma {:induction false} WordsFromReads(cur: string, w: string, rest: string)
    requires NoSpace(cur) && NoSpace(w)
    ensures WordsFrom(cur, w + rest) == WordsFrom(cur + w, rest)
    decreases |w|
  {
    if w == [] {
      assert w + rest == rest && cur + w == cur;
    } else {
      assert (w + rest)[1..] == w[1..] + rest;
      assert cur + w == (cur + [w[0]]) + w[1..];
      WordsFromReads(cur + [w[0]], w[1..], rest);
    }
  }

  /** Splitting what was joined gives the words back. */
  lemma {:induction false} SplitJoin(words: seq<string>)
    requires forall w :: w in words ==> IsWord(w)
    ensures Split(Join(words)) == words
  {
    if words == [] {
    } else if |words| == 1 {
      assert words[0] in words;
      WordsFromReads([], words[0], []);
      assert words[0] + [] == words[0] && [] + words[0] == words[0];
    } else {
      assert words[0] in words;
      var rest := [' '] + Join(words[1..]);
      assert Join(words) == words[0] + rest;
      WordsFromReads([], words[0], rest);
      assert [] + words[0] == words[0];
      assert rest[1..] == Join(words[1..]);
      assert WordsFrom(words[0], rest) == [words[0]] + Split(Join(words[1..]));
      SplitJoin(words[1..]);
    }
  }

  lemma {:induction false} BlanksSkipped(sep: string, rest: string)
    requires AllSpace(sep)
    ensures WordsFrom([], sep + rest) == WordsFrom([], rest)
  {
    if sep == [] {
      assert sep + rest == rest;
    } else {
      assert (sep + rest)[1..] == sep[1..] + rest;
      BlanksSkipped(sep[1..], rest);
    }
  }

  /** What splitting does with any string: outer whitespace is skipped, and a word ends at the
      first whitespace, however much of it and of whichever kind. */
  lemma SplitReads(w: string, sep: string, rest: string)
    requires IsWord(w) && AllSpace(sep)
    ensures Split([]) == [] && Split(w) == [w]
    ensures Split(sep + rest) == Split(rest)
    ensures sep != [] ==> Split(w + sep + rest) == [w] + Split(rest)
  {
    hide IsSpace;
    BlanksSkipped(sep, rest);
    WordsFromReads([], w, []);
    WordsFromReads([], w, sep + rest);
    assert w + [] == w && [] + w == w && w + sep + rest == w + (sep + rest);
    if sep != [] {
      assert (sep + rest)[1..] == sep[1..] + rest;
      BlanksSkipped(sep[1..], rest);
    }
  }

  /** Joining puts one blank between each two words. */
  lemma {:induction false} JoinIs(words: seq<string>, w: string)
    ensures Join([]) == [] && Join([w]) == w
    ensures words != [] ==> Join(words + [w]) == Join(words) + [' '] + w
  {
    if |words| == 1 {
      assert (words + [w])[1..] == [w];
    } else if |words| > 1 {
      assert (words + [w])[1..] == words[1..] + [w];
      JoinIs(words[1..], w);
    }
  }

  /** The words of a list that are also in another list, in the first list's order. */
  function Keep(words: seq<string>, allowed: seq<string>): (kept: seq<string>)
    ensures forall w :: w in kept <==> w in words && w in allowed
  {
    if words == [] then []
    else (if words[0] in allowed then [words[0]] else []) + Keep(words[1..], allowed)
  }

  lemma {:induction false} KeepAppend(words: seq<string>, w: string, allowed: seq<string>)
    ensures Keep(words + [w], allowed) == Keep(words, allowed) + if w in allowed then [w] else []
  {
    if words == [] {
      assert words + [w] == [w];
    } else {
      assert (words + [w])[1..] == words[1..] + [w];
      KeepAppend(words[1..], w, allowed);
    }
  }

  /** `kept` are the words at the places `at`, which are the places of all allowed words, in order. */
  predicate Picks(at: seq<nat>, words: seq<string>, allowed: seq<string>, kept: seq<string>) {
    && |at| == |kept|
    && (forall i :: 0 <= i < |at| ==> at[i] < |words| && kept[i] == words[at[i]] && kept[i] in allowed)
    && (forall i, j :: 0 <= i < j < |at| ==> at[i] < at[j])
    && (forall k :: 0 <= k < |words| && words[k] in allowed ==> k in at)
  }

  /** A filtered list keeps the order and the repetitions. */
  lemma {:induction false} KeepPlaces(words: seq<string>, allowed: seq<string>) returns (at: seq<nat>)
    ensures Picks(at, words, allowed, Keep(words, allowed))
  {
    if words == [] {
      at := [];
    } else {
      var rest, last := words[..|words| - 1], words[|words| - 1];
      assert words == rest + [last];
      KeepAppend(rest, last, allowed);
      at := KeepPlaces(rest, allowed);
      PicksNext(at, rest, last, allowed, Keep(rest, allowed));
      if last in allowed { at := at + [|rest|]; }
    }
  }

  lemma PicksNext(at: seq<nat>, words: seq<string>, w: string, allowed: seq<string>, kept: seq<string>)
    requires Picks(at, words, allowed, kept)
    ensures if w in allowed then Picks(at + [|words|], words + [w], allowed, kept + [w])
            else Picks(at, words + [w], allowed, kept)
  {
    var more := if w in allowed then at + [|words|] else at;
    forall k | 0 <= k < |words + [w]| && (words + [w])[k] in allowed ensures k in more {
      if k < |words| {
        assert words[k] in allowed && k in at;
      } else {
        assert more[|at|] == k;
      }
    }
  }

  /** The set of stripped words, without the blank ones. */
  function Norm(words: seq<string>): set<string> {
    if words == [] then {}
    else (if Strip(words[0]) == "" then {} else {Strip(words[0])}) + Norm(words[1..])
  }

  lemma {:induction false} NormMeans(words: seq<string>, w: string)
    ensures w in Norm(words) <==> w != "" && exists i :: 0 <= i < |words| && Strip(words[i]) == w
  {
    hide Strip;
    if words != [] {
      var rest := words[1..];
      NormMeans(rest, w);
      if w in Norm(rest) {
        var i :| 0 <= i < |rest| && Strip(rest[i]) == w;
        assert words[i + 1] == rest[i];
      }
      if i :| 0 <= i < |words| && Strip(words[i]) == w {
        if i > 0 { assert rest[i - 1] == words[i]; }
      }
    }
  }
}
