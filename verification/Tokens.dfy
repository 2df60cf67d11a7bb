/** Canonical vocabulary tokens: the words of a spelling, lowercased and joined by single hyphens. */
module Tokens {
  import opened Common

  /** JavaScript's `\s`, the underscore and the hyphen. */
  predicate IsSeparator(c: char) {
    || c == '_' || c == '-' || c == ' ' || ('\t' <= c <= '\r')
    || c == '\U{00A0}' || c == '\U{1680}' || ('\U{2000}' <= c <= '\U{200A}') || c == '\U{2028}' || c == '\U{2029}'
    || c == '\U{202F}' || c == '\U{205F}' || c == '\U{3000}' || c == '\U{FEFF}'
  }

  ghost predicate Spaceless(s: string) {
    forall k :: 0 <= k < |s| ==> !IsSeparator(s[k])
  }

  // ---------------------------------------------------------------------------------------------
  // The code: lowercase, collapse separator runs, trim
  // ---------------------------------------------------------------------------------------------

  function Lowered(lower: char -> string, s: string): string {
    if s == "" then "" else lower(s[0]) + Lowered(lower, s[1..])
  }

  /** The length of the run of separators (or of other characters) that `s` starts with. */
  function RunLength(s: string, separators: bool): (n: nat)
    ensures n <= |s|
    ensures forall k :: 0 <= k < n ==> IsSeparator(s[k]) == separators
    ensures n < |s| ==> IsSeparator(s[n]) != separators
  {
    if s != "" && IsSeparator(s[0]) == separators then
      var n := RunLength(s[1..], separators);
      assert forall k :: 1 <= k <= n ==> s[k] == s[1..][k - 1];
      1 + n
    else 0
  }

  /** Every run of separators becomes one hyphen. */
  function Collapse(s: string): string {
    if s == "" then ""
    else if IsSeparator(s[0]) then "-" + Collapse(s[RunLength(s, true)..])
    else [s[0]] + Collapse(s[1..])
  }

  function TrimLeft(s: string): string {
    if s != "" && s[0] == '-' then TrimLeft(s[1..]) else s
  }

  function TrimRight(s: string): string {
    if s != "" && s[|s| - 1] == '-' then TrimRight(s[..|s| - 1]) else s
  }

  function NormalizeToken(lower: char -> string, s: string): string {
    TrimRight(TrimLeft(Collapse(Lowered(lower, s))))
  }

  // ---------------------------------------------------------------------------------------------
  // What it means: words
  // ---------------------------------------------------------------------------------------------

  /** The maximal runs of characters that are not separators, in order. */
  function Words(s: string): seq<string>
    decreases |s|
  {
    if s == "" then []
    else if IsSeparator(s[0]) then Words(s[1..])
    else
      var n := RunLength(s, false);
      [s[..n]] + Words(s[n..])
  }

  function Join(words: seq<string>): string {
    if words == [] then ""
    else if |words| == 1 then words[0]
    else words[0] + "-" + Join(words[1..])
  }

  ghost predicate AreWords(words: seq<string>) {
    forall k :: 0 <= k < |words| ==> words[k] != "" && Spaceless(words[k])
  }

  lemma {:induction false} WordsAreWords(s: string)
    ensures AreWords(Words(s))
    decreases |s|
  {
    if s != "" {
      if IsSeparator(s[0]) {
        WordsAreWords(s[1..]);
      } else {
        WordsAreWords(s[RunLength(s, false)..]);
      }
    }
  }

  lemma {:induction false} RunLengthOf(w: string, rest: string, separators: bool)
    requires forall k :: 0 <= k < |w| ==> IsSeparator(w[k]) == separators
    requires rest != "" ==> IsSeparator(rest[0]) != separators
    ensures RunLength(w + rest, separators) == |w|
  {
    if w == "" {
      assert w + rest == rest;
    } else {
      RunLengthOf(w[1..], rest, separators);
      assert (w + rest)[1..] == w[1..] + rest;
    }
  }

  /** Joining words and splitting again gives the words back. */
  lemma {:induction false} WordsOfJoin(words: seq<string>)
    requires AreWords(words)
    ensures Words(Join(words)) == words
  {
    if words != [] {
      var w := words[0];
      if |words| == 1 {
        RunLengthOf(w, "", false);
        assert w + "" == w;
        assert Words(w[|w|..]) == [];
      } else {
        var rest := "-" + Join(words[1..]);
        assert Join(words) == w + rest;
        RunLengthOf(w, rest, false);
        assert (w + rest)[|w|..] == rest && (w + rest)[..|w|] == w;
        assert rest[1..] == Join(words[1..]);
        WordsOfJoin(words[1..]);
      }
    }
  }

  lemma {:induction false} CollapseWord(w: string, rest: string)
    requires Spaceless(w)
    ensures Collapse(w + rest) == w + Collapse(rest)
  {
    if w == "" {
      assert w + rest == rest;
    } else {
      CollapseWord(w[1..], rest);
      assert (w + rest)[1..] == w[1..] + rest;
      assert Collapse(w + rest) == [w[0]] + Collapse(w[1..] + rest);
      assert [w[0]] + (w[1..] + Collapse(rest)) == w + Collapse(rest);
    }
  }

  lemma {:induction false} SkipSeparators(s: string, n: nat)
    requires n <= |s| && forall k :: 0 <= k < n ==> IsSeparator(s[k])
    ensures Words(s) == Words(s[n..])
  {
    if n > 0 {
      SkipSeparators(s[1..], n - 1);
      assert s[1..][n - 1..] == s[n..];
    } else {
      assert s[0..] == s;
    }
  }

  lemma {:induction false} TrimRightKeeps(a: string, b: string)
    requires TrimRight(b) != ""
    ensures TrimRight(a + b) == a + TrimRight(b)
  {
    if b[|b| - 1] == '-' {
      TrimRightKeeps(a, b[..|b| - 1]);
      assert (a + b)[..|a + b| - 1] == a + b[..|b| - 1];
    }
  }

  lemma JoinNonempty(words: seq<string>)
    requires AreWords(words) && words != []
    ensures Join(words) != "" && !IsSeparator(Join(words)[0])
  {
    assert !IsSeparator(words[0][0]);
  }

  lemma TrimRightWord(w: string)
    requires w != "" && Spaceless(w)
    ensures TrimRight(w) == w && TrimRight(w + "-") == w
  {
    assert !IsSeparator(w[|w| - 1]);
    assert (w + "-")[..|w|] == w;
  }

  /** `rest` is empty or starts with a separator: a word before it is the first word. */
  lemma WordFirst(w: string, rest: string)
    requires w != "" && Spaceless(w) && (rest != "" ==> IsSeparator(rest[0]))
    ensures Words(w + rest) == [w] + Words(rest)
  {
    RunLengthOf(w, rest, false);
    assert (w + rest)[..|w|] == w && (w + rest)[|w|..] == rest;
  }

  lemma CollapseRun(run: string, more: string)
    requires run != "" && (forall k :: 0 <= k < |run| ==> IsSeparator(run[k])) && (more != "" ==> !IsSeparator(more[0]))
    ensures Collapse(run + more) == "-" + Collapse(more)
  {
    RunLengthOf(run, more, true);
    assert (run + more)[|run|..] == more;
  }

  lemma RunSkipped(run: string, more: string)
    requires forall k :: 0 <= k < |run| ==> IsSeparator(run[k])
    ensures Words(run + more) == Words(more)
  {
    SkipSeparators(run + more, |run|);
    assert (run + more)[|run|..] == more;
  }

  lemma Regroup(a: string, b: string, c: string)
    ensures a + (b + c) == a + b + c
  {
  }

  /** A word, a run of separators, and the rest, which is empty or starts a word. */
  lemma WordThenRest(w: string, run: string, more: string)
    requires w != "" && Spaceless(w) && run != "" && (forall k :: 0 <= k < |run| ==> IsSeparator(run[k]))
    requires more != "" ==> !IsSeparator(more[0])
    ensures Words(w + (run + more)) == [w] + Words(more)
    ensures Collapse(w + (run + more)) == w + "-" + Collapse(more)
  {
    assert IsSeparator((run + more)[0]);
    WordFirst(w, run + more);
    RunSkipped(run, more);
    CollapseRun(run, more);
    CollapseWord(w, run + more);
    Regroup(w, "-", Collapse(more));
  }

  lemma LastWord(w: string)
    requires w != "" && Spaceless(w)
    ensures Words(w) == [w] && Collapse(w) == w && TrimRight(w) == w && TrimRight(w + "-") == w
  {
    assert w + "" == w;
    RunLengthOf(w, "", false);
    CollapseWord(w, "");
    TrimRightWord(w);
  }

  /** A string that starts a word is its first word, the separators after it, and the rest. */
  lemma Split(s: string) returns (w: string, run: string, more: string)
    requires s != "" && !IsSeparator(s[0])
    ensures s == w + (run + more) && w != "" && Spaceless(w)
    ensures (forall k :: 0 <= k < |run| ==> IsSeparator(run[k])) && (more != "" ==> !IsSeparator(more[0]))
    ensures run == "" ==> more == ""
  {
    w := s[..RunLength(s, false)];
    var rest := s[|w|..];
    run := rest[..RunLength(rest, true)];
    more := rest[|run|..];
    assert rest == run + more;
  }

  /** From the start of a word on, collapsing and trimming on the right is splitting and joining. */
  lemma {:induction false} CollapseJoins(s: string)
    requires s != "" ==> !IsSeparator(s[0])
    ensures TrimRight(Collapse(s)) == Join(Words(s))
    decreases |s|
  {
    if s != "" {
      var w, run, more := Split(s);
      if run == "" {
        assert s == w;
        LastWord(w);
      } else {
        WordThenRest(w, run, more);
        CollapseJoins(more);
        FirstWordJoins(w, more);
      }
    }
  }

  lemma FirstWordJoins(w: string, more: string)
    requires w != "" && Spaceless(w) && TrimRight(Collapse(more)) == Join(Words(more))
    requires more != "" ==> !IsSeparator(more[0])
    ensures TrimRight(w + "-" + Collapse(more)) == Join([w] + Words(more))
  {
    LastWord(w);
    if more == "" {
      assert w + "-" + Collapse(more) == w + "-";
    } else {
      WordsAreWords(more);
      JoinNonempty(Words(more));
      TrimRightKeeps(w + "-", Collapse(more));
      assert ([w] + Words(more))[1..] == Words(more);
    }
  }

  lemma CollapseStart(s: string)
    requires s != "" && !IsSeparator(s[0])
    ensures TrimLeft(Collapse(s)) == Collapse(s)
  {
  }

  /** The code computes the words of the lowercased token, joined by single hyphens. */
  lemma NormalizeJoins(lower: char -> string, s: string)
    ensures NormalizeToken(lower, s) == Join(Words(Lowered(lower, s)))
  {
    var t := Lowered(lower, s);
    if t != "" && IsSeparator(t[0]) {
      var m := RunLength(t, true);
      var rest := t[m..];
      SkipSeparators(t, m);
      CollapseJoins(rest);
      assert Collapse(t) == "-" + Collapse(rest);
      assert TrimLeft(Collapse(t)) == TrimLeft(Collapse(rest)) by {
        assert ("-" + Collapse(rest))[1..] == Collapse(rest);
      }
      if rest != "" {
        CollapseStart(rest);
      }
    } else {
      CollapseJoins(t);
      if t != "" {
        CollapseStart(t);
      }
    }
  }

  /** Two spellings are one token exactly if they have the same words, case and separators aside. */
  lemma SameTokenIff(lower: char -> string, s: string, t: string)
    ensures NormalizeToken(lower, s) == NormalizeToken(lower, t)
            <==> Words(Lowered(lower, s)) == Words(Lowered(lower, t))
  {
    NormalizeJoins(lower, s);
    NormalizeJoins(lower, t);
    WordsAreWords(Lowered(lower, s));
    WordsAreWords(Lowered(lower, t));
    WordsOfJoin(Words(Lowered(lower, s)));
    WordsOfJoin(Words(Lowered(lower, t)));
  }

  /** What lowercasing may do to a character: what it yields is lowercase already, and hyphens stay. */
  ghost predicate Lowercases(lower: char -> string) {
    && lower('-') == "-"
    && forall c, k :: 0 <= k < |lower(c)| ==> lower(lower(c)[k]) == [lower(c)[k]]
  }

  predicate Fixed(lower: char -> string, c: char) {
    lower(c) == [c]
  }

  ghost predicate AllFixed(lower: char -> string, s: string) {
    forall k :: 0 <= k < |s| ==> Fixed(lower, s[k])
  }

  lemma {:induction false} LoweredFixed(lower: char -> string, s: string)
    requires Lowercases(lower)
    ensures AllFixed(lower, Lowered(lower, s))
  {
    if s != "" {
      LoweredFixed(lower, s[1..]);
    }
  }

  lemma {:induction false} FixedStays(lower: char -> string, s: string)
    requires AllFixed(lower, s)
    ensures Lowered(lower, s) == s
  {
    if s != "" {
      assert Fixed(lower, s[0]);
      forall k | 0 <= k < |s[1..]|
        ensures Fixed(lower, s[1..][k])
      {
        assert Fixed(lower, s[k + 1]);
      }
      FixedStays(lower, s[1..]);
    }
  }

  lemma {:induction false} WordsFixed(lower: char -> string, s: string)
    requires AllFixed(lower, s)
    ensures forall k :: 0 <= k < |Words(s)| ==> AllFixed(lower, Words(s)[k])
    decreases |s|
  {
    if s != "" {
      if IsSeparator(s[0]) {
        WordsFixed(lower, s[1..]);
      } else {
        WordsFixed(lower, s[RunLength(s, false)..]);
      }
    }
  }

  lemma {:induction false} JoinFixed(lower: char -> string, words: seq<string>)
    requires Lowercases(lower) && forall k :: 0 <= k < |words| ==> AllFixed(lower, words[k])
    ensures AllFixed(lower, Join(words))
  {
    if |words| > 1 {
      JoinFixed(lower, words[1..]);
    }
  }

  /** Normalizing is idempotent. */
  lemma NormalizeIdempotent(lower: char -> string, s: string)
    requires Lowercases(lower)
    ensures NormalizeToken(lower, NormalizeToken(lower, s)) == NormalizeToken(lower, s)
  {
    var t := Lowered(lower, s);
    var r := NormalizeToken(lower, s);
    NormalizeJoins(lower, s);
    NormalizeJoins(lower, r);
    LoweredFixed(lower, s);
    WordsFixed(lower, t);
    JoinFixed(lower, Words(t));
    FixedStays(lower, r);
    WordsAreWords(t);
    WordsOfJoin(Words(t));
  }

  function AsciiLower(c: char): string {
    if 'A' <= c <= 'Z' then [c - 'A' + 'a'] else [c]
  }

  /** Lowercasing the ASCII letters is such a function. */
  lemma AsciiLowercases()
    ensures Lowercases(AsciiLower)
  {
    assert AsciiLower('-') == "-";
  }

  // ---------------------------------------------------------------------------------------------
  // Spellings of one token
  // ---------------------------------------------------------------------------------------------

  /** The separators by code point: white space of any kind and line ends, the hyphen and the underscore. */
  lemma SeparatorIff(c: char)
    ensures IsSeparator(c) <==>
              var n := c as int;
              || 9 <= n <= 13 || n == 32 || n == 45 || n == 95
              || n == 160 || n == 5760 || 8192 <= n <= 8202 || n == 8232 || n == 8233
              || n == 8239 || n == 8287 || n == 12288 || n == 65279
  {
  }

  lemma {:induction false} LoweredConcat(lower: char -> string, a: string, b: string)
    ensures Lowered(lower, a + b) == Lowered(lower, a) + Lowered(lower, b)
  {
    if a == "" {
      assert a + b == b;
    } else {
      LoweredConcat(lower, a[1..], b);
      assert (a + b)[1..] == a[1..] + b && (a + b)[0] == a[0];
      Regroup(lower(a[0]), Lowered(lower, a[1..]), Lowered(lower, b));
    }
  }

  /** Two words with any run of separators between them are one token: the words, lowercased, with one hyphen. */
  lemma TwoWords(lower: char -> string, a: string, gap: string, b: string)
    requires Lowered(lower, a) != "" && Spaceless(Lowered(lower, a))
    requires Lowered(lower, b) != "" && Spaceless(Lowered(lower, b))
    requires gap != "" && Lowered(lower, gap) == gap && forall k :: 0 <= k < |gap| ==> IsSeparator(gap[k])
    ensures NormalizeToken(lower, a + (gap + b)) == Lowered(lower, a) + ("-" + Lowered(lower, b))
  {
    var x, y := Lowered(lower, a), Lowered(lower, b);
    LoweredConcat(lower, a, gap + b);
    LoweredConcat(lower, gap, b);
    NormalizeJoins(lower, a + (gap + b));
    WordThenRest(x, gap, y);
    LastWord(y);
    assert [x] + [y] == [x, y] && [x, y][1..] == [y];
    Regroup(x, "-", y);
  }

  lemma {:induction false} LowerIs(s: string, t: string)
    requires |s| == |t| && forall k :: 0 <= k < |s| ==> AsciiLower(s[k]) == [t[k]]
    ensures Lowered(AsciiLower, s) == t
  {
    if s != "" {
      LowerIs(s[1..], t[1..]);
    }
  }

  lemma IsOneWord(s: string, t: string)
    requires |s| == |t| > 0 && forall k :: 0 <= k < |s| ==> AsciiLower(s[k]) == [t[k]] && !IsSeparator(t[k])
    ensures Lowered(AsciiLower, s) == t != "" && Spaceless(t)
  {
    LowerIs(s, t);
  }

  lemma AfterIs(s: string)
    requires s == "after" || s == "After"
    ensures Lowered(AsciiLower, s) == "after" && Spaceless("after")
  {
    IsOneWord(s, "after");
  }

  lemma MergeIs(s: string)
    requires s == "merge" || s == "Merge"
    ensures Lowered(AsciiLower, s) == "merge" && Spaceless("merge")
  {
    IsOneWord(s, "merge");
  }

  /** The documented example: however it is capitalised and spaced, it is one token. */
  lemma OneSpelling(first: string, gap: string, second: string)
    requires first == "after" || first == "After"
    requires second == "merge" || second == "Merge"
    requires gap != "" && forall k :: 0 <= k < |gap| ==> gap[k] == '_' || gap[k] == ' ' || gap[k] == '-'
    ensures NormalizeToken(AsciiLower, first + (gap + second)) == "after" + ("-" + "merge")
  {
    AfterIs(first);
    MergeIs(second);
    LowerIs(gap, gap);
    TwoWords(AsciiLower, first, gap, second);
  }
}
