/** The few JavaScript string operations the résumé pipeline relies on:
    `trim`, `split`, `join`, `toLowerCase`, `includes`, whitespace
    normalisation and number formatting. */
module Text {

  /** A character JavaScript's `\s` and `String.prototype.trim` treat as white space. */
  predicate IsSpace(c: char) {
    c == ' ' || c == '\t' || c == '\n' || c == '\r' || c == '\U{000B}' || c == '\U{000C}'
    || c == '\U{00A0}' || c == '\U{1680}' || ('\U{2000}' <= c <= '\U{200A}')
    || c == '\U{2028}' || c == '\U{2029}' || c == '\U{202F}' || c == '\U{205F}'
    || c == '\U{3000}' || c == '\U{FEFF}'
  }

  /** Every character is white space (this includes the empty string). */
  predicate IsBlank(s: string) {
    forall i :: 0 <= i < |s| ==> IsSpace(s[i])
  }

  // ---------------------------------------------------------------- trim

  function TrimStart(s: string): (r: string)
    ensures |r| <= |s| && r == s[|s| - |r|..]
    ensures IsBlank(s[..|s| - |r|])
    ensures r == [] || !IsSpace(r[0])
  {
    if s == [] || !IsSpace(s[0]) then s else TrimStart(s[1..])
  }

  function TrimEnd(s: string): (r: string)
    ensures |r| <= |s| && r == s[..|r|]
    ensures IsBlank(s[|r|..])
    ensures r == [] || !IsSpace(r[|r| - 1])
  {
    if s == [] || !IsSpace(s[|s| - 1]) then s else TrimEnd(s[..|s| - 1])
  }

  /** `s.trim()`: the longest slice of `s` that neither starts nor ends with white space. */
  function Trim(s: string): (r: string)
    ensures exists i, j :: 0 <= i <= j <= |s| && r == s[i..j] && IsBlank(s[..i]) && IsBlank(s[j..])
    ensures r == [] || (!IsSpace(r[0]) && !IsSpace(r[|r| - 1]))
  {
    var t := TrimStart(s);
    var r := TrimEnd(t);
    TrimIsSlice(s, t, r);
    r
  }

  lemma TrimIsSlice(s: string, t: string, r: string)
    requires |t| <= |s| && t == s[|s| - |t|..] && IsBlank(s[..|s| - |t|])
    requires |r| <= |t| && r == t[..|r|] && IsBlank(t[|r|..])
    ensures exists i, j :: 0 <= i <= j <= |s| && r == s[i..j] && IsBlank(s[..i]) && IsBlank(s[j..])
  {
    var i := |s| - |t|;
    var j := i + |r|;
    assert r == s[i..j];
    assert s[j..] == t[|r|..];
  }

  /** Trimming never introduces a character the text did not have. */
  lemma TrimOmits(s: string, c: char)
    requires c !in s
    ensures c !in Trim(s)
  {
    var t := TrimStart(s);
    var k := |s| - |t|;
    forall m | 0 <= m < |t| ensures t[m] != c {
      assert t[m] == s[k + m];
    }
    var r := TrimEnd(t);
    assert Trim(s) == r;
    forall m | 0 <= m < |r| ensures r[m] != c {
      assert r[m] == t[m];
    }
  }

  lemma BlankConcat(a: string, b: string)
    requires IsBlank(a) && IsBlank(b)
    ensures IsBlank(a + b)
  {
    forall k | 0 <= k < |a + b| ensures IsSpace((a + b)[k]) {
      if k < |a| { assert (a + b)[k] == a[k]; } else { assert (a + b)[k] == b[k - |a|]; }
    }
  }

  /** Trimming yields the empty string exactly for blank input. */
  lemma TrimEmptyIffBlank(s: string)
    ensures Trim(s) == [] <==> IsBlank(s)
  {
    var t := TrimStart(s);
    var r := TrimEnd(t);
    var k := |s| - |t|;
    assert Trim(s) == r;
    if r == [] {
      assert t[|r|..] == t;
      assert s == s[..k] + t;
      BlankConcat(s[..k], t);
    } else {
      assert s[k] == t[0] == r[0];
    }
  }

  /** A string already without surrounding white space is its own trim. */
  lemma TrimOfTrimmed(s: string)
    requires s == [] || (!IsSpace(s[0]) && !IsSpace(s[|s| - 1]))
    ensures Trim(s) == s
  {
    assert TrimStart(s) == s;
    assert TrimEnd(s) == s;
  }

  // ------------------------------------------------------- split and join

  /** `s.split(sep)` for a one-character separator. */
  function Split(s: string, sep: char): (parts: seq<string>)
    ensures |parts| >= 1
    ensures forall k :: 0 <= k < |parts| ==> sep !in parts[k]
  {
    if s == [] then [[]]
    else
      var rest := Split(s[1..], sep);
      if s[0] == sep then [[]] + rest else [[s[0]] + rest[0]] + rest[1..]
  }

  /** `parts.join(sep)` for a one-character separator. */
  function Join(parts: seq<string>, sep: char): string
  {
    if |parts| == 0 then []
    else if |parts| == 1 then parts[0]
    else parts[0] + [sep] + Join(parts[1..], sep)
  }

  /** Splitting and joining again gives back the original text. */
  lemma {:induction false} JoinSplit(s: string, sep: char)
    ensures Join(Split(s, sep), sep) == s
  {
    if s != [] {
      var rest := Split(s[1..], sep);
      JoinSplit(s[1..], sep);
      if s[0] == sep {
        assert Split(s, sep) == [[]] + rest;
        assert s == [] + [sep] + s[1..];
      } else if |rest| == 1 {
        assert Split(s, sep) == [[s[0]] + rest[0]];
      } else {
        var parts := Split(s, sep);
        assert parts == [[s[0]] + rest[0]] + rest[1..];
        assert parts[1..] == rest[1..];
        assert Join(rest, sep) == rest[0] + [sep] + Join(rest[1..], sep);
      }
    }
  }

  /** Joining pieces that do not contain the separator and splitting again gives back the pieces. */
  lemma {:induction false} SplitJoin(parts: seq<string>, sep: char)
    requires |parts| >= 1
    requires forall k :: 0 <= k < |parts| ==> sep !in parts[k]
    ensures Split(Join(parts, sep), sep) == parts
  {
    if |parts| == 1 {
      SplitNoSeparator(parts[0], sep);
    } else {
      SplitJoin(parts[1..], sep);
      SplitPrefix(parts[0], sep, Join(parts[1..], sep));
    }
  }

  lemma {:induction false} SplitNoSeparator(s: string, sep: char)
    requires sep !in s
    ensures Split(s, sep) == [s]
  {
    if s != [] {
      SplitNoSeparator(s[1..], sep);
      assert [s[0]] + s[1..] == s;
    }
  }

  lemma {:induction false} SplitPrefix(a: string, sep: char, b: string)
    requires sep !in a
    ensures Split(a + [sep] + b, sep) == [a] + Split(b, sep)
  {
    if a == [] {
      assert ([] + [sep] + b)[1..] == b;
    } else {
      SplitPrefix(a[1..], sep, b);
      var s := a + [sep] + b;
      assert s[0] == a[0] && s[1..] == a[1..] + [sep] + b;
      var rest := Split(s[1..], sep);
      assert rest == [a[1..]] + Split(b, sep);
      assert [s[0]] + rest[0] == a;
    }
  }

  /** `content += "\n" + line` when content is non-empty, `content += line` otherwise. */
  function AppendLine(content: string, line: string): string {
    if content == [] then line else content + "\n" + line
  }

  /** Joining non-empty lines one at a time with `AppendLine` is joining them with "\n". */
  lemma {:induction false} JoinSnoc(lines: seq<string>, line: string)
    requires forall k :: 0 <= k < |lines| ==> lines[k] != []
    ensures Join(lines + [line], '\n') == AppendLine(Join(lines, '\n'), line)
  {
    if |lines| == 0 {
      assert lines + [line] == [line];
    } else if |lines| == 1 {
      assert lines + [line] == [lines[0], line];
    } else {
      assert (lines + [line])[1..] == lines[1..] + [line];
      JoinSnoc(lines[1..], line);
      JoinNonEmpty(lines[1..]);
    }
  }

  lemma JoinNonEmpty(lines: seq<string>)
    requires |lines| >= 1 && lines[0] != []
    ensures Join(lines, '\n') != []
  {
  }

  // -------------------------------------------------------- lower case

  /** `toLowerCase` of one character, restricted to ASCII letters. */
  function LowerChar(c: char): char {
    if 'A' <= c <= 'Z' then (c as int + 32) as char else c
  }

  function UpperChar(c: char): char {
    if 'a' <= c <= 'z' then (c as int - 32) as char else c
  }

  function ToLower(s: string): (r: string)
    ensures |r| == |s|
    ensures forall i :: 0 <= i < |s| ==> r[i] == LowerChar(s[i])
  {
    seq(|s|, i requires 0 <= i < |s| => LowerChar(s[i]))
  }

  /** `s.includes(pattern)` */
  predicate Contains(s: string, pattern: string)
  {
    |pattern| <= |s| && (s[..|pattern|] == pattern || Contains(s[1..], pattern))
  }

  lemma ContainsSelf(s: string)
    ensures Contains(s, s)
  {
    assert s[..|s|] == s;
  }

  // ------------------------------------------------------------- words

  /** The number of maximal runs of non-white-space characters: what
      `s.replace(/\s+/g, " ").trim().split(" ").length` counts for a
      non-blank `s`. */
  function CountWords(s: string): nat
  {
    if s == [] then 0
    else
      var last := |s| - 1;
      var starts := !IsSpace(s[last]) && (last == 0 || IsSpace(s[last - 1]));
      CountWords(s[..last]) + (if starts then 1 else 0)
  }

  /** A text has no words exactly when it is blank. */
  lemma {:induction false} CountWordsZeroIffBlank(s: string)
    ensures CountWords(s) == 0 <==> IsBlank(s)
  {
    if s != [] {
      var last := |s| - 1;
      CountWordsZeroIffBlank(s[..last]);
      if IsBlank(s) {
        assert IsBlank(s[..last]);
      } else if IsBlank(s[..last]) {
        assert !IsSpace(s[last]) by {
          if IsSpace(s[last]) {
            forall k | 0 <= k < |s| ensures IsSpace(s[k]) {
              if k < last { assert s[k] == s[..last][k]; }
            }
          }
        }
        assert last == 0 || IsSpace(s[..last][last - 1]);
      }
    }
  }

  /** Word counts add up across a split point that falls next to white space. */
  lemma {:induction false} CountWordsConcat(a: string, b: string)
    requires a == [] || IsSpace(a[|a| - 1]) || (b != [] && IsSpace(b[0]))
    ensures CountWords(a + b) == CountWords(a) + CountWords(b)
  {
    if b == [] {
      assert a + b == a;
    } else {
      var b' := b[..|b| - 1];
      var ab := a + b;
      assert ab[..|ab| - 1] == a + b';
      assert ab[|ab| - 1] == b[|b| - 1];
      if |b| >= 2 {
        assert ab[|ab| - 2] == b[|b| - 2];
      }
      if b' != [] {
        assert b'[0] == b[0];
        CountWordsConcat(a, b');
      } else {
        assert a + b' == a;
      }
    }
  }

  /** A non-empty run of characters without white space is one word. */
  lemma {:induction false} CountWordsOfWord(word: string)
    requires word != [] && forall i :: 0 <= i < |word| ==> !IsSpace(word[i])
    ensures CountWords(word) == 1
  {
    var w' := word[..|word| - 1];
    if w' != [] {
      CountWordsOfWord(w');
    } else {
      assert |word| == 1;
    }
  }

  /** Words joined by single spaces are counted one by one. */
  lemma {:induction false} CountWordsOfJoin(words: seq<string>)
    requires forall k :: 0 <= k < |words| ==> words[k] != [] && forall i :: 0 <= i < |words[k]| ==> !IsSpace(words[k][i])
    ensures CountWords(Join(words, ' ')) == |words|
  {
    if |words| == 1 {
      CountWordsOfWord(words[0]);
    } else if |words| >= 2 {
      var rest := Join(words[1..], ' ');
      CountWordsOfJoin(words[1..]);
      CountWordsOfWord(words[0]);
      var head := words[0] + [' '];
      assert head[..|head| - 1] == words[0];
      assert CountWords(head) == 1;
      CountWordsConcat(head, rest);
      assert Join(words, ' ') == head + rest;
    }
  }

  /** A run of white space, however long and of whatever kind, separates words exactly as
      one space does; this is why `replace(/\s+/g, " ")` does not change the count. */
  lemma CountWordsSpaceRun(a: string, run: string, b: string)
    requires run != [] && IsBlank(run)
    ensures CountWords(a + run + b) == CountWords(a) + CountWords(b)
    ensures CountWords(a + run + b) == CountWords(a + " " + b)
  {
    assert IsSpace(run[0]) && IsSpace(run[|run| - 1]);
    CountWordsConcat(a, run);
    CountWordsZeroIffBlank(run);
    CountWordsConcat(a + run, b);
    CountWordsConcat(a, " ");
    CountWordsZeroIffBlank(" ");
    CountWordsConcat(a + " ", b);
  }

  /** `s.replace(/\s+/g, " ")`: every maximal run of white space becomes one space. */
  function CollapseSpaces(s: string): (r: string)
    ensures r == [] <==> s == []
    ensures s != [] ==> (IsSpace(r[|r| - 1]) <==> IsSpace(s[|s| - 1]))
    ensures SpacesAreSingle(r)
    ensures NonSpace(r) == NonSpace(s)
  {
    if s == [] then []
    else
      var last := |s| - 1;
      var p := CollapseSpaces(s[..last]);
      if !IsSpace(s[last]) then
        assert (p + [s[last]])[..|p|] == p;
        p + [s[last]]
      else if last > 0 && IsSpace(s[last - 1]) then p
      else
        assert (p + " ")[..|p|] == p;
        p + " "
  }

  /** The characters of `s` that are not white space, in order. */
  function NonSpace(s: string): string {
    if s == [] then []
    else NonSpace(s[..|s| - 1]) + (if IsSpace(s[|s| - 1]) then [] else [s[|s| - 1]])
  }

  /** Text without white space is left as it is. */
  lemma {:induction false} CollapseSpacesOfWord(w: string)
    requires forall i :: 0 <= i < |w| ==> !IsSpace(w[i])
    ensures CollapseSpaces(w) == w
  {
    if w != [] {
      CollapseSpacesOfWord(w[..|w| - 1]);
      assert w[..|w| - 1] + [w[|w| - 1]] == w;
    }
  }

  /** A run of white space, of any length and kind, collapses to a single space. */
  lemma {:induction false} CollapseSpacesOfRun(run: string)
    requires run != [] && IsBlank(run)
    ensures CollapseSpaces(run) == " "
  {
    var last := |run| - 1;
    assert IsSpace(run[last]);
    if last > 0 {
      assert run[..last][last - 1] == run[last - 1];
      CollapseSpacesOfRun(run[..last]);
    }
  }

  /** The last character is white space. */
  predicate EndsInSpace(p: string) {
    p != [] && IsSpace(p[|p| - 1])
  }

  /** What one more character `c` adds to collapsed text `q`: itself, nothing after white
      space, or a space. */
  function CollapseStep(q: string, c: char, afterSpace: bool): string {
    if !IsSpace(c) then q + [c] else if afterSpace then q else q + " "
  }

  lemma CollapseStepPrefix(a: string, b: string, c: char, afterSpace: bool)
    ensures CollapseStep(a + b, c, afterSpace) == a + CollapseStep(b, c, afterSpace)
  {
    assert (a + b) + [c] == a + (b + [c]);
    assert (a + b) + " " == a + (b + " ");
  }

  /** The last character: kept, dropped after white space, or turned into a space. */
  lemma CollapseSpacesLast(s: string)
    requires s != []
    ensures CollapseSpaces(s) == CollapseStep(CollapseSpaces(s[..|s| - 1]), s[|s| - 1], EndsInSpace(s[..|s| - 1]))
  {
    if |s| > 1 {
      assert s[..|s| - 1][|s| - 2] == s[|s| - 2];
    }
  }

  lemma DropLastConcat(x: string, y: string)
    requires y != []
    ensures (x + y)[..|x + y| - 1] == x + y[..|y| - 1]
    ensures (x + y)[|x + y| - 1] == y[|y| - 1]
  {
  }

  /** Collapsing works piece by piece when the cut does not fall inside a run of white space. */
  lemma {:induction false} CollapseSpacesConcat(x: string, y: string)
    requires !EndsInSpace(x) || y == [] || !IsSpace(y[0])
    ensures CollapseSpaces(x + y) == CollapseSpaces(x) + CollapseSpaces(y)
    decreases |y|
  {
    if y == [] {
      assert x + y == x;
    } else {
      var y' := y[..|y| - 1];
      DropLastConcat(x, y);
      CollapseSpacesLast(x + y);
      CollapseSpacesLast(y);
      if y' == [] {
        assert x + y' == x;
        assert !EndsInSpace(y');
      } else {
        assert y'[0] == y[0];
        CollapseSpacesConcat(x, y');
        EndsInSpaceConcat(x, y');
      }
      CollapseStepPrefix(CollapseSpaces(x), CollapseSpaces(y'), y[|y| - 1], EndsInSpace(y'));
    }
  }

  lemma EndsInSpaceConcat(x: string, y': string)
    requires y' != []
    ensures EndsInSpace(x + y') == EndsInSpace(y')
  {
    assert (x + y')[|x + y'| - 1] == y'[|y'| - 1];
  }

  /** Each maximal run of white space becomes one space in its place: text up to a
      non-space character, a run, then text from a non-space character. */
  lemma CollapseSpacesRun(a: string, run: string, b: string)
    requires !EndsInSpace(a)
    requires run != [] && IsBlank(run)
    requires b == [] || !IsSpace(b[0])
    ensures CollapseSpaces(a + run + b) == CollapseSpaces(a) + " " + CollapseSpaces(b)
  {
    CollapseSpacesConcat(a, run);
    EndsInSpaceConcat(a, run);
    CollapseSpacesConcat(a + run, b);
    CollapseSpacesOfRun(run);
  }

  /** Every white-space character is a plain space, and no two of them are adjacent. */
  predicate SpacesAreSingle(s: string) {
    (forall i :: 0 <= i < |s| && IsSpace(s[i]) ==> s[i] == ' ')
    && (forall i :: 0 < i < |s| && IsSpace(s[i]) ==> !IsSpace(s[i - 1]))
  }

  /** The number of times `c` occurs in `s`. */
  function Occurrences(s: string, c: char): nat {
    if s == [] then 0
    else Occurrences(s[..|s| - 1], c) + (if s[|s| - 1] == c then 1 else 0)
  }

  lemma {:induction false} OccurrencesCons(first: char, rest: string, c: char)
    ensures Occurrences([first] + rest, c) == (if first == c then 1 else 0) + Occurrences(rest, c)
  {
    if rest != [] {
      var s := [first] + rest;
      assert s[..|s| - 1] == [first] + rest[..|rest| - 1];
      OccurrencesCons(first, rest[..|rest| - 1], c);
    }
  }

  /** `split` yields one more part than there are separators. */
  lemma {:induction false} SplitLength(s: string, sep: char)
    ensures |Split(s, sep)| == 1 + Occurrences(s, sep)
  {
    if s != [] {
      SplitLength(s[1..], sep);
      OccurrencesCons(s[0], s[1..], sep);
      assert s == [s[0]] + s[1..];
    }
  }

  /** Collapsing runs of white space keeps the word count. */
  lemma {:induction false} CountWordsCollapse(s: string)
    ensures CountWords(CollapseSpaces(s)) == CountWords(s)
  {
    if s != [] {
      var last := |s| - 1;
      var p := CollapseSpaces(s[..last]);
      CountWordsCollapse(s[..last]);
      if last > 0 {
        assert s[..last][last - 1] == s[last - 1];
      }
      if !IsSpace(s[last]) {
        assert (p + [s[last]])[..|p|] == p;
      } else if !(last > 0 && IsSpace(s[last - 1])) {
        assert (p + " ")[..|p|] == p;
      }
    }
  }

  /** In a text whose spaces are single and which does not start with one, the words are
      one more than the spaces, less one for a trailing space. */
  lemma {:induction false} CountWordsOfSingleSpaced(v: string)
    requires v != [] && SpacesAreSingle(v) && !IsSpace(v[0])
    ensures CountWords(v) + (if v[|v| - 1] == ' ' then 1 else 0) == 1 + Occurrences(v, ' ')
  {
    var last := |v| - 1;
    var v' := v[..last];
    if v' == [] {
      assert CountWords(v) == 1;
    } else {
      assert v'[0] == v[0];
      assert SpacesAreSingle(v') by {
        forall i | 0 <= i < |v'| ensures v'[i] == v[i] { }
      }
      CountWordsOfSingleSpaced(v');
      assert v'[|v'| - 1] == v[last - 1];
    }
  }

  /** What `scoreResume` counts as words: the normalised text split at single spaces, or
      none when it is empty. */
  function NormalizedWordCount(s: string): nat {
    var normalized := Trim(CollapseSpaces(s));
    if normalized == [] then 0 else |Split(normalized, ' ')|
  }

  lemma SliceSingleSpaced(t: string, i: nat, j: nat)
    requires i <= j <= |t| && SpacesAreSingle(t)
    ensures SpacesAreSingle(t[i..j])
  {
    var u := t[i..j];
    assert forall k :: 0 <= k < |u| ==> u[k] == t[i + k];
  }

  /** A blank prefix carries no words. */
  lemma BlankPrefixNoWords(a: string, v: string)
    requires IsBlank(a)
    ensures CountWords(a + v) == CountWords(v)
  {
    CountWordsZeroIffBlank(a);
    if a != [] {
      assert IsSpace(a[|a| - 1]);
    }
    CountWordsConcat(a, v);
  }

  /** A blank suffix carries no words. */
  lemma BlankSuffixNoWords(v: string, c: string)
    requires IsBlank(c)
    ensures CountWords(v + c) == CountWords(v)
  {
    if c == [] {
      assert v + c == v;
    } else {
      CountWordsZeroIffBlank(c);
      assert IsSpace(c[0]);
      CountWordsConcat(v, c);
    }
  }

  /** Blank text around a slice carries no words. */
  lemma CountWordsBetweenBlanks(t: string, i: nat, j: nat)
    requires i <= j <= |t| && IsBlank(t[..i]) && IsBlank(t[j..])
    ensures CountWords(t[i..j]) == CountWords(t)
  {
    var u := t[i..j];
    assert t == t[..i] + (u + t[j..]);
    BlankPrefixNoWords(t[..i], u + t[j..]);
    BlankSuffixNoWords(u, t[j..]);
  }

  lemma TrimmedSingleSpaced(t: string)
    requires SpacesAreSingle(t)
    ensures SpacesAreSingle(Trim(t))
    ensures CountWords(Trim(t)) == CountWords(t)
  {
    var i, j :| 0 <= i <= j <= |t| && Trim(t) == t[i..j] && IsBlank(t[..i]) && IsBlank(t[j..]);
    SliceSingleSpaced(t, i, j);
    CountWordsBetweenBlanks(t, i, j);
  }

  /** `CountWords` is the count `scoreResume` takes:
      `resumeText.replace(/\s+/g, " ").trim()`, split at " " when non-empty; and that
      normalised text is empty exactly for blank text. */
  lemma CountWordsIsNormalizedCount(s: string)
    ensures CountWords(s) == NormalizedWordCount(s)
    ensures Trim(CollapseSpaces(s)) == [] <==> IsBlank(s)
  {
    var t := CollapseSpaces(s);
    var u := Trim(t);
    CountWordsCollapse(s);
    TrimmedSingleSpaced(t);
    CountWordsZeroIffBlank(s);
    TrimmedNoWords(u);
    if u != [] {
      TrimmedWordCount(u);
    }
  }

  /** A trimmed text has no words exactly when it is empty. */
  lemma TrimmedNoWords(u: string)
    requires u == [] || !IsSpace(u[0])
    ensures CountWords(u) == 0 <==> u == []
  {
    CountWordsZeroIffBlank(u);
  }

  /** A non-empty trimmed single-spaced text has one word per part of its split at " ". */
  lemma TrimmedWordCount(u: string)
    requires u != [] && SpacesAreSingle(u) && !IsSpace(u[0]) && !IsSpace(u[|u| - 1])
    ensures CountWords(u) == |Split(u, ' ')|
  {
    CountWordsOfSingleSpaced(u);
    SplitLength(u, ' ');
  }

  // ----------------------------------------------------------- numbers

  function DigitChar(d: nat): char
    requires d < 10
  {
    ('0' as int + d) as char
  }

  /** `String(n)` for a non-negative integer: its decimal digits. */
  function NatToString(n: nat): (r: string)
    ensures |r| >= 1
    ensures forall i :: 0 <= i < |r| ==> '0' <= r[i] <= '9'
    ensures r[0] == '0' <==> n == 0
    ensures |r| > 1 ==> r[0] != '0'
  {
    if n < 10 then [DigitChar(n)] else NatToString(n / 10) + [DigitChar(n % 10)]
  }

  /** The value of a string of decimal digits. */
  function DigitsValue(s: string): nat
    requires forall i :: 0 <= i < |s| ==> '0' <= s[i] <= '9'
  {
    if s == [] then 0 else 10 * DigitsValue(s[..|s| - 1]) + (s[|s| - 1] as int - '0' as int)
  }

  /** Reading back the printed digits gives the number. */
  lemma {:induction false} NatToStringRoundTrip(n: nat)
    ensures DigitsValue(NatToString(n)) == n
  {
    if n >= 10 {
      NatToStringRoundTrip(n / 10);
      var r := NatToString(n);
      assert r[..|r| - 1] == NatToString(n / 10);
    }
  }
}
