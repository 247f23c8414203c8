/** The line-oriented section parser `parseResumeText`
    (lib/services/resume-parser/resumeParser.ts) and its result types. */
module ResumeParser {
  import opened Wrappers
  import opened Text

  datatype ParsedResumeSection = ParsedResumeSection(header: string, content: string)

  /** `{ name?, sections }` */
  datatype ParsedResume = ParsedResume(name: Option<string>, sections: seq<ParsedResumeSection>)

  const SECTION_HEADERS: seq<string> := ["summary", "experience", "projects", "skills", "education", "contact"]

  // ------------------------------------------------------------ lines

  /** A line as the parser keeps it: non-empty, already trimmed, and free of line breaks. */
  predicate IsKeptLine(line: string) {
    line != [] && !IsSpace(line[0]) && !IsSpace(line[|line| - 1]) && '\n' !in line
  }

  /** `parts.map((line) => line.trim()).filter(Boolean)` */
  function TrimAndDropEmpty(parts: seq<string>): (lines: seq<string>)
    requires forall k :: 0 <= k < |parts| ==> '\n' !in parts[k]
    ensures |lines| <= |parts|
    ensures forall k :: 0 <= k < |lines| ==> IsKeptLine(lines[k])
  {
    if parts == [] then []
    else
      TrimAndDropStep(parts);
      var rest := TrimAndDropEmpty(parts[1..]);
      if Trim(parts[0]) == [] then rest
      else
        KeptCons(Trim(parts[0]), rest);
        [Trim(parts[0])] + rest
  }

  lemma TrimAndDropStep(parts: seq<string>)
    requires parts != []
    requires forall k :: 0 <= k < |parts| ==> '\n' !in parts[k]
    ensures forall k :: 0 <= k < |parts[1..]| ==> '\n' !in parts[1..][k]
    ensures Trim(parts[0]) != [] ==> IsKeptLine(Trim(parts[0]))
  {
    TrimOmits(parts[0], '\n');
    forall k | 0 <= k < |parts[1..]| ensures '\n' !in parts[1..][k] { assert parts[1..][k] == parts[k + 1]; }
  }

  lemma KeptCons(line: string, rest: seq<string>)
    requires IsKeptLine(line)
    requires forall k :: 0 <= k < |rest| ==> IsKeptLine(rest[k])
    ensures forall k :: 0 <= k < |[line] + rest| ==> IsKeptLine(([line] + rest)[k])
  {
    forall k | 0 <= k < |[line] + rest| ensures IsKeptLine(([line] + rest)[k]) {
      if k > 0 { assert ([line] + rest)[k] == rest[k - 1]; }
    }
  }

  /** `resumeText.split("\n").map((line) => line.trim()).filter(Boolean)` */
  function KeptLines(text: string): (lines: seq<string>)
    ensures forall k :: 0 <= k < |lines| ==> IsKeptLine(lines[k])
  {
    TrimAndDropEmpty(Split(text, '\n'))
  }

  lemma {:induction false} SplitOfBlank(s: string, sep: char)
    requires IsBlank(s)
    ensures forall k :: 0 <= k < |Split(s, sep)| ==> IsBlank(Split(s, sep)[k])
  {
    if s != [] {
      assert IsBlank(s[1..]) by {
        forall k | 0 <= k < |s[1..]| ensures IsSpace(s[1..][k]) {
          assert s[1..][k] == s[k + 1];
        }
      }
      SplitOfBlank(s[1..], sep);
      var rest := Split(s[1..], sep);
      var parts := Split(s, sep);
      assert IsBlank(rest[0]);
      if s[0] != sep {
        var head := [s[0]] + rest[0];
        assert IsBlank(head) by {
          forall k | 0 <= k < |head| ensures IsSpace(head[k]) {
            if k == 0 { assert head[0] == s[0]; } else { assert head[k] == rest[0][k - 1]; }
          }
        }
        assert parts == [head] + rest[1..];
        forall k | 0 <= k < |parts| ensures IsBlank(parts[k]) {
          if k > 0 { assert parts[k] == rest[k]; }
        }
      } else {
        assert parts == [[]] + rest;
        forall k | 0 <= k < |parts| ensures IsBlank(parts[k]) {
          if k > 0 { assert parts[k] == rest[k - 1]; }
        }
      }
    }
  }

  lemma {:induction false} DropAllBlank(parts: seq<string>)
    requires forall k :: 0 <= k < |parts| ==> '\n' !in parts[k] && IsBlank(parts[k])
    ensures TrimAndDropEmpty(parts) == []
  {
    if parts != [] {
      TrimEmptyIffBlank(parts[0]);
      DropAllBlank(parts[1..]);
    }
  }

  /** A blank text has no lines to keep. */
  lemma KeptLinesOfBlank(text: string)
    requires IsBlank(text)
    ensures KeptLines(text) == []
  {
    SplitOfBlank(text, '\n');
    var parts := Split(text, '\n');
    assert forall k :: 0 <= k < |parts| ==> '\n' !in parts[k] && IsBlank(parts[k]);
    DropAllBlank(parts);
  }

  lemma {:induction false} TrimAndDropKept(lines: seq<string>)
    requires forall k :: 0 <= k < |lines| ==> IsKeptLine(lines[k])
    ensures forall k :: 0 <= k < |lines| ==> '\n' !in lines[k]
    ensures TrimAndDropEmpty(lines) == lines
  {
    if lines != [] {
      var tail := lines[1..];
      TrimOfTrimmed(lines[0]);
      assert Trim(lines[0]) == lines[0] != [];
      assert forall k :: 0 <= k < |tail| ==> IsKeptLine(tail[k]) by {
        forall k | 0 <= k < |tail| ensures IsKeptLine(tail[k]) { assert tail[k] == lines[k + 1]; }
      }
      TrimAndDropKept(tail);
      assert TrimAndDropEmpty(lines) == [lines[0]] + TrimAndDropEmpty(tail);
      assert lines == [lines[0]] + tail;
    }
  }

  /** Kept lines joined with "\n" are kept again unchanged: splitting, trimming
      and dropping empty lines loses nothing but white space and blank lines. */
  lemma KeptLinesOfJoin(lines: seq<string>)
    requires forall k :: 0 <= k < |lines| ==> IsKeptLine(lines[k])
    ensures KeptLines(Join(lines, '\n')) == lines
  {
    if lines == [] {
      assert Split([], '\n') == [[]];
    } else {
      SplitJoin(lines, '\n');
      TrimAndDropKept(lines);
    }
  }

  // ---------------------------------------------------------- headers

  /** `SECTION_HEADERS.find((header) => lowerLine === header)` */
  function FindHeader(lowerLine: string, headers: seq<string>): (r: Option<string>)
    ensures r.Some? <==> lowerLine in headers
    ensures r.Some? ==> r.value == lowerLine
  {
    if headers == [] then None
    else if lowerLine == headers[0] then Some(headers[0])
    else FindHeader(lowerLine, headers[1..])
  }

  /** `SECTION_HEADERS.some((header) => lowerLine.includes(header))` */
  predicate MentionsHeader(lowerLine: string, headers: seq<string>) {
    headers != [] && (Contains(lowerLine, headers[0]) || MentionsHeader(lowerLine, headers[1..]))
  }

  /** A line that is exactly a header word, ignoring case. */
  predicate IsHeader(line: string) {
    ToLower(line) in SECTION_HEADERS
  }

  /** `header.charAt(0).toUpperCase() + header.slice(1)` */
  function Capitalize(word: string): string {
    if word == [] then [] else [UpperChar(word[0])] + word[1..]
  }

  // ------------------------------------------------ reference definition

  /** The name: the first kept line, unless it is a header. */
  function NameOf(lines: seq<string>): Option<string> {
    if |lines| > 0 && !IsHeader(lines[0]) then Some(lines[0]) else None
  }

  /** The leading lines that are not headers. */
  function Body(lines: seq<string>): seq<string> {
    if lines == [] || IsHeader(lines[0]) then [] else [lines[0]] + Body(lines[1..])
  }

  /** One section per header line, in order, holding the header word
      capitalised and the non-header lines that follow it joined by "\n". */
  function Sections(lines: seq<string>): seq<ParsedResumeSection> {
    if lines == [] then []
    else if IsHeader(lines[0]) then
      [ParsedResumeSection(Capitalize(ToLower(lines[0])), Join(Body(lines[1..]), '\n'))] + Sections(lines[1..])
    else Sections(lines[1..])
  }

  /** The header lines, in order. */
  function HeaderLines(lines: seq<string>): seq<string> {
    if lines == [] then []
    else (if IsHeader(lines[0]) then [lines[0]] else []) + HeaderLines(lines[1..])
  }

  /** Some line is a header. */
  predicate HasHeader(lines: seq<string>) {
    lines != [] && (IsHeader(lines[0]) || HasHeader(lines[1..]))
  }

  lemma {:induction false} HasHeaderSnoc(lines: seq<string>, line: string)
    ensures HasHeader(lines + [line]) <==> HasHeader(lines) || IsHeader(line)
  {
    if lines == [] {
      assert [] + [line] == [line];
    } else {
      assert (lines + [line])[1..] == lines[1..] + [line];
      HasHeaderSnoc(lines[1..], line);
    }
  }

  /** What `parseResumeText` returns for a text: the name and the sections of its kept lines. */
  function ParsedOf(text: string): ParsedResume {
    var lines := KeptLines(text);
    ParsedResume(NameOf(lines), Sections(lines))
  }

  // ----------------------------------------------------------- parser

  function OpenSections(current: Option<ParsedResumeSection>): seq<ParsedResumeSection> {
    if current.Some? then [current.value] else []
  }

  /** `parseResumeText`: an empty or blank text has no name and no sections;
      otherwise the kept lines are scanned once. */
  method ParseResumeText(resumeText: string) returns (r: ParsedResume)
    ensures IsBlank(resumeText) ==> r == ParsedResume(None, [])
    ensures r.name == NameOf(KeptLines(resumeText))
    ensures r.sections == Sections(KeptLines(resumeText))
    ensures r == ParsedOf(resumeText)
  {
    TrimEmptyIffBlank(resumeText);
    if resumeText == [] || |Trim(resumeText)| == 0 {
      KeptLinesOfBlank(resumeText);
      return ParsedResume(None, []);
    }
    var lines := KeptLines(resumeText);
    r := ScanLines(lines);
  }

  /** The loop of `parseResumeText` over the kept lines: it opens a section at
      every header line, appends other lines to the open section, and takes
      the first line as the name unless it is a header. */
  method ScanLines(lines: seq<string>) returns (r: ParsedResume)
    requires forall k :: 0 <= k < |lines| ==> lines[k] != []
    ensures r.name == NameOf(lines)
    ensures r.sections == Sections(lines)
  {
    var sections: seq<ParsedResumeSection> := [];
    var currentSection: Option<ParsedResumeSection> := None;
    var name: Option<string> := None;

    var i := 0;
    while i < |lines|
      invariant 0 <= i <= |lines|
      invariant name == NameOf(lines[..i])
      invariant currentSection.Some? <==> HasHeader(lines[..i])
      invariant sections + OpenSections(currentSection) == Sections(lines[..i])
    {
      var line := lines[i];
      var lowerLine := ToLower(line);
      ghost var before := lines[..i];
      assert lines[..i + 1] == before + [line];
      assert forall k :: 0 <= k < |before| ==> before[k] != [];
      SectionsSnoc(before, line);
      HasHeaderSnoc(before, line);
      NameOfSnoc(before, line);

      if i == 0 && !MentionsHeader(lowerLine, SECTION_HEADERS) {
        assert !IsHeader(line) by { MentionsOwnHeader(lowerLine, SECTION_HEADERS); }
        assert Sections(before + [line]) == [];
        name := Some(line);
        i := i + 1;
        continue;
      }

      var matchingHeader := FindHeader(lowerLine, SECTION_HEADERS);

      if matchingHeader.Some? {
        ghost var prior := sections + OpenSections(currentSection);
        assert IsHeader(line);
        if currentSection.Some? {
          sections := sections + [currentSection.value];
        }
        assert sections == prior;
        var header := matchingHeader.value;
        assert header == ToLower(line);
        currentSection := Some(ParsedResumeSection(Capitalize(header), ""));
        assert sections + OpenSections(currentSection) == Sections(before + [line]);
      } else if currentSection.Some? {
        ghost var open := currentSection.value;
        var content := currentSection.value.content;
        if content != [] {
          content := content + "\n";
        }
        content := content + line;
        assert content == AppendLine(open.content, line);
        currentSection := Some(currentSection.value.(content := content));
        AppendToLastOf(sections, open, line);
        assert sections + OpenSections(currentSection) == Sections(before + [line]);
      } else {
        if name.None? || name.value == [] {
          name := Some(line);
        }
        assert sections + OpenSections(currentSection) == Sections(before + [line]);
      }
      i := i + 1;
    }
    assert lines[..|lines|] == lines;

    if currentSection.Some? {
      sections := sections + [currentSection.value];
    }

    return ParsedResume(name, sections);
  }

  /** A line that is a header word also mentions one. */
  lemma {:induction false} MentionsOwnHeader(lowerLine: string, headers: seq<string>)
    ensures lowerLine in headers ==> MentionsHeader(lowerLine, headers)
  {
    if headers == [] {
    } else if lowerLine == headers[0] {
      ContainsSelf(lowerLine);
    } else {
      MentionsOwnHeader(lowerLine, headers[1..]);
    }
  }

  lemma AppendToLastOf(sections: seq<ParsedResumeSection>, open: ParsedResumeSection, line: string)
    ensures AppendToLast(sections + [open], line) == sections + [open.(content := AppendLine(open.content, line))]
  {
    assert (sections + [open])[..|sections|] == sections;
  }

  lemma AppendToLastCons(first: ParsedResumeSection, sections: seq<ParsedResumeSection>, line: string)
    requires sections != []
    ensures AppendToLast([first] + sections, line) == [first] + AppendToLast(sections, line)
  {
    var n := |sections|;
    assert ([first] + sections)[..n] == [first] + sections[..n - 1];
  }

  lemma NameOfSnoc(lines: seq<string>, line: string)
    ensures NameOf(lines + [line]) == if lines == [] then NameOf([line]) else NameOf(lines)
  {
    if lines != [] {
      assert (lines + [line])[0] == lines[0];
    }
  }

  /** The content of the last section extended by one more line. */
  function AppendToLast(sections: seq<ParsedResumeSection>, line: string): seq<ParsedResumeSection>
    requires sections != []
  {
    var last := sections[|sections| - 1];
    sections[..|sections| - 1] + [last.(content := AppendLine(last.content, line))]
  }

  lemma {:induction false} BodySnoc(lines: seq<string>, line: string)
    ensures Body(lines + [line]) ==
      (if HasHeader(lines) then Body(lines) else if IsHeader(line) then lines else lines + [line])
  {
    if lines != [] {
      assert (lines + [line])[1..] == lines[1..] + [line];
      BodySnoc(lines[1..], line);
      if !HasHeader(lines) {
        assert [lines[0]] + lines[1..] == lines;
        assert [lines[0]] + (lines[1..] + [line]) == lines + [line];
      }
    } else {
      assert [] + [line] == [line];
    }
  }

  /** One more line either opens a new empty section, extends the last one,
      or (before any header) leaves the sections unchanged. */
  lemma {:induction false} SectionsSnoc(lines: seq<string>, line: string)
    requires forall k :: 0 <= k < |lines| ==> lines[k] != []
    ensures HasHeader(lines) ==> Sections(lines) != []
    ensures Sections(lines + [line]) ==
      if IsHeader(line) then Sections(lines) + [ParsedResumeSection(Capitalize(ToLower(line)), "")]
      else if HasHeader(lines) then AppendToLast(Sections(lines), line)
      else Sections(lines)
  {
    if lines == [] {
      assert [] + [line] == [line];
    } else {
      var head, tail := lines[0], lines[1..];
      assert (lines + [line])[1..] == tail + [line];
      assert (lines + [line])[0] == head;
      SectionsSnoc(tail, line);
      if IsHeader(head) {
        BodySnoc(tail, line);
        var first := ParsedResumeSection(Capitalize(ToLower(head)), Join(Body(tail), '\n'));
        assert Sections(lines) == [first] + Sections(tail);
        if !IsHeader(line) && !HasHeader(tail) {
          assert Body(tail) == tail by { BodyAll(tail); }
          JoinSnoc(tail, line);
          assert Sections(tail) == [] by { NoHeaderNoSections(tail); }
          assert Sections(tail + [line]) == [];
        } else if !IsHeader(line) {
          assert HasHeader(tail);
          assert Body(tail + [line]) == Body(tail);
          assert Sections(lines + [line]) == [first] + Sections(tail + [line]);
          AppendToLastCons(first, Sections(tail), line);
        } else {
          if !HasHeader(tail) { BodyAll(tail); }
          assert Body(tail + [line]) == Body(tail);
          assert Sections(lines + [line]) == [first] + Sections(tail + [line]);
        }
      }
    }
  }

  lemma {:induction false} BodyAll(lines: seq<string>)
    requires !HasHeader(lines)
    ensures Body(lines) == lines
  {
    if lines != [] {
      BodyAll(lines[1..]);
    }
  }

  /** Lines without a header produce no section. */
  lemma {:induction false} NoHeaderNoSections(lines: seq<string>)
    requires !HasHeader(lines)
    ensures Sections(lines) == []
  {
    if lines != [] {
      NoHeaderNoSections(lines[1..]);
    }
  }

  // ------------------------------------------------------- properties

  /** There is one section per header line, repeats included, in input order,
      and each stored header is the header word with its first letter upper-cased. */
  lemma {:induction false} SectionsFollowHeaders(lines: seq<string>)
    ensures |Sections(lines)| == |HeaderLines(lines)|
    ensures forall k :: 0 <= k < |Sections(lines)| ==>
      IsHeader(HeaderLines(lines)[k]) &&
      Sections(lines)[k].header == Capitalize(ToLower(HeaderLines(lines)[k]))
  {
    if lines != [] {
      var tail := lines[1..];
      SectionsFollowHeaders(tail);
      if IsHeader(lines[0]) {
        var first := ParsedResumeSection(Capitalize(ToLower(lines[0])), Join(Body(tail), '\n'));
        assert Sections(lines) == [first] + Sections(tail);
        assert HeaderLines(lines) == [lines[0]] + HeaderLines(tail);
        forall k | 0 <= k < |Sections(lines)| ensures IsHeader(HeaderLines(lines)[k]) &&
          Sections(lines)[k].header == Capitalize(ToLower(HeaderLines(lines)[k]))
        {
          if k > 0 {
            assert Sections(lines)[k] == Sections(tail)[k - 1];
            assert HeaderLines(lines)[k] == HeaderLines(tail)[k - 1];
          }
        }
      } else {
        assert Sections(lines) == Sections(tail);
        assert HeaderLines(lines) == [] + HeaderLines(tail) == HeaderLines(tail);
      }
    }
  }

  /** A non-empty word of lower-case ASCII letters. */
  predicate IsLowerWord(word: string) {
    word != [] && forall i :: 0 <= i < |word| ==> 'a' <= word[i] <= 'z'
  }

  lemma HeaderWordIsLower(word: string)
    requires word in SECTION_HEADERS
    ensures IsLowerWord(word)
  {
    var k :| 0 <= k < |SECTION_HEADERS| && SECTION_HEADERS[k] == word;
    if k == 0 { assert word == "summary"; }
    else if k == 1 { assert word == "experience"; }
    else if k == 2 { assert word == "projects"; }
    else if k == 3 { assert word == "skills"; }
    else if k == 4 { assert word == "education"; }
    else { assert word == "contact"; }
  }

  lemma CapitalizeLowerWord(word: string)
    requires IsLowerWord(word)
    ensures ToLower(Capitalize(word)) == word
    ensures 'A' <= Capitalize(word)[0] <= 'Z'
  {
    var c := Capitalize(word);
    forall i | 0 <= i < |word| ensures ToLower(c)[i] == word[i] {
      if i > 0 { assert c[i] == word[i]; }
    }
  }

  /** The stored header, lower-cased again, is one of the six header words and
      starts with an upper-case letter. */
  lemma StoredHeaderIsWord(word: string)
    requires word in SECTION_HEADERS
    ensures ToLower(Capitalize(word)) == word
    ensures 'A' <= Capitalize(word)[0] <= 'Z'
  {
    HeaderWordIsLower(word);
    CapitalizeLowerWord(word);
  }

  /** Lines that are not headers and come before every header leave the
      sections unchanged: once the name is set they are dropped. */
  lemma {:induction false} PreambleDropped(preamble: seq<string>, rest: seq<string>)
    requires !HasHeader(preamble)
    ensures Sections(preamble + rest) == Sections(rest)
  {
    if preamble == [] {
      assert preamble + rest == rest;
    } else {
      assert (preamble + rest)[1..] == preamble[1..] + rest;
      assert (preamble + rest)[0] == preamble[0];
      PreambleDropped(preamble[1..], rest);
    }
  }

  /** A joined body starts and ends with a line, never with the separator. */
  lemma {:induction false} JoinedBodyHasNoOuterBreaks(lines: seq<string>)
    requires forall k :: 0 <= k < |lines| ==> IsKeptLine(lines[k])
    ensures var c := Join(lines, '\n'); c == [] || (c[0] != '\n' && c[|c| - 1] != '\n')
  {
    if |lines| >= 2 {
      JoinedBodyHasNoOuterBreaks(lines[1..]);
      JoinNonEmpty(lines[1..]);
    }
  }

  lemma {:induction false} BodyKept(lines: seq<string>)
    requires forall k :: 0 <= k < |lines| ==> IsKeptLine(lines[k])
    ensures forall k :: 0 <= k < |Body(lines)| ==> IsKeptLine(Body(lines)[k])
  {
    if lines != [] && !IsHeader(lines[0]) {
      BodyKept(lines[1..]);
    }
  }

  /** Section content holds the following non-header lines joined by "\n",
      with no leading or trailing separator, and splits back into those lines. */
  lemma {:induction false} SectionContentIsItsLines(lines: seq<string>)
    requires forall k :: 0 <= k < |lines| ==> IsKeptLine(lines[k])
    ensures forall s :: s in Sections(lines) ==>
      s.content == [] || (s.content[0] != '\n' && s.content[|s.content| - 1] != '\n'
        && forall part :: part in Split(s.content, '\n') ==> IsKeptLine(part) && !IsHeader(part))
  {
    if lines != [] {
      SectionContentIsItsLines(lines[1..]);
      if IsHeader(lines[0]) {
        var body := Body(lines[1..]);
        BodyKept(lines[1..]);
        JoinedBodyHasNoOuterBreaks(body);
        if body != [] {
          SplitJoin(body, '\n');
          BodyNotHeaders(lines[1..]);
        }
      }
    }
  }

  lemma {:induction false} BodyNotHeaders(lines: seq<string>)
    ensures forall k :: 0 <= k < |Body(lines)| ==> !IsHeader(Body(lines)[k])
  {
    if lines != [] && !IsHeader(lines[0]) {
      BodyNotHeaders(lines[1..]);
    }
  }

  lemma {:induction false} NoHeaderAmong(lines: seq<string>)
    requires forall k :: 0 <= k < |lines| ==> !IsHeader(lines[k])
    ensures !HasHeader(lines)
  {
    if lines != [] {
      NoHeaderAmong(lines[1..]);
    }
  }

  /** A stored header is a line the parser keeps. */
  lemma StoredHeaderIsKept(word: string)
    requires word in SECTION_HEADERS
    ensures IsKeptLine(Capitalize(word)) && IsHeader(Capitalize(word))
    ensures Capitalize(ToLower(Capitalize(word))) == Capitalize(word)
  {
    HeaderWordIsLower(word);
    StoredHeaderIsWord(word);
    var h := Capitalize(word);
    assert |h| == |word|;
    forall i | 0 <= i < |h| ensures h[i] != '\n' && !IsSpace(h[i]) {
      if i > 0 {
        assert h[i] == word[i];
      }
      LetterIsNotSpace(h[i]);
    }
  }

  lemma LetterIsNotSpace(c: char)
    requires 'a' <= c <= 'z' || 'A' <= c <= 'Z'
    ensures c != '\n' && !IsSpace(c)
  {
  }

  /** A kept line followed by a line break keeps that line ahead of the rest. */
  lemma KeptLinesCons(line: string, rest: string)
    requires IsKeptLine(line)
    ensures KeptLines(line + "\n" + rest) == [line] + KeptLines(rest)
  {
    TrimOfTrimmed(line);
    SplitPrefix(line, '\n', rest);
    var parts := Split(line + "\n" + rest, '\n');
    assert parts == [line] + Split(rest, '\n');
    assert parts[1..] == Split(rest, '\n');
  }

  /** A header followed by non-header lines is one section holding those lines. */
  lemma SectionsOfHeaderAndBody(header: string, body: seq<string>)
    requires IsHeader(header)
    requires forall k :: 0 <= k < |body| ==> !IsHeader(body[k])
    ensures Sections([header] + body) == [ParsedResumeSection(Capitalize(ToLower(header)), Join(body, '\n'))]
  {
    NoHeaderAmong(body);
    BodyAll(body);
    NoHeaderNoSections(body);
    assert ([header] + body)[1..] == body;
  }

  /** One header followed by its body, parsed on its own, gives back exactly that section. */
  lemma ReparseOne(word: string, body: seq<string>)
    requires word in SECTION_HEADERS
    requires forall k :: 0 <= k < |body| ==> IsKeptLine(body[k]) && !IsHeader(body[k])
    ensures var s := ParsedResumeSection(Capitalize(word), Join(body, '\n'));
      ParsedOf(s.header + "\n" + s.content) == ParsedResume(None, [s])
  {
    var h := Capitalize(word);
    var joined := Join(body, '\n');
    StoredHeaderIsKept(word);
    KeptLinesCons(h, joined);
    KeptLinesOfJoin(body);
    SectionsOfHeaderAndBody(h, body);
    assert KeptLines(h + "\n" + joined) == [h] + body;
  }

  /** Re-parsing a section's own header and content, on their own, reproduces that
      single section and no name. */
  lemma {:induction false} ReparseSections(lines: seq<string>)
    requires forall k :: 0 <= k < |lines| ==> IsKeptLine(lines[k])
    ensures forall s :: s in Sections(lines) ==> ParsedOf(s.header + "\n" + s.content) == ParsedResume(None, [s])
  {
    if lines != [] {
      var tail := lines[1..];
      ReparseSections(tail);
      if IsHeader(lines[0]) {
        var word := ToLower(lines[0]);
        BodyKept(tail);
        BodyNotHeaders(tail);
        ReparseOne(word, Body(tail));
        assert Sections(lines) == [ParsedResumeSection(Capitalize(word), Join(Body(tail), '\n'))] + Sections(tail);
      }
    }
  }

  /** Parsing is idempotent on section boundaries: every section of a parsed text,
      written out as its header line and its content, parses back to itself alone. */
  lemma ReparseIsIdempotent(text: string)
    ensures forall s :: s in ParsedOf(text).sections ==> ParsedOf(s.header + "\n" + s.content) == ParsedResume(None, [s])
  {
    ReparseSections(KeptLines(text));
  }
}
