/** The upload checks of the résumé parser (lib/services/resume-parser/helpers.ts
    and its constants). */
module ResumeFiles {
  import opened Wrappers
  import opened Text

  /** The parts of a browser `File` the checks read. */
  datatype ResumeFile = ResumeFile(name: string, mimeType: string, size: nat)

  const ALLOWED_EXTENSIONS: set<string> := {"pdf", "docx"}

  const ALLOWED_TYPES: set<string> := {
    "application/pdf",
    "application/vnd.openxmlformats-officedocument.wordprocessingml.document"
  }

  const BYTES_PER_MB: nat := 1024 * 1024

  const MAX_FILE_SIZE_BYTES: nat := 5 * 1024 * 1024

  const EXTENSION_ERROR := "Only .pdf or .docx files are supported."

  const TYPE_ERROR := "Unsupported file type provided."

  /** `getPrettyFileSize` for a whole number of mebibytes: the count followed by "MB". */
  function PrettyFileSize(bytes: nat): (r: string)
    requires bytes % BYTES_PER_MB == 0
    ensures |r| >= 3 && r[|r| - 2..] == "MB"
    ensures var digits := r[..|r| - 2];
      (forall i :: 0 <= i < |digits| ==> '0' <= digits[i] <= '9') && DigitsValue(digits) == bytes / BYTES_PER_MB
      && (|digits| > 1 ==> digits[0] != '0')
  {
    var digits := NatToString(bytes / BYTES_PER_MB);
    NatToStringRoundTrip(bytes / BYTES_PER_MB);
    assert (digits + "MB")[..|digits|] == digits;
    digits + "MB"
  }

  function SizeError(): string {
    "File must be " + PrettyFileSize(MAX_FILE_SIZE_BYTES) + " or smaller."
  }

  /** The size message names the limit as "5MB". */
  lemma SizeErrorText()
    ensures SizeError() == "File must be 5MB or smaller."
  {
    assert MAX_FILE_SIZE_BYTES / BYTES_PER_MB == 5;
    assert NatToString(5) == "5";
  }

  /** The last element of `name.split(".")`. */
  function LastSegment(name: string): string {
    var parts := Split(name, '.');
    parts[|parts| - 1]
  }

  /** `name.split(".").pop()?.toLowerCase()` */
  function Extension(name: string): string {
    ToLower(LastSegment(name))
  }

  /** `validateResumeFile`: the first failing check's message, or none. */
  function ValidateResumeFile(file: ResumeFile): Option<string>
  {
    var extension := Extension(file.name);
    if extension == [] || extension !in ALLOWED_EXTENSIONS then Some(EXTENSION_ERROR)
    else if file.mimeType !in ALLOWED_TYPES then Some(TYPE_ERROR)
    else if file.size > MAX_FILE_SIZE_BYTES then Some(SizeError())
    else None
  }

  /** The three checks run in order, extension, then media type, then size,
      and the first one that fails decides the message. */
  lemma ValidationOrder(file: ResumeFile)
    ensures var extOk := Extension(file.name) in ALLOWED_EXTENSIONS;
      var typeOk := file.mimeType in ALLOWED_TYPES;
      var sizeOk := file.size <= 5242880;
      && (ValidateResumeFile(file) == Some("Only .pdf or .docx files are supported.") <==> !extOk)
      && (ValidateResumeFile(file) == Some("Unsupported file type provided.") <==> extOk && !typeOk)
      && (ValidateResumeFile(file) == Some("File must be 5MB or smaller.") <==> extOk && typeOk && !sizeOk)
      && (ValidateResumeFile(file) == None <==> extOk && typeOk && sizeOk)
  {
    SizeErrorText();
  }

  /** Exactly 5 MiB is accepted; one byte more is refused. */
  lemma SizeBoundary(name: string, mimeType: string)
    requires Extension(name) in ALLOWED_EXTENSIONS && mimeType in ALLOWED_TYPES
    ensures ValidateResumeFile(ResumeFile(name, mimeType, 5242880)) == None
    ensures ValidateResumeFile(ResumeFile(name, mimeType, 5242881)) == Some("File must be 5MB or smaller.")
  {
    SizeErrorText();
  }

  /** The extension is the text after the last ".", so it holds no "." and ends
      the name; when the name has a "." it is preceded by one. */
  lemma {:induction false} LastSegmentIsAfterLastDot(name: string)
    ensures var seg := LastSegment(name);
      && '.' !in seg
      && |seg| <= |name| && seg == name[|name| - |seg|..]
      && (|seg| < |name| ==> name[|name| - |seg| - 1] == '.')
  {
    var parts := Split(name, '.');
    JoinSplit(name, '.');
    JoinLast(parts, '.');
  }

  lemma {:induction false} JoinLast(parts: seq<string>, sep: char)
    requires |parts| >= 1
    ensures var last := parts[|parts| - 1];
      var whole := Join(parts, sep);
      |last| <= |whole| && whole[|whole| - |last|..] == last
      && (|parts| >= 2 ==> |last| < |whole| && whole[|whole| - |last| - 1] == sep)
  {
    if |parts| >= 2 {
      JoinLast(parts[1..], sep);
      var rest := Join(parts[1..], sep);
      var whole := Join(parts, sep);
      assert whole == parts[0] + [sep] + rest;
      var last := parts[|parts| - 1];
      assert last == parts[1..][|parts[1..]| - 1];
      if |parts| == 2 {
        assert rest == last;
      }
      assert whole[|whole| - |rest|..] == rest;
    }
  }

  /** A name without any "." is its own extension: a file named just "PDF" with the
      PDF media type passes every check. */
  lemma DotlessNameIsItsOwnExtension(file: ResumeFile)
    requires '.' !in file.name
    ensures Extension(file.name) == ToLower(file.name)
    ensures ValidateResumeFile(file) == None <==>
      ToLower(file.name) in ALLOWED_EXTENSIONS && file.mimeType in ALLOWED_TYPES && file.size <= MAX_FILE_SIZE_BYTES
  {
    SplitNoSeparator(file.name, '.');
  }

  /** The extension of "stem.ext" is the lower-cased `ext`, whatever dots the stem holds,
      so an upper-case extension such as "resume.PDF" is accepted like a lower-case one. */
  lemma UpperCaseExtension(stem: string, ext: string, mimeType: string, size: nat)
    requires '.' !in ext
    ensures Extension(stem + "." + ext) == ToLower(ext)
    ensures ValidateResumeFile(ResumeFile(stem + "." + ext, mimeType, size)) == None <==>
      ToLower(ext) in ALLOWED_EXTENSIONS && mimeType in ALLOWED_TYPES && size <= MAX_FILE_SIZE_BYTES
  {
    LastSegmentOfDotted(stem, ext);
  }

  lemma LastSegmentOfDotted(stem: string, ext: string)
    requires '.' !in ext
    ensures LastSegment(stem + "." + ext) == ext
  {
    var name := stem + "." + ext;
    var seg := LastSegment(name);
    LastSegmentIsAfterLastDot(name);
    var dot := |name| - |ext| - 1;
    assert name[dot] == '.';
    assert name[dot + 1..] == ext;
    assert |seg| == |ext|;
    assert seg == name[dot + 1..];
  }
}
