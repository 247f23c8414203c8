/** JavaScript regular expressions, kept uninterpreted: the model names each
    pattern by its literal text and flags and asks an engine for the answers
    that `RegExp.prototype.test`, `String.prototype.match` and
    `String.prototype.matchAll` would give. */
module Regex {
  import opened Wrappers

  /** A regular-expression literal `/source/flags`. */
  datatype RegExp = RegExp(source: string, flags: string)

  /** What JavaScript's engine answers for a pattern and a text:
      - `test`: `re.test(text)`;
      - `matches`: `text.match(re)`, all matches for a `g` pattern or null;
      - `groupNumbers`: `Array.from(text.matchAll(re)).map((m) => Number(m[1]))`. */
  datatype RegexEngine = RegexEngine(
    test: (RegExp, string) -> bool,
    matches: (RegExp, string) -> Option<seq<string>>,
    groupNumbers: (RegExp, string) -> seq<int>)

  /** `new RegExp(`\\b${word}\\b`, "g")`: the word on its own, everywhere in the text. */
  function WholeWord(word: string): RegExp {
    RegExp("\\b" + word + "\\b", "g")
  }
}
