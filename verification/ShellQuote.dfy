/**
 `shell_quote_path` against a tokenizer for the quoting rules of the POSIX.1-2017
 Shell Command Language: section 2.2.1 (escape character) and section 2.2.2
 (single-quotes), with blanks and newlines separating words.
 */
module ShellQuote {
  import opened Basics

  /** Every quote closes the quoting, is escaped, and opens it again. */
  function Escaped(path: string): string {
    if path == "" then ""
    else (if path[0] == '\'' then "'\\''" else [path[0]]) + Escaped(path[1..])
  }

  function Quote(path: string): string {
    "'" + Escaped(path) + "'"
  }

  // --- the shell ---

  predicate IsSeparator(c: char) { c == ' ' || c == '\t' || c == '\n' }

  /** Characters that mean something else unquoted: operators, expansions, patterns, double-quotes, comments. */
  predicate IsSpecial(c: char) {
    c in "|&;<>()$`\"*?[#~=%!{}"
  }

  /** `word` is the word being read, if one has begun. */
  function Finish(word: Option<string>): seq<string> {
    if word.Some? then [word.value] else []
  }

  function Extend(word: Option<string>, c: char): Option<string> {
    Some((if word.Some? then word.value else "") + [c])
  }

  function Begin(word: Option<string>): Option<string> {
    if word.Some? then word else Some("")
  }

  /**
   The words of a command line, or nothing when a quotation is not closed or an
   unquoted character has a meaning these two sections do not give.
   */
  function Words(line: string, word: Option<string>): Option<seq<string>>
    decreases |line|, 1
  {
    if line == "" then Some(Finish(word))
    else if line[0] == '\'' then Quoted(line[1..], Begin(word))
    else if line[0] == '\\' then
      if |line| == 1 then None
      else if line[1] == '\n' then Words(line[2..], word)   // line continuation
      else Words(line[2..], Extend(word, line[1]))
    else if IsSeparator(line[0]) then
      var rest := Words(line[1..], None);
      if rest.None? then None else Some(Finish(word) + rest.value)
    else if IsSpecial(line[0]) then None
    else Words(line[1..], Extend(word, line[0]))
  }

  /** Inside single-quotes every character stands for itself up to the closing quote. */
  function Quoted(line: string, word: Option<string>): Option<seq<string>>
    decreases |line|, 0
  {
    if line == "" then None
    else if line[0] == '\'' then Words(line[1..], word)
    else Quoted(line[1..], Extend(word, line[0]))
  }

  // --- quoting preserves the path ---

  /** The four characters written for a quote read back as one quote, still inside single-quotes. */
  lemma QuoteReadsBack(word: string, more: string)
    ensures Quoted("'\\''" + more, Some(word)) == Quoted(more, Some(word + ['\'']))
  {
    var line := "'\\''" + more;
    var second := line[1..];
    var last := "'" + more;
    assert second[0] == '\\' && second[1] == '\'' && second[2..] == last;
    assert last[1..] == more;
    assert Words(second, Some(word)) == Words(last, Some(word + ['\'']));
  }

  lemma {:induction false} QuotedReads(path: string, word: string, rest: string)
    ensures Quoted(Escaped(path) + "'" + rest, Some(word)) == Words(rest, Some(word + path))
    decreases |path|
  {
    var tail := "'" + rest;
    assert Escaped(path) + "'" + rest == Escaped(path) + tail;
    if path == "" {
      assert Escaped(path) + tail == tail && tail[1..] == rest && word + path == word;
    } else {
      var more := Escaped(path[1..]) + "'" + rest;
      QuotedReads(path[1..], word + [path[0]], rest);
      assert word + [path[0]] + path[1..] == word + path;
      if path[0] == '\'' {
        QuoteReadsBack(word, more);
        assert Escaped(path) + "'" + rest == "'\\''" + more;
      } else {
        assert Escaped(path) + "'" + rest == [path[0]] + more;
        assert ([path[0]] + more)[1..] == more;
      }
    }
  }

  /** The quoted path is one word, the path itself, whatever characters it holds. */
  lemma QuotingIsOneWord(path: string)
    ensures Words(Quote(path), None) == Some([path])
  {
    QuotedReads(path, "", "");
    assert Quote(path)[1..] == Escaped(path) + "'" + "";
    assert "" + path == path;
  }

  /** In front of further arguments it is still exactly one word, and they are read as they would be alone. */
  lemma QuotingComposes(path: string, separator: char, rest: string)
    requires IsSeparator(separator) && Words(rest, None).Some?
    ensures Words(Quote(path) + [separator] + rest, None) == Some([path] + Words(rest, None).value)
  {
    var tail := [separator] + rest;
    QuotedReads(path, "", tail);
    assert (Quote(path) + [separator] + rest)[1..] == Escaped(path) + "'" + tail;
    assert "" + path == path && tail[1..] == rest;
  }

  /** Different paths never quote to the same text. */
  lemma QuotingIsInjective(p: string, q: string)
    requires Quote(p) == Quote(q)
    ensures p == q
  {
    QuotingIsOneWord(p);
    QuotingIsOneWord(q);
    assert Words(Quote(p), None).value[0] == p && Words(Quote(q), None).value[0] == q;
  }
}
