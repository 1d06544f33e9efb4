/** Rendering arguments for the remote shell, against the word splitting that
    sections 2.2 and 2.3 of the IEEE Std 1003.1-2017 Shell Command Language define. */
module ShellQuote {
  import opened Wrappers

  // --- the shell -----------------------------------------------------------------------------

  datatype Mode = Unquoted | InSingle | InDouble

  /** What opens an operator, an expansion or a comment, or ends a line: outside the
      simple commands read here. */
  predicate Special(c: char) {
    c in {'|', '&', '<', '>', '(', ')', '$', '`', '\n', '*', '?', '[', '#', '~', '=', '%', '!', '{', '}'}
  }

  function Close(word: Option<string>, words: seq<string>): seq<string> {
    if word.Some? then words + [word.value] else words
  }

  function Extend(word: Option<string>, c: string): Option<string> {
    Some((if word.Some? then word.value else "") + c)
  }

  /** The words of a simple command up to its end or a semicolon. `word` is the word
      being read, if one has begun: quotes begin one even if nothing is in them. None
      where the text uses more of the language. */
  function Words(s: string, mode: Mode, word: Option<string>, words: seq<string>): Option<seq<string>>
    decreases |s|
  {
    match mode
    case InSingle =>
      if s == "" then None
      else if s[0] == '\'' then Words(s[1..], Unquoted, word, words)
      else Words(s[1..], InSingle, Extend(word, [s[0]]), words)
    case InDouble =>
      if s == "" || s[0] == '$' || s[0] == '`' then None
      else if s[0] == '"' then Words(s[1..], Unquoted, word, words)
      else if s[0] == '\\' then
        if |s| == 1 then None
        else if s[1] in {'$', '`', '"', '\\'} then Words(s[2..], InDouble, Extend(word, [s[1]]), words)
        else if s[1] == '\n' then Words(s[2..], InDouble, word, words)
        else Words(s[1..], InDouble, Extend(word, "\\"), words)
      else Words(s[1..], InDouble, Extend(word, [s[0]]), words)
    case Unquoted =>
      if s == "" || s[0] == ';' then Some(Close(word, words))
      else if s[0] == ' ' || s[0] == '\t' then Words(s[1..], Unquoted, None, Close(word, words))
      else if s[0] == '\'' then Words(s[1..], InSingle, Extend(word, ""), words)
      else if s[0] == '"' then Words(s[1..], InDouble, Extend(word, ""), words)
      else if s[0] == '\\' then
        if |s| == 1 || s[1] == '\n' then None else Words(s[2..], Unquoted, Extend(word, [s[1]]), words)
      else if Special(s[0]) then None
      else Words(s[1..], Unquoted, Extend(word, [s[0]]), words)
  }

  // --- that this is the shell's quoting -----------------------------------------------------------

  /** In double quotes the four characters that keep their meaning there need a backslash. */
  function InDoubleQuotes(v: string): string {
    if v == "" then ""
    else (if v[0] in {'$', '`', '"', '\\'} then ['\\', v[0]] else [v[0]]) + InDoubleQuotes(v[1..])
  }

  /** And with those any text reads back from between double quotes. */
  lemma {:induction false} DoubleQuotesReadBack(v: string, rest: string, word: string, words: seq<string>)
    ensures Words(InDoubleQuotes(v) + "\"" + rest, InDouble, Some(word), words)
            == Words(rest, Unquoted, Some(word + v), words)
  {
    var s := InDoubleQuotes(v) + "\"" + rest;
    if v == "" {
      assert s[1..] == rest && word + v == word;
    } else {
      var tail := InDoubleQuotes(v[1..]) + "\"" + rest;
      DoubleQuotesReadBack(v[1..], rest, word + [v[0]], words);
      assert word + [v[0]] + v[1..] == word + v;
      if v[0] in {'$', '`', '"', '\\'} {
        assert s == ['\\', v[0]] + tail;
        assert s[2..] == tail;
      } else {
        assert s == [v[0]] + tail;
        assert s[1..] == tail;
      }
    }
  }

  /** Before any other character a backslash in double quotes stands for itself, and
      before the end of a line both vanish. */
  lemma BackslashInDoubleQuotes(c: char, rest: string, word: string, words: seq<string>)
    ensures c !in {'$', '`', '"', '\\', '\n'} ==>
              Words(['\\', c] + rest, InDouble, Some(word), words)
              == Words(rest, InDouble, Some(word + ['\\'] + [c]), words)
    ensures Words(['\\', '\n'] + rest, InDouble, Some(word), words) == Words(rest, InDouble, Some(word), words)
    ensures Words("\\", InDouble, Some(word), words).None?
    ensures Words(['$'] + rest, InDouble, Some(word), words).None?
    ensures Words(['`'] + rest, InDouble, Some(word), words).None?
  {
    var s := ['\\', c] + rest;
    assert s[1..] == [c] + rest && s[1..][1..] == rest && s[2..] == rest;
    var t := ['\\', '\n'] + rest;
    assert t[2..] == rest;
  }

  /** Outside quotes a backslash takes the meaning from any character of the same line. */
  function Backslashed(v: string): string {
    if v == "" then "" else ['\\', v[0]] + Backslashed(v[1..])
  }

  lemma {:induction false} BackslashesReadBack(v: string, rest: string, word: string, words: seq<string>)
    requires '\n' !in v
    ensures Words(Backslashed(v) + rest, Unquoted, Some(word), words) == Words(rest, Unquoted, Some(word + v), words)
  {
    var s := Backslashed(v) + rest;
    if v == "" {
      assert s == rest && word + v == word;
    } else {
      BackslashesReadBack(v[1..], rest, word + [v[0]], words);
      assert word + [v[0]] + v[1..] == word + v;
      assert s == ['\\', v[0]] + (Backslashed(v[1..]) + rest);
      assert s[2..] == Backslashed(v[1..]) + rest;
    }
  }

  /** Blanks part words, a semicolon ends the command, either quote may begin a word, and
      what is more than a simple command is refused. */
  lemma OutsideQuotes(c: char, rest: string, word: Option<string>, words: seq<string>)
    ensures c in {' ', '\t'} ==>
              Words([c] + rest, Unquoted, word, words)
              == Words(rest, Unquoted, None, words + if word.Some? then [word.value] else [])
    ensures Words([';'] + rest, Unquoted, word, words) == Some(words + if word.Some? then [word.value] else [])
    ensures Words(['"'] + rest, Unquoted, None, words) == Words(rest, InDouble, Some(""), words)
    ensures Words(['\''] + rest, Unquoted, None, words) == Words(rest, InSingle, Some(""), words)
    ensures c in "|&<>()$`\n*?[#~=%!{}" ==> Words([c] + rest, Unquoted, word, words).None?
    ensures Words("\\", Unquoted, word, words).None? && Words("", InSingle, word, words).None?
    ensures c !in "|&<>()$`\n*?[#~=%!{} \t;'\"\\" ==>
              Words([c] + rest, Unquoted, None, words) == Words(rest, Unquoted, Some([c]), words)
  {
    var s := [c] + rest;
    assert s[1..] == rest && ([';'] + rest)[0] == ';' && (['"'] + rest)[1..] == rest && (['\''] + rest)[1..] == rest;
    assert "" + [c] == [c] && "" + "" == "" && words + [] == words;
    SpecialIs(c);
  }

  lemma SpecialIs(c: char)
    ensures Special(c) <==> c in "|&<>()$`\n*?[#~=%!{}"
    ensures c !in "|&<>()$`\n*?[#~=%!{} \t;'\"\\" ==> !Special(c) && c !in {' ', '\t', ';', '\'', '"', '\\'}
  {
    var s := "|&<>()$`\n*?[#~=%!{}";
    assert s[0] == '|' && s[1] == '&' && s[2] == '<' && s[3] == '>' && s[4] == '(' && s[5] == ')' && s[6] == '$';
    assert s[7] == '`' && s[8] == '\n' && s[9] == '*' && s[10] == '?' && s[11] == '[' && s[12] == '#' && s[13] == '~';
    assert s[14] == '=' && s[15] == '%' && s[16] == '!' && s[17] == '{' && s[18] == '}' && |s| == 19;
    var t := "|&<>()$`\n*?[#~=%!{} \t;'\"\\";
    assert t[..19] == s;
    assert t[19] == ' ' && t[20] == '\t' && t[21] == ';' && t[22] == '\'' && t[23] == '"' && t[24] == '\\';
    assert forall i :: 0 <= i < 19 ==> t[i] == s[i];
  }

  // --- the renderer ----------------------------------------------------------------------------

  function Escaped(v: string): string {
    if v == "" then ""
    else (if v[0] == '\'' then "'\"'\"'" else [v[0]]) + Escaped(v[1..])
  }

  function Quote(v: string): string { "'" + Escaped(v) + "'" }

  function Rendered(args: seq<string>): string {
    if args == [] then "" else Rendered(args[..|args| - 1]) + " " + Quote(args[|args| - 1])
  }

  /** The argument part of renderRemoteScript. */
  method RenderCommand(path: string, args: seq<string>) returns (command: string)
    ensures command == Quote(path) + Rendered(args)
  {
    command := Quote(path);
    for i := 0 to |args|
      invariant command == Quote(path) + Rendered(args[..i])
    {
      assert args[..i + 1][..i] == args[..i];
      command := command + " ";
      command := command + Quote(args[i]);
    }
    assert args[..|args|] == args;
  }

  // --- reading back ------------------------------------------------------------------------------

  lemma {:induction false} EscapedReadsBack(v: string, rest: string, word: string, words: seq<string>)
    ensures Words(Escaped(v) + rest, InSingle, Some(word), words) == Words(rest, InSingle, Some(word + v), words)
  {
    if v == "" {
      assert Escaped(v) + rest == rest && word + v == word;
    } else {
      var tail := Escaped(v[1..]) + rest;
      EscapedReadsBack(v[1..], rest, word + [v[0]], words);
      assert word + [v[0]] + v[1..] == word + v;
      if v[0] == '\'' {
        QuoteReadsBack(tail, word, words);
        assert Escaped(v) + rest == "'\"'\"'" + tail;
      } else {
        assert Escaped(v) + rest == [v[0]] + tail;
      }
    }
  }

  /** Closing the single quotes, a quote in double quotes, and opening them again adds
      that one character to the word. */
  lemma QuoteReadsBack(tail: string, word: string, words: seq<string>)
    ensures Words("'\"'\"'" + tail, InSingle, Some(word), words) == Words(tail, InSingle, Some(word + "'"), words)
  {
    var s0, s1, s2, s3, s4 := "'\"'\"'" + tail, "\"'\"'" + tail, "'\"'" + tail, "\"'" + tail, "'" + tail;
    assert s0[1..] == s1 && s1[1..] == s2 && s2[1..] == s3 && s3[1..] == s4 && s4[1..] == tail;
    assert word + "" == word && word + ['\''] == word + "'" && word + "'" + "" == word + "'";
    assert Words(s0, InSingle, Some(word), words) == Words(s1, Unquoted, Some(word), words);
    assert Words(s1, Unquoted, Some(word), words) == Words(s2, InDouble, Some(word), words);
    assert Words(s2, InDouble, Some(word), words) == Words(s3, InDouble, Some(word + "'"), words);
    assert Words(s3, InDouble, Some(word + "'"), words) == Words(s4, Unquoted, Some(word + "'"), words);
    assert Words(s4, Unquoted, Some(word + "'"), words) == Words(tail, InSingle, Some(word + "'"), words);
  }

  lemma ArgumentReadsBack(v: string, rest: string, word: Option<string>, words: seq<string>)
    requires word.None?
    ensures Words(Quote(v) + rest, Unquoted, word, words) == Words(rest, Unquoted, Some(v), words)
  {
    var s, closing := Quote(v) + rest, "'" + rest;
    assert s[1..] == Escaped(v) + closing && closing[1..] == rest && "" + v == v && "" + "" == "";
    assert Words(s, Unquoted, word, words) == Words(Escaped(v) + closing, InSingle, Some(""), words);
    EscapedReadsBack(v, closing, "", words);
    assert Words(closing, InSingle, Some(v), words) == Words(rest, Unquoted, Some(v), words);
  }

  lemma LastWord(first: string, args: seq<string>)
    requires args != []
    ensures var words, front := [first] + args, [first] + args[..|args| - 1];
            words[|args|] == args[|args| - 1] && words[..|args|] == front[..|args| - 1] + [front[|args| - 1]]
  {
    assert ([first] + args)[..|args|] == [first] + args[..|args| - 1];
  }

  /** Every word read so far is an argument, the last of them still open. */
  lemma {:induction false} ArgumentsReadBack(args: seq<string>, rest: string, first: string)
    ensures Words(Rendered(args) + rest, Unquoted, Some(first), [])
            == Words(rest, Unquoted, Some(([first] + args)[|args|]), ([first] + args)[..|args|])
  {
    if args == [] {
      assert Rendered(args) + rest == rest && ([first] + args)[..0] == [];
    } else {
      var front, last := args[..|args| - 1], args[|args| - 1];
      var tail := " " + Quote(last) + rest;
      assert Rendered(args) + rest == Rendered(front) + tail;
      ArgumentsReadBack(front, tail, first);
      NextArgumentReadsBack(last, rest, ([first] + front)[|front|], ([first] + front)[..|front|]);
      LastWord(first, args);
    }
  }

  lemma NextArgumentReadsBack(v: string, rest: string, open: string, words: seq<string>)
    ensures Words(" " + Quote(v) + rest, Unquoted, Some(open), words) == Words(rest, Unquoted, Some(v), words + [open])
  {
    assert (" " + Quote(v) + rest)[1..] == Quote(v) + rest;
    ArgumentReadsBack(v, rest, None, words + [open]);
  }

  /** Whatever is in the path and the arguments (nothing, blanks, newlines, quotes of
      either kind), the shell reads back exactly them. */
  lemma ShellReadsExactly(path: string, args: seq<string>, rest: string)
    requires rest == "" || rest[0] == ';'
    ensures Words(Quote(path) + Rendered(args) + rest, Unquoted, None, []) == Some([path] + args)
  {
    assert Quote(path) + Rendered(args) + rest == Quote(path) + (Rendered(args) + rest);
    ArgumentReadsBack(path, Rendered(args) + rest, None, []);
    ArgumentsReadBack(args, rest, path);
    assert [path] + args == ([path] + args)[..|args|] + [([path] + args)[|args|]];
  }
}
