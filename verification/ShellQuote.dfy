/** Restore command lines of the generated start scripts, and the shell that
    reads them back. */
module ShellQuote {
  import Text
  import opened Wrappers

  predicate Unsafe(s: string) {
    Text.NUL in s || '\n' in s
  }

  /** Every quote becomes: end quote, escaped quote, begin quote. */
  function Escape(s: string): string {
    if s == [] then []
    else (if s[0] == '\'' then "'\\''" else [s[0]]) + Escape(s[1..])
  }

  function Quoted(s: string): string {
    "'" + Escape(s) + "'"
  }

  function Quote(s: string): Option<string> {
    if Unsafe(s) then None else Some(Quoted(s))
  }

  function QuotedAll(ss: seq<string>): seq<string> {
    seq(|ss|, i requires 0 <= i < |ss| => Quoted(ss[i]))
  }

  method QuoteFlags(flags: seq<string>) returns (r: Option<seq<string>>)
    ensures r.None? <==> exists i :: 0 <= i < |flags| && Unsafe(flags[i])
    ensures r.Some? ==> r.value == QuotedAll(flags)
  {
    var quoted: seq<string> := [];
    for i := 0 to |flags|
      invariant quoted == QuotedAll(flags[..i])
      invariant forall k :: 0 <= k < i ==> !Unsafe(flags[k])
    {
      var q := Quote(flags[i]);
      if q.None? {
        return None;
      }
      quoted := quoted + [q.value];
    }
    assert flags[..|flags|] == flags;
    return Some(quoted);
  }

  /** The restore command up to what it restores to, which is given as it is printed. */
  function LineTo(flags: seq<string>, configFile: string, target: string): string {
    "litestream restore " + Text.Join(QuotedAll(flags), " ") + " \\\n  -config " + Quoted(configFile) + " " + target
      + "\n"
  }

  function Line(flags: seq<string>, configFile: string, dbPath: string): string {
    LineTo(flags, configFile, Quoted(dbPath))
  }

  // ------------------------------------------------------------- the shell

  datatype Mode =
    | Between    // outside any word
    | Unquoted   // in a word
    | Single     // in a word, between single quotes

  predicate IsBlank(c: char) {
    c == ' ' || c == '\t'
  }

  /** Characters that stand for themselves outside quotes in every position. */
  predicate IsPlain(c: char) {
    'a' <= c <= 'z' || 'A' <= c <= 'Z' || '0' <= c <= '9' || c == '-' || c == '_' || c == '.' || c == '/'
  }

  const VARIABLE := "\"$restore_tmp\""

  /** The text goes on with the variable in double quotes. */
  predicate AtVariable(s: string) {
    VARIABLE <= s
  }

  function Flush(mode: Mode, word: string, words: seq<string>): seq<string> {
    if mode == Between then words else words + [word]
  }

  /** Words of one simple command, ended by a newline: sections 2.2.1 to 2.2.3 and
      2.3 of the POSIX.1-2017 shell. One variable, in double quotes, stands for
      `temp`: its value is not split. Text that would need anything else of the
      shell, such as other expansions or redirection, is not accepted. */
  function Lex(temp: Option<string>, s: string, mode: Mode, word: string, words: seq<string>): Option<seq<string>>
    decreases |s|
  {
    if s == [] then None
    else if mode == Single then
      if s[0] == '\'' then Lex(temp, s[1..], Unquoted, word, words)
      else Lex(temp, s[1..], Single, word + [s[0]], words)
    else if s[0] == '\\' then
      if |s| == 1 then None
      else if s[1] == '\n' then Lex(temp, s[2..], mode, word, words)
      else Lex(temp, s[2..], Unquoted, word + [s[1]], words)
    else if s[0] == '\'' then Lex(temp, s[1..], Single, word, words)
    else if s[0] == '"' then
      if temp.Some? && AtVariable(s) then Lex(temp, s[|VARIABLE|..], Unquoted, word + temp.value, words) else None
    else if s[0] == '\n' then (if |s| == 1 then Some(Flush(mode, word, words)) else None)
    else if IsBlank(s[0]) then Lex(temp, s[1..], Between, "", Flush(mode, word, words))
    else if IsPlain(s[0]) then Lex(temp, s[1..], Unquoted, word + [s[0]], words)
    else None
  }

  function Argv(line: string): Option<seq<string>> {
    Lex(None, line, Between, "", [])
  }

  /** The words where the variable has a value. */
  function ArgvWith(temp: string, line: string): Option<seq<string>> {
    Lex(Some(temp), line, Between, "", [])
  }

  // ---------------------------------------------------------------- proofs

  lemma {:induction false} LexPlain(temp: Option<string>, w: string, rest: string, mode: Mode, word: string,
                                    words: seq<string>)
    requires mode != Single && w != [] && forall i :: 0 <= i < |w| ==> IsPlain(w[i])
    ensures Lex(temp, w + rest, mode, word, words) == Lex(temp, rest, Unquoted, word + w, words)
    decreases |w|
  {
    assert (w + rest)[1..] == w[1..] + rest;
    if |w| == 1 {
      assert w[1..] + rest == rest && word + w == word + [w[0]];
    } else {
      LexPlain(temp, w[1..], rest, Unquoted, word + [w[0]], words);
      assert word + [w[0]] + w[1..] == word + w;
    }
  }

  /** Quote, backslash, quote, quote between two quoted parts is one quote. */
  lemma {:induction false} LexEscapedQuote(temp: Option<string>, rest: string, word: string, words: seq<string>)
    ensures Lex(temp, "'\\''" + rest, Single, word, words) == Lex(temp, rest, Single, word + "'", words)
  {
    var s := "'\\''" + rest;
    var s1 := "\\''" + rest;
    assert s[1..] == s1 && s1[2..] == "'" + rest && ("'" + rest)[1..] == rest;
    assert Lex(temp, s, Single, word, words) == Lex(temp, s1, Unquoted, word, words);
    assert Lex(temp, s1, Unquoted, word, words) == Lex(temp, "'" + rest, Unquoted, word + "'", words);
  }

  lemma {:induction false} LexEscape(temp: Option<string>, s: string, rest: string, word: string, words: seq<string>)
    ensures Lex(temp, Escape(s) + "'" + rest, Single, word, words) == Lex(temp, rest, Unquoted, word + s, words)
  {
    if s == [] {
      assert Escape(s) + "'" + rest == "'" + rest;
      assert ("'" + rest)[1..] == rest && word + s == word;
    } else {
      var tail := Escape(s[1..]) + "'" + rest;
      LexEscape(temp, s[1..], rest, word + [s[0]], words);
      assert word + [s[0]] + s[1..] == word + s;
      if s[0] == '\'' {
        assert Escape(s) + "'" + rest == "'\\''" + tail;
        LexEscapedQuote(temp, tail, word, words);
      } else {
        assert Escape(s) + "'" + rest == [s[0]] + tail;
        assert ([s[0]] + tail)[1..] == tail;
      }
    }
  }

  lemma {:induction false} LexQuoted(temp: Option<string>, s: string, rest: string, words: seq<string>)
    ensures Lex(temp, Quoted(s) + rest, Between, "", words) == Lex(temp, rest, Unquoted, s, words)
  {
    var inner := Escape(s) + "'" + rest;
    assert Quoted(s) + rest == "'" + inner;
    assert ("'" + inner)[1..] == inner;
    LexEscape(temp, s, rest, "", words);
    assert "" + s == s;
  }

  lemma {:induction false} LexBlank(temp: Option<string>, rest: string, mode: Mode, word: string, words: seq<string>)
    requires mode != Single
    ensures Lex(temp, " " + rest, mode, word, words) == Lex(temp, rest, Between, "", Flush(mode, word, words))
  {
    assert (" " + rest)[1..] == rest;
  }

  lemma {:induction false} LexWord(temp: Option<string>, w: string, rest: string, words: seq<string>)
    requires w != [] && forall i :: 0 <= i < |w| ==> IsPlain(w[i])
    ensures Lex(temp, w + " " + rest, Between, "", words) == Lex(temp, rest, Between, "", words + [w])
  {
    assert w + " " + rest == w + (" " + rest) && "" + w == w;
    LexPlain(temp, w, " " + rest, Between, "", words);
    LexBlank(temp, rest, Unquoted, w, words);
  }

  lemma {:induction false} LexArgument(temp: Option<string>, s: string, rest: string, words: seq<string>)
    ensures Lex(temp, Quoted(s) + " " + rest, Between, "", words) == Lex(temp, rest, Between, "", words + [s])
  {
    assert Quoted(s) + " " + rest == Quoted(s) + (" " + rest);
    LexQuoted(temp, s, " " + rest, words);
    LexBlank(temp, rest, Unquoted, s, words);
  }

  lemma {:induction false} LexFlags(temp: Option<string>, flags: seq<string>, rest: string, words: seq<string>)
    ensures Lex(temp, Text.Join(QuotedAll(flags), " ") + " " + rest, Between, "", words) ==
      Lex(temp, rest, Between, "", words + flags)
    decreases |flags|
  {
    if flags == [] {
      assert Text.Join(QuotedAll(flags), " ") + " " + rest == " " + rest;
      LexBlank(temp, rest, Between, "", words);
      assert words + flags == words;
    } else if |flags| == 1 {
      LexArgument(temp, flags[0], rest, words);
      assert words + flags == words + [flags[0]];
    } else {
      var tail := Text.Join(QuotedAll(flags[1..]), " ") + " " + rest;
      assert QuotedAll(flags)[1..] == QuotedAll(flags[1..]);
      assert Text.Join(QuotedAll(flags), " ") + " " + rest == Quoted(flags[0]) + " " + tail;
      LexArgument(temp, flags[0], tail, words);
      LexFlags(temp, flags[1..], rest, words + [flags[0]]);
      assert words + [flags[0]] + flags[1..] == words + flags;
    }
  }

  /** A backslash and a newline between words disappear. */
  lemma {:induction false} LexContinuation(temp: Option<string>, rest: string, words: seq<string>)
    ensures Lex(temp, "\\\n" + rest, Between, "", words) == Lex(temp, rest, Between, "", words)
  {
    assert ("\\\n" + rest)[2..] == rest;
  }

  /** What comes after the configuration file is read as `args`. */
  ghost predicate Reads(temp: Option<string>, target: string, args: seq<string>) {
    forall words :: Lex(temp, target + "\n", Between, "", words) == Some(words + args)
  }

  lemma {:induction false} LexSecondLine(temp: Option<string>, configFile: string, target: string, args: seq<string>,
                                         words: seq<string>)
    requires Reads(temp, target, args)
    ensures Lex(temp, "  -config " + Quoted(configFile) + " " + target + "\n", Between, "", words)
      == Some(words + ["-config", configFile] + args)
  {
    var end := Quoted(configFile) + " " + (target + "\n");
    var rest := "-config" + " " + end;
    assert "  -config " + Quoted(configFile) + " " + target + "\n" == " " + (" " + rest);
    LexBlank(temp, " " + rest, Between, "", words);
    LexBlank(temp, rest, Between, "", words);
    LexWord(temp, "-config", end, words);
    LexArgument(temp, configFile, target + "\n", words + ["-config"]);
    assert words + ["-config"] + [configFile] == words + ["-config", configFile];
  }

  lemma {:induction false} LexCommand(temp: Option<string>, rest: string)
    ensures Lex(temp, "litestream" + " " + ("restore" + " " + rest), Between, "", []) ==
      Lex(temp, rest, Between, "", ["litestream", "restore"])
  {
    LexWord(temp, "litestream", "restore" + " " + rest, []);
    assert [] + ["litestream"] == ["litestream"];
    LexWord(temp, "restore", rest, ["litestream"]);
    assert ["litestream"] + ["restore"] == ["litestream", "restore"];
  }

  lemma MoveIn(x: string, y: string, q: string, d: string)
    ensures x + y + q + " " + d + "\n" == x + (y + q + " " + d + "\n")
  {
    assert x + y + q == x + (y + q);
    assert x + (y + q) + " " == x + (y + q + " ");
    assert x + (y + q + " ") + d == x + (y + q + " " + d);
  }

  lemma Regroup(command: string, flags: string, continuation: string, second: string)
    ensures command + flags + (" " + continuation + second) == command + (flags + " " + (continuation + second))
  {
  }

  lemma LineRegrouped(joined: string, q: string, d: string, second: string)
    requires second == "  -config " + q + " " + d + "\n"
    ensures "litestream restore " + joined + " \\\n  -config " + q + " " + d + "\n"
      == "litestream" + " " + ("restore" + " " + (joined + " " + ("\\\n" + second)))
  {
    var rest := joined + " " + ("\\\n" + second);
    assert " \\\n  -config " == " " + "\\\n" + "  -config ";
    MoveIn("litestream restore " + joined, " \\\n  -config ", q, d);
    MoveIn(" " + "\\\n", "  -config ", q, d);
    Regroup("litestream restore ", joined, "\\\n", second);
    CommandSplits(rest);
  }

  lemma CommandSplits(rest: string)
    ensures "litestream restore " + rest == "litestream" + " " + ("restore" + " " + rest)
  {
    assert "litestream restore " == "litestream" + " " + ("restore" + " ");
  }

  lemma LineParts(flags: seq<string>, configFile: string, target: string, second: string)
    requires second == "  -config " + Quoted(configFile) + " " + target + "\n"
    ensures LineTo(flags, configFile, target)
      == "litestream" + " " + ("restore" + " " + (Text.Join(QuotedAll(flags), " ") + " " + ("\\\n" + second)))
  {
    LineRegrouped(Text.Join(QuotedAll(flags), " "), Quoted(configFile), target, second);
  }

  lemma {:induction false} LineToMeans(temp: Option<string>, flags: seq<string>, configFile: string, target: string,
                                       args: seq<string>)
    requires Reads(temp, target, args)
    ensures Lex(temp, LineTo(flags, configFile, target), Between, "", []) ==
      Some(["litestream", "restore"] + flags + ["-config", configFile] + args)
  {
    var second := "  -config " + Quoted(configFile) + " " + target + "\n";
    LineParts(flags, configFile, target, second);
    LexCommand(temp, Text.Join(QuotedAll(flags), " ") + " " + ("\\\n" + second));
    LexFlags(temp, flags, "\\\n" + second, ["litestream", "restore"]);
    LexContinuation(temp, second, ["litestream", "restore"] + flags);
    LexSecondLine(temp, configFile, target, args, ["litestream", "restore"] + flags);
  }

  lemma {:induction false} LexLast(temp: Option<string>, s: string, words: seq<string>)
    ensures Lex(temp, Quoted(s) + "\n", Between, "", words) == Some(words + [s])
  {
    LexQuoted(temp, s, "\n", words);
  }

  /** The shell splits the printed line into exactly the intended arguments,
      whatever characters they hold. */
  lemma LineMeansArguments(flags: seq<string>, configFile: string, dbPath: string)
    ensures Argv(Line(flags, configFile, dbPath)) ==
      Some(["litestream", "restore"] + flags + ["-config", configFile, dbPath])
  {
    forall words ensures Lex(None, Quoted(dbPath) + "\n", Between, "", words) == Some(words + [dbPath]) {
      LexLast(None, dbPath, words);
    }
    LineToMeans(None, flags, configFile, Quoted(dbPath), [dbPath]);
    var front := ["litestream", "restore"] + flags;
    assert front + ["-config", configFile] + [dbPath] == front + ["-config", configFile, dbPath];
  }

  /** Refused exactly when some argument holds a NUL or a newline; otherwise the
      shell reads back the arguments. */
  method RestoreLine(flags: seq<string>, configFile: string, dbPath: string) returns (r: Option<string>)
    ensures r.None? <==> (exists i :: 0 <= i < |flags| && Unsafe(flags[i])) || Unsafe(configFile) || Unsafe(dbPath)
    ensures r.Some? ==> Argv(r.value) == Some(["litestream", "restore"] + flags + ["-config", configFile, dbPath])
    ensures r.Some? ==> r.value == Line(flags, configFile, dbPath)
  {
    var quotedFlags := QuoteFlags(flags);
    if quotedFlags.None? {
      return None;
    }
    var quotedConfigFile := Quote(configFile);
    if quotedConfigFile.None? {
      return None;
    }
    var quotedDBPath := Quote(dbPath);
    if quotedDBPath.None? {
      return None;
    }
    LineMeansArguments(flags, configFile, dbPath);
    r := Some("litestream restore " + Text.Join(quotedFlags.value, " ") + " \\\n  -config " + quotedConfigFile.value +
      " " + quotedDBPath.value + "\n");
  }
}
