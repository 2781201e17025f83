/** Overwriting restores of the generated start scripts. They go through a
    temporary file, since the restore command removes its output before it knows
    whether there is a backup. */
module StagedRestore {
  import opened Wrappers
  import opened ShellQuote
  import Text

  // -------------------------------------------------------------------- text

  function MakeCommand(template: string): string {
    "mktemp " + Quoted(template)
  }

  function RestoreCommand(flags: seq<string>, configFile: string, dbPath: string): string {
    LineTo(flags, configFile, "-o " + VARIABLE + " " + Quoted(dbPath))
  }

  function MoveCommand(dbPath: string): string {
    "  mv " + VARIABLE + " " + Quoted(dbPath) + "\n"
  }

  function RemoveCommand(dbPath: string): string {
    "  rm -f " + Quoted(dbPath + "-wal") + " " + Quoted(dbPath + "-shm") + " " + Quoted(dbPath + "-journal") + "\n"
  }

  function StagedText(flags: seq<string>, configFile: string, dbPath: string, template: string): string {
    "restore_tmp=$(" + MakeCommand(template) + ")\n" +
    "trap 'rm -f \"$restore_tmp\"' EXIT HUP INT TERM\n" +
    RestoreCommand(flags, configFile, dbPath) +
    "if [ -s \"$restore_tmp\" ]; then\n" +
    MoveCommand(dbPath) +
    RemoveCommand(dbPath) +
    "fi\n"
  }

  lemma SidecarsUnsafe(dbPath: string, suffix: string)
    requires !Unsafe(suffix)
    ensures Unsafe(dbPath + suffix) <==> Unsafe(dbPath)
  {
  }

  /** Refused exactly when something that is quoted holds a NUL or a newline. */
  method StagedRestoreLine(flags: seq<string>, configFile: string, dbPath: string, template: string)
    returns (r: Option<string>)
    ensures r.None? <==> (exists i :: 0 <= i < |flags| && Unsafe(flags[i]))
                         || Unsafe(configFile) || Unsafe(dbPath) || Unsafe(template)
    ensures r.Some? ==> r.value == StagedText(flags, configFile, dbPath, template)
  {
    var quotedFlags := QuoteFlags(flags);
    if quotedFlags.None? {
      return None;
    }
    var config, path, make := Quote(configFile), Quote(dbPath), Quote(template);
    if config.None? || path.None? || make.None? {
      return None;
    }
    SidecarsUnsafe(dbPath, "-wal");
    SidecarsUnsafe(dbPath, "-shm");
    SidecarsUnsafe(dbPath, "-journal");
    var wal, shm, journal := Quote(dbPath + "-wal"), Quote(dbPath + "-shm"), Quote(dbPath + "-journal");
    if wal.None? || shm.None? || journal.None? {
      return None;
    }
    var restore := "litestream restore " + Text.Join(quotedFlags.value, " ") + " \\\n  -config " + config.value + " " +
      ("-o " + VARIABLE + " " + path.value) + "\n";
    var move := "  mv " + VARIABLE + " " + path.value + "\n";
    var remove := "  rm -f " + wal.value + " " + shm.value + " " + journal.value + "\n";
    r := Some("restore_tmp=$(" + ("mktemp " + make.value) + ")\n" +
      "trap 'rm -f \"$restore_tmp\"' EXIT HUP INT TERM\n" + restore +
      "if [ -s \"$restore_tmp\" ]; then\n" + move + remove + "fi\n");
  }

  // --------------------------------------------------- what the shell reads

  lemma MakeMeans(template: string)
    ensures Argv(MakeCommand(template) + "\n") == Some(["mktemp", template])
  {
    var end := Quoted(template) + "\n";
    assert MakeCommand(template) + "\n" == "mktemp" + " " + end;
    LexWord(None, "mktemp", end, []);
    LexLast(None, template, [] + ["mktemp"]);
    assert [] + ["mktemp"] + [template] == ["mktemp", template];
  }

  lemma {:induction false} LexVariable(temp: string, rest: string, words: seq<string>)
    ensures Lex(Some(temp), VARIABLE + " " + rest, Between, "", words) ==
      Lex(Some(temp), rest, Between, "", words + [temp])
  {
    var s := VARIABLE + " " + rest;
    assert s[0] == '"' && AtVariable(s) && s[|VARIABLE|..] == " " + rest;
    assert "" + temp == temp;
    LexBlank(Some(temp), rest, Unquoted, temp, words);
  }

  /** The variable, then one quoted argument. */
  lemma {:induction false} LexMoved(temp: string, dbPath: string, words: seq<string>)
    ensures Lex(Some(temp), VARIABLE + " " + (Quoted(dbPath) + "\n"), Between, "", words) ==
      Some(words + [temp, dbPath])
  {
    LexVariable(temp, Quoted(dbPath) + "\n", words);
    LexLast(Some(temp), dbPath, words + [temp]);
    assert words + [temp] + [dbPath] == words + [temp, dbPath];
  }

  lemma TargetReads(temp: string, dbPath: string)
    ensures Reads(Some(temp), "-o " + VARIABLE + " " + Quoted(dbPath), ["-o", temp, dbPath])
  {
    var end := VARIABLE + " " + (Quoted(dbPath) + "\n");
    assert "-o " + VARIABLE + " " + Quoted(dbPath) + "\n" == "-o" + " " + end;
    forall words ensures Lex(Some(temp), "-o" + " " + end, Between, "", words) == Some(words + ["-o", temp, dbPath]) {
      LexWord(Some(temp), "-o", end, words);
      LexMoved(temp, dbPath, words + ["-o"]);
      assert words + ["-o"] + [temp, dbPath] == words + ["-o", temp, dbPath];
    }
  }

  lemma RestoreMeans(temp: string, flags: seq<string>, configFile: string, dbPath: string)
    ensures ArgvWith(temp, RestoreCommand(flags, configFile, dbPath)) ==
      Some(["litestream", "restore"] + flags + ["-config", configFile] + ["-o", temp, dbPath])
  {
    TargetReads(temp, dbPath);
    LineToMeans(Some(temp), flags, configFile, "-o " + VARIABLE + " " + Quoted(dbPath), ["-o", temp, dbPath]);
  }

  /** The indentation of a command disappears. */
  lemma {:induction false} LexIndented(temp: Option<string>, w: string, rest: string, words: seq<string>)
    requires w != [] && forall i :: 0 <= i < |w| ==> IsPlain(w[i])
    ensures Lex(temp, "  " + (w + " " + rest), Between, "", words) == Lex(temp, rest, Between, "", words + [w])
  {
    assert "  " + (w + " " + rest) == " " + (" " + (w + " " + rest));
    LexBlank(temp, " " + (w + " " + rest), Between, "", words);
    LexBlank(temp, w + " " + rest, Between, "", words);
    LexWord(temp, w, rest, words);
  }

  lemma MoveMeans(temp: string, dbPath: string)
    ensures ArgvWith(temp, MoveCommand(dbPath)) == Some(["mv", temp, dbPath])
  {
    var end := VARIABLE + " " + (Quoted(dbPath) + "\n");
    assert MoveCommand(dbPath) == "  " + ("mv" + " " + end);
    LexIndented(Some(temp), "mv", end, []);
    LexMoved(temp, dbPath, [] + ["mv"]);
    assert [] + ["mv"] + [temp, dbPath] == ["mv", temp, dbPath];
  }

  lemma {:induction false} LexThree(temp: Option<string>, a: string, b: string, c: string, words: seq<string>)
    ensures Lex(temp, Quoted(a) + " " + (Quoted(b) + " " + (Quoted(c) + "\n")), Between, "", words) ==
      Some(words + [a, b, c])
  {
    LexArgument(temp, a, Quoted(b) + " " + (Quoted(c) + "\n"), words);
    LexArgument(temp, b, Quoted(c) + "\n", words + [a]);
    LexLast(temp, c, words + [a] + [b]);
    assert words + [a] + [b] + [c] == words + [a, b, c];
  }

  lemma RemoveMeans(temp: string, dbPath: string)
    ensures ArgvWith(temp, RemoveCommand(dbPath)) ==
      Some(["rm", "-f", dbPath + "-wal", dbPath + "-shm", dbPath + "-journal"])
  {
    var a, b, c := dbPath + "-wal", dbPath + "-shm", dbPath + "-journal";
    var end := Quoted(a) + " " + (Quoted(b) + " " + (Quoted(c) + "\n"));
    assert RemoveCommand(dbPath) == "  " + ("rm" + " " + ("-f" + " " + end));
    LexIndented(Some(temp), "rm", "-f" + " " + end, []);
    LexWord(Some(temp), "-f", end, [] + ["rm"]);
    LexThree(Some(temp), a, b, c, [] + ["rm"] + ["-f"]);
    assert [] + ["rm"] + ["-f"] + [a, b, c] == ["rm", "-f", a, b, c];
  }

  // ----------------------------------------------------------- what it does

  type Files = map<string, string>

  /** How a restore command ends, and what it leaves of its output file. */
  datatype Restoration = Restoration(ok: bool, output: Option<string>)

  function Leave(files: Files, path: string, content: Option<string>): Files {
    if content.Some? then files[path := content.value] else files - {path}
  }

  /** `mv` and `rm -f`. */
  function Execute(argv: seq<string>, files: Files): Option<Files> {
    if |argv| == 3 && argv[0] == "mv" && argv[1] in files then
      Some((files - {argv[1]})[argv[2] := files[argv[1]]])
    else if |argv| >= 2 && argv[0] == "rm" && argv[1] == "-f" then
      Some(files - (set i | 2 <= i < |argv| :: argv[i]))
    else None
  }

  function ExecuteLine(temp: string, line: string, files: Option<Files>): Option<Files> {
    var argv := ArgvWith(temp, line);
    if files.None? || argv.None? then None else Execute(argv.value, files.value)
  }

  /** The output of a restore: what follows `-o`, before the database. */
  function Output(argv: seq<string>): Option<string> {
    if |argv| >= 3 && argv[|argv| - 3] == "-o" then Some(argv[|argv| - 2]) else None
  }

  /** The commands of the text in a shell that stops at the first failure: `mktemp`
      makes the empty file `temp`; the trap removes it whenever the shell ends. */
  function RunStaged(flags: seq<string>, configFile: string, dbPath: string, temp: string, files: Files,
                     r: Restoration): Option<Files> {
    var argv := ArgvWith(temp, RestoreCommand(flags, configFile, dbPath));
    if argv.None? || Output(argv.value).None? then None
    else
      var restored := Leave(files[temp := ""], Output(argv.value).value, r.output);
      if r.ok && temp in restored && restored[temp] != "" then
        var moved := ExecuteLine(temp, MoveCommand(dbPath), Some(restored));
        var removed := ExecuteLine(temp, RemoveCommand(dbPath), moved);
        if removed.None? then None else Some(removed.value - {temp})
      else Some(restored - {temp})
  }

  function Sidecars(dbPath: string): set<string> {
    {dbPath + "-wal", dbPath + "-shm", dbPath + "-journal"}
  }

  lemma RestoredFiles(dbPath: string, temp: string, files: Files, content: string)
    requires temp !in files && temp != dbPath
    ensures ExecuteLine(temp, RemoveCommand(dbPath),
                        ExecuteLine(temp, MoveCommand(dbPath), Some(files[temp := content]))) ==
      Some(files[dbPath := content] - Sidecars(dbPath))
  {
    MoveMeans(temp, dbPath);
    RemoveMeans(temp, dbPath);
    var before := files[temp := content];
    assert (before - {temp})[dbPath := content] == files[dbPath := content];
    var argv := ["rm", "-f", dbPath + "-wal", dbPath + "-shm", dbPath + "-journal"];
    assert (set i | 2 <= i < |argv| :: argv[i]) == Sidecars(dbPath) by {
      assert argv[2] == dbPath + "-wal" && argv[3] == dbPath + "-shm" && argv[4] == dbPath + "-journal";
    }
  }

  /** Whatever the restore does to its output, the database changes only for a
      restore that succeeded with content, and then entirely: the file is what was
      restored and its sidecars are gone. Nothing temporary stays. */
  lemma StagedRestoreIsSafe(flags: seq<string>, configFile: string, dbPath: string, temp: string, files: Files,
                            r: Restoration)
    requires temp !in files && temp != dbPath
    ensures RunStaged(flags, configFile, dbPath, temp, files, r) ==
      Some(if r.ok && r.output.Some? && r.output.value != ""
           then files[dbPath := r.output.value] - Sidecars(dbPath) else files)
  {
    RestoreMeans(temp, flags, configFile, dbPath);
    var front := ["litestream", "restore"] + flags + ["-config", configFile];
    var argv := front + ["-o", temp, dbPath];
    assert argv[|argv| - 3] == "-o" && argv[|argv| - 2] == temp;
    assert files[temp := ""] - {temp} == files && files - {temp} == files;
    if r.output.Some? {
      var content := r.output.value;
      assert files[temp := ""][temp := content] == files[temp := content];
      assert files[temp := content] - {temp} == files;
      RestoredFiles(dbPath, temp, files, content);
      assert temp !in files[dbPath := content] - Sidecars(dbPath);
      assert (files[dbPath := content] - Sidecars(dbPath)) - {temp} == files[dbPath := content] - Sidecars(dbPath);
    }
  }
}
