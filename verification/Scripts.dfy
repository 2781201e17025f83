/** The start scripts of restore containers, part by part. A part holds the text
    that is printed into it; the fixed words around that are left out. */
module Scripts {
  import opened Wrappers
  import opened Credentials
  import Shell = ShellQuote
  import Staged = StagedRestore

  const CONFIG_MOUNT_DIR := "/etc/litestream"
  const TEMPORARY := ".litestream-restore-XXXXXX"

  datatype Permissions = Permissions(databaseMode: string, directoryMode: string)

  datatype Part =
    | Preflight(config: string, path: string, name: string)  // refuse unless the destination is empty
    | Restore(text: string)
    | Chmod(mode: string, path: string)                      // fail unless the mode can be set

  // ------------------------------------------------------------------ policies

  function OrElse(s: string, default: string): string {
    if s == "" then default else s
  }

  /** The restore flags of a policy, in their fixed order. */
  function Flags(p: Policy): seq<string> {
    (if p.ifDatabaseExists == "overwrite" then ["-force"]
     else if p.ifDatabaseExists == "fail" then []
     else ["-if-db-not-exists"])
    + (if p.ifReplicaMissing != "fail" then ["-if-replica-exists"] else [])
    + ["-integrity-check", OrElse(p.integrityCheck, "quick")]
    + (if p.timestamp != "" then ["-timestamp", p.timestamp] else if p.txID != "" then ["-txid", p.txID] else [])
  }

  const DEFAULT_POLICY := Policy("", "", "", "", "")

  /** The policy a database's script restores by: its own, or the default when the
      destination doubles as the source. */
  function RestorePolicy(d: Database): Policy {
    if d.restore.Some? then d.policy else DEFAULT_POLICY
  }

  /** What is added to a database's name to name its files. */
  lemma SuffixesSafe()
    ensures !Shell.Unsafe(".yml") && !Shell.Unsafe("-source.yml") && !Shell.Unsafe("-destination.yml")
  {
  }

  lemma DefaultFlagsSafe()
    ensures forall i :: 0 <= i < |Flags(DEFAULT_POLICY)| ==> !Shell.Unsafe(Flags(DEFAULT_POLICY)[i])
  {
    assert Flags(DEFAULT_POLICY) == ["-if-db-not-exists", "-if-replica-exists", "-integrity-check", "quick"];
  }

  // --------------------------------------------------------------- file names

  function RestoreFile(d: Database, suffix: string): string {
    "restore-" + d.name + suffix
  }

  function ConfigPath(file: string): string {
    CONFIG_MOUNT_DIR + "/" + file
  }

  function ConfigFile(d: Database, suffix: string): string {
    ConfigPath(RestoreFile(d, suffix))
  }

  /** Where an overwriting restore goes first: beside the database, whose directory
      is given as `path.Dir` gives it. */
  function Template(dir: string): string {
    if dir == "." then TEMPORARY else (if dir == "/" then dir else dir + "/") + TEMPORARY
  }

  lemma AroundUnsafe(before: string, s: string, after: string)
    requires !Shell.Unsafe(before) && !Shell.Unsafe(after)
    ensures Shell.Unsafe(before + s + after) <==> Shell.Unsafe(s)
  {
  }

  lemma ConfigFileUnsafe(d: Database, suffix: string)
    requires !Shell.Unsafe(suffix)
    ensures Shell.Unsafe(ConfigFile(d, suffix)) <==> Shell.Unsafe(d.name)
  {
    var prefix := CONFIG_MOUNT_DIR + "/" + "restore-";
    AroundUnsafe(prefix, d.name, suffix);
    assert ConfigFile(d, suffix) == prefix + d.name + suffix;
  }

  lemma TemplateUnsafe(dir: string)
    ensures Shell.Unsafe(Template(dir)) <==> Shell.Unsafe(dir)
  {
    if dir != "." && dir != "/" {
      AroundUnsafe("", dir, "/" + TEMPORARY);
      assert Template(dir) == "" + dir + ("/" + TEMPORARY);
    }
  }

  // ----------------------------------------------------------------- the parts

  function RestoreText(d: Database, p: Policy, suffix: string, dir: string -> string): string {
    if p.ifDatabaseExists == "overwrite"
    then Staged.StagedText(Flags(p), ConfigFile(d, suffix), d.path, Template(dir(d.path)))
    else Shell.Line(Flags(p), ConfigFile(d, suffix), d.path)
  }

  predicate SetsDirectory(d: Database, perms: Permissions, dir: string -> string) {
    perms.directoryMode != "" && dir(d.path) != "/"
  }

  function ChmodParts(d: Database, perms: Permissions, dir: string -> string): seq<Part> {
    (if perms.databaseMode != "" then [Chmod(perms.databaseMode, Shell.Quoted(d.path))] else [])
    + (if SetsDirectory(d, perms, dir)
       then [Chmod("2" + perms.directoryMode[1..], Shell.Quoted(dir(d.path)))] else [])
  }

  function PreflightParts(d: Database): seq<Part> {
    if d.clonePolicy != "require-empty" then []
    else [Preflight(Shell.Quoted(ConfigFile(d, "-destination.yml")), Shell.Quoted(d.path), Shell.Quoted(d.name))]
  }

  /** A clone restores its destination by the default policy and then its source by
      its own; any other database restores once. */
  function Script(d: Database, perms: Permissions, dir: string -> string): seq<Part> {
    (if d.clone
     then PreflightParts(d) + [Restore(RestoreText(d, DEFAULT_POLICY, "-destination.yml", dir)),
                               Restore(RestoreText(d, RestorePolicy(d), "-source.yml", dir))]
     else [Restore(RestoreText(d, RestorePolicy(d), ".yml", dir))])
    + ChmodParts(d, perms, dir)
  }

  /** Every argument can be quoted. */
  predicate Quotable(d: Database, flags: seq<string>) {
    !Shell.Unsafe(d.name) && !Shell.Unsafe(d.path) && forall i :: 0 <= i < |flags| ==> !Shell.Unsafe(flags[i])
  }

  /** So can everything the script quotes: the directory too, if it is needed. */
  predicate Scriptable(d: Database, perms: Permissions, dir: string -> string) {
    && Quotable(d, Flags(RestorePolicy(d)))
    && (RestorePolicy(d).ifDatabaseExists == "overwrite" || SetsDirectory(d, perms, dir) ==>
          !Shell.Unsafe(dir(d.path)))
  }

  predicate AllScriptable(ds: seq<Database>, perms: Permissions, dir: string -> string) {
    ds == [] || (AllScriptable(ds[..|ds| - 1], perms, dir) && Scriptable(ds[|ds| - 1], perms, dir))
  }

  lemma {:induction false} AllScriptableMeans(ds: seq<Database>, perms: Permissions, dir: string -> string)
    ensures AllScriptable(ds, perms, dir) <==> forall i :: 0 <= i < |ds| ==> Scriptable(ds[i], perms, dir)
  {
    if ds != [] {
      var n := |ds| - 1;
      AllScriptableMeans(ds[..n], perms, dir);
      if AllScriptable(ds, perms, dir) {
        forall i | 0 <= i < |ds| ensures Scriptable(ds[i], perms, dir) {
          if i < n { assert ds[i] == ds[..n][i]; }
        }
      } else if forall i :: 0 <= i < |ds| ==> Scriptable(ds[i], perms, dir) {
        forall i | 0 <= i < n ensures Scriptable(ds[..n][i], perms, dir) {
          assert ds[..n][i] == ds[i];
        }
      }
    }
  }

  // ---------------------------------------------------------------- building

  /** buildRestoreLine. The shell reads the flags of the policy, the configuration
      file and the database; an overwriting restore also gets an output file. */
  method BuildRestoreLine(d: Database, p: Policy, suffix: string, dir: string -> string) returns (r: Option<string>)
    requires !Shell.Unsafe(suffix)
    ensures r.Some? <==>
      Quotable(d, Flags(p)) && (p.ifDatabaseExists == "overwrite" ==> !Shell.Unsafe(dir(d.path)))
    ensures r.Some? ==> r.value == RestoreText(d, p, suffix, dir)
    ensures p.ifDatabaseExists != "overwrite" && r.Some? ==>
      Shell.Argv(r.value) == Some(["litestream", "restore"] + Flags(p) + ["-config", ConfigFile(d, suffix), d.path])
  {
    ConfigFileUnsafe(d, suffix);
    if p.ifDatabaseExists == "overwrite" {
      TemplateUnsafe(dir(d.path));
      r := Staged.StagedRestoreLine(Flags(p), ConfigFile(d, suffix), d.path, Template(dir(d.path)));
      return;
    }
    r := Shell.RestoreLine(Flags(p), ConfigFile(d, suffix), d.path);
  }

  /** chmodLines. */
  method ChmodLines(d: Database, perms: Permissions, dir: string -> string) returns (r: Option<seq<Part>>)
    ensures r.None? <==>
      || ((perms.databaseMode != "" || perms.directoryMode != "") && Shell.Unsafe(d.path))
      || (SetsDirectory(d, perms, dir) && Shell.Unsafe(dir(d.path)))
    ensures r.Some? ==> r.value == ChmodParts(d, perms, dir)
  {
    if perms.databaseMode == "" && perms.directoryMode == "" {
      return Some([]);
    }
    var dbPath := Shell.Quote(d.path);
    if dbPath.None? {
      return None;
    }
    var parts: seq<Part> := [];
    if perms.databaseMode != "" {
      parts := [Chmod(perms.databaseMode, dbPath.value)];
    }
    if dir(d.path) == "/" {
      return Some(parts);
    }
    if perms.directoryMode == "" {
      return Some(parts);
    }
    var directory := Shell.Quote(dir(d.path));
    if directory.None? {
      return None;
    }
    return Some(parts + [Chmod("2" + perms.directoryMode[1..], directory.value)]);
  }

  method BuildSingleRestoreScript(d: Database, perms: Permissions, dir: string -> string)
    returns (r: Option<seq<Part>>)
    requires !d.clone
    ensures r.Some? <==> Scriptable(d, perms, dir)
    ensures r.Some? ==> r.value == Script(d, perms, dir)
  {
    var chmod := ChmodLines(d, perms, dir);
    if chmod.None? {
      return None;
    }
    SuffixesSafe();
    var restore := BuildRestoreLine(d, RestorePolicy(d), ".yml", dir);
    if restore.None? {
      return None;
    }
    return Some([Restore(restore.value)] + chmod.value);
  }

  method BuildPreflight(d: Database) returns (r: Option<seq<Part>>)
    ensures r.Some? ==> r.value == PreflightParts(d) && !Shell.Unsafe(d.name) && !Shell.Unsafe(d.path)
    ensures r.None? ==> Shell.Unsafe(d.name) || Shell.Unsafe(d.path)
  {
    SuffixesSafe();
    ConfigFileUnsafe(d, "-destination.yml");
    var destCfg, dbPath, name :=
      Shell.Quote(ConfigFile(d, "-destination.yml")), Shell.Quote(d.path), Shell.Quote(d.name);
    if destCfg.None? || dbPath.None? || name.None? {
      return None;
    }
    if d.clonePolicy != "require-empty" {
      return Some([]);
    }
    return Some([Preflight(destCfg.value, dbPath.value, name.value)]);
  }

  /** The two restores of a clone: destination, then source. */
  method BuildCloneLines(d: Database, dir: string -> string) returns (r: Option<(string, string)>)
    requires d.clone && d.restore.Some?
    ensures r.Some? <==>
      && Quotable(d, Flags(RestorePolicy(d)))
      && (RestorePolicy(d).ifDatabaseExists == "overwrite" ==> !Shell.Unsafe(dir(d.path)))
    ensures r.Some? ==>
      && r.value.0 == RestoreText(d, DEFAULT_POLICY, "-destination.yml", dir)
      && r.value.1 == RestoreText(d, RestorePolicy(d), "-source.yml", dir)
  {
    DefaultFlagsSafe();
    SuffixesSafe();
    var destination := BuildRestoreLine(d, DEFAULT_POLICY, "-destination.yml", dir);
    if destination.None? {
      return None;
    }
    var source := BuildRestoreLine(d, RestorePolicy(d), "-source.yml", dir);
    if source.None? {
      return None;
    }
    return Some((destination.value, source.value));
  }

  method BuildCloneScript(d: Database, perms: Permissions, dir: string -> string) returns (r: Option<seq<Part>>)
    requires d.clone && d.restore.Some?
    ensures r.Some? <==> Scriptable(d, perms, dir)
    ensures r.Some? ==> r.value == Script(d, perms, dir)
  {
    var preflight := BuildPreflight(d);
    if preflight.None? {
      return None;
    }
    var chmod := ChmodLines(d, perms, dir);
    if chmod.None? {
      return None;
    }
    var lines := BuildCloneLines(d, dir);
    if lines.None? {
      return None;
    }
    return Some(preflight.value + [Restore(lines.value.0), Restore(lines.value.1)] + chmod.value);
  }

  method BuildScript(d: Database, perms: Permissions, dir: string -> string) returns (r: Option<seq<Part>>)
    requires d.clone ==> d.restore.Some?
    ensures r.Some? <==> Scriptable(d, perms, dir)
    ensures r.Some? ==> r.value == Script(d, perms, dir)
  {
    if d.clone {
      r := BuildCloneScript(d, perms, dir);
    } else {
      r := BuildSingleRestoreScript(d, perms, dir);
    }
  }

  /** The modes that the resource admits: an octal number of four digits. */
  predicate IsMode(mode: string) {
    mode != [] && forall i :: 0 <= i < |mode| ==> '0' <= mode[i] <= '7'
  }

  lemma ChmodMeans(mode: string, path: string)
    requires IsMode(mode)
    ensures Shell.Argv("chmod " + mode + " " + Shell.Quoted(path) + "\n") == Some(["chmod", mode, path])
  {
    var end := Shell.Quoted(path) + "\n";
    assert "chmod " + mode + " " + Shell.Quoted(path) + "\n" == "chmod" + " " + (mode + " " + end);
    Shell.LexWord(None, "chmod", mode + " " + end, []);
    Shell.LexWord(None, mode, end, [] + ["chmod"]);
    Shell.LexLast(None, path, [] + ["chmod"] + [mode]);
    assert [] + ["chmod"] + [mode] + [path] == ["chmod", mode, path];
  }
}
