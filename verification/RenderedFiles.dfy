/** The files of a rendered configuration, keyed by name. */
module RenderedFiles {
  import opened Wrappers
  import opened SecretNames
  import opened Credentials
  import opened Scripts

  const REPLICATE_FILE := "replicate.yml"

  /** What a document says about one database: everything its text depends on. */
  datatype ConfigEntry = ConfigEntry(path: string, database: string, role: Role, replica: Option<Replica>)

  datatype Document = Configuration(entries: seq<ConfigEntry>) | StartScript(parts: seq<Part>)

  type Files = map<string, Document>

  /** Which script a database starts with. */
  type ScriptOf = Database -> seq<Part>

  function EntryOf(d: Database, role: Role): ConfigEntry {
    ConfigEntry(d.path, d.name, role, ReplicaOf(d, role))
  }

  function ConfigOf(d: Database, role: Role): Document {
    Configuration([EntryOf(d, role)])
  }

  /** The files of one database: what its start script reads, and the script. */
  function FilesOf(d: Database, script: seq<Part>): Files {
    (if d.clone
     then map[RestoreFile(d, "-destination.yml") := ConfigOf(d, Destination)][
            RestoreFile(d, "-source.yml") := ConfigOf(d, Source)]
     else map[RestoreFile(d, ".yml") := ConfigOf(d, if d.restore.Some? then Source else Destination)])
    [RestoreFile(d, ".sh") := StartScript(script)]
  }

  /** The databases are rendered in turn into one map. */
  function DatabaseFiles(ds: seq<Database>, scripts: ScriptOf): Files {
    if ds == [] then map[] else DatabaseFiles(ds[..|ds| - 1], scripts) + FilesOf(ds[|ds| - 1], scripts(ds[|ds| - 1]))
  }

  function ReplicateEntries(ds: seq<Database>): seq<ConfigEntry> {
    if ds == [] then []
    else
      var d := ds[|ds| - 1];
      ReplicateEntries(ds[..|ds| - 1]) + (if d.replicate.Some? then [EntryOf(d, Destination)] else [])
  }

  function AllFiles(ds: seq<Database>, scripts: ScriptOf): Files {
    var files := DatabaseFiles(ds, scripts);
    if ReplicateEntries(ds) == [] then files else files[REPLICATE_FILE := Configuration(ReplicateEntries(ds))]
  }

  // ------------------------------------------------------------------- names

  lemma SameSuffix(a: string, b: string, s: string)
    requires "restore-" + a + s == "restore-" + b + s
    ensures a == b
  {
    var x := "restore-" + a + s;
    assert x[8..|x| - |s|] == a;
    assert x[8..|x| - |s|] == b;
  }

  /** The plain file of one name is the file of a role of another. */
  lemma PlainIsRole(a: string, b: string, role: string)
    ensures "restore-" + a + ".yml" == "restore-" + b + (role + ".yml") <==> a == b + role
  {
    assert "restore-" + (b + role) + ".yml" == "restore-" + b + (role + ".yml");
    if "restore-" + a + ".yml" == "restore-" + b + (role + ".yml") {
      SameSuffix(a, b + role, ".yml");
    }
  }

  lemma DifferentEnds(x: string, y: string, s: string, t: string, i: nat)
    requires 0 < i <= |s| && i <= |t| && s[|s| - i] != t[|t| - i]
    ensures "restore-" + x + s != "restore-" + y + t
  {
    var p, q := "restore-" + x + s, "restore-" + y + t;
    assert p[|p| - i] == s[|s| - i] && q[|q| - i] == t[|t| - i];
  }

  /** The file of the plain database `d` is one of the files of the clone `c`. */
  predicate Shadows(c: Database, d: Database) {
    c.clone && !d.clone && (d.name == c.name + "-source" || d.name == c.name + "-destination")
  }

  lemma RoleFiles()
    ensures "-source.yml" == "-source" + ".yml" && "-destination.yml" == "-destination" + ".yml"
  {
  }

  lemma NoScriptIsConfig(d: Database, e: Database)
    ensures RestoreFile(d, ".sh") != RestoreFile(e, ".yml")
    ensures RestoreFile(d, ".sh") != RestoreFile(e, "-source.yml")
    ensures RestoreFile(d, ".sh") != RestoreFile(e, "-destination.yml")
  {
    DifferentEnds(d.name, e.name, ".sh", ".yml", 1);
    DifferentEnds(d.name, e.name, ".sh", "-source.yml", 1);
    DifferentEnds(d.name, e.name, ".sh", "-destination.yml", 1);
  }

  lemma RolesDiffer(d: Database, e: Database)
    ensures RestoreFile(d, "-source.yml") != RestoreFile(e, "-destination.yml")
  {
    assert "-source.yml"[|"-source.yml"| - 5] == 'e' && "-destination.yml"[|"-destination.yml"| - 5] == 'n';
    DifferentEnds(d.name, e.name, "-source.yml", "-destination.yml", 5);
  }

  lemma PlainFiles(c: Database, d: Database)
    ensures RestoreFile(d, ".yml") == RestoreFile(c, "-source.yml") <==> d.name == c.name + "-source"
    ensures RestoreFile(d, ".yml") == RestoreFile(c, "-destination.yml") <==> d.name == c.name + "-destination"
  {
    RoleFiles();
    PlainIsRole(d.name, c.name, "-source");
    PlainIsRole(d.name, c.name, "-destination");
  }

  /** The names of a database's files. */
  predicate Names(d: Database, k: string) {
    || k == RestoreFile(d, ".sh")
    || (!d.clone && k == RestoreFile(d, ".yml"))
    || (d.clone && (k == RestoreFile(d, "-source.yml") || k == RestoreFile(d, "-destination.yml")))
  }

  lemma FilesNamed(d: Database, script: seq<Part>, k: string)
    ensures k in FilesOf(d, script) <==> Names(d, k)
  {
  }

  lemma PlainConfig(d: Database, script: seq<Part>)
    requires !d.clone
    ensures var k := RestoreFile(d, ".yml");
      k in FilesOf(d, script) && FilesOf(d, script)[k] == ConfigOf(d, if d.restore.Some? then Source else Destination)
  {
    NoScriptIsConfig(d, d);
  }

  lemma CloneConfigs(d: Database, script: seq<Part>)
    requires d.clone
    ensures var k := RestoreFile(d, "-source.yml");
      k in FilesOf(d, script) && FilesOf(d, script)[k] == ConfigOf(d, Source)
    ensures var k := RestoreFile(d, "-destination.yml");
      k in FilesOf(d, script) && FilesOf(d, script)[k] == ConfigOf(d, Destination)
  {
    NoScriptIsConfig(d, d);
    RolesDiffer(d, d);
  }

  lemma SharedConfig(c: Database, d: Database, k: string)
    requires c.clone && !d.clone && Names(c, k) && Names(d, k) && c.name != d.name
    ensures Shadows(c, d)
  {
    NoScriptIsConfig(c, d);
    NoScriptIsConfig(d, c);
    PlainFiles(c, d);
    if k == RestoreFile(c, ".sh") == RestoreFile(d, ".sh") {
      SameSuffix(c.name, d.name, ".sh");
    }
  }

  lemma SharedAlike(c: Database, d: Database, k: string)
    requires c.clone == d.clone && Names(c, k) && Names(d, k)
    ensures c.name == d.name
  {
    NoScriptIsConfig(c, d);
    NoScriptIsConfig(d, c);
    RolesDiffer(c, d);
    RolesDiffer(d, c);
    var s := if k == RestoreFile(c, ".sh") then ".sh" else if k == RestoreFile(c, ".yml") && !c.clone then ".yml"
             else if k == RestoreFile(c, "-source.yml") then "-source.yml" else "-destination.yml";
    assert k == RestoreFile(c, s) && k == RestoreFile(d, s);
    SameSuffix(c.name, d.name, s);
  }

  /** Two databases share a file name exactly when one shadows the other. */
  lemma SharedExactly(c: Database, d: Database)
    requires c.name != d.name
    ensures (exists k :: Names(c, k) && Names(d, k)) <==> Shadows(c, d) || Shadows(d, c)
  {
    if k :| Names(c, k) && Names(d, k) {
      if c.clone == d.clone { SharedAlike(c, d, k); }
      else if c.clone { SharedConfig(c, d, k); }
      else { SharedConfig(d, c, k); }
    }
    if Shadows(c, d) {
      PlainFiles(c, d);
      assert Names(c, RestoreFile(d, ".yml")) && Names(d, RestoreFile(d, ".yml"));
    }
    if Shadows(d, c) {
      PlainFiles(d, c);
      assert Names(c, RestoreFile(c, ".yml")) && Names(d, RestoreFile(c, ".yml"));
    }
  }

  lemma ReplicateIsApart(d: Database, k: string)
    requires Names(d, k)
    ensures k != REPLICATE_FILE
  {
    assert k[2] == 's' && REPLICATE_FILE[2] == 'p';
  }

  // ------------------------------------------------------------- own files

  lemma {:induction false} FileAt(ds: seq<Database>, scripts: ScriptOf, i: nat, k: string)
    requires i < |ds| && Names(ds[i], k)
    requires forall j :: 0 <= j < |ds| && Names(ds[j], k) ==> j == i
    ensures k in DatabaseFiles(ds, scripts)
    ensures DatabaseFiles(ds, scripts)[k] == FilesOf(ds[i], scripts(ds[i]))[k]
  {
    var n := |ds| - 1;
    FilesNamed(ds[n], scripts(ds[n]), k);
    if i < n {
      FileAt(ds[..n], scripts, i, k);
    }
  }

  /** Every database finds its own documents and its own script under their names. */
  ghost predicate Kept(ds: seq<Database>, files: Files, scripts: ScriptOf) {
    forall i, k :: 0 <= i < |ds| && k in FilesOf(ds[i], scripts(ds[i])) ==>
      k in files && files[k] == FilesOf(ds[i], scripts(ds[i]))[k]
  }

  ghost predicate NoneShadowed(ds: seq<Database>) {
    forall i, j :: 0 <= i < |ds| && 0 <= j < |ds| ==> !Shadows(ds[i], ds[j])
  }

  lemma Unshared(ds: seq<Database>, i: nat, j: nat, k: string)
    requires forall a, b :: 0 <= a < b < |ds| ==> ds[a].name != ds[b].name
    requires NoneShadowed(ds) && i < |ds| && j < |ds| && Names(ds[i], k) && Names(ds[j], k)
    ensures i == j
  {
    if i != j {
      SharedExactly(ds[i], ds[j]);
    }
  }

  lemma {:induction false} FileKept(ds: seq<Database>, scripts: ScriptOf, i: nat, k: string)
    requires forall a, b :: 0 <= a < b < |ds| ==> ds[a].name != ds[b].name
    requires NoneShadowed(ds) && i < |ds| && Names(ds[i], k)
    ensures k in DatabaseFiles(ds, scripts) && k != REPLICATE_FILE
    ensures k in FilesOf(ds[i], scripts(ds[i]))
    ensures DatabaseFiles(ds, scripts)[k] == FilesOf(ds[i], scripts(ds[i]))[k]
  {
    FilesNamed(ds[i], scripts(ds[i]), k);
    forall j | 0 <= j < |ds| && Names(ds[j], k) ensures j == i {
      Unshared(ds, i, j, k);
    }
    FileAt(ds, scripts, i, k);
    ReplicateIsApart(ds[i], k);
  }

  /** The documents of a clone and of the database named after one of its roles. */
  lemma ShadowedFile(c: Database, d: Database, s: seq<Part>, t: seq<Part>) returns (k: string)
    requires Shadows(c, d) && c.path != d.path
    ensures k in FilesOf(c, s) && k in FilesOf(d, t) && FilesOf(c, s)[k] != FilesOf(d, t)[k]
  {
    k := RestoreFile(d, ".yml");
    PlainFiles(c, d);
    PlainConfig(d, t);
    CloneConfigs(c, s);
    var role := if d.name == c.name + "-source" then Source else Destination;
    var e := ConfigOf(d, if d.restore.Some? then Source else Destination);
    assert ConfigOf(c, role).entries[0].path == c.path && e.entries[0].path == d.path;
  }

  /** For accepted input, no database loses a file to another if and only if no
      plain database is named after a clone and one of its roles. */
  lemma FilesKeptExactly(ds: seq<Database>, directoryMode: string, clean: string -> string, dir: string -> string,
                         scripts: ScriptOf)
    requires Accepted(ds, directoryMode, clean, dir)
    ensures Kept(ds, AllFiles(ds, scripts), scripts) <==> NoneShadowed(ds)
  {
    if NoneShadowed(ds) {
      forall i, k | 0 <= i < |ds| && k in FilesOf(ds[i], scripts(ds[i]))
        ensures k in AllFiles(ds, scripts) && AllFiles(ds, scripts)[k] == FilesOf(ds[i], scripts(ds[i]))[k]
      {
        FilesNamed(ds[i], scripts(ds[i]), k);
        FileKept(ds, scripts, i, k);
      }
    } else {
      var c, d :| 0 <= c < |ds| && 0 <= d < |ds| && Shadows(ds[c], ds[d]);
      var k := ShadowedFile(ds[c], ds[d], scripts(ds[c]), scripts(ds[d]));
      ClashLoses(ds, AllFiles(ds, scripts), scripts, c, d, k);
    }
  }

  lemma ClashLoses(ds: seq<Database>, files: Files, scripts: ScriptOf, c: nat, d: nat, k: string)
    requires c < |ds| && d < |ds| && k in FilesOf(ds[c], scripts(ds[c])) && k in FilesOf(ds[d], scripts(ds[d]))
    requires FilesOf(ds[c], scripts(ds[c]))[k] != FilesOf(ds[d], scripts(ds[d]))[k]
    ensures !Kept(ds, files, scripts)
  {
    if Kept(ds, files, scripts) {
      KeptAt(ds, files, scripts, c, k);
      KeptAt(ds, files, scripts, d, k);
    }
  }

  lemma KeptAt(ds: seq<Database>, files: Files, scripts: ScriptOf, i: nat, k: string)
    requires Kept(ds, files, scripts) && i < |ds| && k in FilesOf(ds[i], scripts(ds[i]))
    ensures k in files && files[k] == FilesOf(ds[i], scripts(ds[i]))[k]
  {
  }

  /** An accepted input where the clone `a` reads the source of `a-source`. */
  lemma NamedAfterRole(clean: string -> string, dir: string -> string, scripts: ScriptOf)
    requires clean("/a") != clean("/b")
    ensures
      var a := Database("a", "/a", true, "", Some(LocalFile), Some(LocalFile), DEFAULT_POLICY);
      var b := Database("a-source", "/b", false, "", Some(LocalFile), None, DEFAULT_POLICY);
      && Accepted([a, b], "", clean, dir)
      && RestoreFile(a, "-source.yml") in AllFiles([a, b], scripts)
      && AllFiles([a, b], scripts)[RestoreFile(a, "-source.yml")] == ConfigOf(b, Source)
  {
    var a := Database("a", "/a", true, "", Some(LocalFile), Some(LocalFile), DEFAULT_POLICY);
    var b := Database("a-source", "/b", false, "", Some(LocalFile), None, DEFAULT_POLICY);
    assert b.name == a.name + "-source" && [a] + [b] == [a, b];
    assert CloneOk(a) && CloneOk(b) && SharedOk(a, b) && a.name != b.name;
    LastWins([a], a, b, scripts);
  }

  /** A database rendered last writes over a clone that it shadows. */
  lemma LastWins(ds: seq<Database>, a: Database, b: Database, scripts: ScriptOf)
    requires a.clone && !b.clone && b.name == a.name + "-source"
    ensures var k := RestoreFile(a, "-source.yml");
      && k in AllFiles(ds + [b], scripts)
      && AllFiles(ds + [b], scripts)[k] == ConfigOf(b, if b.restore.Some? then Source else Destination)
  {
    var k := RestoreFile(b, ".yml");
    assert (ds + [b])[..|ds|] == ds;
    PlainFiles(a, b);
    PlainConfig(b, scripts(b));
    FilesNamed(b, scripts(b), k);
    ReplicateIsApart(b, k);
  }
}
