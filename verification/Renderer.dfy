/** Rendering: the checks on the input, and the builder that collects bindings. */
module Renderer {
  import opened Wrappers
  import opened SecretNames
  import opened Credentials
  import opened Sequences
  import opened Scripts
  import opened RenderedFiles
  import opened BindingOrder

  // --------------------------------------------------------------- validation

  method ValidateGCSCredentials(ds: seq<Database>) returns (ok: bool)
    ensures ok <==> GCSOk(ds)
  {
    var first := "";
    var haveFirst := false;
    ghost var k := 0;
    for i := 0 to |ds|
      invariant forall j :: 0 <= j < i ==> CloneOk(ds[j])
      invariant !haveFirst ==> forall j :: 0 <= j < i ==> !IsGCS(ds[j].replicate)
      invariant haveFirst ==>
        0 <= k < i && IsGCS(ds[k].replicate) && first == Identity(ds[k].replicate.value.serviceAccountJSON)
      invariant haveFirst ==>
        forall j :: 0 <= j < i && IsGCS(ds[j].replicate) ==> Identity(ds[j].replicate.value.serviceAccountJSON) == first
    {
      var d := ds[i];
      if d.clone && IsGCS(d.restore) && IsGCS(d.replicate)
         && Identity(d.restore.value.serviceAccountJSON) != Identity(d.replicate.value.serviceAccountJSON) {
        assert !CloneOk(ds[i]);
        return false;
      }
      if !IsGCS(d.replicate) {
        continue;
      }
      var credential := Identity(d.replicate.value.serviceAccountJSON);
      if !haveFirst {
        first, haveFirst, k := credential, true, i;
        continue;
      }
      if credential != first {
        assert !SharedOk(ds[k], ds[i]);
        return false;
      }
    }
    return true;
  }

  method ValidateInput(ds: seq<Database>, directoryMode: string, clean: string -> string, dir: string -> string)
    returns (ok: bool)
    ensures ok <==> Accepted(ds, directoryMode, clean, dir)
  {
    var names: set<string>, paths: set<string> := {}, {};
    for i := 0 to |ds|
      invariant names == set j | 0 <= j < i :: ds[j].name
      invariant paths == set j | 0 <= j < i :: clean(ds[j].path)
      invariant forall j, k :: 0 <= j < k < i ==> ds[j].name != ds[k].name && clean(ds[j].path) != clean(ds[k].path)
      invariant forall j :: 0 <= j < i ==> DatabaseOk(ds[j], directoryMode, clean, dir)
    {
      var d := ds[i];
      if d.name in names {
        return false;
      }
      names := names + {d.name};
      var path := clean(d.path);
      if path in paths {
        return false;
      }
      paths := paths + {path};
      if directoryMode != "" && dir(path) == "/" {
        assert !DatabaseOk(ds[i], directoryMode, clean, dir);
        return false;
      }
      if d.restore.None? && d.replicate.None? {
        assert !DatabaseOk(ds[i], directoryMode, clean, dir);
        return false;
      }
      if d.clone && (d.restore.None? || d.replicate.None?) {
        assert !DatabaseOk(ds[i], directoryMode, clean, dir);
        return false;
      }
      if d.clonePolicy != "" && !d.clone {
        assert !DatabaseOk(ds[i], directoryMode, clean, dir);
        return false;
      }
    }
    ok := ValidateGCSCredentials(ds);
  }

  // ------------------------------------------------------------------ builder

  lemma BindAllAppends(o: Owner, es: seq<Entry>, fs: seq<Entry>)
    ensures BindAll(o, es + fs) == BindAll(o, es) + BindAll(o, fs)
  {
  }

  lemma BindAllPurpose(o: Owner, es: seq<Entry>, purpose: string)
    ensures Rebound(BindAll(o, es), purpose) == BindAll(o.(purpose := purpose), es)
  {
  }

  function Rebound(bs: seq<Binding>, purpose: string): seq<Binding> {
    seq(|bs|, i requires 0 <= i < |bs| => bs[i].(purpose := purpose))
  }

  lemma ReboundNext(bs: seq<Binding>, i: nat, purpose: string)
    requires i < |bs|
    ensures Rebound(bs[..i + 1], purpose) == Rebound(bs[..i], purpose) + [bs[i].(purpose := purpose)]
  {
  }

  class CredentialBuilder {
    const owner: Owner
    var bindings: seq<Binding>
    // what was recorded so far
    ghost var entries: seq<Entry>

    ghost predicate Valid()
      reads this
    {
      bindings == BindAll(owner, entries)
    }

    constructor (owner: Owner)
      ensures Valid() && entries == [] && this.owner == owner
    {
      this.owner, bindings, entries := owner, [], [];
    }

    method Variable(field: Field, ref: Option<Ref>)
      requires Valid()
      modifies this
      ensures Valid() && entries == old(entries) + One(EnvSlot(field), ref)
    {
      if ref.None? {
        return;
      }
      BindAllAppends(owner, entries, One(EnvSlot(field), ref));
      bindings := bindings + [EnvBinding(owner, FieldName(field), ref.value)];
      entries := entries + One(EnvSlot(field), ref);
    }

    method Mounted(file: File, ref: Option<Ref>)
      requires Valid()
      modifies this
      ensures Valid() && entries == old(entries) + One(FileSlot(file), ref)
    {
      if ref.None? {
        return;
      }
      BindAllAppends(owner, entries, One(FileSlot(file), ref));
      var envName := if file == ServiceAccount then GOOGLE else "";
      bindings := bindings + [FileBinding(owner, envName, FileName(file), ref.value)];
      entries := entries + One(FileSlot(file), ref);
    }

    method RootCAs(refs: seq<Ref>)
      requires Valid()
      modifies this
      ensures Valid() && entries == old(entries) + RootCASlots(refs)
    {
      for i := 0 to |refs|
        invariant Valid() && entries == old(entries) + RootCASlots(refs[..i])
      {
        Mounted(RootCA(i), Some(refs[i]));
        assert RootCASlots(refs[..i + 1]) == RootCASlots(refs[..i]) + One(FileSlot(RootCA(i)), Some(refs[i]));
      }
      assert refs[..|refs|] == refs;
    }

    method RenderNATS(r: Replica)
      requires Valid() && r.NATS?
      modifies this
      ensures Valid() && entries == old(entries) + NATSVariables(r) + NATSFiles(r)
    {
      RenderNATSVariables(r);
      RenderNATSFiles(r);
    }

    method RenderNATSVariables(r: Replica)
      requires Valid() && r.NATS?
      modifies this
      ensures Valid() && entries == old(entries) + NATSVariables(r)
    {
      Variable(Username, r.username);
      Variable(Password, r.password);
      Variable(Jwt, r.jwt);
      Variable(Seed, r.seed);
      Variable(NKey, r.nkey);
      Variable(Token, r.token);
    }

    method RenderNATSFiles(r: Replica)
      requires Valid() && r.NATS?
      modifies this
      ensures Valid() && entries == old(entries) + NATSFiles(r)
    {
      Mounted(Creds, r.creds);
      Mounted(ClientCert, r.clientCert);
      Mounted(ClientKey, r.clientKey);
      RootCAs(r.rootCAs);
    }

    method RenderReplica(r: Replica)
      requires Valid() && entries == []
      modifies this
      ensures Valid() && entries == Entries(r)
    {
      match r
      case S3(id, key) =>
        Variable(AccessKeyId, id);
        Variable(SecretAccessKey, key);
      case GCS(account) =>
        Mounted(ServiceAccount, account);
      case Azure(key) =>
        Variable(AccountKey, key);
      case LocalFile =>
      case NATS(_, _, _, _, _, _, _, _, _, _) =>
        RenderNATS(r);
      case OSS(id, secret) =>
        Variable(AccessKeyId, id);
        Variable(AccessKeySecret, secret);
      case SFTP(password, key) =>
        Variable(Password, password);
        Mounted(PrivateKey, key);
      case WebDAV(username, password) =>
        Variable(Username, username);
        Variable(Password, password);
      case Unknown =>
    }

    method Rebind(purpose: string) returns (rebound: seq<Binding>)
      requires Valid()
      ensures rebound == BindAll(owner.(purpose := purpose), entries)
    {
      rebound := [];
      for i := 0 to |bindings|
        invariant rebound == Rebound(bindings[..i], purpose)
      {
        ReboundNext(bindings, i, purpose);
        rebound := rebound + [bindings[i].(purpose := purpose)];
      }
      TakeAll(bindings);
      BindAllPurpose(owner, entries, purpose);
    }
  }

  // ---------------------------------------------------------------- databases

  method Build(d: Database, role: Role, r: Replica, purpose: string) returns (builder: CredentialBuilder)
    ensures fresh(builder) && builder.Valid()
    ensures builder.owner == Owner(d.name, role, Backend(r), purpose) && builder.entries == Entries(r)
    ensures builder.bindings == Bindings(d, role, r, purpose)
  {
    builder := new CredentialBuilder(Owner(d.name, role, Backend(r), purpose));
    builder.RenderReplica(r);
  }

  method RenderRestoreOnly(d: Database, script: seq<Part>, data: Files) returns (data': Files, bs: seq<Binding>)
    requires d.restore.Some? && d.replicate.None? && !d.clone
    ensures data' == data + FilesOf(d, script) && bs == DatabaseBindings(d)
  {
    var builder := Build(d, Source, d.restore.value, RestorePurpose(d.name));
    bs := builder.bindings;
    data' := data[RestoreFile(d, ".yml") := ConfigOf(d, Source)];
    data' := data'[RestoreFile(d, ".sh") := StartScript(script)];
  }

  method RenderReplicate(d: Database, script: seq<Part>, data: Files) returns (data': Files, bs: seq<Binding>)
    requires !d.clone && d.replicate.Some?
    ensures data' == data + FilesOf(d, script) && bs == DatabaseBindings(d)
  {
    var dest := Build(d, Destination, d.replicate.value, REPLICATE);
    bs := dest.bindings;
    if d.restore.Some? {
      var src := Build(d, Source, d.restore.value, RestorePurpose(d.name));
      data' := data[RestoreFile(d, ".yml") := ConfigOf(d, Source)];
      bs := bs + src.bindings;
    } else {
      data' := data[RestoreFile(d, ".yml") := ConfigOf(d, Destination)];
      var rebound := dest.Rebind(RestorePurpose(d.name));
      bs := bs + rebound;
    }
    data' := data'[RestoreFile(d, ".sh") := StartScript(script)];
  }

  method RenderClone(d: Database, script: seq<Part>, data: Files) returns (data': Files, bs: seq<Binding>)
    requires d.clone && d.restore.Some? && d.replicate.Some?
    ensures data' == data + FilesOf(d, script) && bs == DatabaseBindings(d)
  {
    var dest := Build(d, Destination, d.replicate.value, REPLICATE);
    data' := data[RestoreFile(d, "-destination.yml") := ConfigOf(d, Destination)];
    var rebound := dest.Rebind(RestorePurpose(d.name));
    bs := dest.bindings + rebound;
    var src := Build(d, Source, d.restore.value, RestorePurpose(d.name));
    data' := data'[RestoreFile(d, "-source.yml") := ConfigOf(d, Source)];
    bs := bs + src.bindings;
    data' := data'[RestoreFile(d, ".sh") := StartScript(script)];
  }

  /** One database: its documents, its script and its bindings. */
  method RenderDatabase(d: Database, perms: Permissions, dir: string -> string, data: Files, ghost scripts: ScriptOf)
    returns (ok: bool, data': Files, bs: seq<Binding>)
    requires (d.restore.Some? || d.replicate.Some?) && (d.clone ==> d.restore.Some? && d.replicate.Some?)
    requires scripts(d) == Script(d, perms, dir)
    ensures ok <==> Scriptable(d, perms, dir)
    ensures ok ==> data' == data + FilesOf(d, scripts(d)) && bs == DatabaseBindings(d)
  {
    var script := BuildScript(d, perms, dir);
    if script.None? {
      return false, data, [];
    }
    ok := true;
    if d.restore.Some? && d.replicate.None? {
      data', bs := RenderRestoreOnly(d, script.value, data);
    } else if !d.clone && d.replicate.Some? {
      data', bs := RenderReplicate(d, script.value, data);
    } else {
      data', bs := RenderClone(d, script.value, data);
    }
  }

  /** The scripts of a rendering. */
  function StartScripts(perms: Permissions, dir: string -> string): ScriptOf {
    d => Script(d, perms, dir)
  }

  /** The files and the bindings of an accepted input; something that cannot be
      quoted fails the rendering. */
  method Render(ds: seq<Database>, perms: Permissions, clean: string -> string, dir: string -> string)
    returns (ok: bool, data: Files, credentials: seq<Binding>)
    ensures ok <==>
      Accepted(ds, perms.directoryMode, clean, dir) && forall i :: 0 <= i < |ds| ==> Scriptable(ds[i], perms, dir)
    ensures ok ==> data == AllFiles(ds, StartScripts(perms, dir))
    ensures ok ==> Ordered(credentials) && multiset(credentials) == multiset(AllBindings(ds))
  {
    data, credentials := map[], [];
    ok := ValidateInput(ds, perms.directoryMode, clean, dir);
    if !ok {
      return;
    }
    var replicates: seq<ConfigEntry>;
    AllScriptableMeans(ds, perms, dir);
    ok, data, replicates, credentials := RenderAll(ds, perms, dir, StartScripts(perms, dir));
    if !ok {
      return;
    }
    if |replicates| > 0 {
      data := data[REPLICATE_FILE := Configuration(replicates)];
    }
    SortedIsOrdered(credentials);
    credentials := Sorted(credentials);
  }

  /** The databases in turn. */
  method RenderAll(ds: seq<Database>, perms: Permissions, dir: string -> string, ghost scripts: ScriptOf)
    returns (ok: bool, data: Files, replicates: seq<ConfigEntry>, credentials: seq<Binding>)
    requires forall i :: 0 <= i < |ds| ==>
      && (ds[i].restore.Some? || ds[i].replicate.Some?)
      && (ds[i].clone ==> ds[i].restore.Some? && ds[i].replicate.Some?)
    requires forall d :: scripts(d) == Script(d, perms, dir)
    ensures ok <==> AllScriptable(ds, perms, dir)
    ensures ok ==> data == DatabaseFiles(ds, scripts) && replicates == ReplicateEntries(ds)
    ensures ok ==> credentials == AllBindings(ds)
  {
    ok, data, replicates, credentials := true, map[], [], [];
    for i := 0 to |ds|
      invariant ok && data == DatabaseFiles(ds[..i], scripts) && credentials == AllBindings(ds[..i])
      invariant replicates == ReplicateEntries(ds[..i])
      invariant AllScriptable(ds[..i], perms, dir)
    {
      var bs;
      ok, data, bs := RenderDatabase(ds[i], perms, dir, data, scripts);
      if !ok {
        AllScriptableMeans(ds, perms, dir);
        return;
      }
      TakeNext(ds, i);
      credentials := credentials + bs;
      if ds[i].replicate.Some? {
        replicates := replicates + [EntryOf(ds[i], Destination)];
      }
    }
    TakeAll(ds);
  }
}
