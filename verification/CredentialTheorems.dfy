/** Two bindings of one container never share a name unless they share the Secret. */
module CredentialTheorems {
  import opened Wrappers
  import opened SecretNames
  import opened Credentials
  import Decimal
  import Text

  // ---------------------------------------------------------- names of slots

  lemma {:induction false} Words(field: string, words: seq<string>)
    requires words != [] && Text.Join(words, ['_']) == field && NoRole(words)
    requires forall i :: 0 <= i < |words| ==> '_' !in words[i]
    ensures FieldOk(field)
  {
    SplitJoined(words);
  }

  lemma {:induction false} SplitJoined(words: seq<string>)
    requires words != [] && forall i :: 0 <= i < |words| ==> '_' !in words[i]
    ensures Split(Text.Join(words, ['_']), '_') == words
  {
    SplitWord(words[0], '_');
    if |words| == 1 {
      assert words == [words[0]];
    } else {
      SplitJoined(words[1..]);
      SplitAt(words[0], Text.Join(words[1..], ['_']), '_');
      assert words == [words[0]] + words[1..];
    }
  }

  lemma TwoWords(a: string, b: string)
    requires '_' !in a && '_' !in b && NoRole([a, b])
    ensures FieldOk(a + ['_'] + b)
  {
    assert [a, b][1..] == [b];
    Words(a + ['_'] + b, [a, b]);
  }

  lemma ThreeWords(a: string, b: string, c: string)
    requires '_' !in a && '_' !in b && '_' !in c && NoRole([a, b, c])
    ensures FieldOk(a + ['_'] + (b + ['_'] + c))
  {
    assert [a, b, c][1..] == [b, c] && [b, c][1..] == [c];
    assert Text.Join([b, c], ['_']) == b + ['_'] + c;
    Words(a + ['_'] + (b + ['_'] + c), [a, b, c]);
  }

  lemma AccessKeyFieldsOk()
    ensures FieldOk("ACCESS_KEY_ID") && FieldOk("ACCESS_KEY_SECRET")
  {
    ThreeWords("ACCESS", "KEY", "ID");
    assert "ACCESS" + ['_'] + ("KEY" + ['_'] + "ID") == "ACCESS_KEY_ID";
    ThreeWords("ACCESS", "KEY", "SECRET");
    assert "ACCESS" + ['_'] + ("KEY" + ['_'] + "SECRET") == "ACCESS_KEY_SECRET";
  }

  lemma KeyFieldsOk()
    ensures FieldOk("SECRET_ACCESS_KEY") && FieldOk("ACCOUNT_KEY")
  {
    ThreeWords("SECRET", "ACCESS", "KEY");
    assert "SECRET" + ['_'] + ("ACCESS" + ['_'] + "KEY") == "SECRET_ACCESS_KEY";
    TwoWords("ACCOUNT", "KEY");
    assert "ACCOUNT" + ['_'] + "KEY" == "ACCOUNT_KEY";
  }

  lemma FieldsOk(f: Field)
    ensures FieldOk(FieldName(f))
  {
    match f
    case AccessKeyId => AccessKeyFieldsOk();
    case AccessKeySecret => AccessKeyFieldsOk();
    case SecretAccessKey => KeyFieldsOk();
    case AccountKey => KeyFieldsOk();
    case _ => SplitWord(FieldName(f), '_');
  }

  lemma FieldNamesDiffer(f: Field, g: Field)
    requires FieldName(f) == FieldName(g)
    ensures f == g
  {
    assert FieldName(f)[0] == FieldName(g)[0] && |FieldName(f)| == |FieldName(g)|;
    assert FieldName(f)[1] == FieldName(g)[1];
  }

  lemma FileNamesDiffer(f: File, g: File)
    requires FileName(f) == FileName(g)
    ensures f == g
  {
    var s, t := FileName(f), FileName(g);
    assert |s| == |t| && s[0] == t[0];
    if f.RootCA? && g.RootCA? {
      DropPrefix("root-ca-", Decimal.Format(f.index), Decimal.Format(g.index));
      Decimal.RoundTrip(f.index);
      Decimal.RoundTrip(g.index);
    }
  }

  lemma BackendsOk(r: Replica)
    ensures BackendOk(Backend(r))
  {
  }

  // ------------------------------------------------------- secrets of one replica

  function VariableRef(r: Replica, f: Field): Option<Ref> {
    match r
    case S3(id, key) => if f == AccessKeyId then id else if f == SecretAccessKey then key else None
    case Azure(key) => if f == AccountKey then key else None
    case NATS(_, _, _, _, _, _, _, _, _, _) =>
      (match f
       case Username => r.username
       case Password => r.password
       case Jwt => r.jwt
       case Seed => r.seed
       case NKey => r.nkey
       case Token => r.token
       case _ => None)
    case OSS(id, secret) => if f == AccessKeyId then id else if f == AccessKeySecret then secret else None
    case SFTP(password, _) => if f == Password then password else None
    case WebDAV(username, password) => if f == Username then username else if f == Password then password else None
    case _ => None
  }

  function FileRef(r: Replica, f: File): Option<Ref> {
    match r
    case GCS(account) => if f == ServiceAccount then account else None
    case NATS(_, _, _, _, _, _, _, _, _, _) =>
      (match f
       case Creds => r.creds
       case ClientCert => r.clientCert
       case ClientKey => r.clientKey
       case RootCA(i) => if i < |r.rootCAs| then Some(r.rootCAs[i]) else None
       case _ => None)
    case SFTP(_, key) => if f == PrivateKey then key else None
    case _ => None
  }

  function SlotRef(r: Replica, s: Slot): Option<Ref> {
    match s
    case EnvSlot(f) => VariableRef(r, f)
    case FileSlot(f) => FileRef(r, f)
  }

  lemma NATSVariablesAre(r: Replica, e: Entry)
    requires r.NATS? && e in NATSVariables(r)
    ensures SlotRef(r, e.0) == Some(e.1)
  {
    var account := One(EnvSlot(Username), r.username) + One(EnvSlot(Password), r.password) + One(EnvSlot(Jwt), r.jwt);
    if e in account {
      assert e.0 == EnvSlot(Username) || e.0 == EnvSlot(Password) || e.0 == EnvSlot(Jwt);
    } else {
      assert e in One(EnvSlot(Seed), r.seed) || e in One(EnvSlot(NKey), r.nkey) || e in One(EnvSlot(Token), r.token);
    }
  }

  lemma NATSFilesAre(r: Replica, e: Entry)
    requires r.NATS? && e in NATSFiles(r)
    ensures SlotRef(r, e.0) == Some(e.1)
  {
  }

  /** A slot of a replica holds one secret. */
  lemma EntryIsRef(r: Replica, e: Entry)
    requires e in Entries(r)
    ensures SlotRef(r, e.0) == Some(e.1)
  {
    if r.NATS? {
      if e in NATSVariables(r) {
        NATSVariablesAre(r, e);
      } else {
        NATSFilesAre(r, e);
      }
    }
  }

  // --------------------------------------------------------- where bindings come from

  datatype Origin = Origin(d: Database, role: Role, purpose: string, e: Entry)

  /** The containers that get a database's credentials of a role. */
  predicate Reaches(d: Database, role: Role, purpose: string) {
    && ReplicaOf(d, role).Some?
    && (purpose == REPLICATE ==> role == Destination)
    && (purpose == REPLICATE || purpose == RestorePurpose(d.name))
    && (purpose != REPLICATE && d.restore.Some? && d.replicate.Some? && !d.clone ==> role == Source)
  }

  ghost predicate ComesFrom(b: Binding, o: Origin) {
    && Reaches(o.d, o.role, o.purpose)
    && o.e in Entries(ReplicaOf(o.d, o.role).value)
    && b == Bind(Owner(o.d.name, o.role, Backend(ReplicaOf(o.d, o.role).value), o.purpose), o.e)
  }

  lemma BoundFrom(d: Database, role: Role, purpose: string, b: Binding) returns (o: Origin)
    requires Reaches(d, role, purpose) && b in Bindings(d, role, ReplicaOf(d, role).value, purpose)
    ensures ComesFrom(b, o) && o.d == d
  {
    var r := ReplicaOf(d, role).value;
    var i :| 0 <= i < |Entries(r)| && Bindings(d, role, r, purpose)[i] == b;
    o := Origin(d, role, purpose, Entries(r)[i]);
  }

  lemma DatabaseOrigin(d: Database, b: Binding) returns (o: Origin)
    requires b in DatabaseBindings(d)
    ensures ComesFrom(b, o) && o.d == d
  {
    var p := RestorePurpose(d.name);
    assert p[2] != REPLICATE[2];
    if d.replicate.Some? && b in Bindings(d, Destination, d.replicate.value, REPLICATE) {
      o := BoundFrom(d, Destination, REPLICATE, b);
    } else if d.restore.Some? && b in Bindings(d, Source, d.restore.value, p) {
      o := BoundFrom(d, Source, p, b);
    } else {
      o := BoundFrom(d, Destination, p, b);
    }
  }

  lemma {:induction false} OriginOf(ds: seq<Database>, b: Binding) returns (o: Origin)
    requires b in AllBindings(ds)
    ensures ComesFrom(b, o) && o.d in ds
  {
    var n := |ds| - 1;
    if b in AllBindings(ds[..n]) {
      o := OriginOf(ds[..n], b);
    } else {
      o := DatabaseOrigin(ds[n], b);
    }
  }

  /** Every entry of a replica that reaches a container is bound there. */
  lemma ReachesBinds(d: Database, role: Role, purpose: string, e: Entry, b: Binding)
    requires (d.restore.Some? || d.replicate.Some?) && (d.clone ==> d.restore.Some? && d.replicate.Some?)
    requires ComesFrom(b, Origin(d, role, purpose, e))
    ensures b in DatabaseBindings(d)
  {
    var r := ReplicaOf(d, role).value;
    var i :| 0 <= i < |Entries(r)| && Entries(r)[i] == e;
    assert Bindings(d, role, r, purpose)[i] == b;
    assert RestorePurpose(d.name)[2] != REPLICATE[2];
  }

  lemma {:induction false} LastBound(ds: seq<Database>, b: Binding)
    requires ds != []
    ensures b in DatabaseBindings(ds[|ds| - 1]) ==> b in AllBindings(ds)
    ensures b in AllBindings(ds[..|ds| - 1]) ==> b in AllBindings(ds)
  {
    InEither(AllBindings(ds[..|ds| - 1]), DatabaseBindings(ds[|ds| - 1]), b);
  }

  lemma {:induction false} DatabaseBound(ds: seq<Database>, i: nat, b: Binding)
    requires i < |ds|
    ensures b in DatabaseBindings(ds[i]) ==> b in AllBindings(ds)
    decreases |ds|
  {
    LastBound(ds, b);
    if i < |ds| - 1 {
      DatabaseBound(ds[..|ds| - 1], i, b);
    }
  }

  lemma InEither(bs: seq<Binding>, cs: seq<Binding>, b: Binding)
    ensures b in bs + cs <==> b in bs || b in cs
  {
  }

  // ---------------------------------------------------------------- the theorem

  predicate Labels(ds: seq<Database>) {
    forall i :: 0 <= i < |ds| ==> IsLabel(ds[i].name)
  }

  predicate DistinctNames(ds: seq<Database>) {
    forall i, j :: 0 <= i < j < |ds| ==> ds[i].name != ds[j].name
  }

  /** The service account of a database's role that reaches the container. */
  predicate Account(d: Database, role: Role, purpose: string, ref: Ref) {
    && Reaches(d, role, purpose)
    && IsGCS(ReplicaOf(d, role))
    && ReplicaOf(d, role).value.serviceAccountJSON == Some(ref)
  }

  /** Service accounts that meet in a container have Secret names of one length. */
  ghost predicate SameLengths(ds: seq<Database>) {
    forall d, role, e, role', purpose, ref, ref' ::
      d in ds && e in ds && Account(d, role, purpose, ref) && Account(e, role', purpose, ref')
      ==> |ref.name| == |ref'.name|
  }

  /** Secret names without NUL, as Kubernetes has them. */
  ghost predicate PlainNames(ds: seq<Database>) {
    forall d, role, purpose, ref :: d in ds && Account(d, role, purpose, ref) ==> Text.NUL !in ref.name
  }

  lemma IdentityInjective(r: Ref, s: Ref)
    requires Identity(Some(r)) == Identity(Some(s)) && |r.name| == |s.name|
    ensures r == s
  {
    var x, y := Identity(Some(r)), Identity(Some(s));
    assert r.name == x[..|r.name|] && s.name == y[..|s.name|];
    assert r.key == x[|r.name| + 1..] && s.key == y[|s.name| + 1..];
  }

  /** Both bindings give one container the same variable or the same file. */
  predicate SameName(b: Binding, c: Binding) {
    b.purpose == c.purpose && ((b.env == c.env && b.env != "") || (b.path == c.path && b.path != ""))
  }

  lemma NamesAreUnique(ds: seq<Database>, d: Database, e: Database)
    requires DistinctNames(ds) && d in ds && e in ds && d.name == e.name
    ensures d == e
  {
    var i :| 0 <= i < |ds| && ds[i] == d;
    var j :| 0 <= j < |ds| && ds[j] == e;
  }

  /** Same database and role, same slot: same secret. */
  lemma SameSlot(o: Origin, p: Origin, b: Binding, c: Binding)
    requires ComesFrom(b, o) && ComesFrom(c, p) && o.d == p.d && o.role == p.role && o.e.0 == p.e.0
    ensures b.ref == c.ref
  {
    var r := ReplicaOf(o.d, o.role).value;
    EntryIsRef(r, o.e);
    EntryIsRef(r, p.e);
  }

  lemma EnvOfVariable(o: Origin, b: Binding)
    requires ComesFrom(b, o) && o.e.0.EnvSlot?
    ensures |b.env| > 2 && b.env[0] == 'L' && b.path == ""
  {
    JoinCons("LS",
             [Sanitize(o.d.name), RoleName(o.role), Backend(ReplicaOf(o.d, o.role).value), FieldName(o.e.0.field)]);
  }

  lemma SameVariable(o: Origin, p: Origin, b: Binding, c: Binding)
    requires ComesFrom(b, o) && ComesFrom(c, p) && o.e.0.EnvSlot? && p.e.0.EnvSlot?
    requires IsLabel(o.d.name) && IsLabel(p.d.name) && b.env == c.env
    ensures o.d.name == p.d.name && o.role == p.role && o.e.0 == p.e.0
  {
    var r, s := ReplicaOf(o.d, o.role).value, ReplicaOf(p.d, p.role).value;
    BackendsOk(r);
    BackendsOk(s);
    FieldsOk(o.e.0.field);
    FieldsOk(p.e.0.field);
    EnvNameInjective(o.d.name, o.role, Backend(r), FieldName(o.e.0.field),
                     p.d.name, p.role, Backend(s), FieldName(p.e.0.field));
    FieldNamesDiffer(o.e.0.field, p.e.0.field);
  }

  lemma SameFile(o: Origin, p: Origin, b: Binding, c: Binding)
    requires ComesFrom(b, o) && ComesFrom(c, p) && o.e.0.FileSlot? && p.e.0.FileSlot?
    requires IsLabel(o.d.name) && IsLabel(p.d.name) && b.path == c.path
    ensures o.d.name == p.d.name && o.role == p.role && o.e.0 == p.e.0
  {
    var r, s := ReplicaOf(o.d, o.role).value, ReplicaOf(p.d, p.role).value;
    BackendsOk(r);
    BackendsOk(s);
    FileMountPathInjective(o.d.name, o.role, Backend(r), FileName(o.e.0.file),
                           p.d.name, p.role, Backend(s), FileName(p.e.0.file));
    FileNamesDiffer(o.e.0.file, p.e.0.file);
  }

  lemma ServiceAccountOf(o: Origin, b: Binding)
    requires ComesFrom(b, o) && o.e.0 == FileSlot(ServiceAccount)
    ensures Account(o.d, o.role, o.purpose, b.ref) && b.purpose == o.purpose
  {
    EntryIsRef(ReplicaOf(o.d, o.role).value, o.e);
  }

  /** An account that reaches a container is bound there, under the shared variable. */
  lemma AccountIsBound(ds: seq<Database>, d: Database, role: Role, purpose: string, ref: Ref) returns (b: Binding)
    requires d in ds && Account(d, role, purpose, ref)
    requires (d.restore.Some? || d.replicate.Some?) && (d.clone ==> d.restore.Some? && d.replicate.Some?)
    ensures b in AllBindings(ds) && b.purpose == purpose && b.env == GOOGLE && b.ref == ref
  {
    var r, e := ReplicaOf(d, role).value, (FileSlot(ServiceAccount), ref);
    assert Entries(r) == [e];
    b := Bind(Owner(d.name, role, Backend(r), purpose), e);
    ReachesBinds(d, role, purpose, e, b);
    var i :| 0 <= i < |ds| && ds[i] == d;
    DatabaseBound(ds, i, b);
  }

  lemma RestorePurposeInjective(x: string, y: string)
    requires RestorePurpose(x) == RestorePurpose(y)
    ensures x == y
  {
    DropPrefix("restore-", x, y);
  }

  /** Accounts that meet in a container look the same to the checks on the input. */
  lemma AccountsShareIdentity(ds: seq<Database>, d: Database, role: Role, e: Database, role': Role, purpose: string,
                              ref: Ref, ref': Ref)
    requires GCSOk(ds) && DistinctNames(ds) && d in ds && e in ds
    requires Account(d, role, purpose, ref) && Account(e, role', purpose, ref')
    ensures Identity(Some(ref)) == Identity(Some(ref'))
  {
    var i :| 0 <= i < |ds| && ds[i] == d;
    var j :| 0 <= j < |ds| && ds[j] == e;
    if purpose == REPLICATE {
      assert i < j ==> SharedOk(ds[i], ds[j]);
      assert j < i ==> SharedOk(ds[j], ds[i]);
    } else {
      RestorePurposeInjective(d.name, e.name);
      NamesAreUnique(ds, d, e);
      assert CloneOk(ds[i]);
    }
  }

  /** The one variable all GCS credentials share holds one credential per
      container, if their names have one length. */
  lemma SameServiceAccount(ds: seq<Database>, o: Origin, p: Origin, b: Binding, c: Binding)
    requires GCSOk(ds) && DistinctNames(ds) && SameLengths(ds) && o.d in ds && p.d in ds && b.purpose == c.purpose
    requires ComesFrom(b, o) && ComesFrom(c, p) && o.e.0 == p.e.0 == FileSlot(ServiceAccount)
    ensures b.ref == c.ref
  {
    ServiceAccountOf(o, b);
    ServiceAccountOf(p, c);
    AccountsShareIdentity(ds, o.d, o.role, p.d, p.role, o.purpose, b.ref, c.ref);
    IdentityInjective(b.ref, c.ref);
  }

  /** A variable or path that two bindings share comes from one slot, or is the
      variable of the service accounts. */
  lemma {:induction false} SameNameSameSecret(ds: seq<Database>, b: Binding, c: Binding)
    requires GCSOk(ds) && DistinctNames(ds) && Labels(ds) && SameLengths(ds)
    requires b in AllBindings(ds) && c in AllBindings(ds) && SameName(b, c)
    ensures b.ref == c.ref
  {
    var o := OriginOf(ds, b);
    var p := OriginOf(ds, c);
    assert IsLabel(o.d.name) && IsLabel(p.d.name);
    if o.e.0.EnvSlot? { EnvOfVariable(o, b); }
    if p.e.0.EnvSlot? { EnvOfVariable(p, c); }
    if o.e.0.EnvSlot? && p.e.0.EnvSlot? {
      SameVariable(o, p, b, c);
      NamesAreUnique(ds, o.d, p.d);
      SameSlot(o, p, b, c);
    } else if b.path == c.path && b.path != "" {
      SameFile(o, p, b, c);
      NamesAreUnique(ds, o.d, p.d);
      SameSlot(o, p, b, c);
    } else {
      SameServiceAccount(ds, o, p, b, c);
    }
  }

  /** Within a container, one variable name or one file path stands for one Secret
      name and key. */
  ghost predicate OneNameOneSecret(ds: seq<Database>) {
    forall b, c :: b in AllBindings(ds) && c in AllBindings(ds) && SameName(b, c) ==> b.ref == c.ref
  }

  lemma {:induction false} SecretsHaveLengths(ds: seq<Database>, d: Database, role: Role, e: Database, role': Role,
                                              purpose: string,
                                              ref: Ref, ref': Ref)
    requires (forall x :: x in ds ==> x.restore.Some? || x.replicate.Some?)
    requires (forall x :: x in ds && x.clone ==> x.restore.Some? && x.replicate.Some?)
    requires OneNameOneSecret(ds) && d in ds && e in ds
    requires Account(d, role, purpose, ref) && Account(e, role', purpose, ref')
    ensures ref == ref'
  {
    var b := AccountIsBound(ds, d, role, purpose, ref);
    var c := AccountIsBound(ds, e, role', purpose, ref');
    assert SameName(b, c);
  }

  /** For accepted input: exactly when one name means one Secret. */
  lemma {:induction false} OneNameOneSecretExactly(ds: seq<Database>, directoryMode: string, clean: string -> string,
                                                   dir: string -> string)
    requires Accepted(ds, directoryMode, clean, dir) && Labels(ds)
    ensures OneNameOneSecret(ds) <==> SameLengths(ds)
  {
    AcceptedMeans(ds, directoryMode, clean, dir);
    if SameLengths(ds) {
      forall b, c | b in AllBindings(ds) && c in AllBindings(ds) && SameName(b, c) ensures b.ref == c.ref {
        SameNameSameSecret(ds, b, c);
      }
    }
    if OneNameOneSecret(ds) {
      forall d, role, e, role', purpose, ref, ref' |
        d in ds && e in ds && Account(d, role, purpose, ref) && Account(e, role', purpose, ref')
        ensures |ref.name| == |ref'.name|
      {
        SecretsHaveLengths(ds, d, role, e, role', purpose, ref, ref');
      }
    }
  }

  lemma AcceptedMeans(ds: seq<Database>, directoryMode: string, clean: string -> string, dir: string -> string)
    requires Accepted(ds, directoryMode, clean, dir)
    ensures DistinctNames(ds) && GCSOk(ds)
    ensures forall x :: x in ds ==> x.restore.Some? || x.replicate.Some?
    ensures forall x :: x in ds && x.clone ==> x.restore.Some? && x.replicate.Some?
  {
    forall x | x in ds
      ensures (x.restore.Some? || x.replicate.Some?) && (x.clone ==> x.restore.Some? && x.replicate.Some?)
    {
      var i :| 0 <= i < |ds| && ds[i] == x;
      assert DatabaseOk(ds[i], directoryMode, clean, dir);
    }
  }

  /** In particular for Secret names as Kubernetes has them. */
  lemma {:induction false} PlainNamesSuffice(ds: seq<Database>, directoryMode: string, clean: string -> string,
                                             dir: string -> string)
    requires Accepted(ds, directoryMode, clean, dir) && Labels(ds) && PlainNames(ds)
    ensures OneNameOneSecret(ds)
  {
    AcceptedMeans(ds, directoryMode, clean, dir);
    forall d, role, e, role', purpose, ref, ref' |
      d in ds && e in ds && Account(d, role, purpose, ref) && Account(e, role', purpose, ref')
      ensures |ref.name| == |ref'.name|
    {
      AccountsShareIdentity(ds, d, role, e, role', purpose, ref, ref');
      CutInjective(ref.name, ref.key, ref'.name, ref'.key, Text.NUL);
    }
    OneNameOneSecretExactly(ds, directoryMode, clean, dir);
  }

  /** A Secret name holding a NUL would slip through the comparison of GCS
      credentials. */
  lemma NulNamesConfuse()
    ensures
      var x, y := Ref("a", ['b', Text.NUL, 'c']), Ref(['a', Text.NUL, 'b'], "c");
      var none := Policy("", "", "", "", "");
      var ds := [Database("x", "/x", false, "", None, Some(GCS(Some(x))), none),
                 Database("y", "/y", false, "", None, Some(GCS(Some(y))), none)];
      && x != y && Labels(ds) && Accepted(ds, "", p => p, p => p)
      && exists b, c :: b in AllBindings(ds) && c in AllBindings(ds) && SameName(b, c) && b.ref == x && c.ref == y
  {
    var x, y := Ref("a", ['b', Text.NUL, 'c']), Ref(['a', Text.NUL, 'b'], "c");
    var none := Policy("", "", "", "", "");
    var d, e := Database("x", "/x", false, "", None, Some(GCS(Some(x))), none),
                Database("y", "/y", false, "", None, Some(GCS(Some(y))), none);
    var ds := [d, e];
    assert Identity(Some(x)) == ['a', Text.NUL, 'b', Text.NUL, 'c'] == Identity(Some(y));
    assert ds[..1] == [d] && [d][..0] == [];
    assert AllBindings([d]) == AllBindings([]) + DatabaseBindings(d);
    assert AllBindings(ds) == AllBindings([d]) + DatabaseBindings(e);
    var b := Bindings(d, Destination, GCS(Some(x)), REPLICATE)[0];
    var c := Bindings(e, Destination, GCS(Some(y)), REPLICATE)[0];
    assert b in DatabaseBindings(d) && c in DatabaseBindings(e);
    assert SameName(b, c);
  }
}
