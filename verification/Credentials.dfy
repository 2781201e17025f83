/** Which Secret values a rendered Litestream configuration projects into which
    container, and why no two of them meet under one name. */
module Credentials {
  import opened Wrappers
  import opened SecretNames
  import Decimal
  import Text

  const REPLICATE := "replicate"
  const GOOGLE := "GOOGLE_APPLICATION_CREDENTIALS"

  datatype Ref = Ref(name: string, key: string)

  datatype Replica =
    | S3(accessKeyID: Option<Ref>, secretAccessKey: Option<Ref>)
    | GCS(serviceAccountJSON: Option<Ref>)
    | Azure(accountKey: Option<Ref>)
    | LocalFile
    | NATS(username: Option<Ref>, password: Option<Ref>, jwt: Option<Ref>, seed: Option<Ref>, nkey: Option<Ref>,
           token: Option<Ref>, creds: Option<Ref>, clientCert: Option<Ref>, clientKey: Option<Ref>, rootCAs: seq<Ref>)
    | OSS(ossKeyID: Option<Ref>, ossKeySecret: Option<Ref>)
    | SFTP(sftpPassword: Option<Ref>, privateKey: Option<Ref>)
    | WebDAV(webdavUsername: Option<Ref>, webdavPassword: Option<Ref>)
    | Unknown

  function Backend(r: Replica): string {
    match r
    case S3(_, _) => "S3"
    case GCS(_) => "GCS"
    case Azure(_) => "AZURE"
    case LocalFile => "FILE"
    case NATS(_, _, _, _, _, _, _, _, _, _) => "NATS"
    case OSS(_, _) => "OSS"
    case SFTP(_, _) => "SFTP"
    case WebDAV(_, _) => "WEBDAV"
    case Unknown => ""
  }

  datatype Database = Database(
    name: string, path: string, clone: bool, clonePolicy: string,
    restore: Option<Replica>, replicate: Option<Replica>, policy: Policy)

  /** How a database is restored; empty text means the default. */
  datatype Policy = Policy(
    ifDatabaseExists: string, ifReplicaMissing: string, integrityCheck: string, timestamp: string, txID: string)

  function ReplicaOf(d: Database, role: Role): Option<Replica> {
    if role == Source then d.restore else d.replicate
  }

  datatype Binding = Binding(purpose: string, env: string, path: string, ref: Ref)

  // -------------------------------------------------------------------- slots

  datatype Field =
    | AccessKeyId | SecretAccessKey | AccountKey | Username | Password | Jwt | Seed | NKey | Token | AccessKeySecret

  function FieldName(f: Field): string {
    match f
    case AccessKeyId => "ACCESS_KEY_ID"
    case SecretAccessKey => "SECRET_ACCESS_KEY"
    case AccountKey => "ACCOUNT_KEY"
    case Username => "USERNAME"
    case Password => "PASSWORD"
    case Jwt => "JWT"
    case Seed => "SEED"
    case NKey => "NKEY"
    case Token => "TOKEN"
    case AccessKeySecret => "ACCESS_KEY_SECRET"
  }

  datatype File = ServiceAccount | Creds | ClientCert | ClientKey | RootCA(index: nat) | PrivateKey

  function FileName(f: File): string {
    match f
    case ServiceAccount => "service-account.json"
    case Creds => "creds"
    case ClientCert => "client-cert"
    case ClientKey => "client-key"
    case RootCA(i) => "root-ca-" + Decimal.Format(i)
    case PrivateKey => "private-key"
  }

  datatype Slot = EnvSlot(field: Field) | FileSlot(file: File)

  type Entry = (Slot, Ref)

  function One(s: Slot, ref: Option<Ref>): seq<Entry> {
    if ref.None? then [] else [(s, ref.value)]
  }

  function RootCASlots(refs: seq<Ref>): seq<Entry> {
    seq(|refs|, i requires 0 <= i < |refs| => (FileSlot(RootCA(i)), refs[i]))
  }

  function NATSVariables(r: Replica): seq<Entry>
    requires r.NATS?
  {
    One(EnvSlot(Username), r.username) + One(EnvSlot(Password), r.password) + One(EnvSlot(Jwt), r.jwt)
    + One(EnvSlot(Seed), r.seed) + One(EnvSlot(NKey), r.nkey) + One(EnvSlot(Token), r.token)
  }

  function NATSFiles(r: Replica): seq<Entry>
    requires r.NATS?
  {
    One(FileSlot(Creds), r.creds) + One(FileSlot(ClientCert), r.clientCert) + One(FileSlot(ClientKey), r.clientKey)
    + RootCASlots(r.rootCAs)
  }

  /** The secrets of a replica, each with the place its backend gives it. */
  function Entries(r: Replica): seq<Entry> {
    match r
    case S3(id, key) => One(EnvSlot(AccessKeyId), id) + One(EnvSlot(SecretAccessKey), key)
    case GCS(account) => One(FileSlot(ServiceAccount), account)
    case Azure(key) => One(EnvSlot(AccountKey), key)
    case LocalFile => []
    case NATS(_, _, _, _, _, _, _, _, _, _) => NATSVariables(r) + NATSFiles(r)
    case OSS(id, secret) => One(EnvSlot(AccessKeyId), id) + One(EnvSlot(AccessKeySecret), secret)
    case SFTP(password, key) => One(EnvSlot(Password), password) + One(FileSlot(PrivateKey), key)
    case WebDAV(username, password) => One(EnvSlot(Username), username) + One(EnvSlot(Password), password)
    case Unknown => []
  }

  // ----------------------------------------------------------------- bindings

  /** Whose credentials: database, role, backend, and the container they go to. */
  datatype Owner = Owner(database: string, role: Role, backend: string, purpose: string)

  function EnvBinding(o: Owner, field: string, ref: Ref): Binding {
    Binding(o.purpose, EnvName(o.database, o.role, o.backend, field), "", ref)
  }

  function FileBinding(o: Owner, env: string, filename: string, ref: Ref): Binding {
    Binding(o.purpose, env, FileMountPath(o.database, o.role, o.backend, filename), ref)
  }

  function Bind(o: Owner, e: Entry): Binding {
    match e.0
    case EnvSlot(f) => EnvBinding(o, FieldName(f), e.1)
    case FileSlot(f) => FileBinding(o, if f == ServiceAccount then GOOGLE else "", FileName(f), e.1)
  }

  function BindAll(o: Owner, es: seq<Entry>): seq<Binding> {
    seq(|es|, i requires 0 <= i < |es| => Bind(o, es[i]))
  }

  function RestorePurpose(database: string): string {
    "restore-" + database
  }

  function Bindings(d: Database, role: Role, r: Replica, purpose: string): seq<Binding> {
    BindAll(Owner(d.name, role, Backend(r), purpose), Entries(r))
  }

  function DatabaseBindings(d: Database): seq<Binding> {
    if d.restore.Some? && d.replicate.None? then
      Bindings(d, Source, d.restore.value, RestorePurpose(d.name))
    else if !d.clone && d.replicate.Some? then
      Bindings(d, Destination, d.replicate.value, REPLICATE)
      + (if d.restore.Some? then Bindings(d, Source, d.restore.value, RestorePurpose(d.name))
         else Bindings(d, Destination, d.replicate.value, RestorePurpose(d.name)))
    else if d.clone && d.restore.Some? && d.replicate.Some? then
      Bindings(d, Destination, d.replicate.value, REPLICATE)
      + Bindings(d, Destination, d.replicate.value, RestorePurpose(d.name))
      + Bindings(d, Source, d.restore.value, RestorePurpose(d.name))
    else []
  }

  function AllBindings(ds: seq<Database>): seq<Binding> {
    if ds == [] then [] else AllBindings(ds[..|ds| - 1]) + DatabaseBindings(ds[|ds| - 1])
  }

  // --------------------------------------------------------------- validation

  function Identity(ref: Option<Ref>): string {
    if ref.None? then "ambient" else ref.value.name + [Text.NUL] + ref.value.key
  }

  predicate IsGCS(r: Option<Replica>) {
    r.Some? && r.value.GCS?
  }

  /** A clone's GCS source and destination share one credential, and so do all
      GCS destinations. */
  predicate GCSOk(ds: seq<Database>) {
    && (forall i :: 0 <= i < |ds| ==> CloneOk(ds[i]))
    && (forall i, j :: 0 <= i < j < |ds| ==> SharedOk(ds[i], ds[j]))
  }

  predicate CloneOk(d: Database) {
    d.clone && IsGCS(d.restore) && IsGCS(d.replicate) ==>
      Identity(d.restore.value.serviceAccountJSON) == Identity(d.replicate.value.serviceAccountJSON)
  }

  predicate SharedOk(d: Database, e: Database) {
    IsGCS(d.replicate) && IsGCS(e.replicate) ==>
      Identity(d.replicate.value.serviceAccountJSON) == Identity(e.replicate.value.serviceAccountJSON)
  }

  predicate DatabaseOk(d: Database, directoryMode: string, clean: string -> string, dir: string -> string) {
    && !(directoryMode != "" && dir(clean(d.path)) == "/")
    && (d.restore.Some? || d.replicate.Some?)
    && (d.clone ==> d.restore.Some? && d.replicate.Some?)
    && (d.clonePolicy != "" ==> d.clone)
  }

  predicate Accepted(ds: seq<Database>, directoryMode: string, clean: string -> string, dir: string -> string) {
    && (forall i, j :: 0 <= i < j < |ds| ==> ds[i].name != ds[j].name && clean(ds[i].path) != clean(ds[j].path))
    && (forall i :: 0 <= i < |ds| ==> DatabaseOk(ds[i], directoryMode, clean, dir))
    && GCSOk(ds)
  }
}
