/** Names under which Secret values reach a container: environment variables and
    mounted files, per database, role, backend and field. */
module SecretNames {
  import Text
  import opened Sequences

  const SECRET_MOUNT_DIR := "/etc/litestream-secrets"

  datatype Role = Source | Destination

  function RoleName(r: Role): string {
    if r == Source then "SRC" else "DEST"
  }

  // -------------------------------------------------------------------- words

  function Split(s: string, sep: char): (r: seq<string>)
    ensures r != []
  {
    if s == [] then [""] else SplitStep(s[0], Split(s[1..], sep), sep)
  }

  function SplitStep(c: char, r: seq<string>, sep: char): (r': seq<string>)
    requires r != []
    ensures r' != []
  {
    if c == sep then [""] + r else [[c] + r[0]] + r[1..]
  }

  lemma StepAppends(c: char, x: seq<string>, y: seq<string>, sep: char)
    requires x != []
    ensures SplitStep(c, x + y, sep) == SplitStep(c, x, sep) + y
  {
    assert (x + y)[1..] == x[1..] + y;
  }

  lemma {:induction false} SplitAt(a: string, b: string, sep: char)
    ensures Split(a + [sep] + b, sep) == Split(a, sep) + Split(b, sep)
  {
    var s := a + [sep] + b;
    if a == [] {
      assert s[1..] == b;
    } else {
      var x, y := Split(a[1..], sep), Split(b, sep);
      SplitAt(a[1..], b, sep);
      assert s[1..] == a[1..] + [sep] + b && s[0] == a[0];
      assert Split(s, sep) == SplitStep(a[0], x + y, sep) && Split(a, sep) == SplitStep(a[0], x, sep);
      StepAppends(a[0], x, y, sep);
    }
  }

  lemma {:induction false} SplitWord(w: string, sep: char)
    requires sep !in w
    ensures Split(w, sep) == [w]
  {
    if w != [] {
      SplitWord(w[1..], sep);
      assert w == [w[0]] + w[1..];
    }
  }

  lemma {:induction false} JoinStep(c: char, r: seq<string>, sep: char)
    requires r != []
    ensures Text.Join(SplitStep(c, r, sep), [sep]) == [c] + Text.Join(r, [sep])
  {
    var r' := SplitStep(c, r, sep);
    if c == sep {
      assert r'[1..] == r;
    } else if |r| > 1 {
      assert r'[1..] == r[1..];
      assert [c] + r[0] + [sep] + Text.Join(r[1..], [sep]) == [c] + (r[0] + [sep] + Text.Join(r[1..], [sep]));
    }
  }

  lemma {:induction false} JoinSplit(s: string, sep: char)
    ensures Text.Join(Split(s, sep), [sep]) == s
  {
    if s != [] {
      JoinSplit(s[1..], sep);
      JoinStep(s[0], Split(s[1..], sep), sep);
      assert s == [s[0]] + s[1..];
    }
  }

  lemma {:induction false} SplitInjective(s: string, t: string, sep: char)
    requires Split(s, sep) == Split(t, sep)
    ensures s == t
  {
    JoinSplit(s, sep);
    JoinSplit(t, sep);
  }

  /** The text before the first separator, and the text after it, are fixed. */
  lemma CutInjective(a: string, b: string, c: string, d: string, sep: char)
    requires sep !in a && sep !in c && a + [sep] + b == c + [sep] + d
    ensures a == c && b == d
  {
    var s, t := a + [sep] + b, c + [sep] + d;
    assert s[|a|] == sep && t[|c|] == sep;
    assert forall i :: 0 <= i < |a| ==> s[i] == a[i] && a[i] in a;
    assert forall i :: 0 <= i < |c| ==> t[i] == c[i] && c[i] in c;
    assert |a| == |c|;
    assert a == s[..|a|] && c == t[..|c|] && b == s[|a| + 1..] && d == t[|c| + 1..];
  }

  // --------------------------------------------------------------- identifiers

  /** A DNS label, as the resource's schema demands of database names. */
  predicate IsLabel(s: string) {
    s != "" && forall i :: 0 <= i < |s| ==> IsLabelChar(s[i])
  }

  predicate IsLabelChar(c: char) {
    'a' <= c <= 'z' || '0' <= c <= '9' || c == '-'
  }

  function Upper(c: char): char {
    if 'a' <= c <= 'z' then (c as int - 32) as char
    else if c == 0x131 as char then 'I'
    else if c == 0x17F as char then 'S'
    else c
  }

  function SanitizeChar(c: char): char {
    var u := Upper(c);
    if 'A' <= u <= 'Z' || '0' <= u <= '9' then u else '_'
  }

  function Sanitize(s: string): (r: string)
    ensures |r| == |s|
  {
    seq(|s|, i requires 0 <= i < |s| => SanitizeChar(s[i]))
  }

  function Lower(s: string): (r: string)
    ensures |r| == |s|
  {
    seq(|s|, i requires 0 <= i < |s| => if 'A' <= s[i] <= 'Z' then (s[i] as int + 32) as char else s[i])
  }

  lemma SanitizeInjective(s: string, t: string)
    requires IsLabel(s) && IsLabel(t) && Sanitize(s) == Sanitize(t)
    ensures s == t
  {
    assert |s| == |t|;
    forall i | 0 <= i < |s| ensures s[i] == t[i] {
      assert Sanitize(s)[i] == Sanitize(t)[i];
    }
  }

  /** Directory names keep the label apart: no dash, no slash. */
  lemma LoweredLabel(s: string)
    requires IsLabel(s)
    ensures '-' !in Lower(Sanitize(s)) && '/' !in Lower(Sanitize(s))
  {
  }

  lemma LowerInjective(s: string, t: string)
    requires IsLabel(s) && IsLabel(t) && Lower(Sanitize(s)) == Lower(Sanitize(t))
    ensures s == t
  {
    assert |s| == |t|;
    forall i | 0 <= i < |s| ensures Sanitize(s)[i] == Sanitize(t)[i] {
      assert Lower(Sanitize(s))[i] == Lower(Sanitize(t))[i];
    }
    SanitizeInjective(s, t);
  }

  // --------------------------------------------------------------------- names

  function EnvName(database: string, role: Role, backend: string, field: string): string {
    Text.Join(["LS", Sanitize(database), RoleName(role), backend, field], ['_'])
  }

  function FileMountPath(database: string, role: Role, backend: string, filename: string): string {
    var dir := Lower(Sanitize(database)) + "-" + Lower(RoleName(role));
    SECRET_MOUNT_DIR + "/" + dir + "/" + Lower(backend) + "-" + filename
  }

  /** Words that no role can be mistaken for. */
  predicate NoRole(words: seq<string>) {
    forall i :: 0 <= i < |words| ==> words[i] != "SRC" && words[i] != "DEST"
  }

  predicate FieldOk(field: string) {
    NoRole(Split(field, '_'))
  }

  predicate BackendOk(backend: string) {
    '_' !in backend && '-' !in backend && '/' !in backend && backend != "SRC" && backend != "DEST"
  }

  lemma {:induction false} EnvWords(database: string, role: Role, backend: string, field: string)
    requires BackendOk(backend)
    ensures Split(EnvName(database, role, backend, field), '_')
      == ["LS"] + Split(Sanitize(database), '_') + [RoleName(role)] + ([backend] + Split(field, '_'))
  {
    var r, s := RoleName(role), Sanitize(database);
    var t4 := Text.Join([backend, field], ['_']);
    var t3 := Text.Join([r, backend, field], ['_']);
    var t2 := Text.Join([s, r, backend, field], ['_']);
    JoinCons("LS", [s, r, backend, field]);
    JoinCons(s, [r, backend, field]);
    JoinCons(r, [backend, field]);
    JoinCons(backend, [field]);
    SplitAt("LS", t2, '_');
    SplitAt(s, t3, '_');
    SplitAt(r, t4, '_');
    SplitAt(backend, field, '_');
    SplitWord("LS", '_');
    SplitWord(r, '_');
    SplitWord(backend, '_');
    var db, tail := Split(s, '_'), [backend] + Split(field, '_');
    Assoc(["LS"], db, [r] + tail);
    Assoc(["LS"] + db, [r], tail);
  }

  lemma {:induction false} JoinCons(s: string, ss: seq<string>)
    requires ss != []
    ensures Text.Join([s] + ss, ['_']) == s + ['_'] + Text.Join(ss, ['_'])
  {
    assert ([s] + ss)[1..] == ss;
  }

  /** The last role word of the list is where it is split. */
  lemma LastRoleInjective(a: seq<string>, r: string, b: seq<string>, c: seq<string>, q: string, d: seq<string>)
    requires a + [r] + b == c + [q] + d && NoRole(b) && NoRole(d)
    requires (r == "SRC" || r == "DEST") && (q == "SRC" || q == "DEST")
    ensures a == c && r == q && b == d
  {
    var s := a + [r] + b;
    var t := c + [q] + d;
    assert s[|a|] == r && t[|c|] == q;
    assert forall i :: 0 <= i < |b| ==> s[|a| + 1 + i] == b[i];
    assert forall i :: 0 <= i < |d| ==> t[|c| + 1 + i] == d[i];
    assert |a| == |c|;
    assert a == s[..|a|] && c == t[..|c|] && b == s[|a| + 1..] && d == t[|c| + 1..];
  }

  /** A generated variable name tells database, role, backend and field apart. */
  lemma EnvNameInjective(db: string, role: Role, backend: string, field: string,
                         db': string, role': Role, backend': string, field': string)
    requires IsLabel(db) && IsLabel(db') && BackendOk(backend) && BackendOk(backend')
    requires FieldOk(field) && FieldOk(field')
    requires EnvName(db, role, backend, field) == EnvName(db', role', backend', field')
    ensures db == db' && role == role' && backend == backend' && field == field'
  {
    EnvWords(db, role, backend, field);
    EnvWords(db', role', backend', field');
    var a, a' := ["LS"] + Split(Sanitize(db), '_'), ["LS"] + Split(Sanitize(db'), '_');
    var b, b' := [backend] + Split(field, '_'), [backend'] + Split(field', '_');
    LastRoleInjective(a, RoleName(role), b, a', RoleName(role'), b');
    assert a[1..] == Split(Sanitize(db), '_') && a'[1..] == Split(Sanitize(db'), '_');
    assert b[0] == backend && b'[0] == backend' && b[1..] == Split(field, '_') && b'[1..] == Split(field', '_');
    SplitInjective(Sanitize(db), Sanitize(db'), '_');
    SplitInjective(field, field', '_');
    SanitizeInjective(db, db');
  }

  lemma LowerRoles(role: Role, role': Role)
    requires Lower(RoleName(role)) == Lower(RoleName(role'))
    ensures role == role'
  {
    assert |RoleName(Source)| == 3 && |RoleName(Destination)| == 4;
  }

  lemma PathParts(database: string, role: Role, backend: string, filename: string)
    ensures FileMountPath(database, role, backend, filename)
      == (SECRET_MOUNT_DIR + "/") +
         (Lower(Sanitize(database)) + ['-'] + (Lower(RoleName(role)) + ['/'] + (Lower(backend) + ['-'] + filename)))
  {
    var d, r, b := Lower(Sanitize(database)), Lower(RoleName(role)), Lower(backend);
    var dir := d + "-" + r;
    assert dir + "/" + b + "-" + filename == dir + "/" + (b + ['-'] + filename);
    assert dir + "/" + (b + ['-'] + filename) == d + ['-'] + (r + ['/'] + (b + ['-'] + filename));
    assert (SECRET_MOUNT_DIR + "/") + (dir + "/" + b + "-" + filename) ==
      SECRET_MOUNT_DIR + "/" + dir + "/" + b + "-" + filename;
  }

  lemma DropPrefix(p: string, a: string, b: string)
    requires p + a == p + b
    ensures a == b
  {
    assert a == (p + a)[|p|..] && b == (p + b)[|p|..];
  }

  lemma LowerHasNo(s: string, c: char)
    requires c !in s && (c == '-' || c == '/')
    ensures c !in Lower(s)
  {
  }

  /** A mount path tells database, role, backend directory and file name apart. */
  lemma FileMountPathInjective(db: string, role: Role, backend: string, filename: string,
                               db': string, role': Role, backend': string, filename': string)
    requires IsLabel(db) && IsLabel(db') && BackendOk(backend) && BackendOk(backend')
    requires FileMountPath(db, role, backend, filename) == FileMountPath(db', role', backend', filename')
    ensures db == db' && role == role' && Lower(backend) == Lower(backend') && filename == filename'
  {
    PathParts(db, role, backend, filename);
    PathParts(db', role', backend', filename');
    LoweredLabel(db);
    LoweredLabel(db');
    LowerHasNo(backend, '-');
    LowerHasNo(backend', '-');
    LowerHasNo(RoleName(role), '/');
    LowerHasNo(RoleName(role'), '/');
    var f, f' := Lower(backend) + ['-'] + filename, Lower(backend') + ['-'] + filename';
    var r, r' := Lower(RoleName(role)), Lower(RoleName(role'));
    var d, d' := Lower(Sanitize(db)), Lower(Sanitize(db'));
    DropPrefix(SECRET_MOUNT_DIR + "/", d + ['-'] + (r + ['/'] + f), d' + ['-'] + (r' + ['/'] + f'));
    CutInjective(d, r + ['/'] + f, d', r' + ['/'] + f', '-');
    CutInjective(r, f, r', f', '/');
    CutInjective(Lower(backend), filename, Lower(backend'), filename', '-');
    LowerInjective(db, db');
    LowerRoles(role, role');
  }
}
