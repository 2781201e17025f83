/** Text compared character by character, as `bytes.Compare` and `sort.Strings` do. */
module Text {
  const NUL := 0 as char

  /** `strings.Join`. */
  function Join(ss: seq<string>, sep: string): string {
    if ss == [] then ""
    else if |ss| == 1 then ss[0]
    else ss[0] + sep + Join(ss[1..], sep)
  }

  predicate Less(a: string, b: string) {
    b != [] && (a == [] || a[0] < b[0] || (a[0] == b[0] && Less(a[1..], b[1..])))
  }

  lemma {:induction false} LessTotal(a: string, b: string)
    ensures a == b || Less(a, b) || Less(b, a)
    ensures !(Less(a, b) && Less(b, a))
    ensures a == b ==> !Less(a, b)
  {
    if a != [] && b != [] {
      LessTotal(a[1..], b[1..]);
      assert a == [a[0]] + a[1..] && b == [b[0]] + b[1..];
    }
  }

  lemma {:induction false} LessTransitive(a: string, b: string, c: string)
    requires Less(a, b) && Less(b, c)
    ensures Less(a, c)
  {
    if a != [] && a[0] == b[0] == c[0] {
      LessTransitive(a[1..], b[1..], c[1..]);
    }
  }

  predicate Ascending(ss: seq<string>) {
    forall i, j :: 0 <= i < j < |ss| ==> Less(ss[i], ss[j])
  }

  function Elements(ss: seq<string>): set<string> {
    set s | s in ss
  }

  function Insert(s: string, ss: seq<string>): (r: seq<string>)
    ensures forall x :: x in r <==> x == s || x in ss
  {
    if ss == [] then [s]
    else if Less(ss[0], s) then
      assert forall x :: x in ss <==> x == ss[0] || x in ss[1..];
      [ss[0]] + Insert(s, ss[1..])
    else [s] + ss
  }

  lemma {:induction false} ConsAscends(s: string, ss: seq<string>)
    requires Ascending(ss) && forall x :: x in ss ==> Less(s, x)
    ensures Ascending([s] + ss)
  {
    var r := [s] + ss;
    forall i, j | 0 <= i < j < |r| ensures Less(r[i], r[j]) {
      assert r[j] == ss[j - 1] && r[j] in ss;
    }
  }

  lemma {:induction false} BeforeFirst(s: string, ss: seq<string>)
    requires Ascending(ss) && ss != [] && Less(s, ss[0])
    ensures forall x :: x in ss ==> Less(s, x)
  {
    forall x | x in ss ensures Less(s, x) {
      var j :| 0 <= j < |ss| && ss[j] == x;
      if j > 0 { LessTransitive(s, ss[0], ss[j]); }
    }
  }

  lemma {:induction false} InsertAscends(s: string, ss: seq<string>)
    requires Ascending(ss) && s !in ss
    ensures Ascending(Insert(s, ss))
  {
    if ss != [] {
      var h, t := ss[0], ss[1..];
      if Less(h, s) {
        InsertAscends(s, t);
        assert forall x :: x in t ==> Less(h, x);
        ConsAscends(h, Insert(s, t));
      } else {
        LessTotal(h, s);
        BeforeFirst(s, ss);
        ConsAscends(s, ss);
      }
    }
  }

  /** Distinct strings in ascending order, whatever order they come in. */
  method Sort(ss: seq<string>) returns (r: seq<string>)
    requires forall i, j :: 0 <= i < j < |ss| ==> ss[i] != ss[j]
    ensures Ascending(r) && Elements(r) == Elements(ss)
  {
    r := [];
    for i := 0 to |ss|
      invariant Ascending(r)
      invariant forall x :: x in r <==> x in ss[..i]
    {
      InsertAscends(ss[i], r);
      r := Insert(ss[i], r);
    }
    assert ss[..|ss|] == ss;
  }

  /** There is only one ascending list of a set. */
  lemma {:induction false} AscendingIsUnique(a: seq<string>, b: seq<string>)
    requires Ascending(a) && Ascending(b) && Elements(a) == Elements(b)
    ensures a == b
    decreases |a|
  {
    if a == [] {
      HasElements(b);
    } else {
      HasElements(a);
      LeastComesFirst(a, b);
      RestHasRest(a, b);
      RestHasRest(b, a);
      AscendingIsUnique(a[1..], b[1..]);
      assert a == [a[0]] + a[1..] && b == [b[0]] + b[1..];
    }
  }

  lemma HasElements(ss: seq<string>)
    ensures Elements(ss) == {} <==> ss == []
  {
    if ss != [] {
      assert ss[0] in Elements(ss);
    }
  }

  lemma LeastComesFirst(a: seq<string>, b: seq<string>)
    requires Ascending(a) && Ascending(b) && Elements(a) == Elements(b) && a != [] && b != []
    ensures a[0] == b[0]
  {
    assert a[0] in Elements(b) && b[0] in Elements(a);
    var i :| 0 <= i < |b| && b[i] == a[0];
    var j :| 0 <= j < |a| && a[j] == b[0];
    LessTotal(a[0], b[0]);
  }

  lemma RestHasRest(a: seq<string>, b: seq<string>)
    requires Ascending(a) && Elements(a) == Elements(b) && a != [] && b != [] && a[0] == b[0]
    ensures Elements(a[1..]) <= Elements(b[1..])
  {
    forall x | x in Elements(a[1..]) ensures x in Elements(b[1..]) {
      var i :| 0 < i < |a| && a[i] == x;
      LessTotal(a[0], x);
      assert x in Elements(a);
      assert b == [b[0]] + b[1..];
    }
  }
}
