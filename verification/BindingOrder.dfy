/** The order of rendered bindings: by container, variable, path and Secret. */
module BindingOrder {
  import opened Credentials
  import opened Sequences
  import Text

  function Key(b: Binding): seq<string> {
    [b.purpose, b.env, b.path, b.ref.name, b.ref.key]
  }

  /** The first difference decides. */
  predicate Before(a: seq<string>, b: seq<string>)
    requires |a| == |b|
  {
    a != [] && (Text.Less(a[0], b[0]) || (a[0] == b[0] && Before(a[1..], b[1..])))
  }

  lemma {:induction false} BeforeTotal(a: seq<string>, b: seq<string>)
    requires |a| == |b|
    ensures a == b || Before(a, b) || Before(b, a)
    ensures !(Before(a, b) && Before(b, a)) && (a == b ==> !Before(a, b))
  {
    if a != [] {
      Text.LessTotal(a[0], b[0]);
      BeforeTotal(a[1..], b[1..]);
      assert a == [a[0]] + a[1..] && b == [b[0]] + b[1..];
    }
  }

  lemma {:induction false} BeforeTransitive(a: seq<string>, b: seq<string>, c: seq<string>)
    requires |a| == |b| == |c| && Before(a, b) && Before(b, c)
    ensures Before(a, c)
  {
    if Text.Less(a[0], b[0]) && Text.Less(b[0], c[0]) {
      Text.LessTransitive(a[0], b[0], c[0]);
    } else if a[0] == b[0] == c[0] {
      BeforeTransitive(a[1..], b[1..], c[1..]);
    }
  }

  predicate AtMost(x: Binding, y: Binding) {
    !Before(Key(y), Key(x))
  }

  lemma AtMostTotal(x: Binding, y: Binding)
    ensures AtMost(x, y) || AtMost(y, x)
    ensures AtMost(x, y) && AtMost(y, x) ==> x == y
  {
    BeforeTotal(Key(x), Key(y));
    var j, k := Key(x), Key(y);
    assert j == k ==> j[0] == k[0] && j[1] == k[1] && j[2] == k[2] && j[3] == k[3] && j[4] == k[4];
  }

  lemma AtMostTransitive(x: Binding, y: Binding, z: Binding)
    requires AtMost(x, y) && AtMost(y, z)
    ensures AtMost(x, z)
  {
    AtMostTotal(x, y);
    AtMostTotal(y, z);
    if !AtMost(x, z) {
      BeforeTotal(Key(x), Key(y));
      BeforeTotal(Key(y), Key(z));
      if x != y && y != z {
        BeforeTransitive(Key(x), Key(y), Key(z));
        BeforeTotal(Key(x), Key(z));
      }
    }
  }

  predicate Ordered(bs: seq<Binding>) {
    forall i, j :: 0 <= i < j < |bs| ==> AtMost(bs[i], bs[j])
  }

  function Insert(b: Binding, bs: seq<Binding>): seq<Binding> {
    if bs == [] || AtMost(b, bs[0]) then [b] + bs else [bs[0]] + Insert(b, bs[1..])
  }

  /** sortCredentialBindings. */
  function Sorted(bs: seq<Binding>): seq<Binding> {
    if bs == [] then [] else Insert(bs[0], Sorted(bs[1..]))
  }

  lemma {:induction false} InsertAddsOne(b: Binding, bs: seq<Binding>)
    ensures multiset(Insert(b, bs)) == multiset{b} + multiset(bs)
  {
    if bs == [] || AtMost(b, bs[0]) {
      MultisetCons(b, bs);
    } else {
      InsertAddsOne(b, bs[1..]);
      MultisetCons(bs[0], bs[1..]);
      MultisetCons(bs[0], Insert(b, bs[1..]));
      assert bs == [bs[0]] + bs[1..];
    }
  }

  lemma ConsOrders(b: Binding, bs: seq<Binding>)
    requires Ordered(bs) && forall x :: x in bs ==> AtMost(b, x)
    ensures Ordered([b] + bs)
  {
    var r := [b] + bs;
    forall i, j | 0 <= i < j < |r| ensures AtMost(r[i], r[j]) {
      assert r[j] == bs[j - 1] && r[j] in bs;
    }
  }

  lemma {:induction false} InsertOrders(b: Binding, bs: seq<Binding>)
    requires Ordered(bs)
    ensures Ordered(Insert(b, bs))
  {
    if bs == [] {
    } else if AtMost(b, bs[0]) {
      forall x | x in bs ensures AtMost(b, x) {
        var j :| 0 <= j < |bs| && bs[j] == x;
        if j > 0 { AtMostTransitive(b, bs[0], x); }
      }
      ConsOrders(b, bs);
    } else {
      var h, tail := bs[0], bs[1..];
      AtMostTotal(b, h);
      InsertOrders(b, tail);
      InsertAddsOne(b, tail);
      forall x | x in Insert(b, tail) ensures AtMost(h, x) {
        assert x in multiset(Insert(b, tail));
      }
      ConsOrders(h, Insert(b, tail));
    }
  }

  /** The same bindings, in order. */
  lemma {:induction false} SortedIsOrdered(bs: seq<Binding>)
    ensures Ordered(Sorted(bs)) && multiset(Sorted(bs)) == multiset(bs)
  {
    if bs != [] {
      SortedIsOrdered(bs[1..]);
      InsertOrders(bs[0], Sorted(bs[1..]));
      InsertAddsOne(bs[0], Sorted(bs[1..]));
      MultisetCons(bs[0], bs[1..]);
      assert bs == [bs[0]] + bs[1..];
    }
  }

  lemma FirstIsLeast(a: seq<Binding>, x: Binding)
    requires Ordered(a) && x in multiset(a)
    ensures a != [] && AtMost(a[0], x)
  {
    var i :| 0 <= i < |a| && a[i] == x;
    AtMostTotal(x, x);
  }

  /** There is only one order of the same bindings. */
  lemma {:induction false} OrderedIsUnique(a: seq<Binding>, b: seq<Binding>)
    requires Ordered(a) && Ordered(b) && multiset(a) == multiset(b)
    ensures a == b
  {
    if a == [] {
      assert |multiset(a)| == |a| && |multiset(b)| == |b|;
    } else {
      SameFirst(a, b);
      SameTail(a, b);
      OrderedIsUnique(a[1..], b[1..]);
    }
  }

  lemma SameFirst(a: seq<Binding>, b: seq<Binding>)
    requires Ordered(a) && Ordered(b) && multiset(a) == multiset(b) && a != []
    ensures b != [] && a[0] == b[0]
  {
    assert a[0] in multiset(b);
    FirstIsLeast(b, a[0]);
    assert b[0] in multiset(a);
    FirstIsLeast(a, b[0]);
    AtMostTotal(a[0], b[0]);
  }

  /** What is sorted last does not depend on where it came from. */
  lemma {:induction false} SortedIgnoresOrder(a: seq<Binding>, b: seq<Binding>)
    requires multiset(a) == multiset(b)
    ensures Sorted(a) == Sorted(b)
  {
    SortedIsOrdered(a);
    SortedIsOrdered(b);
    OrderedIsUnique(Sorted(a), Sorted(b));
  }

  // ------------------------------------------------- the order of databases

  ghost function Part(d: Database): multiset<Binding> {
    multiset(DatabaseBindings(d))
  }

  lemma {:induction false} BindingsAre(ds: seq<Database>)
    ensures multiset(AllBindings(ds)) == Total(ds, Part)
  {
    if ds != [] {
      BindingsAre(ds[..|ds| - 1]);
    }
  }

  /** The rendered bindings do not depend on the order of the databases. */
  lemma {:induction false} BindingsIgnoreOrder(ds: seq<Database>, es: seq<Database>)
    requires multiset(ds) == multiset(es)
    ensures Sorted(AllBindings(ds)) == Sorted(AllBindings(es))
  {
    SameTotals(ds, es, Part);
    BindingsAre(ds);
    BindingsAre(es);
    SortedIgnoresOrder(AllBindings(ds), AllBindings(es));
  }
}
