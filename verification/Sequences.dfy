/** Facts about sequences and sets that the solver is slow to find. */
module Sequences {
  lemma Assoc<T>(a: seq<T>, b: seq<T>, c: seq<T>)
    ensures a + b + c == a + (b + c)
  {
  }

  lemma TakeNext<T>(s: seq<T>, i: nat)
    requires i < |s|
    ensures s[..i + 1] == s[..i] + [s[i]] && s[..i + 1][..i] == s[..i]
  {
  }

  lemma TakeAll<T>(s: seq<T>)
    ensures s[..|s|] == s
  {
  }

  lemma DropFirst<T>(s: seq<T>, t: seq<T>)
    requires s != []
    ensures (s + t)[0] == s[0] && (s + t)[1..] == s[1..] + t
  {
  }

  lemma MultisetCons<T>(x: T, s: seq<T>)
    ensures multiset([x] + s) == multiset{x} + multiset(s)
  {
  }

  lemma MultisetCancel<T>(c: multiset<T>, a: multiset<T>, b: multiset<T>)
    requires c + a == c + b
    ensures a == b
  {
    assert a == (c + a) - c;
  }

  lemma Commute<T>(a: multiset<T>, b: multiset<T>, c: multiset<T>)
    ensures a + b + c == a + c + b
  {
  }

  lemma SameTail<T>(a: seq<T>, b: seq<T>)
    requires a != [] && b != [] && a[0] == b[0] && multiset(a) == multiset(b)
    ensures multiset(a[1..]) == multiset(b[1..])
  {
    MultisetCons(a[0], a[1..]);
    MultisetCons(b[0], b[1..]);
    assert a == [a[0]] + a[1..] && b == [b[0]] + b[1..];
    MultisetCancel(multiset{a[0]}, multiset(a[1..]), multiset(b[1..]));
  }

  // ------------------------------------------------------------------- totals

  /** The sum of a part for each element. */
  ghost function Total<T, U>(xs: seq<T>, part: T -> multiset<U>): multiset<U> {
    if xs == [] then multiset{} else Total(xs[..|xs| - 1], part) + part(xs[|xs| - 1])
  }

  lemma {:induction false} TotalLast<T, U>(xs: seq<T>, init: seq<T>, x: T, part: T -> multiset<U>)
    requires xs == init + [x]
    ensures Total(xs, part) == Total(init, part) + part(x)
  {
    assert xs[..|init|] == init;
  }

  lemma {:induction false} TotalWithout<T, U>(before: seq<T>, x: T, after: seq<T>, part: T -> multiset<U>)
    ensures Total(before + [x] + after, part) == Total(before + after, part) + part(x)
    decreases |after|
  {
    if after == [] {
      assert before + [x] + after == before + [x] && before + after == before;
      TotalLast(before + [x], before, x, part);
    } else {
      var n := |after| - 1;
      var init, y := after[..n], after[n];
      assert after == init + [y];
      TotalWithout(before, x, init, part);
      Assoc(before + [x], init, [y]);
      Assoc(before, init, [y]);
      TotalLast(before + [x] + after, before + [x] + init, y, part);
      TotalLast(before + after, before + init, y, part);
      Commute(Total(before + init, part), part(x), part(y));
    }
  }

  lemma TakeOut<T>(ys: seq<T>, x: T, rest: seq<T>, xs: seq<T>) returns (before: seq<T>, after: seq<T>)
    requires multiset(ys) == multiset(xs) && xs == rest + [x]
    ensures ys == before + [x] + after && multiset(before + after) == multiset(rest)
  {
    assert x in multiset(xs);
    var i :| 0 <= i < |ys| && ys[i] == x;
    before, after := ys[..i], ys[i + 1..];
    assert ys == before + [x] + after;
    assert multiset(ys) == multiset{x} + multiset(before + after);
    assert multiset(xs) == multiset{x} + multiset(rest);
    MultisetCancel(multiset{x}, multiset(before + after), multiset(rest));
  }

  /** A total does not depend on the order. */
  lemma {:induction false} SameTotals<T, U>(xs: seq<T>, ys: seq<T>, part: T -> multiset<U>)
    requires multiset(xs) == multiset(ys)
    ensures Total(xs, part) == Total(ys, part)
    decreases |xs|
  {
    if xs == [] {
      assert |multiset(xs)| == |xs| && |multiset(ys)| == |ys|;
    } else {
      var n := |xs| - 1;
      assert xs == xs[..n] + [xs[n]];
      var before, after := TakeOut(ys, xs[n], xs[..n], xs);
      SameTotals(xs[..n], before + after, part);
      TotalWithout(before, xs[n], after, part);
    }
  }

  lemma Element<T>(s: set<T>) returns (x: T)
    requires s != {}
    ensures x in s
  {
    x :| x in s;
  }
}
