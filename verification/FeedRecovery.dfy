/** Catching up on a Mastodon timeline across crashes. Three cursors are stored
    one by one: `committed`, below which everything was seen; `ceiling`, the
    newest status of the window being drained; and `next`, where the window's
    next page starts. An absent or empty cursor is `None`. */
module FeedRecovery {
  import opened Sequences
  import opened Wrappers

  datatype Status = Status(id: int, uri: string, createdAt: int)

  datatype Page = Page(statuses: seq<Status>, nextMaxID: Option<int>)

  predicate After(since: Option<int>, id: int) {
    since.None? || id > since.value
  }

  predicate Before(id: int, max: Option<int>) {
    max.None? || id < max.value
  }

  /** A timeline page: newest first, strictly between the two ids, and without
      holes down to `nextMaxID`, or down to `since` when that is empty. */
  ghost predicate PageOf(timeline: set<Status>, since: Option<int>, max: Option<int>, page: Page) {
    && (forall i :: 0 <= i < |page.statuses| ==>
         page.statuses[i] in timeline && After(since, page.statuses[i].id) && Before(page.statuses[i].id, max))
    && (forall i, j :: 0 <= i < j < |page.statuses| ==> page.statuses[i].id > page.statuses[j].id)
    && (forall s | s in timeline && After(since, s.id) && Before(s.id, max) ::
         page.nextMaxID.None? || s.id >= page.nextMaxID.value ==> s in page.statuses)
  }

  /** Oldest first, keeping the order of equal times. */
  function InsertByTime(s: Status, sorted: seq<Status>): seq<Status> {
    if sorted == [] then [s]
    else if sorted[0].createdAt < s.createdAt then [sorted[0]] + InsertByTime(s, sorted[1..])
    else [s] + sorted
  }

  lemma {:induction false} InsertAddsOne(s: Status, sorted: seq<Status>)
    ensures multiset(InsertByTime(s, sorted)) == multiset(sorted) + multiset{s}
  {
    if sorted != [] && sorted[0].createdAt < s.createdAt {
      var h, tail := sorted[0], sorted[1..];
      InsertAddsOne(s, tail);
      assert sorted == [h] + tail;
      MultisetCons(h, tail);
      MultisetCons(h, InsertByTime(s, tail));
    } else {
      MultisetCons(s, sorted);
    }
  }

  lemma {:induction false} InsertKeepsOrder(s: Status, sorted: seq<Status>)
    requires ByTime(sorted)
    ensures ByTime(InsertByTime(s, sorted))
  {
    if sorted != [] && sorted[0].createdAt < s.createdAt {
      var rest := InsertByTime(s, sorted[1..]);
      InsertKeepsOrder(s, sorted[1..]);
      forall i | 0 <= i < |rest| ensures sorted[0].createdAt <= rest[i].createdAt {
        InsertedFrom(s, sorted[1..], rest[i]);
      }
    }
  }

  lemma {:induction false} InsertedFrom(s: Status, sorted: seq<Status>, x: Status)
    requires x in InsertByTime(s, sorted)
    ensures x == s || x in sorted
  {
    InsertAddsOne(s, sorted);
    assert x in multiset(InsertByTime(s, sorted));
  }

  predicate ByTime(ss: seq<Status>) {
    forall i, j :: 0 <= i < j < |ss| ==> ss[i].createdAt <= ss[j].createdAt
  }

  function SortByTime(ss: seq<Status>): (r: seq<Status>)
    ensures multiset(r) == multiset(ss) && ByTime(r)
  {
    if ss == [] then [] else
      assert ss == [ss[0]] + ss[1..];
      var rest := SortByTime(ss[1..]);
      InsertKeepsOrder(ss[0], rest);
      InsertAddsOne(ss[0], rest);
      InsertByTime(ss[0], rest)
  }

  /** The statuses of one time, in their order. */
  function AtTime(ss: seq<Status>, t: int): seq<Status> {
    if ss == [] then [] else (if ss[0].createdAt == t then [ss[0]] else []) + AtTime(ss[1..], t)
  }

  lemma {:induction false} AtTimeCons(s: Status, ss: seq<Status>, t: int)
    ensures AtTime([s] + ss, t) == (if s.createdAt == t then [s] + AtTime(ss, t) else AtTime(ss, t))
  {
    assert ([s] + ss)[1..] == ss;
  }

  lemma {:induction false} InsertIsStable(s: Status, sorted: seq<Status>, t: int)
    ensures AtTime(InsertByTime(s, sorted), t) == AtTime([s] + sorted, t)
  {
    if sorted != [] && sorted[0].createdAt < s.createdAt {
      InsertIsStable(s, sorted[1..], t);
      SwapKeepsTimes(sorted[0], s, InsertByTime(s, sorted[1..]), sorted[1..], t);
      assert sorted == [sorted[0]] + sorted[1..];
    }
  }

  /** Statuses of different times may change places. */
  lemma {:induction false} SwapKeepsTimes(h: Status, s: Status, rest: seq<Status>, tail: seq<Status>, t: int)
    requires h.createdAt != s.createdAt && AtTime(rest, t) == AtTime([s] + tail, t)
    ensures AtTime([h] + rest, t) == AtTime([s] + ([h] + tail), t)
  {
    AtTimeCons(h, rest, t);
    AtTimeCons(s, tail, t);
    AtTimeCons(s, [h] + tail, t);
    AtTimeCons(h, tail, t);
  }

  /** Statuses of equal time keep their order. */
  lemma {:induction false} SortIsStable(ss: seq<Status>, t: int)
    ensures AtTime(SortByTime(ss), t) == AtTime(ss, t)
  {
    if ss != [] {
      var rest := SortByTime(ss[1..]);
      SortIsStable(ss[1..], t);
      InsertIsStable(ss[0], rest, t);
      AtTimeCons(ss[0], rest, t);
    }
  }

  /** Everything above `since`, from `from` on up to `roof`, is done. */
  ghost predicate Swept(timeline: set<Status>, since: Option<int>, from: Option<int>, roof: int, done: set<string>) {
    forall s :: s in timeline && After(since, s.id) && (from.None? || from.value <= s.id) && s.id <= roof ==>
      s.uri in done
  }

  /** Handling one page moves the swept range down to where the page ends. */
  lemma PageSweeps(seen: set<Status>, timeline: set<Status>, since: Option<int>, max: Option<int>, page: Page,
                   roof: int, done: set<string>)
    requires PageOf(seen, since, max, page)
    requires forall s :: s in timeline && s.id <= roof ==> s in seen
    requires forall i :: 0 <= i < |page.statuses| ==> page.statuses[i].uri in done
    requires max.Some? ==> Swept(timeline, since, max, roof, done)
    ensures Swept(timeline, since, page.nextMaxID, roof, done)
  {
    var low := page.nextMaxID;
    forall s | s in timeline && After(since, s.id) && (low.None? || low.value <= s.id) && s.id <= roof
      ensures s.uri in done
    {
      if Before(s.id, max) {
        assert s in page.statuses;
      }
    }
  }

  /** What happens around the recovery: posts appear on top, posts are deleted. */
  datatype Change = Change(added: set<Status>, removed: set<Status>, top: int)

  class Feed {
    // stored cursors
    var committed: Option<int>
    var ceiling: Option<int>
    var next: Option<int>
    // the remote timeline, and the newest id it has ever shown
    ghost var timeline: set<Status>
    ghost var top: int
    // URIs the bridge has handled
    var handled: set<string>
    // URIs handled or found not to belong to a target
    ghost var done: set<string>

    /** Whatever lies at or below `committed` is done, and so is whatever lies
        between `next` and the ceiling of the open window. */
    ghost predicate Valid()
      reads this
    {
      && (forall s :: s in timeline ==> s.id <= top)
      && (ceiling.Some? ==> ceiling.value <= top)
      && (committed.Some? ==> committed.value <= top && Swept(timeline, None, None, committed.value, done))
      && (ceiling.Some? && next.Some? ==> Swept(timeline, committed, next, ceiling.value, done))
    }

    constructor ()
      ensures Valid() && committed == None && ceiling == None && next == None
    {
      committed, ceiling, next := None, None, None;
      timeline, top, handled, done := {}, 0, {}, {};
    }

    /** Nothing at or below `mark` appeared since `seen` was the timeline. */
    ghost predicate OldStatuses(seen: set<Status>, mark: int)
      reads this`timeline, this`top
    {
      mark <= top && forall s :: s in timeline && s.id <= mark ==> s in seen
    }

    /** New posts always get ids above everything shown before. */
    ghost method Happens(c: Change, seen: set<Status>, mark: int)
      requires Valid() && OldStatuses(seen, mark)
      modifies this`timeline, this`top
      ensures Valid() && OldStatuses(seen, mark)
      ensures old(top) <= top && forall s :: s in timeline && s.id <= old(top) ==> s in old(timeline)
    {
      var newTop := if c.top > top then c.top else top;
      timeline := (timeline - c.removed) + (set s | s in c.added && top < s.id <= newTop);
      top := newTop;
    }

    /** Every status between the old boundary and the new one is done. */
    ghost predicate NoGap(since: Option<int>)
      reads this
    {
      committed.Some? ==> committed.value <= top && Swept(timeline, since, None, committed.value, done)
    }

    /** One call. The process may die, or the store may fail, after any number
        `lives` of durable operations; `handles(i)` tells whether handling status
        `i` succeeds and `target` whom the bridge follows; `world(i)` is what the
        timeline does after operation `i`. Whenever the boundary moves, nothing
        between the old and the new one was missed. */
    method RecoverFeed(page: Option<Page>, lives: nat, handles: nat -> bool, target: Status -> bool,
                       world: nat -> Change)
      returns (ok: bool, used: nat)
      requires Valid() && (page.Some? ==> PageOf(timeline, committed, next, page.value))
      modifies this
      ensures Valid()
      ensures committed != old(committed) ==> NoGap(old(committed))
      ensures old(done) <= done && old(handled) <= handled
      ensures page.Some? ==> Justified(old(done), page.value.statuses, target)
      ensures ok ==> page.Some? && used == |page.value.statuses|
      ensures ok && page.value.nextMaxID.Some? ==> next == page.value.nextMaxID && committed == old(committed)
      ensures ok && page.value.nextMaxID.None? ==>
        && ceiling == None && next == None
        && committed == (if old(ceiling).Some? then old(ceiling)
                         else if page.value.statuses != [] then Some(page.value.statuses[0].id) else old(committed))
    {
      var left := lives;
      used := 0;
      if page.None? {
        return false, 0;
      }
      ghost var seen, mark := timeline, top;
      ok, left := SweepPage(page.value, left, handles, target, world, seen, mark);
      if !ok {
        return false, 0;
      }
      if page.value.nextMaxID.Some? {
        if left == 0 {
          return false, 0;
        }
        next := page.value.nextMaxID;
        return true, |page.value.statuses|;
      }
      ok := CloseWindow(ceiling, left, world, seen, mark);
      used := if ok then |page.value.statuses| else 0;
    }

    /** Everything on the page is handled, under the window it opens if none is. */
    method SweepPage(page: Page, lives: nat, handles: nat -> bool, target: Status -> bool,
                     world: nat -> Change, ghost seen: set<Status>, ghost mark: int)
      returns (ok: bool, left: nat)
      requires Valid() && seen == timeline && mark == top && PageOf(timeline, committed, next, page)
      modifies this`ceiling, this`timeline, this`top, this`handled, this`done
      ensures Valid() && OldStatuses(seen, mark)
      ensures old(done) <= done && old(handled) <= handled && Justified(old(done), page.statuses, target)
      ensures ok ==>
        ceiling == if old(ceiling).None? && page.statuses != [] then Some(page.statuses[0].id) else old(ceiling)
      ensures ok && ceiling.Some? ==> Swept(timeline, committed, page.nextMaxID, ceiling.value, done)
    {
      ok, left := OpenWindow(page.statuses, lives, world, seen, mark);
      if !ok {
        return;
      }
      var roof := ceiling;
      ok, left := HandleAll(page.statuses, left, handles, target, world, seen, mark);
      if ok && roof.Some? {
        PageSweeps(seen, timeline, committed, next, page, roof.value, done);
      }
    }

    /** A window opens at the newest status of its first page. */
    method OpenWindow(statuses: seq<Status>, lives: nat, world: nat -> Change, ghost seen: set<Status>, ghost mark: int)
      returns (ok: bool, left: nat)
      requires Valid() && OldStatuses(seen, mark)
      requires ceiling.None? && statuses != [] ==>
        statuses[0].id <= mark && (next.Some? ==> statuses[0].id < next.value)
      modifies this`ceiling, this`timeline, this`top
      ensures Valid() && OldStatuses(seen, mark) && left <= lives
      ensures ok ==> ceiling == if old(ceiling).None? && statuses != [] then Some(statuses[0].id) else old(ceiling)
    {
      left := lives;
      if ceiling.None? && statuses != [] {
        if left == 0 {
          return false, left;
        }
        ceiling, left := Some(statuses[0].id), left - 1;
        Happens(world(left), seen, mark);
      }
      ok := true;
    }

    /** The window is drained: its ceiling becomes the boundary, then the window
        is cleared, in three separate writes. */
    method CloseWindow(roof: Option<int>, lives: nat, world: nat -> Change, ghost seen: set<Status>, ghost mark: int)
      returns (ok: bool)
      requires Valid() && OldStatuses(seen, mark)
      requires roof == ceiling && (roof.Some? ==> Swept(timeline, committed, None, roof.value, done))
      modifies this`committed, this`ceiling, this`next, this`timeline, this`top
      ensures Valid()
      ensures committed == old(committed) || (committed == roof && NoGap(old(committed)))
      ensures ok ==> ceiling == None && next == None && committed == (if roof.Some? then roof else old(committed))
    {
      var left := lives;
      if roof.Some? {
        if left == 0 {
          return false;
        }
        committed, left := roof, left - 1;
        Happens(world(left), seen, mark);
        assert NoGap(old(committed));
      }
      if left == 0 {
        return false;
      }
      ceiling, left := None, left - 1;
      Happens(world(left), seen, mark);
      if left == 0 {
        return false;
      }
      next := None;
      return true;
    }

    /** Whatever was done since `before` was handled, or is on the page and not a target. */
    ghost predicate Justified(before: set<string>, statuses: seq<Status>, target: Status -> bool)
      reads this`done, this`handled
    {
      forall u :: u in done && u !in before ==> u in handled || Skips(u, statuses, target)
    }

    ghost predicate Skips(u: string, statuses: seq<Status>, target: Status -> bool) {
      exists s :: s in statuses && s.uri == u && !target(s)
    }

    ghost method MarkDone(uri: string)
      requires Valid()
      modifies this`done
      ensures Valid() && done == old(done) + {uri}
    {
      done := done + {uri};
    }

    /** One status: handled if it belongs to a target. */
    method HandleOne(s: Status, lives: nat, handles: bool, target: Status -> bool, change: Change,
                     ghost seen: set<Status>, ghost mark: int)
      returns (ok: bool, left: nat)
      requires Valid() && OldStatuses(seen, mark)
      modifies this`timeline, this`top, this`handled, this`done
      ensures Valid() && OldStatuses(seen, mark) && left <= lives && old(handled) <= handled
      ensures !ok ==> done == old(done)
      ensures ok ==> done == old(done) + {s.uri} && (target(s) ==> s.uri in handled)
    {
      left := lives;
      if target(s) {
        if left == 0 || !handles {
          return false, left;
        }
        handled, left := handled + {s.uri}, left - 1;
      }
      MarkDone(s.uri);
      Happens(change, seen, mark);
      ok := true;
    }

    /** Statuses oldest first, each URI once; the first failure stops. */
    method HandleAll(statuses: seq<Status>, lives: nat, handles: nat -> bool, target: Status -> bool,
                     world: nat -> Change, ghost seen: set<Status>, ghost mark: int)
      returns (ok: bool, left: nat)
      requires Valid() && OldStatuses(seen, mark)
      modifies this`timeline, this`top, this`handled, this`done
      ensures Valid() && OldStatuses(seen, mark)
      ensures old(done) <= done && old(handled) <= handled && left <= lives
      ensures Justified(old(done), statuses, target)
      ensures ok ==> forall i :: 0 <= i < |statuses| ==> statuses[i].uri in done
    {
      var sorted := SortByTime(statuses);
      SortedAre(statuses, sorted);
      var urisSeen: set<string> := {};
      left := lives;
      for i := 0 to |sorted|
        invariant Valid() && OldStatuses(seen, mark) && left <= lives
        invariant old(done) <= done && old(handled) <= handled && Justified(old(done), statuses, target)
        invariant urisSeen <= done && forall k :: 0 <= k < i ==> sorted[k].uri in urisSeen
      {
        var s := sorted[i];
        if s.uri !in urisSeen {
          urisSeen := urisSeen + {s.uri};
          ok, left := HandleOne(s, left, handles(i), target, world(left), seen, mark);
          if !ok {
            return;
          }
          assert s in statuses;
        }
      }
      forall i | 0 <= i < |statuses| ensures statuses[i].uri in done {
        assert statuses[i] in sorted;
      }
      ok := true;
    }
  }

  lemma SortedAre(statuses: seq<Status>, sorted: seq<Status>)
    requires multiset(sorted) == multiset(statuses)
    ensures forall s :: s in sorted <==> s in statuses
  {
    forall s ensures s in sorted <==> s in statuses {
      assert s in sorted <==> s in multiset(sorted);
      assert s in statuses <==> s in multiset(statuses);
    }
  }
}
