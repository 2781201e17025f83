/** What every step of the outbox keeps, and the theorems about whole runs. */
module OutboxInvariants {
  import opened Nostr
  import opened Outbox
  import opened OutboxRuns
  import opened Sequences

  // ------------------------------------------------------------- the invariant

  /** Rows of an aggregate belong to its publisher, and only the head is claimed. */
  ghost predicate QueueOk(q: seq<Job>, a: Key, nextId: int) {
    forall i :: 0 <= i < |q| ==>
      0 < q[i].id < nextId && q[i].aggregate == a && q[i].pubkey == a && (i > 0 ==> q[i].token == "")
  }

  ghost predicate JobsOk(b: Bridge) {
    0 < b.nextId && forall a :: a in b.queues ==> QueueOk(b.queues[a], a, b.nextId)
  }

  ghost predicate DistinctIds(b: Bridge) {
    forall a, i, j :: a in b.queues && 0 <= i < j < |b.queues[a]| ==> b.queues[a][i].id != b.queues[a][j].id
  }

  ghost predicate DisjointIds(b: Bridge) {
    forall a, x, i, j :: a in b.queues && x in b.queues && a != x && 0 <= i < |b.queues[a]| && 0 <= j < |b.queues[x]|
      ==> b.queues[a][i].id != b.queues[x][j].id
  }

  /** Every publish has an allow ahead of it, unless the publisher is registered. */
  ghost predicate Covered(q: seq<Job>, registered: bool) {
    registered ||
    forall i :: 0 <= i < |q| && q[i].operation == PublishEvent ==>
      exists j :: 0 <= j < i && q[j].operation == AllowPublisher
  }

  ghost predicate AllCovered(b: Bridge) {
    forall a :: a in b.queues ==> Covered(b.queues[a], a in b.registered)
  }

  ghost predicate UnallowLast(q: seq<Job>) {
    && q != []
    && q[|q| - 1].operation == UnallowPublisher
    && forall i :: 0 <= i < |q| - 1 ==> q[i].operation != UnallowPublisher
  }

  /** Nothing of the author is left: no row, no registration, no mapping. */
  ghost predicate Gone(b: Bridge, a: Key) {
    && Queue(b, a) == []
    && a !in b.registered
    && forall ref :: ref in b.mappings ==> b.mappings[ref].author != a
  }

  ghost predicate PurgesOk(b: Bridge) {
    && (forall a :: a in b.queues && a !in b.purges ==> !HasOperation(b.queues[a], UnallowPublisher))
    && (forall a :: a in b.purges ==> UnallowLast(Queue(b, a)) || Gone(b, a))
  }

  /** No source operation outlives its mapping. */
  ghost predicate RecordsOk(b: Bridge) {
    b.operations.Keys <= b.mappings.Keys
  }

  ghost predicate Sound(b: Bridge) {
    JobsOk(b) && DistinctIds(b) && DisjointIds(b) && AllCovered(b) && PurgesOk(b) && RecordsOk(b)
  }

  ghost predicate Matches(i: Item, j: Job) {
    i.operation == j.operation && i.aggregate == j.aggregate && i.pubkey == j.pubkey && i.payload == j.payload
  }

  ghost predicate SameClaim(i: Item, j: Job) {
    i.id == j.id && i.token == j.token
  }

  /** A claim that is still current describes the row as it is now. */
  ghost predicate ClaimsOk(b: Bridge, issued: set<Item>) {
    && (forall i :: i in issued ==> i.token != "" && i.id < b.nextId)
    && (forall i, a, k :: i in issued && a in b.queues && 0 <= k < |b.queues[a]| && SameClaim(i, b.queues[a][k])
          ==> Matches(i, b.queues[a][k]))
  }

  function Publishes(q: seq<Job>): seq<Payload> {
    if q == [] then []
    else (if q[0].operation == PublishEvent then [q[0].payload] else []) + Publishes(q[1..])
  }

  function ToPublish(b: Bridge, a: Key): seq<Payload> {
    Publishes(Queue(b, a))
  }

  /** Completed, then pending in queue order, is exactly what was enqueued. */
  ghost predicate InOrder(w: World) {
    forall a :: Log(w.completed, a) + ToPublish(w.b, a) == Log(w.enqueued, a)
  }

  ghost predicate DeletionOk(w: World, a: Key) {
    && a in w.deletions
    && a in w.b.purges
    && IdsByAuthor(w.b, a) <= TaggedIds(w.deletions[a].tags)
    && Json(w.deletions[a]) in Log(w.enqueued, a)
  }

  ghost predicate DeletionsOk(w: World) {
    forall a :: a in w.b.purges ==> DeletionOk(w, a)
  }

  ghost predicate Inv(w: World) {
    Sound(w.b) && ClaimsOk(w.b, w.issued) && InOrder(w) && DeletionsOk(w)
  }

  // ----------------------------------------------------------------- appending

  ghost predicate Admissible(b: Bridge, r: OutboxRequest) {
    && r.aggregateKey == r.pubkey
    && r.pubkey !in b.purges
    && (r.operation == AllowPublisher
        || (r.operation == PublishEvent && RegisteredOrPending(b, r.pubkey, r.aggregateKey)))
  }

  ghost predicate AllAdmissible(b: Bridge, rs: seq<OutboxRequest>)
    decreases rs
  {
    rs == [] || (Admissible(b, rs[0]) && AllAdmissible(Append(b, rs[0]), rs[1..]))
  }

  lemma AppendKeepsJobs(b: Bridge, r: OutboxRequest)
    requires JobsOk(b) && r.aggregateKey == r.pubkey
    ensures JobsOk(Append(b, r))
  {
    var b' := Append(b, r);
    assert QueueOk(Queue(b, r.aggregateKey), r.aggregateKey, b.nextId);
    forall a | a in b'.queues ensures QueueOk(b'.queues[a], a, b'.nextId) {
      if a != r.aggregateKey {
        assert QueueOk(b.queues[a], a, b.nextId);
      }
    }
  }

  lemma AppendKeepsIds(b: Bridge, r: OutboxRequest)
    requires JobsOk(b) && DistinctIds(b) && DisjointIds(b)
    ensures DistinctIds(Append(b, r)) && DisjointIds(Append(b, r))
  {
    var b' := Append(b, r);
    var n := |Queue(b, r.aggregateKey)|;
    forall a, i, j | a in b'.queues && 0 <= i < j < |b'.queues[a]|
      ensures b'.queues[a][i].id != b'.queues[a][j].id
    {
      assert a in b.queues ==> QueueOk(b.queues[a], a, b.nextId);
    }
    forall a, x, i, j | a in b'.queues && x in b'.queues && a != x && 0 <= i < |b'.queues[a]| && 0 <= j < |b'.queues[x]|
      ensures b'.queues[a][i].id != b'.queues[x][j].id
    {
      assert a in b.queues ==> QueueOk(b.queues[a], a, b.nextId);
      assert x in b.queues ==> QueueOk(b.queues[x], x, b.nextId);
    }
  }

  lemma AppendKeepsCover(b: Bridge, r: OutboxRequest)
    requires AllCovered(b) && Admissible(b, r)
    ensures AllCovered(Append(b, r))
  {
    var q := Queue(b, r.aggregateKey);
    var b' := Append(b, r);
    forall a | a in b'.queues ensures Covered(b'.queues[a], a in b'.registered) {
      if a == r.aggregateKey {
        assert Covered(q, a in b.registered);
        assert b'.queues[a][..|q|] == q;
      }
    }
  }

  lemma AppendKeepsPurges(b: Bridge, r: OutboxRequest)
    requires PurgesOk(b) && Admissible(b, r)
    ensures PurgesOk(Append(b, r))
  {
    var b' := Append(b, r);
    forall a | a in b'.purges ensures UnallowLast(Queue(b', a)) || Gone(b', a) {
      assert Queue(b', a) == Queue(b, a);
    }
    forall a | a in b'.queues && a !in b'.purges ensures !HasOperation(b'.queues[a], UnallowPublisher) {
      assert !HasOperation(Queue(b, a), UnallowPublisher);
    }
  }

  lemma AppendKeeps(b: Bridge, r: OutboxRequest)
    requires Sound(b) && Admissible(b, r)
    ensures Sound(Append(b, r))
  {
    AppendKeepsJobs(b, r);
    AppendKeepsIds(b, r);
    AppendKeepsCover(b, r);
    AppendKeepsPurges(b, r);
  }

  lemma AppendKeepsClaims(b: Bridge, r: OutboxRequest, issued: set<Item>)
    requires JobsOk(b) && ClaimsOk(b, issued)
    ensures ClaimsOk(Append(b, r), issued)
  {
    var b' := Append(b, r);
    var n := |Queue(b, r.aggregateKey)|;
    forall i, a, k | i in issued && a in b'.queues && 0 <= k < |b'.queues[a]| && SameClaim(i, b'.queues[a][k])
      ensures Matches(i, b'.queues[a][k])
    {
      if a != r.aggregateKey || k < n {
        assert b'.queues[a][k] == b.queues[a][k];
      }
    }
  }

  lemma {:induction false} AppendAllKeeps(b: Bridge, rs: seq<OutboxRequest>, issued: set<Item>)
    requires Sound(b) && AllAdmissible(b, rs) && ClaimsOk(b, issued)
    ensures Sound(AppendAll(b, rs)) && ClaimsOk(AppendAll(b, rs), issued)
    decreases rs
  {
    if rs != [] {
      AppendKeeps(b, rs[0]);
      AppendKeepsClaims(b, rs[0], issued);
      AppendAllKeeps(Append(b, rs[0]), rs[1..], issued);
    }
  }

  /** Appending touches the queues and the two counters, and nothing else. */
  lemma {:induction false} AppendAllFrame(b: Bridge, rs: seq<OutboxRequest>)
    ensures AppendAll(b, rs) ==
      b.(queues := AppendAll(b, rs).queues, nextId := b.nextId + |rs|, count := b.count + |rs|)
    decreases rs
  {
    if rs != [] {
      AppendAllFrame(Append(b, rs[0]), rs[1..]);
    }
  }

  lemma {:induction false} AppendAllConcat(b: Bridge, xs: seq<OutboxRequest>, ys: seq<OutboxRequest>)
    ensures AppendAll(b, xs + ys) == AppendAll(AppendAll(b, xs), ys)
    ensures AllAdmissible(b, xs) && AllAdmissible(AppendAll(b, xs), ys) ==> AllAdmissible(b, xs + ys)
    decreases xs
  {
    if xs == [] {
      assert xs + ys == ys;
    } else {
      assert (xs + ys)[1..] == xs[1..] + ys;
      AppendAllConcat(Append(b, xs[0]), xs[1..], ys);
    }
  }

  function RowPublishes(rs: seq<OutboxRequest>, a: Key): seq<Payload> {
    if rs == [] then []
    else (if rs[0].operation == PublishEvent && rs[0].aggregateKey == a then [rs[0].payload] else [])
         + RowPublishes(rs[1..], a)
  }

  lemma {:induction false} PublishesConcat(p: seq<Job>, q: seq<Job>)
    ensures Publishes(p + q) == Publishes(p) + Publishes(q)
  {
    if p == [] {
      assert p + q == q;
    } else {
      DropFirst(p, q);
      PublishesConcat(p[1..], q);
      Assoc(if p[0].operation == PublishEvent then [p[0].payload] else [], Publishes(p[1..]), Publishes(q));
    }
  }

  lemma AppendQueue(b: Bridge, r: OutboxRequest, a: Key)
    ensures Queue(Append(b, r), a) == Queue(b, a) + (if a == r.aggregateKey then [NewJob(b.nextId, r)] else [])
  {
  }

  lemma {:induction false} AppendOne(b: Bridge, r: OutboxRequest)
    ensures AppendAll(b, [r]) == Append(b, r)
    ensures Admissible(b, r) ==> AllAdmissible(b, [r])
  {
    assert [r][1..] == [];
    assert AppendAll(Append(b, r), []) == Append(b, r);
  }

  lemma AppendPublishes(b: Bridge, r: OutboxRequest, a: Key)
    ensures Publishes(Queue(Append(b, r), a))
         == Publishes(Queue(b, a)) + (if r.operation == PublishEvent && r.aggregateKey == a then [r.payload] else [])
  {
    AppendQueue(b, r, a);
    var j := NewJob(b.nextId, r);
    PublishesConcat(Queue(b, a), [j]);
    assert [j][1..] == [];
  }

  lemma {:induction false} AppendAllPublishes(b: Bridge, rs: seq<OutboxRequest>, a: Key)
    ensures Publishes(Queue(AppendAll(b, rs), a)) == Publishes(Queue(b, a)) + RowPublishes(rs, a)
    decreases rs
  {
    if rs != [] {
      var x := if rs[0].operation == PublishEvent && rs[0].aggregateKey == a then [rs[0].payload] else [];
      AppendPublishes(b, rs[0], a);
      AppendAllPublishes(Append(b, rs[0]), rs[1..], a);
      Assoc(Publishes(Queue(b, a)), x, RowPublishes(rs[1..], a));
    }
  }

  // ------------------------------------------------- rows of the producer calls

  ghost predicate Publishable(b: Bridge, r: OutboxRequest) {
    ValidatePublish(r).Done? && r.pubkey !in b.purges
  }

  lemma {:induction false} PublishesAdmissible(b: Bridge, a: Key, rs: seq<OutboxRequest>)
    requires RegisteredOrPending(b, a, a)
    requires forall k :: 0 <= k < |rs| ==> Publishable(b, rs[k]) && rs[k].pubkey == a
    ensures AllAdmissible(b, rs)
    decreases rs
  {
    if rs != [] {
      PendingStays(b, rs[0], a);
      PublishesAdmissible(Append(b, rs[0]), a, rs[1..]);
    }
  }

  /** An allow puts its aggregate in the pending state. */
  lemma AllowPends(b: Bridge, r: OutboxRequest)
    requires r.operation == AllowPublisher && r.aggregateKey == r.pubkey
    ensures RegisteredOrPending(Append(b, r), r.pubkey, r.pubkey)
  {
    AppendQueue(b, r, r.pubkey);
    assert Queue(Append(b, r), r.pubkey)[|Queue(b, r.pubkey)|].operation == AllowPublisher;
  }

  lemma {:induction false} PublishRowsAdmissible(b: Bridge, r: OutboxRequest, rs: seq<OutboxRequest>)
    requires Publishable(b, r)
    requires forall k :: 0 <= k < |rs| ==> Publishable(b, rs[k]) && rs[k].pubkey == r.pubkey
    ensures AllAdmissible(b, AllowFirst(b, r) + rs)
  {
    if RegisteredOrPending(b, r.pubkey, r.aggregateKey) {
      PublishesAdmissible(b, r.pubkey, rs);
      assert AllowFirst(b, r) + rs == rs;
    } else {
      var allow := AllowRequest(r);
      AllowPends(b, allow);
      PublishesAdmissible(Append(b, allow), r.pubkey, rs);
      assert (AllowFirst(b, r) + rs)[1..] == rs;
    }
  }

  lemma PendingStays(b: Bridge, r: OutboxRequest, a: Key)
    requires RegisteredOrPending(b, a, a)
    ensures RegisteredOrPending(Append(b, r), a, a)
  {
    if a !in b.registered {
      AppendQueue(b, r, a);
      var i :| 0 <= i < |Queue(b, a)| && Queue(b, a)[i].operation == AllowPublisher;
      assert Queue(Append(b, r), a)[i].operation == AllowPublisher;
    }
  }

  /** `b` is `b0` after part of a batch was appended. */
  ghost predicate Extends(b0: Bridge, b: Bridge, allowed: set<Key>) {
    && b.purges == b0.purges
    && forall a :: a in allowed || RegisteredOrPending(b0, a, a) ==> RegisteredOrPending(b, a, a)
  }

  lemma ExtendsAppend(b0: Bridge, b: Bridge, allowed: set<Key>, r: OutboxRequest)
    requires Extends(b0, b, allowed)
    ensures Extends(b0, Append(b, r), allowed)
  {
    forall a | a in allowed || RegisteredOrPending(b0, a, a) ensures RegisteredOrPending(Append(b, r), a, a) {
      PendingStays(b, r, a);
    }
  }

  /** An event of a batch: its allow if it needs one, then its publish. */
  lemma {:induction false} BatchEventAdmissible(b0: Bridge, b: Bridge, allowed: set<Key>, r: OutboxRequest,
                                                first: seq<OutboxRequest>)
    requires Extends(b0, b, allowed) && Publishable(b, r)
    requires first == if r.pubkey in allowed then [] else AllowFirst(b0, r)
    ensures AllAdmissible(b, first + [r]) && Extends(b0, AppendAll(b, first + [r]), allowed + {r.pubkey})
  {
    if first == [] {
      assert first + [r] == [r];
      AppendOne(b, r);
      ExtendsAppend(b0, b, allowed, r);
      assert RegisteredOrPending(b, r.pubkey, r.pubkey);
      PendingStays(b, r, r.pubkey);
    } else {
      var b1 := Append(b, first[0]);
      AllowPends(b, first[0]);
      ExtendsAppend(b0, b, allowed, first[0]);
      ExtendsAppend(b0, b1, allowed, r);
      PendingStays(b1, r, r.pubkey);
      AppendOne(b1, r);
      assert (first + [r])[1..] == [r];
    }
  }

  lemma PublishersStep(rs: seq<EventRequest>)
    requires rs != []
    ensures var n := |rs| - 1; Publishers(rs) == Publishers(rs[..n]) + {rs[n].event.pubkey}
  {
    var n := |rs| - 1;
    forall x | x in Publishers(rs) ensures x in Publishers(rs[..n]) + {rs[n].event.pubkey} {
      var k :| 0 <= k < |rs| && rs[k].event.pubkey == x;
      assert k < n ==> rs[..n][k] == rs[k];
    }
    forall x | x in Publishers(rs[..n]) ensures x in Publishers(rs) {
      var k :| 0 <= k < n && rs[..n][k].event.pubkey == x;
      assert rs[k].event.pubkey == x;
    }
  }

  lemma {:induction false} BatchRowsAdmissible(b: Bridge, rs: seq<EventRequest>)
    requires forall r :: r in rs ==> Publishable(b, r.event)
    ensures AllAdmissible(b, BatchRows(b, rs))
    ensures Extends(b, AppendAll(b, BatchRows(b, rs)), Publishers(rs))
  {
    if rs != [] {
      var n := |rs| - 1;
      BatchRowsAdmissible(b, rs[..n]);
      var rows := BatchRows(b, rs[..n]);
      var b1 := AppendAll(b, rows);
      var r := rs[n].event;
      var first := if r.pubkey in Publishers(rs[..n]) then [] else AllowFirst(b, r);
      assert rs[n] in rs;
      BatchEventAdmissible(b, b1, Publishers(rs[..n]), r, first);
      AppendAllConcat(b, rows, first + [r]);
      assert BatchRows(b, rs) == rows + (first + [r]);
      PublishersStep(rs);
    }
  }

  function OfKey(ps: seq<(Key, Payload)>, a: Key): seq<Payload> {
    if ps == [] then []
    else (if ps[0].0 == a then [ps[0].1] else []) + OfKey(ps[1..], a)
  }

  lemma {:induction false} LogAllAt(m: map<Key, seq<Payload>>, ps: seq<(Key, Payload)>, a: Key)
    ensures Log(LogAll(m, ps), a) == Log(m, a) + OfKey(ps, a)
    decreases ps
  {
    if ps != [] {
      LogAllAt(m[ps[0].0 := Log(m, ps[0].0) + [ps[0].1]], ps[1..], a);
    }
  }

  lemma {:induction false} RowPublishesConcat(xs: seq<OutboxRequest>, ys: seq<OutboxRequest>, a: Key)
    ensures RowPublishes(xs + ys, a) == RowPublishes(xs, a) + RowPublishes(ys, a)
  {
    if xs == [] {
      assert xs + ys == ys;
    } else {
      DropFirst(xs, ys);
      RowPublishesConcat(xs[1..], ys, a);
      Assoc(if xs[0].operation == PublishEvent && xs[0].aggregateKey == a then [xs[0].payload] else [],
            RowPublishes(xs[1..], a), RowPublishes(ys, a));
    }
  }

  lemma {:induction false} OfKeyConcat(xs: seq<(Key, Payload)>, ys: seq<(Key, Payload)>, a: Key)
    ensures OfKey(xs + ys, a) == OfKey(xs, a) + OfKey(ys, a)
  {
    if xs == [] {
      assert xs + ys == ys;
    } else {
      DropFirst(xs, ys);
      OfKeyConcat(xs[1..], ys, a);
      Assoc(if xs[0].0 == a then [xs[0].1] else [], OfKey(xs[1..], a), OfKey(ys, a));
    }
  }

  lemma {:induction false} OneRowPublishes(r: OutboxRequest, first: seq<OutboxRequest>, a: Key)
    requires ValidatePublish(r).Done? && (first == [] || first == [AllowRequest(r)])
    ensures RowPublishes(first + [r], a) == OfKey([(r.pubkey, r.payload)], a)
  {
    RowPublishesConcat(first, [r], a);
    assert RowPublishes(first, a) == [];
    assert [r][1..] == [] && [(r.pubkey, r.payload)][1..] == [];
  }

  lemma {:induction false} BatchRowsPublish(b: Bridge, rs: seq<EventRequest>, a: Key)
    requires forall r :: r in rs ==> ValidatePublish(r.event).Done?
    ensures RowPublishes(BatchRows(b, rs), a) == OfKey(Named(rs), a)
  {
    if rs != [] {
      var n := |rs| - 1;
      var r := rs[n].event;
      var first := if r.pubkey in Publishers(rs[..n]) then [] else AllowFirst(b, r);
      var rows, named := BatchRows(b, rs[..n]), Named(rs[..n]);
      assert rs[n] in rs;
      assert BatchRows(b, rs) == rows + (first + [r]) && Named(rs) == named + [(r.pubkey, r.payload)];
      BatchRowsPublish(b, rs[..n], a);
      OneRowPublishes(r, first, a);
      RowPublishesConcat(rows, first + [r], a);
      OfKeyConcat(named, [(r.pubkey, r.payload)], a);
    }
  }
}
