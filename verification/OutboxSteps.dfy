/** Each step of the outbox keeps the invariant. */
module OutboxSteps {
  import opened Clock
  import opened Wrappers
  import opened Outbox
  import opened OutboxRuns
  import opened OutboxInvariants
  import opened Sequences

  // ----------------------------------------------------------------- producers

  /** `b'` is `b` with other mappings, operations, cursors and targets, and no
      mapping that is new belongs to a purged author. */
  ghost predicate RecordsFrom(b: Bridge, b': Bridge) {
    && b' == b.(mappings := b'.mappings, operations := b'.operations, cursors := b'.cursors, targets := b'.targets)
    && (forall ref :: ref in b'.mappings ==>
         (ref in b.mappings && b'.mappings[ref] == b.mappings[ref]) || b'.mappings[ref].author !in b.purges)
    && RecordsOk(b')
  }

  lemma RecordsKeep(b: Bridge, b': Bridge, issued: set<Item>)
    requires Sound(b) && ClaimsOk(b, issued) && RecordsFrom(b, b')
    ensures Sound(b') && ClaimsOk(b', issued)
    ensures forall a :: a in b.purges ==> IdsByAuthor(b', a) <= IdsByAuthor(b, a)
  {
    RecordsKeepPurges(b, b');
  }

  lemma RecordsKeepPurges(b: Bridge, b': Bridge)
    requires PurgesOk(b) && RecordsFrom(b, b')
    ensures PurgesOk(b')
  {
    assert forall a :: Queue(b', a) == Queue(b, a);
  }

  lemma {:induction false} AppendedToPublish(b: Bridge, b': Bridge, rows: seq<OutboxRequest>, a: Key)
    requires b'.queues == AppendAll(b, rows).queues
    ensures ToPublish(b', a) == ToPublish(b, a) + RowPublishes(rows, a)
  {
    AppendAllPublishes(b, rows, a);
    assert Queue(b', a) == Queue(AppendAll(b, rows), a);
  }

  lemma {:induction false} AppendedInOrder(w: World, w': World, rows: seq<OutboxRequest>, ps: seq<(Key, Payload)>)
    requires InOrder(w)
    requires w'.b.queues == AppendAll(w.b, rows).queues
    requires w'.completed == w.completed && w'.enqueued == LogAll(w.enqueued, ps)
    requires forall a :: RowPublishes(rows, a) == OfKey(ps, a)
    ensures InOrder(w')
  {
    forall a ensures Log(w'.completed, a) + ToPublish(w'.b, a) == Log(w'.enqueued, a) {
      AppendedToPublish(w.b, w'.b, rows, a);
      LogAllAt(w.enqueued, ps, a);
      Assoc(Log(w.completed, a), ToPublish(w.b, a), OfKey(ps, a));
    }
  }

  lemma {:induction false} DeletionsStay(w: World, w': World, ps: seq<(Key, Payload)>)
    requires DeletionsOk(w)
    requires w'.b.purges == w.b.purges && w'.deletions == w.deletions
    requires w'.enqueued == LogAll(w.enqueued, ps)
    requires forall a :: a in w.b.purges ==> IdsByAuthor(w'.b, a) <= IdsByAuthor(w.b, a)
    ensures DeletionsOk(w')
  {
    forall a | a in w'.b.purges ensures DeletionOk(w', a) {
      LogAllAt(w.enqueued, ps, a);
      assert DeletionOk(w, a);
    }
  }

  /** `b'` is `b` with admissible `rows` appended, which publish `ps`, and other records. */
  ghost predicate Enqueues(b: Bridge, b': Bridge, rows: seq<OutboxRequest>, ps: seq<(Key, Payload)>) {
    && AllAdmissible(b, rows)
    && RecordsFrom(AppendAll(b, rows), b')
    && forall a :: RowPublishes(rows, a) == OfKey(ps, a)
  }

  lemma {:induction false} ProducerKeeps(w: World, w': World, rows: seq<OutboxRequest>, ps: seq<(Key, Payload)>)
    requires Inv(w) && Enqueues(w.b, w'.b, rows, ps)
    requires w'.enqueued == LogAll(w.enqueued, ps) && w'.completed == w.completed
    requires w'.issued == w.issued && w'.deletions == w.deletions
    ensures Inv(w')
  {
    var b1 := AppendAll(w.b, rows);
    AppendAllKeeps(w.b, rows, w.issued);
    RecordsKeep(b1, w'.b, w.issued);
    AppendedInOrder(w, w', rows, ps);
    AppendAllFrame(w.b, rows);
    forall a | a in w.b.purges ensures IdsByAuthor(w'.b, a) <= IdsByAuthor(w.b, a) {
      assert IdsByAuthor(w.b, a) == IdsByAuthor(b1, a);
    }
    DeletionsStay(w, w', ps);
  }

  lemma {:induction false} AllowFirstPublishes(b: Bridge, r: OutboxRequest, rs: seq<OutboxRequest>, a: Key)
    ensures RowPublishes(AllowFirst(b, r) + rs, a) == RowPublishes(rs, a)
  {
    RowPublishesConcat(AllowFirst(b, r), rs, a);
  }

  lemma SavedFrom(b: Bridge, m: Mapping, operation: string, cursor: Option<CursorUpdate>)
    requires RecordsOk(b) && m.author !in b.purges
    ensures RecordsFrom(b, SaveCursor(SaveOperation(UpsertMapping(b, m), m.source, operation), m.source.scope, cursor))
    ensures RecordsFrom(b, SaveOperation(SaveCursor(UpsertMapping(b, m), m.source.scope, cursor), m.source, operation))
  {
  }

  lemma {:induction false} EventRecords(b: Bridge, r: EventRequest)
    requires RecordsOk(b) && EnqueueEvent(b, r).1.Done?
    ensures RecordsFrom(AppendAll(b, EventRows(b, r.event)), EnqueueEvent(b, r).0)
  {
    var rows := EventRows(b, r.event);
    AppendAllFrame(b, rows);
    SavedFrom(AppendAll(b, rows), r.mapping, r.sourceOperation, r.cursor);
  }

  lemma {:induction false} OnePublish(b: Bridge, r: OutboxRequest, a: Key)
    requires r.operation == PublishEvent && r.aggregateKey == r.pubkey
    ensures RowPublishes(EventRows(b, r), a) == OfKey([(r.pubkey, r.payload)], a)
  {
    AllowFirstPublishes(b, r, [r], a);
    var ps := [(r.pubkey, r.payload)];
    assert [r][1..] == [] && ps[1..] == [];
  }

  lemma EventEnqueues(b: Bridge, r: EventRequest, b': Bridge)
    requires RecordsOk(b) && EnqueueEvent(b, r) == (b', Done)
    ensures Enqueues(b, b', EventRows(b, r.event), [(r.event.pubkey, r.event.payload)])
  {
    EventRecords(b, r);
    PublishRowsAdmissible(b, r.event, [r.event]);
    forall a {
      OnePublish(b, r.event, a);
    }
  }

  lemma EventKeeps(w: World, r: EventRequest)
    requires Inv(w) && EnqueueEvent(w.b, r).1.Done?
    ensures Inv(Next(w, EventStep(r)))
  {
    var w' := Next(w, EventStep(r));
    EventEnqueues(w.b, r, w'.b);
    ProducerKeeps(w, w', EventRows(w.b, r.event), [(r.event.pubkey, r.event.payload)]);
  }

  lemma {:induction false} DeleteRecords(b: Bridge, r: DeleteRequest)
    requires RecordsOk(b) && EnqueueDelete(b, r).1.Done?
    ensures RecordsFrom(AppendAll(b, EventRows(b, r.event)), EnqueueDelete(b, r).0)
  {
    AppendAllFrame(b, EventRows(b, r.event));
  }

  lemma DeleteEnqueues(b: Bridge, r: DeleteRequest, b': Bridge)
    requires RecordsOk(b) && EnqueueDelete(b, r) == (b', Done)
    ensures Enqueues(b, b', EventRows(b, r.event), [(r.event.pubkey, r.event.payload)])
  {
    DeleteRecords(b, r);
    PublishRowsAdmissible(b, r.event, [r.event]);
    forall a {
      OnePublish(b, r.event, a);
    }
  }

  lemma DeleteKeeps(w: World, r: DeleteRequest)
    requires Inv(w) && EnqueueDelete(w.b, r).1.Done?
    ensures Inv(Next(w, DeleteStep(r)))
  {
    var w' := Next(w, DeleteStep(r));
    DeleteEnqueues(w.b, r, w'.b);
    ProducerKeeps(w, w', EventRows(w.b, r.event), [(r.event.pubkey, r.event.payload)]);
  }

  lemma {:induction false} UpdateRecords(b: Bridge, r: UpdateRequest)
    requires RecordsOk(b) && EnqueueUpdate(b, r).1.Done?
    ensures RecordsFrom(AppendAll(b, UpdateRows(b, r)), EnqueueUpdate(b, r).0)
  {
    var rows := UpdateRows(b, r);
    AppendAllFrame(b, rows);
    SavedFrom(AppendAll(b, rows), r.mapping, r.sourceOperation, r.cursor);
  }

  lemma {:induction false} TwoPublishes(b: Bridge, x: OutboxRequest, y: OutboxRequest, a: Key)
    requires x.operation == y.operation == PublishEvent && x.aggregateKey == x.pubkey && y.aggregateKey == y.pubkey
    ensures RowPublishes(AllowFirst(b, y) + [x, y], a) == OfKey([(x.pubkey, x.payload), (y.pubkey, y.payload)], a)
  {
    AllowFirstPublishes(b, y, [x, y], a);
    var ps := [(x.pubkey, x.payload), (y.pubkey, y.payload)];
    var p1 := [(y.pubkey, y.payload)];
    assert [x, y][1..] == [y] && [y][1..] == [] && ps[1..] == p1 && p1[1..] == [];
    assert RowPublishes([y], a) == OfKey(p1, a);
  }

  lemma UpdateEnqueues(b: Bridge, r: UpdateRequest, b': Bridge)
    requires RecordsOk(b) && EnqueueUpdate(b, r) == (b', Done)
    ensures Enqueues(b, b', UpdateRows(b, r),
      [(r.deletion.pubkey, r.deletion.payload), (r.replacement.pubkey, r.replacement.payload)])
  {
    UpdateRecords(b, r);
    PublishRowsAdmissible(b, r.replacement, [r.deletion, r.replacement]);
    forall a {
      TwoPublishes(b, r.deletion, r.replacement, a);
    }
  }

  lemma UpdateKeeps(w: World, r: UpdateRequest)
    requires Inv(w) && EnqueueUpdate(w.b, r).1.Done?
    ensures Inv(Next(w, UpdateStep(r)))
  {
    var w' := Next(w, UpdateStep(r));
    UpdateEnqueues(w.b, r, w'.b);
    ProducerKeeps(w, w', UpdateRows(w.b, r),
      [(r.deletion.pubkey, r.deletion.payload), (r.replacement.pubkey, r.replacement.payload)]);
  }

  lemma {:induction false} ChangedSubset(b: Bridge, rs: seq<EventRequest>)
    ensures forall r :: r in Changed(b, rs) ==> r in rs && !Unchanged(b, r)
  {
    if rs != [] {
      ChangedSubset(b, rs[..|rs| - 1]);
    }
  }

  lemma {:induction false} CheckedEvents(b: Bridge, scopes: seq<Scope>, rs: seq<EventRequest>)
    requires CheckBatchEvents(b, scopes, rs).Done?
    ensures forall r :: r in rs ==> CheckBatchEvent(b, scopes, r).Done?
  {
    if rs != [] {
      CheckedEvents(b, scopes, rs[..|rs| - 1]);
    }
  }

  /** Recording events adds mappings of their authors and nothing else. */
  lemma {:induction false} RecordEventsFrom(b: Bridge, rs: seq<EventRequest>)
    requires RecordsOk(b)
    requires forall r :: r in rs ==> r.mapping.author !in b.purges
    ensures RecordsFrom(b, RecordEvents(b, rs))
  {
    if rs != [] {
      assert rs[|rs| - 1] in rs;
      RecordEventsFrom(b, rs[..|rs| - 1]);
    }
  }

  lemma {:induction false} BatchEventsOk(b: Bridge, r: BatchRequest)
    requires ReconcileBatch(b, r).1.Done?
    ensures forall x :: x in Changed(b, r.events) ==> Publishable(b, x.event) && x.mapping.author !in b.purges
  {
    ChangedSubset(b, r.events);
    CheckedEvents(b, r.eventScopes, r.events);
    forall x | x in Changed(b, r.events) ensures Publishable(b, x.event) && x.mapping.author !in b.purges {
      assert CheckBatchEvent(b, r.eventScopes, x).Done?;
    }
  }

  lemma {:induction false} BatchRecords(b: Bridge, r: BatchRequest)
    requires RecordsOk(b) && ReconcileBatch(b, r).1.Done?
    ensures RecordsFrom(AppendAll(b, BatchRows(b, Changed(b, r.events))), ReconcileBatch(b, r).0)
  {
    var rows := BatchRows(b, Changed(b, r.events));
    AppendAllFrame(b, rows);
    BatchEventsOk(b, r);
    RecordEventsFrom(AppendAll(b, rows), Changed(b, r.events));
  }

  lemma {:induction false} BatchEnqueues(b: Bridge, r: BatchRequest, b': Bridge)
    requires RecordsOk(b) && ReconcileBatch(b, r) == (b', Done)
    ensures Enqueues(b, b', BatchRows(b, Changed(b, r.events)), Named(Changed(b, r.events)))
  {
    var news := Changed(b, r.events);
    BatchEventsOk(b, r);
    BatchRowsAdmissible(b, news);
    BatchRecords(b, r);
    forall a ensures RowPublishes(BatchRows(b, news), a) == OfKey(Named(news), a) {
      BatchRowsPublish(b, news, a);
    }
  }

  lemma BatchKeeps(w: World, r: BatchRequest)
    requires Inv(w) && ReconcileBatch(w.b, r).1.Done?
    ensures Inv(Next(w, BatchStep(r)))
  {
    var w' := Next(w, BatchStep(r));
    var news := Changed(w.b, r.events);
    BatchNext(w, r, w', news);
    BatchEnqueues(w.b, r, w'.b);
    ProducerKeeps(w, w', BatchRows(w.b, news), Named(news));
  }

  lemma BatchNext(w: World, r: BatchRequest, w': World, news: seq<EventRequest>)
    requires ReconcileBatch(w.b, r).1.Done? && w' == Next(w, BatchStep(r)) && news == Changed(w.b, r.events)
    ensures ReconcileBatch(w.b, r) == (w'.b, Done)
    ensures w'.enqueued == LogAll(w.enqueued, Named(news)) && w'.completed == w.completed
    ensures w'.issued == w.issued && w'.deletions == w.deletions
  {
  }

  // --------------------------------------------------------------------- purge

  lemma PurgeQueues(b: Bridge, r: PurgeRequest)
    requires EnqueuePurge(b, r).1.Done? && r.pubkey !in b.purges
    ensures var b' := EnqueuePurge(b, r).0;
      && Queue(b', r.pubkey) ==
        Queue(b, r.pubkey) + [NewJob(b.nextId, PurgeRows(r)[0]), NewJob(b.nextId + 1, PurgeRows(r)[1])]
      && b'.queues == b.queues[r.pubkey := Queue(b', r.pubkey)]
  {
    var marked := b.(purges := b.purges[r.pubkey := PurgeMark(r.payload.event.id, r.availableAt)]);
    var rows := PurgeRows(r);
    assert rows[1..] == [rows[1]];
    AppendOne(Append(marked, rows[0]), rows[1]);
  }

  lemma PurgeKeepsJobs(b: Bridge, r: PurgeRequest, issued: set<Item>)
    requires Sound(b) && ClaimsOk(b, issued) && EnqueuePurge(b, r).1.Done? && r.pubkey !in b.purges
    ensures var b' := EnqueuePurge(b, r).0; JobsOk(b') && DistinctIds(b') && DisjointIds(b') && ClaimsOk(b', issued)
  {
    var marked := b.(purges := b.purges[r.pubkey := PurgeMark(r.payload.event.id, r.availableAt)]);
    var rows := PurgeRows(r);
    assert rows[1..] == [rows[1]];
    var b1 := Append(marked, rows[0]);
    AppendOne(b1, rows[1]);
    AppendKeepsJobs(marked, rows[0]);
    AppendKeepsIds(marked, rows[0]);
    AppendKeepsClaims(marked, rows[0], issued);
    AppendKeepsJobs(b1, rows[1]);
    AppendKeepsIds(b1, rows[1]);
    AppendKeepsClaims(b1, rows[1], issued);
  }

  lemma MarkedPurges(b: Bridge, b': Bridge, a: Key, x: Job, y: Job)
    requires PurgesOk(b) && !HasOperation(Queue(b, a), UnallowPublisher)
    requires x.operation == PublishEvent && y.operation == UnallowPublisher
    requires b'.queues == b.queues[a := Queue(b, a) + [x, y]]
    requires b'.purges.Keys == b.purges.Keys + {a} && b'.registered == b.registered && b'.mappings == b.mappings
    ensures PurgesOk(b')
  {
    forall k | k in b'.purges ensures UnallowLast(Queue(b', k)) || Gone(b', k) {
      if k != a {
        assert Queue(b', k) == Queue(b, k);
        assert k in b.purges;
      }
    }
  }

  lemma MarkedCovers(b: Bridge, b': Bridge, a: Key, x: Job, y: Job)
    requires AllCovered(b) && a in b.registered
    requires b'.queues == b.queues[a := Queue(b, a) + [x, y]] && b'.registered == b.registered
    ensures AllCovered(b')
  {
  }

  lemma PurgeKeepsSound(b: Bridge, r: PurgeRequest, issued: set<Item>)
    requires Sound(b) && ClaimsOk(b, issued) && EnqueuePurge(b, r).1.Done? && r.pubkey !in b.purges
    ensures Sound(EnqueuePurge(b, r).0) && ClaimsOk(EnqueuePurge(b, r).0, issued)
  {
    var b' := EnqueuePurge(b, r).0;
    PurgeKeepsJobs(b, r, issued);
    PurgeQueues(b, r);
    var marked := b.(purges := b.purges[r.pubkey := PurgeMark(r.payload.event.id, r.availableAt)]);
    AppendAllFrame(marked, PurgeRows(r));
    var x, y := NewJob(b.nextId, PurgeRows(r)[0]), NewJob(b.nextId + 1, PurgeRows(r)[1]);
    MarkedPurges(b, b', r.pubkey, x, y);
    MarkedCovers(b, b', r.pubkey, x, y);
  }

  lemma PurgeInOrder(w: World, r: PurgeRequest)
    requires InOrder(w) && EnqueuePurge(w.b, r).1.Done? && r.pubkey !in w.b.purges
    ensures InOrder(Next(w, PurgeStep(r)))
  {
    var rows, ps := PurgeRows(r), [(r.pubkey, r.payload)];
    forall a ensures RowPublishes(rows, a) == OfKey(ps, a) {
      var one := [rows[1]];
      assert rows[1..] == one && one[1..] == [] && ps[1..] == [];
      assert RowPublishes(one, a) == [];
    }
    var w1 := w.(b := w.b.(purges := w.b.purges[r.pubkey := PurgeMark(r.payload.event.id, r.availableAt)]));
    assert InOrder(w1) by {
      forall a ensures Log(w1.completed, a) + ToPublish(w1.b, a) == Log(w1.enqueued, a) {
        assert Queue(w1.b, a) == Queue(w.b, a);
      }
    }
    AppendedInOrder(w1, Next(w, PurgeStep(r)), rows, ps);
  }

  lemma PurgeDeletions(w: World, r: PurgeRequest)
    requires DeletionsOk(w) && EnqueuePurge(w.b, r).1.Done? && r.pubkey !in w.b.purges
    ensures DeletionsOk(Next(w, PurgeStep(r)))
  {
    var w' := Next(w, PurgeStep(r));
    var ps := [(r.pubkey, r.payload)];
    var marked := w.b.(purges := w.b.purges[r.pubkey := PurgeMark(r.payload.event.id, r.availableAt)]);
    AppendAllFrame(marked, PurgeRows(r));
    forall a | a in w'.b.purges ensures DeletionOk(w', a) {
      LogAllAt(w.enqueued, ps, a);
      assert IdsByAuthor(w'.b, a) == IdsByAuthor(w.b, a);
      if a == r.pubkey {
        assert OfKey(ps, a)[0] == r.payload;
      } else {
        assert DeletionOk(w, a);
      }
    }
  }

  lemma PurgeKeeps(w: World, r: PurgeRequest)
    requires Inv(w) && EnqueuePurge(w.b, r).1.Done? && r.pubkey !in w.b.purges
    ensures Inv(Next(w, PurgeStep(r)))
  {
    PurgeKeepsSound(w.b, r, w.issued);
    PurgeInOrder(w, r);
    PurgeDeletions(w, r);
  }

  // -------------------------------------------------------------------- claims

  /** The rows differ at most in attempts, availability, error and lease. */
  ghost predicate SameRow(j: Job, j': Job) {
    j' == j.(attempts := j'.attempts, availableAt := j'.availableAt, lastError := j'.lastError,
             token := j'.token, claimedUntil := j'.claimedUntil)
  }

  ghost predicate SameRows(q: seq<Job>, q': seq<Job>) {
    |q'| == |q| && forall i :: 0 <= i < |q| ==> SameRow(q[i], q'[i])
  }

  ghost predicate Alike(b: Bridge, b': Bridge) {
    && b' == b.(queues := b'.queues)
    && b'.queues.Keys == b.queues.Keys
    && forall a :: a in b.queues ==> SameRows(b.queues[a], b'.queues[a])
  }

  lemma {:induction false} SamePublishes(q: seq<Job>, q': seq<Job>)
    requires SameRows(q, q')
    ensures Publishes(q') == Publishes(q)
  {
    if q != [] {
      assert SameRow(q[0], q'[0]);
      SamePublishes(q[1..], q'[1..]);
    }
  }

  lemma SameCover(q: seq<Job>, q': seq<Job>, registered: bool)
    requires SameRows(q, q') && Covered(q, registered)
    ensures Covered(q', registered)
  {
    forall i | 0 <= i < |q'| && q'[i].operation == PublishEvent && !registered
      ensures exists j :: 0 <= j < i && q'[j].operation == AllowPublisher
    {
      assert SameRow(q[i], q'[i]);
      var j :| 0 <= j < i && q[j].operation == AllowPublisher;
      assert SameRow(q[j], q'[j]);
    }
  }

  lemma SameUnallow(q: seq<Job>, q': seq<Job>)
    requires SameRows(q, q')
    ensures HasOperation(q', UnallowPublisher) ==> HasOperation(q, UnallowPublisher)
    ensures UnallowLast(q) ==> UnallowLast(q')
  {
    assert forall i :: 0 <= i < |q| ==> SameRow(q[i], q'[i]) ==> q'[i].operation == q[i].operation;
  }

  lemma AlikeIds(b: Bridge, b': Bridge)
    requires Alike(b, b') && DistinctIds(b) && DisjointIds(b)
    ensures DistinctIds(b') && DisjointIds(b')
  {
    forall a, i | a in b'.queues && 0 <= i < |b'.queues[a]| ensures b'.queues[a][i].id == b.queues[a][i].id {
      assert SameRows(b.queues[a], b'.queues[a]);
    }
    assert forall a :: a in b'.queues ==> |b'.queues[a]| == |b.queues[a]|;
  }

  lemma AlikeSound(b: Bridge, b': Bridge)
    requires Alike(b, b') && Sound(b) && JobsOk(b')
    ensures Sound(b')
  {
    AlikeIds(b, b');
    forall a | a in b'.queues ensures Covered(b'.queues[a], a in b'.registered) {
      SameCover(b.queues[a], b'.queues[a], a in b.registered);
    }
    forall a | a in b'.queues ensures HasOperation(b'.queues[a], UnallowPublisher) ==> a in b'.purges {
      SameUnallow(b.queues[a], b'.queues[a]);
    }
    forall a | a in b'.purges ensures UnallowLast(Queue(b', a)) || Gone(b', a) {
      if a in b.queues {
        SameUnallow(b.queues[a], b'.queues[a]);
      }
    }
  }

  lemma AlikeInOrder(w: World, w': World)
    requires InOrder(w) && Alike(w.b, w'.b) && w'.enqueued == w.enqueued && w'.completed == w.completed
    ensures InOrder(w')
  {
    forall a ensures Log(w'.completed, a) + ToPublish(w'.b, a) == Log(w'.enqueued, a) {
      if a in w.b.queues {
        SamePublishes(w.b.queues[a], w'.b.queues[a]);
      }
      assert Log(w.completed, a) + ToPublish(w.b, a) == Log(w.enqueued, a);
    }
  }

  /** A row whose id is among the claimed ones is the head of its queue. */
  lemma ChosenAreHeads(b: Bridge, now: int, chosen: set<Job>, a: Key, k: int)
    requires DistinctIds(b) && DisjointIds(b) && chosen <= Eligible(b, now)
    requires a in b.queues && 0 <= k < |b.queues[a]| && b.queues[a][k].id in Ids(chosen)
    ensures k == 0 && b.queues[a][0] in chosen
  {
    var j :| j in chosen && j.id == b.queues[a][k].id;
    var x :| x in b.queues && b.queues[x] != [] && b.queues[x][0] == j;
    assert x == a;
  }

  lemma LeaseAlike(b: Bridge, ids: set<int>, token: string, until: int)
    ensures Alike(b, Lease(b, ids, token, until))
  {
    var b' := Lease(b, ids, token, until);
    forall a | a in b.queues ensures SameRows(b.queues[a], b'.queues[a]) {
      assert b'.queues[a] == LeaseQueue(b.queues[a], ids, token, until);
    }
  }

  lemma LeaseQueueOk(q: seq<Job>, ids: set<int>, token: string, until: int, a: Key, nextId: int)
    requires QueueOk(q, a, nextId)
    requires forall k :: 0 <= k < |q| && q[k].id in ids ==> k == 0
    ensures QueueOk(LeaseQueue(q, ids, token, until), a, nextId)
  {
  }

  lemma LeaseKeepsSound(b: Bridge, now: int, chosen: set<Job>, token: string, until: int, b': Bridge)
    requires Sound(b) && chosen <= Eligible(b, now) && b' == Lease(b, Ids(chosen), token, until)
    ensures Sound(b')
  {
    var ids := Ids(chosen);
    LeaseAlike(b, ids, token, until);
    forall a | a in b'.queues ensures QueueOk(b'.queues[a], a, b'.nextId) {
      forall k | 0 <= k < |b.queues[a]| && b.queues[a][k].id in ids ensures k == 0 {
        ChosenAreHeads(b, now, chosen, a, k);
      }
      LeaseQueueOk(b.queues[a], ids, token, until, a, b.nextId);
    }
    AlikeSound(b, b');
  }

  function Claimed(w: World, s: Step): World
    requires s.ClaimStep?
  {
    w.(b := Lease(w.b, Ids(s.chosen), s.token, s.claimedAt + s.lease), issued := w.issued + Items(s.chosen, s.token))
  }

  lemma LeaseKeepsClaims(w: World, s: Step, w': World)
    requires Sound(w.b) && ClaimsOk(w.b, w.issued) && s.ClaimStep? && Enabled(w, s) && w' == Claimed(w, s)
    ensures ClaimsOk(w'.b, w'.issued)
  {
    var ids := Ids(s.chosen);
    forall i | i in w'.issued ensures i.token != "" && i.id < w'.b.nextId {
      if i !in w.issued {
        var j :| j in s.chosen && j.id == i.id;
        var x :| x in w.b.queues && w.b.queues[x] != [] && w.b.queues[x][0] == j;
        assert QueueOk(w.b.queues[x], x, w.b.nextId);
      }
    }
    forall i, a, k | i in w'.issued && a in w'.b.queues && 0 <= k < |w'.b.queues[a]| && SameClaim(i, w'.b.queues[a][k])
      ensures Matches(i, w'.b.queues[a][k])
    {
      var j0 := w.b.queues[a][k];
      if j0.id in ids {
        ChosenAreHeads(w.b, s.claimedAt, s.chosen, a, k);
        assert i !in w.issued;
        var j :| j in s.chosen && i == Item(j.aggregate, j.id, j.operation, j.pubkey, j.payload, s.token);
        var x :| x in w.b.queues && w.b.queues[x] != [] && w.b.queues[x][0] == j;
        assert x == a;
      } else {
        assert i.id !in Ids(s.chosen);
      }
    }
  }

  lemma LeaseInOrder(w: World, w': World, ids: set<int>, token: string, until: int)
    requires InOrder(w)
    requires w'.b == Lease(w.b, ids, token, until)
    requires w'.enqueued == w.enqueued
    requires w'.completed == w.completed
    ensures InOrder(w')
  {
    LeaseAlike(w.b, ids, token, until);
    AlikeInOrder(w, w');
  }

  lemma ClaimInOrder(w: World, s: Step, w': World)
    requires InOrder(w) && s.ClaimStep? && w' == Next(w, s)
    ensures InOrder(w')
  {
    ClaimNext(w, s, w');
    LeaseInOrder(w, w', Ids(s.chosen), s.token, s.claimedAt + s.lease);
  }

  lemma ClaimedAreEligible(b: Bridge, now: int, limit: int, chosen: set<Job>)
    requires IsClaim(b, now, limit, chosen)
    ensures chosen <= Eligible(b, now)
  {
  }

  lemma ClaimSound(w: World, s: Step, w': World)
    requires Sound(w.b) && s.ClaimStep? && Enabled(w, s) && w' == Next(w, s)
    ensures Sound(w'.b)
  {
    ClaimNext(w, s, w');
    ClaimedSound(w.b, s.claimedAt, s.limit, s.chosen, s.token, s.claimedAt + s.lease, w'.b);
  }

  lemma ClaimedSound(b: Bridge, now: int, limit: int, chosen: set<Job>, token: string, until: int, b': Bridge)
    requires Sound(b) && IsClaim(b, now, limit, chosen) && b' == Lease(b, Ids(chosen), token, until)
    ensures Sound(b')
  {
    ClaimedAreEligible(b, now, limit, chosen);
    LeaseKeepsSound(b, now, chosen, token, until, b');
  }

  lemma ClaimDeletions(w: World, s: Step, w': World)
    requires DeletionsOk(w) && s.ClaimStep? && w' == Next(w, s)
    ensures DeletionsOk(w')
  {
    ClaimNext(w, s, w');
    LeaseDeletions(w, w');
  }

  lemma ClaimKeeps(w: World, s: Step)
    requires Inv(w) && s.ClaimStep? && Enabled(w, s)
    ensures Inv(Next(w, s))
  {
    var w' := Next(w, s);
    ClaimSound(w, s, w');
    assert ClaimsOk(w'.b, w'.issued) by {
      ClaimNext(w, s, w');
      LeaseKeepsClaims(w, s, w');
    }
    ClaimInOrder(w, s, w');
    ClaimDeletions(w, s, w');
  }

  lemma ClaimNext(w: World, s: Step, w': World)
    requires s.ClaimStep? && w' == Next(w, s)
    ensures w' == Claimed(w, s) && w'.b == Lease(w.b, Ids(s.chosen), s.token, s.claimedAt + s.lease)
    ensures w'.enqueued == w.enqueued && w'.completed == w.completed && w'.deletions == w.deletions
    ensures w'.b.purges == w.b.purges && w'.b.mappings == w.b.mappings
  {
  }

  lemma LeaseDeletions(w: World, w': World)
    requires DeletionsOk(w) && w'.enqueued == w.enqueued && w'.deletions == w.deletions
    requires w'.b.purges == w.b.purges && w'.b.mappings == w.b.mappings
    ensures DeletionsOk(w')
  {
    DeletionsStay(w, w', []);
  }

  // ---------------------------------------------------------------- deliveries

  /** Every row of `q'` is a row of `q` or carries an id not used before. */
  ghost predicate IdsFrom(q: seq<Job>, q': seq<Job>, nextId: int) {
    && (forall i, j :: 0 <= i < j < |q'| ==> q'[i].id != q'[j].id)
    && (forall i :: 0 <= i < |q'| ==> q'[i].id >= nextId || exists k :: 0 <= k < |q| && q[k].id == q'[i].id)
  }

  /** `b'` is `b` with another queue for `a`; registrations and mappings change
      for `a` only, and mappings only shrink. */
  ghost predicate OnlyAt(b: Bridge, b': Bridge, a: Key) {
    && a in b.queues && a in b'.queues
    && b'.queues == b.queues[a := b'.queues[a]]
    && b'.nextId >= b.nextId
    && (forall x :: x != a ==> (x in b'.registered <==> x in b.registered))
    && b'.purges == b.purges
    && (forall ref :: ref in b'.mappings ==> ref in b.mappings && b'.mappings[ref] == b.mappings[ref])
    && RecordsOk(b')
  }

  ghost predicate PurgeStateOk(b: Bridge, a: Key) {
    if a in b.purges then UnallowLast(Queue(b, a)) || Gone(b, a)
    else !HasOperation(Queue(b, a), UnallowPublisher)
  }

  lemma OnlyAtJobs(b: Bridge, b': Bridge, a: Key)
    requires JobsOk(b) && DistinctIds(b) && DisjointIds(b) && OnlyAt(b, b', a)
    requires QueueOk(b'.queues[a], a, b'.nextId) && IdsFrom(b.queues[a], b'.queues[a], b.nextId)
    ensures JobsOk(b') && DistinctIds(b') && DisjointIds(b')
  {
    OnlyAtQueuesOk(b, b', a);
    forall x, i, j | x in b'.queues && x != a && 0 <= i < |b'.queues[a]| && 0 <= j < |b'.queues[x]|
      ensures b'.queues[a][i].id != b'.queues[x][j].id
    {
      OtherId(b, b', a, x, i, j);
    }
  }

  lemma OnlyAtQueuesOk(b: Bridge, b': Bridge, a: Key)
    requires JobsOk(b) && OnlyAt(b, b', a) && QueueOk(b'.queues[a], a, b'.nextId)
    ensures JobsOk(b')
  {
    forall x | x in b'.queues ensures QueueOk(b'.queues[x], x, b'.nextId) {
      if x != a {
        assert QueueOk(b.queues[x], x, b.nextId);
      }
    }
  }

  lemma OtherId(b: Bridge, b': Bridge, a: Key, x: Key, i: nat, j: nat)
    requires JobsOk(b) && DisjointIds(b) && OnlyAt(b, b', a) && IdsFrom(b.queues[a], b'.queues[a], b.nextId)
    requires x in b'.queues && x != a && i < |b'.queues[a]| && j < |b'.queues[x]|
    ensures b'.queues[a][i].id != b'.queues[x][j].id
  {
    var q, q' := b.queues[a], b'.queues[a];
    assert QueueOk(b.queues[x], x, b.nextId);
    if q'[i].id < b.nextId {
      var k :| 0 <= k < |q| && q[k].id == q'[i].id;
    }
  }

  lemma OnlyAtSound(b: Bridge, b': Bridge, a: Key)
    requires Sound(b) && OnlyAt(b, b', a)
    requires QueueOk(b'.queues[a], a, b'.nextId) && IdsFrom(b.queues[a], b'.queues[a], b.nextId)
    requires Covered(b'.queues[a], a in b'.registered) && PurgeStateOk(b', a)
    ensures Sound(b')
  {
    OnlyAtJobs(b, b', a);
    forall x | x in b'.queues ensures Covered(b'.queues[x], x in b'.registered) {
      assert x != a ==> Covered(b.queues[x], x in b.registered);
    }
    forall x | x in b'.purges ensures UnallowLast(Queue(b', x)) || Gone(b', x) {
      if x != a {
        assert Queue(b', x) == Queue(b, x);
        assert UnallowLast(Queue(b, x)) || Gone(b, x);
      }
    }
    forall x | x in b'.queues && x !in b'.purges ensures !HasOperation(b'.queues[x], UnallowPublisher) {
      assert x != a ==> !HasOperation(b.queues[x], UnallowPublisher);
    }
  }

  /** Claims stay good when every claimed row of the new queue was there before. */
  lemma OnlyAtClaims(b: Bridge, b': Bridge, a: Key, issued: set<Item>)
    requires ClaimsOk(b, issued) && OnlyAt(b, b', a)
    requires forall i :: 0 <= i < |b'.queues[a]| && b'.queues[a][i].token != "" ==> b'.queues[a][i] in b.queues[a]
    ensures ClaimsOk(b', issued)
  {
    forall i, x, k | i in issued && x in b'.queues && 0 <= k < |b'.queues[x]| && SameClaim(i, b'.queues[x][k])
      ensures Matches(i, b'.queues[x][k])
    {
      if x == a {
        var n :| 0 <= n < |b.queues[a]| && b.queues[a][n] == b'.queues[a][k];
        assert SameClaim(i, b.queues[a][n]);
      }
    }
  }

  lemma PopFacts(q: seq<Job>, a: Key, nextId: int)
    requires q != [] && QueueOk(q, a, nextId) && forall i, j :: 0 <= i < j < |q| ==> q[i].id != q[j].id
    ensures QueueOk(q[1..], a, nextId) && IdsFrom(q, q[1..], nextId)
    ensures forall i :: 0 <= i < |q[1..]| && q[1..][i].token != "" ==> q[1..][i] in q
  {
    forall i | 0 <= i < |q[1..]| ensures q[1..][i] == q[i + 1] && q[i + 1] in q {}
  }

  /** A publish at the head, hence every publish that can be claimed, belongs to
      a registered publisher. */
  lemma PublishAtHead(q: seq<Job>, registered: bool)
    requires q != [] && Covered(q, registered) && q[0].operation == PublishEvent
    ensures registered
  {
    assert 0 <= 0 < |q|;
  }

  lemma PopUnallow(q: seq<Job>)
    requires q != []
    ensures !HasOperation(q, UnallowPublisher) ==> !HasOperation(q[1..], UnallowPublisher)
    ensures UnallowLast(q) && q[0].operation != UnallowPublisher ==> UnallowLast(q[1..])
    ensures UnallowLast(q) && q[0].operation == UnallowPublisher ==> |q| == 1
  {
    assert forall i :: 0 <= i < |q[1..]| ==> q[1..][i] == q[i + 1];
  }

  ghost predicate Holder(w: World, s: Step) {
    && s.DeliverStep? && s.item in w.issued
    && Live(w.b, s.item.aggregate, s.item.id, s.item.token, s.now)
  }

  /** The head of the claimed aggregate is the row the dispatcher remembers. */
  lemma HeldHead(w: World, s: Step)
    requires Inv(w) && Holder(w, s)
    ensures var a := s.item.aggregate;
      && a in w.b.queues && w.b.queues[a] != []
      && Matches(s.item, w.b.queues[a][0])
      && s.item.pubkey == a
      && QueueOk(w.b.queues[a], a, w.b.nextId)
      && (forall i, j :: 0 <= i < j < |w.b.queues[a]| ==> w.b.queues[a][i].id != w.b.queues[a][j].id)
      && Covered(w.b.queues[a], a in w.b.registered)
      && PurgeStateOk(w.b, a)
  {
    var a := s.item.aggregate;
    assert SameClaim(s.item, w.b.queues[a][0]);
    assert QueueOk(w.b.queues[a], a, w.b.nextId);
  }

  lemma PopOnlyAt(b: Bridge, a: Key, now: int)
    requires RecordsOk(b) && a in b.queues && b.queues[a] != []
    ensures OnlyAt(b, Pop(b, a), a) && OnlyAt(b, Register(Pop(b, a), a, Seconds(now)), a)
  {
    assert Pop(b, a).queues == b.queues[a := b.queues[a][1..]];
  }

  lemma ForgetOnlyAt(b: Bridge, a: Key)
    requires RecordsOk(b) && a in b.queues && b.queues[a] != []
    ensures OnlyAt(b, Forget(Pop(b, a), a), a)
    ensures forall x :: IdsByAuthor(Forget(Pop(b, a), a), x) <= IdsByAuthor(b, x)
  {
    var b' := Forget(Pop(b, a), a);
    assert b'.queues == b.queues[a := b.queues[a][1..]];
    assert b'.operations.Keys <= b'.mappings.Keys;
  }

  lemma RetryOnlyAt(b: Bridge, a: Key, retryAt: int, error: string)
    requires RecordsOk(b) && a in b.queues && b.queues[a] != []
    ensures OnlyAt(b, Retry(b, a, retryAt, error), a) && Alike(b, Retry(b, a, retryAt, error))
  {
    var q := b.queues[a];
    var q' := Retry(b, a, retryAt, error).queues[a];
    assert forall i :: 0 < i < |q| ==> q'[i] == q[i];
    assert SameRows(q, q');
  }

  lemma RecoverOnlyAt(b: Bridge, a: Key, now: int)
    requires RecordsOk(b) && a in b.queues && b.queues[a] != []
    ensures OnlyAt(b, Recover(b, a, now), a)
  {
  }

  /** Popping `b` to `b'` leaves the aggregate's queue as it should be. */
  lemma PopAt(b: Bridge, b': Bridge, a: Key, op: Operation)
    requires a in b.queues && b.queues[a] != [] && b.queues[a][0].operation == op
    requires Covered(b.queues[a], a in b.registered) && PurgeStateOk(b, a)
    requires Queue(b', a) == b.queues[a][1..] && b'.purges == b.purges
    requires op == PublishEvent ==> b'.registered == b.registered && b'.mappings == b.mappings
    requires op == AllowPublisher ==> a in b'.registered && b'.mappings == b.mappings
    requires op == UnallowPublisher ==>
      a !in b'.registered && forall ref :: ref in b'.mappings ==> b'.mappings[ref].author != a
    ensures Covered(Queue(b', a), a in b'.registered) && PurgeStateOk(b', a)
  {
    var q := b.queues[a];
    PopUnallow(q);
    if op == PublishEvent {
      PublishAtHead(q, a in b.registered);
    }
    if op == UnallowPublisher {
      assert HasOperation(q, UnallowPublisher);
    }
  }

  lemma PoppedSound(b: Bridge, b': Bridge, a: Key, issued: set<Item>)
    requires Sound(b) && ClaimsOk(b, issued) && OnlyAt(b, b', a)
    requires b.queues[a] != [] && b'.queues[a] == b.queues[a][1..]
    requires Covered(b'.queues[a], a in b'.registered) && PurgeStateOk(b', a)
    ensures Sound(b') && ClaimsOk(b', issued)
  {
    var q := b.queues[a];
    assert QueueOk(q, a, b.nextId);
    PopFacts(q, a, b.nextId);
    OnlyAtClaims(b, b', a, issued);
    assert QueueOk(q[1..], a, b'.nextId);
    OnlyAtSound(b, b', a);
  }

  lemma PopKeeps(w: World, s: Step, b': Bridge)
    requires Inv(w) && Holder(w, s) && s.delivery.Delivered?
    requires b' == Dispatch(w.b, s.item, s.delivery, s.now, s.retryAt, s.error)
    ensures Sound(b') && ClaimsOk(b', w.issued)
    ensures b'.purges == w.b.purges && forall x :: IdsByAuthor(b', x) <= IdsByAuthor(w.b, x)
  {
    HeldHead(w, s);
    var a := s.item.aggregate;
    assert OnlyAt(w.b, b', a) && forall x :: IdsByAuthor(b', x) <= IdsByAuthor(w.b, x) by {
      PopOnlyAt(w.b, a, s.now);
      ForgetOnlyAt(w.b, a);
    }
    assert b'.queues[a] == w.b.queues[a][1..];
    PopAt(w.b, b', a, s.item.operation);
    PoppedSound(w.b, b', a, w.issued);
  }

  lemma RetriedSound(b: Bridge, b': Bridge, a: Key, issued: set<Item>)
    requires Sound(b) && ClaimsOk(b, issued) && OnlyAt(b, b', a) && Alike(b, b') && b'.nextId == b.nextId
    requires |b'.queues[a]| == |b.queues[a]| > 0 && b'.queues[a][0].token == ""
    requires forall i :: 0 < i < |b.queues[a]| ==> b'.queues[a][i] == b.queues[a][i]
    ensures Sound(b') && ClaimsOk(b', issued)
  {
    OnlyAtClaims(b, b', a, issued);
    forall x | x in b'.queues ensures QueueOk(b'.queues[x], x, b'.nextId) {
      assert QueueOk(b.queues[x], x, b.nextId);
      assert SameRows(b.queues[x], b'.queues[x]);
    }
    AlikeSound(b, b');
  }

  lemma RetryKeeps(w: World, s: Step, b': Bridge)
    requires Inv(w) && Holder(w, s) && b' == Retry(w.b, s.item.aggregate, s.retryAt, s.error)
    ensures Sound(b') && ClaimsOk(b', w.issued) && Alike(w.b, b')
  {
    var a := s.item.aggregate;
    assert a in w.b.queues && w.b.queues[a] != [];
    RetryOnlyAt(w.b, a, s.retryAt, s.error);
    assert forall i :: 0 < i < |w.b.queues[a]| ==> b'.queues[a][i] == w.b.queues[a][i];
    RetriedSound(w.b, b', a, w.issued);
  }

  /** `q'` is `q` with its head publish turned into an allow and a new publish. */
  ghost predicate Recovered(q: seq<Job>, q': seq<Job>, a: Key, nextId: int) {
    && q != [] && q[0].operation == PublishEvent && |q'| == |q| + 1
    && q'[0].id == q[0].id && q'[0].operation == AllowPublisher && q'[0].token == ""
    && q'[0].aggregate == a && q'[0].pubkey == a
    && q'[1].id == nextId && q'[1].operation == PublishEvent && q'[1].token == ""
    && q'[1].aggregate == a && q'[1].pubkey == a
    && forall i :: 2 <= i < |q'| ==> q'[i] == q[i - 1]
  }

  lemma RecoverIds(q: seq<Job>, q': seq<Job>, a: Key, nextId: int)
    requires QueueOk(q, a, nextId) && forall i, j :: 0 <= i < j < |q| ==> q[i].id != q[j].id
    requires Recovered(q, q', a, nextId)
    ensures IdsFrom(q, q', nextId)
  {
    forall i | 0 <= i < |q'| ensures q'[i].id >= nextId || exists k :: 0 <= k < |q| && q[k].id == q'[i].id {
      if i != 1 {
        var k := if i == 0 then 0 else i - 1;
        assert q[k].id == q'[i].id;
      }
    }
  }

  lemma RecoverQueue(q: seq<Job>, q': seq<Job>, a: Key, nextId: int)
    requires QueueOk(q, a, nextId) && Recovered(q, q', a, nextId)
    ensures QueueOk(q', a, nextId + 1) && Covered(q', false)
    ensures forall i :: 0 <= i < |q'| ==> q'[i].token == ""
  {
    forall i | 0 <= i < |q'| && q'[i].operation == PublishEvent
      ensures exists j :: 0 <= j < i && q'[j].operation == AllowPublisher
    {
      assert q'[0].operation == AllowPublisher;
    }
  }

  lemma RecoverUnallow(q: seq<Job>, q': seq<Job>, a: Key, nextId: int)
    requires Recovered(q, q', a, nextId)
    ensures HasOperation(q', UnallowPublisher) ==> HasOperation(q, UnallowPublisher)
    ensures UnallowLast(q) ==> UnallowLast(q')
  {
    if HasOperation(q', UnallowPublisher) {
      var i :| 0 <= i < |q'| && q'[i].operation == UnallowPublisher;
      assert q[i - 1].operation == UnallowPublisher;
    }
  }

  lemma RecoverKeeps(w: World, s: Step, b': Bridge)
    requires Inv(w) && Holder(w, s) && w.b.queues[s.item.aggregate][0].operation == PublishEvent
    requires b' == Recover(w.b, s.item.aggregate, s.now)
    ensures Sound(b') && ClaimsOk(b', w.issued)
  {
    HeldHead(w, s);
    var a := s.item.aggregate;
    var q := w.b.queues[a];
    var q' := b'.queues[a];
    forall i | 2 <= i < |q'| ensures q'[i] == q[i - 1] {
      assert q'[i] == q[1..][i - 2];
    }
    RecoverQueue(q, q', a, w.b.nextId);
    RecoverIds(q, q', a, w.b.nextId);
    RecoverUnallow(q, q', a, w.b.nextId);
    RecoverOnlyAt(w.b, a, s.now);
    OnlyAtClaims(w.b, b', a, w.issued);
    assert Covered(q', a in b'.registered) && PurgeStateOk(b', a);
    OnlyAtSound(w.b, b', a);
  }

  lemma PopQueue(b: Bridge, s: Step, x: Key)
    requires s.DeliverStep? && s.delivery.Delivered? && Live(b, s.item.aggregate, s.item.id, s.item.token, s.now)
    ensures Queue(Store(b, s), x) == if x == s.item.aggregate then Queue(b, x)[1..] else Queue(b, x)
  {
  }

  /** What popping `q` publishes. */
  function HeadPublish(a: Key, q: seq<Job>): seq<(Key, Payload)>
    requires q != []
  {
    if q[0].operation == PublishEvent then [(a, q[0].payload)] else []
  }

  lemma {:induction false} PoppedPublishes(a: Key, q: seq<Job>, x: Key)
    requires q != []
    ensures OfKey(HeadPublish(a, q), a) + Publishes(q[1..]) == Publishes(q)
    ensures x != a ==> OfKey(HeadPublish(a, q), x) == []
  {
    var ps := HeadPublish(a, q);
    assert ps != [] ==> ps[1..] == [];
  }

  lemma PoppedInOrder(w: World, w': World, a: Key, q: seq<Job>, x: Key)
    requires InOrder(w) && q == Queue(w.b, a) != []
    requires w'.enqueued == w.enqueued && w'.completed == LogAll(w.completed, HeadPublish(a, q))
    requires Queue(w'.b, x) == if x == a then q[1..] else Queue(w.b, x)
    ensures Log(w'.completed, x) + ToPublish(w'.b, x) == Log(w'.enqueued, x)
  {
    var c, p, r := Log(w.completed, x), OfKey(HeadPublish(a, q), x), ToPublish(w'.b, x);
    LogAllAt(w.completed, HeadPublish(a, q), x);
    assert p + r == ToPublish(w.b, x) by {
      PoppedPublishes(a, q, x);
    }
    Assoc(c, p, r);
  }

  /** Delivering pops the head; what it published moves to the completed log. */
  lemma PopInOrder(w: World, s: Step, w': World)
    requires InOrder(w) && Holder(w, s) && s.delivery.Delivered? && w' == Next(w, s)
    ensures InOrder(w')
  {
    var a := s.item.aggregate;
    var q := Queue(w.b, a);
    assert w'.completed == LogAll(w.completed, HeadPublish(a, q)) && w'.enqueued == w.enqueued;
    forall x ensures Log(w'.completed, x) + ToPublish(w'.b, x) == Log(w'.enqueued, x) {
      PopQueue(w.b, s, x);
      PoppedInOrder(w, w', a, q, x);
    }
  }

  lemma RecoverInOrder(w: World, s: Step, b': Bridge)
    requires InOrder(w) && Holder(w, s) && Queue(w.b, s.item.aggregate)[0].operation == PublishEvent
    requires b' == Recover(w.b, s.item.aggregate, s.now)
    ensures InOrder(w.(b := b'))
  {
    var a := s.item.aggregate;
    var q, q' := Queue(w.b, a), Queue(b', a);
    assert q' == [q'[0], q'[1]] + q[1..];
    assert Publishes(q') == Publishes(q) by {
      assert q'[1..] == [q'[1]] + q[1..] && q'[1..][1..] == q[1..];
      assert Publishes(q'[1..]) == [q[0].payload] + Publishes(q[1..]);
    }
    forall x ensures Log(w.completed, x) + ToPublish(b', x) == Log(w.enqueued, x) {
      assert Log(w.completed, x) + ToPublish(w.b, x) == Log(w.enqueued, x);
    }
  }

  lemma DeliverKeeps(w: World, s: Step)
    requires Inv(w) && s.DeliverStep? && Enabled(w, s)
    ensures Inv(Next(w, s))
  {
    var w' := Next(w, s);
    if !Holder(w, s) {
      assert w' == w;
    } else if s.delivery.Delivered? {
      PopKeeps(w, s, w'.b);
      PopInOrder(w, s, w');
      DeletionsStay(w, w', []);
    } else if s.delivery.NotAllowed? && s.item.operation == PublishEvent {
      HeldHead(w, s);
      RecoverKeeps(w, s, w'.b);
      RecoverInOrder(w, s, w'.b);
      DeletionsStay(w, w', []);
    } else {
      RetryKeeps(w, s, w'.b);
      AlikeInOrder(w, w');
      DeletionsStay(w, w', []);
    }
  }
}
