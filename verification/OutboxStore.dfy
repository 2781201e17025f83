/** The SQLite store of nostr-bridge. Fields are tables; every method is one
    transaction, written statement by statement, and is proved to be the step of
    `Outbox` that has its name. */
module OutboxStore {
  import opened Clock
  import opened Wrappers
  import opened Nostr
  import opened Sequences
  import opened Outbox
  import opened OutboxInvariants
  import opened OutboxTables

  class SQLiteStore {
    var outbox: Table
    var nextId: int
    var lastSequence: map<Key, nat>
    var registrations: map<Key, int>
    var purges: map<Key, PurgeMark>
    var mappings: map<SourceRef, Mapping>
    var operations: map<SourceRef, string>
    var cursors: map<(Scope, string), string>
    var targets: set<(Scope, string)>

    ghost predicate Valid()
      reads this`outbox, this`lastSequence, this`nextId
    {
      TableOk(outbox, lastSequence, nextId)
    }

    /** The store as queues. */
    ghost function View(): Bridge
      reads this
    {
      Bridge(Queues(outbox, lastSequence), nextId, |outbox|, registrations, purges, mappings, operations,
             cursors, targets)
    }

    constructor ()
      ensures Valid() && View() == EMPTY
    {
      outbox, nextId, lastSequence := map[], 1, map[];
      registrations, purges, mappings, operations := map[], map[], map[], map[];
      cursors, targets := map[], {};
    }

    // ------------------------------------------------------------- statements

    /** Advances the aggregate's sequence and inserts the row with it. */
    method EnqueueRow(r: OutboxRequest)
      requires Valid()
      modifies this`outbox, this`nextId, this`lastSequence
      ensures Valid() && View() == Append(old(View()), r)
    {
      var a := r.aggregateKey;
      var sequence := if a in lastSequence then lastSequence[a] + 1 else 1;
      var row := Row(a, sequence, r.operation, r.pubkey, r.payload, 0, r.availableAt, "", "", 0);
      AppendedTable(View(), outbox, lastSequence, nextId, row, r);
      lastSequence := lastSequence[a := sequence];
      outbox := outbox[nextId := row];
      nextId := nextId + 1;
    }

    static lemma AppendedTable(b: Bridge, t: Table, last: map<Key, nat>, nextId: int, row: Row, r: OutboxRequest)
      requires TableOk(t, last, nextId) && b.queues == Queues(t, last) && b.nextId == nextId && b.count == |t|
      requires row.sequence == (if r.aggregateKey in last then last[r.aggregateKey] else 0) + 1
      requires row == Row(r.aggregateKey, row.sequence, r.operation, r.pubkey, r.payload, 0, r.availableAt, "", "", 0)
      ensures var t', last' := t[nextId := row], last[r.aggregateKey := row.sequence];
        && TableOk(t', last', nextId + 1)
        && Append(b, r) == b.(queues := Queues(t', last'), nextId := nextId + 1, count := |t'|)
    {
      InsertedTable(t, last, nextId, row);
    }

    predicate RegisteredOrPendingRow(pubkey: Key, a: Key)
      reads this`outbox, this`registrations
    {
      pubkey in registrations ||
      exists id :: id in outbox && outbox[id].aggregate == a && outbox[id].operation == AllowPublisher
    }

    lemma RowsAnswer(pubkey: Key, a: Key)
      requires Valid()
      ensures RegisteredOrPendingRow(pubkey, a) == RegisteredOrPending(View(), pubkey, a)
      ensures (exists id :: id in outbox && outbox[id].aggregate == a && outbox[id].operation == UnallowPublisher)
           == HasOperation(Queue(View(), a), UnallowPublisher)
    {
      OperationInRows(outbox, lastSequence, nextId, a, AllowPublisher);
      OperationInRows(outbox, lastSequence, nextId, a, UnallowPublisher);
    }

    method StoreCursor(scope: Scope, cursor: Option<CursorUpdate>)
      modifies this`cursors
      ensures View() == Outbox.SaveCursor(old(View()), scope, cursor)
    {
      if cursor.Some? {
        cursors := cursors[(scope, cursor.value.name) := cursor.value.value];
      }
    }

    /** The allow ahead of a publisher's first row, when it needs one. */
    method EnqueueAllow(registered: bool, r: OutboxRequest)
      requires Valid()
      modifies this`outbox, this`nextId, this`lastSequence
      ensures Valid() && View() == AppendAll(old(View()), if registered then [] else [AllowRequest(r)])
    {
      if !registered {
        EnqueueRow(OutboxRequest(r.aggregateKey, AllowPublisher, r.pubkey, Empty, r.availableAt));
        AppendOne(old(View()), AllowRequest(r));
      }
    }

    // -------------------------------------------------------------- producers

    method EnqueueEvent(r: EventRequest) returns (o: Outcome)
      requires Valid()
      modifies this
      ensures Valid() && (View(), o) == Outbox.EnqueueEvent(old(View()), r)
    {
      if r.event.pubkey != r.mapping.author {
        return Rejected(AuthorMismatch);
      }
      o := ValidatePublish(r.event);
      if o.Rejected? {
        return;
      }
      o := ValidateMappingId(r.mapping, r.event);
      if o.Rejected? {
        return;
      }
      if r.event.pubkey in purges {
        return Rejected(PurgePending);
      }
      var registered := RegisteredOrPendingRow(r.event.pubkey, r.event.aggregateKey);
      RowsAnswer(r.event.pubkey, r.event.aggregateKey);
      var needed := 1;
      if !registered {
        needed := needed + 1;
      }
      if r.limit <= 0 || |outbox| + needed > r.limit {
        return Rejected(OutboxFull);
      }
      WriteEvent(registered, r);
      o := Done;
    }

    method WriteEvent(registered: bool, r: EventRequest)
      requires Valid() && registered == RegisteredOrPending(View(), r.event.pubkey, r.event.aggregateKey)
      modifies this`outbox, this`nextId, this`lastSequence, this`mappings, this`operations, this`cursors
      ensures Valid() && View() == Outbox.WriteEvent(old(View()), r)
    {
      ghost var b := View();
      EnqueueAllow(registered, r.event);
      ghost var b1 := View();
      StoreMapping(r.mapping);
      EnqueueRow(r.event);
      OneEvent(b, b1, r.event);
      AppendMapped(b1, r.event, r.mapping);
      StoreCursor(r.mapping.source.scope, r.cursor);
      StoreOperation(r.mapping.source, r.sourceOperation);
    }

    method EnqueueDelete(r: DeleteRequest) returns (o: Outcome)
      requires Valid()
      modifies this
      ensures Valid() && (View(), o) == Outbox.EnqueueDelete(old(View()), r)
    {
      if r.source !in mappings {
        return Rejected(NoMapping);
      }
      if r.event.pubkey != mappings[r.source].author {
        return Rejected(AuthorMismatch);
      }
      o := ValidatePublish(r.event);
      if o.Rejected? {
        return;
      }
      if r.event.pubkey in purges {
        return Rejected(PurgePending);
      }
      var registered := RegisteredOrPendingRow(r.event.pubkey, r.event.aggregateKey);
      RowsAnswer(r.event.pubkey, r.event.aggregateKey);
      var needed := 1;
      if !registered {
        needed := needed + 1;
      }
      if r.limit <= 0 || |outbox| + needed > r.limit {
        return Rejected(OutboxFull);
      }
      WriteDelete(registered, r);
      o := Done;
    }

    method WriteDelete(registered: bool, r: DeleteRequest)
      requires Valid() && registered == RegisteredOrPending(View(), r.event.pubkey, r.event.aggregateKey)
      modifies this`outbox, this`nextId, this`lastSequence, this`mappings, this`operations, this`cursors
      ensures Valid() && View() == Outbox.WriteDelete(old(View()), r)
    {
      ghost var b := View();
      EnqueueAllow(registered, r.event);
      ghost var b1 := View();
      RemoveSource(r.source);
      EnqueueRow(r.event);
      DeleteWritten(b, b1, r);
      StoreCursor(r.source.scope, r.cursor);
    }

    method RemoveSource(ref: SourceRef)
      modifies this`mappings, this`operations
      ensures View() == old(View()).(mappings := old(mappings) - {ref}, operations := old(operations) - {ref})
    {
      mappings := mappings - {ref};
      operations := operations - {ref};
    }

    method StoreMapping(m: Mapping)
      modifies this`mappings
      ensures View() == UpsertMapping(old(View()), m)
    {
      mappings := mappings[m.source := m];
    }

    method StoreOperation(ref: SourceRef, identity: string)
      modifies this`operations
      ensures View() == SaveOperation(old(View()), ref, identity)
    {
      if identity != "" {
        operations := operations[ref := identity];
      }
    }

    static lemma {:induction false} DeleteWritten(b: Bridge, b1: Bridge, r: DeleteRequest)
      requires b1 == AppendAll(b, AllowFirst(b, r.event))
      ensures
        var b2 := Append(b1.(mappings := b1.mappings - {r.source}, operations := b1.operations - {r.source}), r.event);
        SaveCursor(b2, r.source.scope, r.cursor) == Outbox.WriteDelete(b, r)
    {
      OneEvent(b, b1, r.event);
      AppendCommutes(b1, r.event, b1.mappings - {r.source}, b1.operations - {r.source});
    }

    method EnqueueUpdate(r: UpdateRequest) returns (o: Outcome)
      requires Valid()
      modifies this
      ensures Valid() && (View(), o) == Outbox.EnqueueUpdate(old(View()), r)
    {
      if r.deletion.pubkey != r.replacement.pubkey || r.replacement.pubkey != r.mapping.author {
        return Rejected(AuthorMismatch);
      }
      o := ValidatePublish(r.deletion);
      if o.Rejected? {
        return;
      }
      o := ValidatePublish(r.replacement);
      if o.Rejected? {
        return;
      }
      o := ValidateMappingId(r.mapping, r.replacement);
      if o.Rejected? {
        return;
      }
      if r.replacement.pubkey in purges {
        return Rejected(PurgePending);
      }
      var allowed := RegisteredOrPendingRow(r.replacement.pubkey, r.replacement.aggregateKey);
      RowsAnswer(r.replacement.pubkey, r.replacement.aggregateKey);
      var needed := 2;
      if !allowed {
        needed := needed + 1;
      }
      if r.limit <= 0 || |outbox| + needed > r.limit {
        return Rejected(OutboxFull);
      }
      WriteUpdate(allowed, r);
      o := Done;
    }

    method WriteUpdate(allowed: bool, r: UpdateRequest)
      requires Valid() && allowed == RegisteredOrPending(View(), r.replacement.pubkey, r.replacement.aggregateKey)
      modifies this`outbox, this`nextId, this`lastSequence, this`mappings, this`operations, this`cursors
      ensures Valid() && View() == Outbox.WriteUpdate(old(View()), r)
    {
      ghost var b := View();
      EnqueueAllow(allowed, r.replacement);
      ghost var b1 := View();
      EnqueueRow(r.deletion);
      StoreMapping(r.mapping);
      EnqueueRow(r.replacement);
      UpdateWritten(b, b1, r);
      StoreOperation(r.mapping.source, r.sourceOperation);
      StoreCursor(r.mapping.source.scope, r.cursor);
    }

    static lemma {:induction false} UpdateWritten(b: Bridge, b1: Bridge, r: UpdateRequest)
      requires b1 == AppendAll(b, AllowFirst(b, r.replacement))
      ensures
        var b2 := Append(UpsertMapping(Append(b1, r.deletion), r.mapping), r.replacement);
        SaveCursor(SaveOperation(b2, r.mapping.source, r.sourceOperation), r.mapping.source.scope, r.cursor) ==
          Outbox.WriteUpdate(b, r)
    {
      TwoEvents(b, b1, r);
    }

    // -------------------------------------------------------------- reconcile

    /** What the first pass knows after the events `rs`. */
    static ghost predicate PlanOk(b: Bridge, rs: seq<EventRequest>, pending: seq<EventRequest>, needed: int,
                                  registered: map<Key, bool>) {
      PlanRows(b, rs, pending, needed) && PlanKnown(b, pending, registered)
    }

    static ghost predicate PlanRows(b: Bridge, rs: seq<EventRequest>, pending: seq<EventRequest>, needed: int) {
      pending == Changed(b, rs) && needed == |BatchRows(b, pending)|
    }

    static ghost predicate PlanKnown(b: Bridge, pending: seq<EventRequest>, registered: map<Key, bool>) {
      && registered.Keys == Publishers(pending)
      && (forall a :: a in registered ==> registered[a] == RegisteredOrPending(b, a, a))
      && (forall r :: r in pending ==> ValidatePublish(r.event).Done?)
    }

    static lemma PlanKept(b: Bridge, rs: seq<EventRequest>, e: EventRequest, pending: seq<EventRequest>, needed: int,
                          registered: map<Key, bool>)
      requires PlanOk(b, rs, pending, needed, registered) && Unchanged(b, e)
      ensures PlanOk(b, rs + [e], pending, needed, registered)
    {
      assert (rs + [e])[..|rs|] == rs;
    }

    static lemma {:induction false} PlanRowsAdded(b: Bridge, rs: seq<EventRequest>, e: EventRequest,
                                                  pending: seq<EventRequest>, needed: int)
      requires PlanRows(b, rs, pending, needed) && !Unchanged(b, e)
      ensures PlanRows(b, rs + [e], pending + [e], needed + 1
        + (if e.event.pubkey in Publishers(pending) || RegisteredOrPending(b, e.event.pubkey, e.event.aggregateKey)
           then 0 else 1))
    {
      assert (rs + [e])[..|rs|] == rs && (pending + [e])[..|pending|] == pending;
    }

    static lemma {:induction false} PublishersAdded(pending: seq<EventRequest>, e: EventRequest)
      ensures Publishers(pending + [e]) == Publishers(pending) + {e.event.pubkey}
    {
      assert (pending + [e])[..|pending|] == pending;
      PublishersStep(pending + [e]);
    }

    static lemma {:induction false} PlanKnownAdded(b: Bridge, pending: seq<EventRequest>, e: EventRequest,
                                                   registered: map<Key, bool>,
                                                   registered': map<Key, bool>)
      requires PlanKnown(b, pending, registered) && ValidatePublish(e.event).Done?
      requires registered'.Keys == registered.Keys + {e.event.pubkey}
      requires forall a :: a in registered' ==> registered'[a] == RegisteredOrPending(b, a, a)
      ensures PlanKnown(b, pending + [e], registered')
    {
      PublishersAdded(pending, e);
      forall r | r in pending + [e] ensures ValidatePublish(r.event).Done? {
        assert r in pending || r == e;
      }
    }

    static lemma {:induction false} PlanAdded(b: Bridge, rs: seq<EventRequest>, e: EventRequest,
                                              pending: seq<EventRequest>, needed: int,
                           registered: map<Key, bool>, needed': int, registered': map<Key, bool>)
      requires PlanOk(b, rs, pending, needed, registered) && !Unchanged(b, e) && ValidatePublish(e.event).Done?
      requires var p := e.event.pubkey; var known := RegisteredOrPending(b, p, p);
        && registered' == (if p in registered then registered else registered[p := known])
        && needed' == needed + 1 + (if p in registered || known then 0 else 1)
      ensures PlanOk(b, rs + [e], pending + [e], needed', registered')
    {
      PlanRowsAdded(b, rs, e, pending, needed);
      PlanKnownAdded(b, pending, e, registered, registered');
    }

    /** A checked event that changed: one row more, and an allow if its publisher
        was not asked about before and is neither registered nor pending. */
    method PlanOne(e: EventRequest, pending: seq<EventRequest>, needed: int, registered: map<Key, bool>,
                   ghost rs: seq<EventRequest>)
      returns (pending': seq<EventRequest>, needed': int, registered': map<Key, bool>)
      requires Valid() && PlanOk(View(), rs, pending, needed, registered)
      requires ValidatePublish(e.event).Done? && !Unchanged(View(), e)
      ensures PlanOk(View(), rs + [e], pending', needed', registered')
    {
      pending', needed', registered' := pending + [e], needed + 1, registered;
      if e.event.pubkey !in registered {
        var allowed := RegisteredOrPendingRow(e.event.pubkey, e.event.aggregateKey);
        RowsAnswer(e.event.pubkey, e.event.aggregateKey);
        registered' := registered[e.event.pubkey := allowed];
        if !allowed {
          needed' := needed' + 1;
        }
      }
      PlanAdded(View(), rs, e, pending, needed, registered, needed', registered');
    }

    /** First pass: checks every event, keeps the ones that changed and counts
        the rows they need. `registered` caches the answer per publisher. */
    method PlanBatch(scopes: seq<Scope>, events: seq<EventRequest>)
      returns (o: Outcome, pending: seq<EventRequest>, needed: int, registered: map<Key, bool>)
      requires Valid()
      ensures o == CheckBatchEvents(View(), scopes, events)
      ensures o.Done? ==> PlanOk(View(), events, pending, needed, registered)
    {
      ghost var b := View();
      o, pending, needed, registered := Done, [], 0, map[];
      for i := 0 to |events|
        invariant o.Done? && CheckBatchEvents(b, scopes, events[..i]).Done?
        invariant PlanOk(b, events[..i], pending, needed, registered)
      {
        var e := events[i];
        TakeNext(events, i);
        o := CheckOne(scopes, e);
        if o.Rejected? {
          FirstFailure(b, scopes, events, i, |events|);
          TakeAll(events);
          return;
        }
        if UnchangedRow(e) {
          PlanKept(b, events[..i], e, pending, needed, registered);
        } else {
          pending, needed, registered := PlanOne(e, pending, needed, registered, events[..i]);
        }
      }
      TakeAll(events);
    }

    method CheckOne(scopes: seq<Scope>, e: EventRequest) returns (o: Outcome)
      ensures o == CheckBatchEvent(View(), scopes, e)
    {
      if e.mapping.source.scope !in scopes {
        return Rejected(ScopeMismatch);
      }
      if e.event.pubkey != e.mapping.author {
        return Rejected(AuthorMismatch);
      }
      o := ValidatePublish(e.event);
      if o.Rejected? {
        return;
      }
      o := ValidateMappingId(e.mapping, e.event);
      if o.Rejected? {
        return;
      }
      if e.event.pubkey in purges {
        return Rejected(PurgePending);
      }
    }

    predicate UnchangedRow(e: EventRequest)
      reads this
      ensures UnchangedRow(e) == Unchanged(View(), e)
    {
      && e.mapping.source in mappings
      && if e.sourceOperation != ""
         then e.mapping.source in operations && operations[e.mapping.source] == e.sourceOperation
         else mappings[e.mapping.source].eventId == e.mapping.eventId
    }

    static lemma {:induction false} FirstFailure(b: Bridge, scopes: seq<Scope>, events: seq<EventRequest>, i: nat,
                                                 n: nat)
      requires i < n <= |events| && CheckBatchEvents(b, scopes, events[..i]).Done?
      requires CheckBatchEvent(b, scopes, events[i]).Rejected?
      ensures CheckBatchEvents(b, scopes, events[..n]) == CheckBatchEvent(b, scopes, events[i])
    {
      assert events[..n][..n - 1] == events[..n - 1];
      if n > i + 1 {
        FirstFailure(b, scopes, events, i, n - 1);
      }
    }

    static ghost function Unregistered(rs: seq<EventRequest>, registered: map<Key, bool>): set<Key> {
      set a | a in Publishers(rs) && a in registered && !registered[a]
    }

    static lemma UnregisteredStep(rs: seq<EventRequest>, e: EventRequest, registered: map<Key, bool>)
      requires e.event.pubkey in registered
      ensures Unregistered(rs + [e], registered)
           == Unregistered(rs, registered) + (if registered[e.event.pubkey] then {} else {e.event.pubkey})
    {
      assert (rs + [e])[..|rs|] == rs;
      PublishersStep(rs + [e]);
    }

    static ghost function BatchSoFar(b: Bridge, rs: seq<EventRequest>): Bridge {
      AppendAll(b, BatchRows(b, rs)).(
        mappings := RecordMappings(b.mappings, rs), operations := RecordOperations(b.operations, rs))
    }

    /** One event more: its allow if needed, its records, its publish. */
    static lemma BatchStep(b: Bridge, before: seq<EventRequest>, upto: seq<EventRequest>, e: EventRequest)
      requires upto == before + [e]
      ensures var first := if e.event.pubkey in Publishers(before) then [] else AllowFirst(b, e.event);
        var x := BatchSoFar(b, before);
        var y := if first == [] then x else Append(x, first[0]);
        BatchSoFar(b, upto) ==
        Append(SaveOperation(UpsertMapping(y, e.mapping), e.mapping.source, e.sourceOperation), e.event)
    {
      var first := if e.event.pubkey in Publishers(before) then [] else AllowFirst(b, e.event);
      var rows := BatchRows(b, before);
      assert upto[..|before|] == before && upto[|before|] == e && |upto| - 1 == |before|;
      assert BatchRows(b, upto) == rows + first + [e.event];
      AppendAllConcat(b, rows + first, [e.event]);
      AppendAllConcat(b, rows, first);
      var z := AppendAll(b, rows);
      var z1 := if first == [] then z else Append(z, first[0]);
      if first != [] {
        AppendOne(z, first[0]);
      }
      assert AppendAll(b, rows + first) == z1;
      AppendOne(z1, e.event);
      BatchCommutes(z, first, RecordMappings(b.mappings, before), RecordOperations(b.operations, before), e);
    }

    static lemma BatchCommutes(z: Bridge, first: seq<OutboxRequest>, ms: map<SourceRef, Mapping>,
                               ops: map<SourceRef, string>, e: EventRequest)
      requires |first| <= 1
      ensures var x := z.(mappings := ms, operations := ops);
        var y := if first == [] then x else Append(x, first[0]);
        var z1 := if first == [] then z else Append(z, first[0]);
        Append(SaveOperation(UpsertMapping(y, e.mapping), e.mapping.source, e.sourceOperation), e.event)
        == Append(z1, e.event).(mappings := ms[e.mapping.source := e.mapping],
                                operations := if e.sourceOperation == "" then ops
                                              else ops[e.mapping.source := e.sourceOperation])
    {
    }

    static lemma PublisherOf(rs: seq<EventRequest>, i: nat)
      requires i < |rs|
      ensures rs[i] in rs && rs[i].event.pubkey in Publishers(rs)
    {
    }

    static lemma BatchLoopStep(b: Bridge, pending: seq<EventRequest>, i: nat, registered: map<Key, bool>,
                               queued: set<Key>, allow: bool)
      requires i < |pending| && registered.Keys == Publishers(pending)
      requires forall a :: a in registered ==> registered[a] == RegisteredOrPending(b, a, a)
      requires ValidatePublish(pending[i].event).Done? && pending[i].event.pubkey in registered
      requires queued == Unregistered(pending[..i], registered)
      requires allow == (!registered[pending[i].event.pubkey] && pending[i].event.pubkey !in queued)
      ensures Unregistered(pending[..i + 1], registered) == if allow then queued + {pending[i].event.pubkey} else queued
      ensures var e := pending[i]; var x := BatchSoFar(b, pending[..i]);
        var y := if allow then Append(x, AllowRequest(e.event)) else x;
        BatchSoFar(b, pending[..i + 1])
          == Append(SaveOperation(UpsertMapping(y, e.mapping), e.mapping.source, e.sourceOperation), e.event)
    {
      var before, upto, e := pending[..i], pending[..i + 1], pending[i];
      assert upto == before + [e];
      UnregisteredStep(before, e, registered);
      BatchStep(b, before, upto, e);
    }

    /** Second pass: an allow ahead of the first publish of every publisher that
        needs one, then mapping, identity and publish of each event. */
    method WriteBatch(pending: seq<EventRequest>, registered: map<Key, bool>)
      requires Valid() && registered.Keys == Publishers(pending)
      requires forall a :: a in registered ==> registered[a] == RegisteredOrPending(View(), a, a)
      requires forall r :: r in pending ==> ValidatePublish(r.event).Done?
      modifies this`outbox, this`nextId, this`lastSequence, this`mappings, this`operations
      ensures Valid() && View() == RecordEvents(AppendAll(old(View()), BatchRows(old(View()), pending)), pending)
    {
      ghost var b := View();
      var allowQueued: set<Key> := {};
      for i := 0 to |pending|
        invariant Valid()
        invariant allowQueued == Unregistered(pending[..i], registered)
        invariant View() == BatchSoFar(b, pending[..i])
      {
        var e := pending[i];
        PublisherOf(pending, i);
        var allow := !registered[e.event.pubkey] && e.event.pubkey !in allowQueued;
        BatchLoopStep(b, pending, i, registered, allowQueued, allow);
        WriteOne(e, allow);
        if allow {
          allowQueued := allowQueued + {e.event.pubkey};
        }
      }
      assert pending[..|pending|] == pending;
      AppendAllFrame(b, BatchRows(b, pending));
    }

    method WriteOne(e: EventRequest, allow: bool)
      requires Valid()
      modifies this`outbox, this`nextId, this`lastSequence, this`mappings, this`operations
      ensures Valid()
      ensures var y := if allow then Append(old(View()), AllowRequest(e.event)) else old(View());
        View() == Append(SaveOperation(UpsertMapping(y, e.mapping), e.mapping.source, e.sourceOperation), e.event)
    {
      if allow {
        EnqueueRow(OutboxRequest(e.event.aggregateKey, AllowPublisher, e.event.pubkey, Empty, e.event.availableAt));
      }
      mappings := mappings[e.mapping.source := e.mapping];
      if e.sourceOperation != "" {
        operations := operations[e.mapping.source := e.sourceOperation];
      }
      EnqueueRow(e.event);
    }

    method ReconcileBatch(r: BatchRequest) returns (o: Outcome)
      requires Valid()
      modifies this
      ensures Valid() && (View(), o) == Outbox.ReconcileBatch(old(View()), r)
    {
      if r.cursor.Some? && r.cursorScope !in r.eventScopes {
        return Rejected(ScopeMismatch);
      }
      var pending, needed, registered;
      o, pending, needed, registered := PlanBatch(r.eventScopes, r.events);
      if o.Rejected? {
        return;
      }
      if r.limit <= 0 || |outbox| + needed > r.limit {
        return Rejected(OutboxFull);
      }
      WriteBatch(pending, registered);
      targets := (set t | t in targets && t.0 != r.targetScope) +
                 (set i | 0 <= i < |r.targets| :: (r.targetScope, r.targets[i]));
      StoreCursor(r.cursorScope, r.cursor);
    }

    // ------------------------------------------------------------------ purge

    method TaggedBy(tags: seq<seq<string>>) returns (tagged: set<string>)
      ensures tagged == TaggedIds(tags)
    {
      tagged := {};
      for i := 0 to |tags|
        invariant tagged == TaggedIds(tags[..i])
      {
        ghost var before := tags[..i];
        ghost var upto := tags[..i + 1];
        assert upto == before + [tags[i]];
        TaggedStep(before, tags[i]);
        if |tags[i]| >= 2 && tags[i][0] == "e" {
          tagged := tagged + {tags[i][1]};
        }
      }
      assert tags[..|tags|] == tags;
    }

    static lemma TaggedStep(tags: seq<seq<string>>, tag: seq<string>)
      ensures TaggedIds(tags + [tag]) == TaggedIds(tags) + (if |tag| >= 2 && tag[0] == "e" then {tag[1]} else {})
    {
      var all := tags + [tag];
      forall x | x in TaggedIds(all) ensures x in TaggedIds(tags) || (|tag| >= 2 && tag[0] == "e" && x == tag[1]) {
        var i :| 0 <= i < |all| && |all[i]| >= 2 && all[i][0] == "e" && all[i][1] == x;
        assert i < |tags| ==> tags[i] == all[i];
      }
      forall x | x in TaggedIds(tags) ensures x in TaggedIds(all) {
        var i :| 0 <= i < |tags| && |tags[i]| >= 2 && tags[i][0] == "e" && tags[i][1] == x;
        assert all[i] == tags[i];
      }
      if |tag| >= 2 && tag[0] == "e" {
        assert all[|tags|] == tag;
      }
    }

    /** Same size and one inside the other: the two sets are equal. */
    static lemma SameSizeSubset(small: set<string>, large: set<string>)
      requires small <= large && |small| == |large|
      ensures small == large
    {
      assert |large - small| == |large| - |small|;
    }

    method EnqueuePurge(r: PurgeRequest) returns (o: Outcome)
      requires Valid()
      modifies this`outbox, this`nextId, this`lastSequence, this`purges
      ensures Valid() && (View(), o) == Outbox.EnqueuePurge(old(View()), r)
    {
      if !IsPurgeDeletion(r) {
        return Rejected(InvalidPurge);
      }
      var tagged := TaggedBy(r.payload.event.tags);
      var known := set ref | ref in mappings && mappings[ref].author == r.pubkey :: mappings[ref].eventId;
      assert known == IdsByAuthor(View(), r.pubkey);
      if |tagged| != |known| || exists id :: id in known && id !in tagged {
        return Rejected(PurgeNotCovering);
      }
      SameSizeSubset(known, tagged);
      if r.pubkey in purges {
        return if purges[r.pubkey].deletionId == r.payload.event.id then Done else Rejected(PurgePending);
      }
      RowsAnswer(r.pubkey, r.pubkey);
      if exists id :: id in outbox && outbox[id].aggregate == r.pubkey && outbox[id].operation == UnallowPublisher {
        return Rejected(PurgeConflict);
      }
      if r.pubkey !in registrations {
        return Rejected(NotRegistered);
      }
      if r.limit <= 0 || |outbox| + 2 > r.limit {
        return Rejected(OutboxFull);
      }
      WritePurge(r);
      o := Done;
    }

    method WritePurge(r: PurgeRequest)
      requires Valid() && r.payload.Json?
      modifies this`outbox, this`nextId, this`lastSequence, this`purges
      ensures Valid()
      ensures var b := old(View());
        var mark := PurgeMark(r.payload.event.id, r.availableAt);
        View() == AppendAll(b.(purges := b.purges[r.pubkey := mark]), PurgeRows(r))
    {
      purges := purges[r.pubkey := PurgeMark(r.payload.event.id, r.availableAt)];
      ghost var marked := View();
      EnqueueRow(OutboxRequest(r.pubkey, PublishEvent, r.pubkey, r.payload, r.availableAt));
      EnqueueRow(OutboxRequest(r.pubkey, UnallowPublisher, r.pubkey, Empty, r.availableAt));
      assert PurgeRows(r)[1..] == [PurgeRows(r)[1]];
      AppendOne(Append(marked, PurgeRows(r)[0]), PurgeRows(r)[1]);
    }

    // ------------------------------------------------------------------ claims

    /** Claims up to `limit` rows under one token and returns them in order. */
    method ClaimOutbox(now: int, lease: int, limit: int, token: string)
      returns (o: Outcome, items: seq<Job>, ghost chosen: set<Job>)
      requires Valid()
      modifies this`outbox
      ensures Valid()
      ensures o == if lease <= 0 then Rejected(InvalidLease) else Done
      ensures lease <= 0 || limit <= 0 ==> View() == old(View()) && items == []
      ensures lease > 0 && limit > 0 ==>
        && IsClaim(old(View()), now, limit, chosen)
        && View() == Lease(old(View()), Ids(chosen), token, now + lease)
        && (forall i, k :: 0 <= i < k < |items| ==> ClaimOrder(items[i], items[k]))
        && JobsIn(items) == Leased(chosen, token, now + lease)
    {
      items, chosen := [], {};
      if lease <= 0 {
        return Rejected(InvalidLease), [], {};
      }
      if limit <= 0 {
        return Done, [], {};
      }
      items, chosen := LeaseFirst(now, now + lease, limit, token);
      o := Done;
    }

    /** The claim statement, once its arguments are checked. */
    method LeaseFirst(now: int, until: int, limit: int, token: string) returns (items: seq<Job>, ghost chosen: set<Job>)
      requires Valid() && limit > 0
      modifies this`outbox
      ensures Valid()
      ensures IsClaim(old(View()), now, limit, chosen)
      ensures View() == Lease(old(View()), Ids(chosen), token, until)
      ensures forall i, k :: 0 <= i < k < |items| ==> ClaimOrder(items[i], items[k])
      ensures JobsIn(items) == Leased(chosen, token, until)
    {
      ghost var b := View();
      var t;
      t, items, chosen := ClaimRows(outbox, lastSequence, nextId, b, now, limit, token, until);
      outbox := t;
      assert View() == b.(queues := Queues(t, lastSequence));
    }

    // ------------------------------------------------------------- completion

    /** The row is there, and the token holds it: not empty, the row's own, not expired. */
    predicate Claimed(id: int, token: string, now: int)
      reads this`outbox
    {
      id in outbox && outbox[id].token == token && token != "" && outbox[id].claimedUntil > now
    }

    /** A claim matches a row exactly when it is live at the head of a queue. */
    lemma ClaimedIsLive(id: int, token: string, now: int)
      requires Valid()
      ensures Claimed(id, token, now) ==>
        var a := outbox[id].aggregate;
        Lowest(outbox, id) && Live(View(), a, id, token, now) && Queue(View(), a)[0] == JobOf(id, outbox[id])
      ensures forall a :: Live(View(), a, id, token, now) ==> Claimed(id, token, now) && outbox[id].aggregate == a
    {
      if Claimed(id, token, now) {
        QueueOfRow(outbox, lastSequence, nextId, id);
      }
      forall a | Live(View(), a, id, token, now) ensures Claimed(id, token, now) && outbox[id].aggregate == a {
        HeadIsLowest(outbox, a, lastSequence[a]);
      }
    }

    method CompleteOutbox(id: int, token: string, now: int) returns (o: Outcome)
      requires Valid()
      modifies this`outbox
      ensures Valid()
      ensures o == if old(Claimed(id, token, now)) then Done else Rejected(ClaimLost)
      ensures o.Done? ==> var a := old(outbox[id].aggregate);
        Live(old(View()), a, id, token, now) && View() == Pop(old(View()), a)
      ensures o.Rejected? ==> View() == old(View()) && forall a :: !Live(old(View()), a, id, token, now)
    {
      ClaimedIsLive(id, token, now);
      if !Claimed(id, token, now) {
        return Rejected(ClaimLost);
      }
      DeletedTable(outbox, lastSequence, nextId, id);
      outbox := outbox - {id};
      o := Done;
    }

    method CompletePublisherRegistration(id: int, token: string, pubkey: Key, now: int) returns (o: Outcome)
      requires Valid()
      modifies this`outbox, this`registrations
      ensures Valid()
      ensures o == if old(Claimed(id, token, now)) then Done else Rejected(ClaimLost)
      ensures o.Done? ==> var a := old(outbox[id].aggregate);
        Live(old(View()), a, id, token, now) && View() == Register(Pop(old(View()), a), pubkey, Seconds(now))
      ensures o.Rejected? ==> View() == old(View()) && forall a :: !Live(old(View()), a, id, token, now)
    {
      o := CompleteOutbox(id, token, now);
      if o.Done? {
        registrations := registrations[pubkey := now / SECOND];
      }
    }

    /** Source operations left once those mapped to an event of the author are gone. */
    static function OtherOperations(ms: map<SourceRef, Mapping>, ops: map<SourceRef, string>,
                                    pubkey: Key): map<SourceRef, string> {
      map ref | ref in ops && !(ref in ms && ms[ref].author == pubkey) :: ops[ref]
    }

    /** Mappings left once those of the author are gone. */
    static function OtherMappings(ms: map<SourceRef, Mapping>, pubkey: Key): map<SourceRef, Mapping> {
      map ref | ref in ms && ms[ref].author != pubkey :: ms[ref]
    }

    static lemma ForgetRows(ms: map<SourceRef, Mapping>, ops: map<SourceRef, string>, pubkey: Key)
      ensures OtherOperations(ms, ops, pubkey) == ops - OwnedBy(ms, pubkey)
      ensures OtherMappings(ms, pubkey) == ms - OwnedBy(ms, pubkey)
    {
    }

    method ForgetPublisher(pubkey: Key)
      modifies this`registrations, this`operations, this`mappings
      ensures View() == Forget(old(View()), pubkey)
    {
      registrations := registrations - {pubkey};
      ForgetRows(mappings, operations, pubkey);
      operations := OtherOperations(mappings, operations, pubkey);
      mappings := OtherMappings(mappings, pubkey);
    }

    method CompletePublisherUnregistration(id: int, token: string, now: int, pubkey: Key) returns (o: Outcome)
      requires Valid()
      modifies this`outbox, this`registrations, this`operations, this`mappings
      ensures Valid()
      ensures o == if old(Claimed(id, token, now)) then Done else Rejected(ClaimLost)
      ensures o.Done? ==> var a := old(outbox[id].aggregate);
        Live(old(View()), a, id, token, now) && View() == Forget(Pop(old(View()), a), pubkey)
      ensures o.Rejected? ==> View() == old(View()) && forall a :: !Live(old(View()), a, id, token, now)
    {
      o := CompleteOutbox(id, token, now);
      if o.Done? {
        ForgetPublisher(pubkey);
      }
    }

    method RetryOutbox(id: int, token: string, now: int, availableAt: int, lastError: string) returns (o: Outcome)
      requires Valid()
      modifies this`outbox
      ensures Valid()
      ensures o == if old(Claimed(id, token, now)) then Done else Rejected(ClaimLost)
      ensures o.Done? ==> var a := old(outbox[id].aggregate);
        Live(old(View()), a, id, token, now) && View() == Retry(old(View()), a, Seconds(availableAt), lastError)
      ensures o.Rejected? ==> View() == old(View()) && forall a :: !Live(old(View()), a, id, token, now)
    {
      ClaimedIsLive(id, token, now);
      if !Claimed(id, token, now) {
        return Rejected(ClaimLost);
      }
      var row := outbox[id].(attempts := outbox[id].attempts + 1, availableAt := availableAt / SECOND,
                             lastError := lastError, token := "", claimedUntil := 0);
      RetriedTable(View(), outbox, lastSequence, nextId, id, row, availableAt, lastError);
      outbox := outbox[id := row];
      o := Done;
    }

    static lemma RetriedTable(b: Bridge, t: Table, last: map<Key, nat>, nextId: int, id: int, row: Row,
                              availableAt: int, lastError: string)
      requires TableOk(t, last, nextId) && id in t && Lowest(t, id) && b.queues == Queues(t, last)
      requires Queue(b, t[id].aggregate) != [] && Queue(b, t[id].aggregate)[0] == JobOf(id, t[id])
      requires row == t[id].(attempts := t[id].attempts + 1, availableAt := Seconds(availableAt),
                             lastError := lastError, token := "", claimedUntil := 0)
      ensures TableOk(t[id := row], last, nextId) && |t[id := row]| == |t|
      ensures Retry(b, t[id].aggregate, Seconds(availableAt), lastError) ==
        b.(queues := Queues(t[id := row], last))
    {
      RewrittenTable(t, last, nextId, id, row);
    }

    // --------------------------------------------------------------- recovery

    method RecoverPublisherRegistration(id: int, token: string, pubkey: Key, now: int) returns (o: Outcome)
      requires Valid()
      modifies this`outbox, this`nextId, this`lastSequence, this`registrations
      ensures Valid()
      ensures o == if !old(Claimed(id, token, now)) then Rejected(ClaimLost)
                   else if old(outbox[id].operation) != PublishEvent then Rejected(ClaimLost)
                   else if old(outbox[id].aggregate) != pubkey then Rejected(AuthorMismatch) else Done
      ensures o.Done? ==> Live(old(View()), pubkey, id, token, now) && View() == Recover(old(View()), pubkey, now)
      ensures o.Rejected? ==> View() == old(View())
    {
      ClaimedIsLive(id, token, now);
      if !Claimed(id, token, now) || outbox[id].operation != PublishEvent {
        return Rejected(ClaimLost);
      }
      var claimed := outbox[id];
      if claimed.aggregate != pubkey {
        return Rejected(AuthorMismatch);
      }
      RecoverClaimed(id, pubkey, now);
      o := Done;
    }

    /** The writes of a recovery, once the claim is checked. */
    method RecoverClaimed(id: int, pubkey: Key, now: int)
      requires Valid() && id in outbox && Lowest(outbox, id) && outbox[id].aggregate == pubkey
      requires Queue(View(), pubkey) != []
      modifies this`outbox, this`nextId, this`lastSequence, this`registrations
      ensures Valid() && View() == Recover(old(View()), pubkey, now)
    {
      ghost var b := View();
      var t, last, left := RecoveredTables(b, outbox, lastSequence, nextId, registrations, id, pubkey, now);
      registrations := left;
      outbox, lastSequence, nextId := t, last, nextId + 1;
    }

    static method RecoveredTables(ghost b: Bridge, t: Table, last: map<Key, nat>, nextId: int,
                                  registered: map<Key, int>, id: int, a: Key, now: int)
      returns (t': Table, last': map<Key, nat>, left: map<Key, int>)
      requires TableOk(t, last, nextId) && id in t && Lowest(t, id) && a == t[id].aggregate
      requires b.queues == Queues(t, last) && b.nextId == nextId && b.count == |t| && b.registered == registered
      requires Queue(b, a) != []
      ensures TableOk(t', last', nextId + 1)
      ensures Recover(b, a, now) ==
        b.(queues := Queues(t', last'), registered := left, nextId := nextId + 1, count := |t'|)
    {
      ghost var q := QueueIsPending(b, t, last, a);
      ghost var q' := [AllowAgain(q[0], now), Republish(q[0], nextId, now)] + q[1..];
      t' := RecoverRows(t, id, nextId, now);
      last' := last[a := last[a] + 1];
      left := registered - {a};
      RecoveredStore(t, last, nextId, id, now, a, t', last', q');
      IsRecovered(b, Queues(t', last'), |t'|, left, a, now, q');
    }

    static lemma QueueIsPending(b: Bridge, t: Table, last: map<Key, nat>, a: Key) returns (q: seq<Job>)
      requires b.queues == Queues(t, last) && Queue(b, a) != []
      ensures a in last && q == Pending(t, a, last[a]) == Queue(b, a)
    {
      q := Queue(b, a);
    }

    static lemma IsRecovered(b: Bridge, queues: map<Key, seq<Job>>, count: nat, registered: map<Key, int>, a: Key,
                             now: int, q': seq<Job>)
      requires Queue(b, a) != []
      requires q' == [AllowAgain(Queue(b, a)[0], now), Republish(Queue(b, a)[0], b.nextId, now)] + Queue(b, a)[1..]
      requires queues == b.queues[a := q'] && registered == b.registered - {a} && count == b.count + 1
      ensures Recover(b, a, now) ==
              b.(queues := queues, registered := registered, nextId := b.nextId + 1, count := count)
    {
    }

    /** Appending a row and recording events do not interfere. */
    static lemma AppendCommutes(b: Bridge, r: OutboxRequest, ms: map<SourceRef, Mapping>, ops: map<SourceRef, string>)
      ensures Append(b.(mappings := ms, operations := ops), r) == Append(b, r).(mappings := ms, operations := ops)
    {
    }

    static lemma AppendMapped(b: Bridge, r: OutboxRequest, m: Mapping)
      ensures Append(UpsertMapping(b, m), r) == UpsertMapping(Append(b, r), m)
    {
    }

    static lemma {:induction false} OneEvent(b: Bridge, b1: Bridge, r: OutboxRequest)
      requires b1 == AppendAll(b, AllowFirst(b, r))
      ensures AppendAll(b, EventRows(b, r)) == Append(b1, r)
      ensures b1.mappings == b.mappings && b1.operations == b.operations
    {
      AppendOne(b1, r);
      AppendAllConcat(b, AllowFirst(b, r), [r]);
      AppendAllFrame(b, AllowFirst(b, r));
    }

    static lemma {:induction false} TwoEvents(b: Bridge, b1: Bridge, r: UpdateRequest)
      requires b1 == AppendAll(b, AllowFirst(b, r.replacement))
      ensures Append(UpsertMapping(Append(b1, r.deletion), r.mapping), r.replacement)
           == UpsertMapping(AppendAll(b, UpdateRows(b, r)), r.mapping)
    {
      var two := [r.deletion, r.replacement];
      assert two[1..] == [r.replacement];
      AppendOne(Append(b1, r.deletion), r.replacement);
      AppendAllConcat(b, AllowFirst(b, r.replacement), two);
    }
  }
}
