/** The owner coordinator: each successful reconciliation stamps its events with
    a created_at above every earlier one, across restarts and failed batches. */
module Coordinator {
  import opened Clock
  import opened Wrappers
  import opened Nostr
  import opened Outbox
  import Runs = OutboxRuns
  import OutboxInvariants
  import OutboxTheorems
  import Decimal
  import Relay
  import RelayTheorems

  const CURSOR := "replaceable_created_at"

  /** The accounts followed through one provider account. */
  datatype Snapshot = Snapshot(union: set<string>, lists: map<string, set<string>>)

  function OwnerScope(owner: string): Scope {
    Scope("bridge-owner", owner)
  }

  function SyncTargets(targets: set<(Scope, string)>, scope: Scope): set<string> {
    set t | t in targets && t.0 == scope :: t.1
  }

  /** The stored timestamp: zero when there is none, nothing when it is invalid. */
  function Persisted(cursors: map<(Scope, string), string>, owner: string): Option<int> {
    var key := (OwnerScope(owner), CURSOR);
    if key !in cursors then Some(0)
    else
      var n := Decimal.Parse(cursors[key]);
      if n.None? || n.value < 0 then None else Some(n.value)
  }

  function Events(rs: seq<EventRequest>): seq<Event>
    requires forall i :: 0 <= i < |rs| ==> rs[i].event.payload.Json?
  {
    seq(|rs|, i requires 0 <= i < |rs| => rs[i].event.payload.event)
  }

  /** Every request carries an event of that time. */
  predicate Stamped(rs: seq<EventRequest>, createdAt: int) {
    forall i :: 0 <= i < |rs| ==> rs[i].event.payload.Json? && rs[i].event.payload.event.createdAt == createdAt
  }

  lemma {:induction false} ChangedStamped(b: Bridge, rs: seq<EventRequest>, createdAt: int)
    requires Stamped(rs, createdAt)
    ensures Stamped(Changed(b, rs), createdAt)
  {
    if rs != [] {
      ChangedStamped(b, rs[..|rs| - 1], createdAt);
    }
  }

  /** Steps of the other parts of the bridge: they neither reconcile nor write
      the coordinator's cursor. */
  predicate Foreign(s: Runs.Step, owner: string) {
    match s
    case BatchStep(_) => false
    case CursorStep(scope, _) => scope != OwnerScope(owner)
    case EventStep(r) => r.mapping.source.scope != OwnerScope(owner)
    case DeleteStep(r) => r.source.scope != OwnerScope(owner)
    case UpdateStep(r) => r.mapping.source.scope != OwnerScope(owner)
    case _ => true
  }

  lemma {:induction false} AppendingKeeps(b: Bridge, rs: seq<OutboxRequest>)
    ensures AppendAll(b, rs).cursors == b.cursors && AppendAll(b, rs).targets == b.targets
    decreases rs
  {
    if rs != [] {
      AppendingKeeps(Append(b, rs[0]), rs[1..]);
    }
  }

  lemma SavedElsewhere(b: Bridge, scope: Scope, cursor: Option<CursorUpdate>, owner: string)
    requires scope != OwnerScope(owner)
    ensures Persisted(SaveCursor(b, scope, cursor).cursors, owner) == Persisted(b.cursors, owner)
    ensures SaveCursor(b, scope, cursor).targets == b.targets
  {
  }

  lemma EventKeeps(b: Bridge, r: EventRequest, owner: string)
    requires r.mapping.source.scope != OwnerScope(owner)
    ensures var b' := EnqueueEvent(b, r).0;
      Persisted(b'.cursors, owner) == Persisted(b.cursors, owner) && b'.targets == b.targets
  {
    AppendingKeeps(b, EventRows(b, r.event));
    var b1 := UpsertMapping(AppendAll(b, EventRows(b, r.event)), r.mapping);
    SavedElsewhere(b1, r.mapping.source.scope, r.cursor, owner);
    assert WriteEvent(b, r) ==
      SaveOperation(SaveCursor(b1, r.mapping.source.scope, r.cursor), r.mapping.source, r.sourceOperation);
  }

  lemma DeleteKeeps(b: Bridge, r: DeleteRequest, owner: string)
    requires r.source.scope != OwnerScope(owner)
    ensures var b' := EnqueueDelete(b, r).0;
      Persisted(b'.cursors, owner) == Persisted(b.cursors, owner) && b'.targets == b.targets
  {
    AppendingKeeps(b, EventRows(b, r.event));
    var b1 := AppendAll(b, EventRows(b, r.event));
    var b2 := b1.(mappings := b1.mappings - {r.source}, operations := b1.operations - {r.source});
    SavedElsewhere(b2, r.source.scope, r.cursor, owner);
  }

  lemma UpdateKeeps(b: Bridge, r: UpdateRequest, owner: string)
    requires r.mapping.source.scope != OwnerScope(owner)
    ensures var b' := EnqueueUpdate(b, r).0;
      Persisted(b'.cursors, owner) == Persisted(b.cursors, owner) && b'.targets == b.targets
  {
    AppendingKeeps(b, UpdateRows(b, r));
    var b1 := UpsertMapping(AppendAll(b, UpdateRows(b, r)), r.mapping);
    SavedElsewhere(SaveOperation(b1, r.mapping.source, r.sourceOperation), r.mapping.source.scope, r.cursor, owner);
  }

  lemma PurgeKeeps(b: Bridge, r: PurgeRequest)
    ensures var b' := EnqueuePurge(b, r).0; b'.cursors == b.cursors && b'.targets == b.targets
  {
    if r.payload.Json? {
      AppendingKeeps(b.(purges := b.purges[r.pubkey := PurgeMark(r.payload.event.id, r.availableAt)]), PurgeRows(r));
    }
  }

  lemma DispatchKeeps(b: Bridge, i: Runs.Item, d: Runs.Delivery, now: int, retryAt: int, error: string)
    ensures var b' := Runs.Dispatch(b, i, d, now, retryAt, error); b'.cursors == b.cursors && b'.targets == b.targets
  {
  }

  lemma ForeignKeeps(b: Bridge, s: Runs.Step, b': Bridge, owner: string)
    requires Foreign(s, owner) && b' == Runs.Store(b, s)
    ensures Persisted(b'.cursors, owner) == Persisted(b.cursors, owner)
    ensures b'.targets == b.targets
  {
    match s
    case EventStep(r) => EventKeeps(b, r, owner);
    case DeleteStep(r) => DeleteKeeps(b, r, owner);
    case UpdateStep(r) => UpdateKeeps(b, r, owner);
    case PurgeStep(r) => PurgeKeeps(b, r);
    case CursorStep(_, _) =>
    case ClaimStep(_, _, _, _, _) =>
    case DeliverStep(i, d, now, retryAt, error) => DispatchKeeps(b, i, d, now, retryAt, error);
  }

  predicate Ascending(ts: seq<int>) {
    forall i, j :: 0 <= i < j < |ts| ==> ts[i] < ts[j]
  }

  predicate AllAt(es: seq<Event>, t: int) {
    forall i :: 0 <= i < |es| ==> es[i].createdAt == t
  }

  /** The times of the batches rise up to the stored one. */
  ghost predicate LogOk(stamps: seq<int>, batches: seq<seq<Event>>, persisted: Option<int>) {
    && |batches| == |stamps|
    && Ascending(stamps)
    && (forall i :: 0 <= i < |batches| ==> AllAt(batches[i], stamps[i]))
    && (forall i :: 0 <= i < |stamps| ==> persisted.Some? && stamps[i] <= persisted.value)
  }

  /** Memory agrees with the stored targets. */
  ghost predicate Remembers(snapshots: map<Scope, Snapshot>, scopes: seq<Scope>, targets: set<(Scope, string)>) {
    && (forall s :: s in scopes ==> s in snapshots)
    && (forall s :: s in snapshots ==> snapshots[s].union == SyncTargets(targets, s))
  }

  lemma LogGrows(stamps: seq<int>, batches: seq<seq<Event>>, persisted: Option<int>, t: int, es: seq<Event>)
    requires LogOk(stamps, batches, persisted) && AllAt(es, t)
    requires persisted.Some? && persisted.value < t
    ensures LogOk(stamps + [t], batches + [es], Some(t))
  {
  }

  /** A committed batch stores its time and its targets, and no others. */
  lemma BatchRecords(b: Bridge, r: BatchRequest, b': Bridge, owner: string, createdAt: int)
    requires ReconcileBatch(b, r) == (b', Done) && createdAt >= 0
    requires r.cursorScope == OwnerScope(owner) && r.cursor == Some(CursorUpdate(CURSOR, Decimal.Format(createdAt)))
    ensures Persisted(b'.cursors, owner) == Some(createdAt)
    ensures b'.targets ==
      (set t | t in b.targets && t.0 != r.targetScope) + (set i | 0 <= i < |r.targets| :: (r.targetScope, r.targets[i]))
  {
    Decimal.RoundTrip(createdAt);
    AppendingKeeps(b, BatchRows(b, Changed(b, r.events)));
  }

  lemma TargetsReplaced(old': set<(Scope, string)>, scope: Scope, ts: seq<string>, s: Scope)
    ensures var now := (set t | t in old' && t.0 != scope) + (set i | 0 <= i < |ts| :: (scope, ts[i]));
      SyncTargets(now, s) == if s == scope then (set t | t in ts) else SyncTargets(old', s)
  {
    var now := (set t | t in old' && t.0 != scope) + (set i | 0 <= i < |ts| :: (scope, ts[i]));
    forall t
      ensures t in SyncTargets(now, s) <==> t in (if s == scope then (set t | t in ts) else SyncTargets(old', s))
    {
      assert (s, t) in now <==> if s == scope then t in ts else (s, t) in old';
      assert t in SyncTargets(now, s) <==> (s, t) in now;
      assert t in SyncTargets(old', s) <==> (s, t) in old';
    }
  }

  lemma CandidateRemembers(snapshots: map<Scope, Snapshot>, scopes: seq<Scope>, targets: set<(Scope, string)>,
                           scope: Scope, snapshot: Snapshot, ts: seq<string>, targets': set<(Scope, string)>)
    requires Remembers(snapshots, scopes, targets)
    requires forall t :: t in ts <==> t in snapshot.union
    requires targets' == (set t | t in targets && t.0 != scope) + (set i | 0 <= i < |ts| :: (scope, ts[i]))
    ensures Remembers(snapshots[scope := snapshot], scopes, targets') && SyncTargets(targets', scope) == snapshot.union
  {
    forall s ensures SyncTargets(targets', s) == if s == scope then (set t | t in ts) else SyncTargets(targets, s) {
      TargetsReplaced(targets, scope, ts, s);
    }
    assert (set t | t in ts) == snapshot.union;
  }

  class Coordinator {
    const owner: string
    const enabledScopes: seq<Scope>
    const limit: int
    // the database shared with the rest of the bridge
    var store: Bridge
    // memory, lost on restart
    var snapshots: map<Scope, Snapshot>
    var hydrated: bool
    var lastCreatedAt: int
    // the time and the enqueued events of each successful reconciliation
    ghost var stamps: seq<int>
    ghost var batches: seq<seq<Event>>

    ghost predicate Valid()
      reads this
    {
      && LogOk(stamps, batches, Stored())
      && (!hydrated ==> lastCreatedAt == 0)
      && (hydrated ==> Stored() == Some(lastCreatedAt) && Remembers(snapshots, enabledScopes, store.targets))
    }

    function Stored(): Option<int>
      reads this`store
    {
      Persisted(store.cursors, owner)
    }

    constructor (owner: string, enabledScopes: seq<Scope>, limit: int, store: Bridge)
      ensures Valid() && stamps == [] && !hydrated && this.store == store
      ensures this.owner == owner && this.enabledScopes == enabledScopes && this.limit == limit
    {
      this.owner, this.enabledScopes, this.limit, this.store := owner, enabledScopes, limit, store;
      snapshots, hydrated, lastCreatedAt := map[], false, 0;
      stamps, batches := [], [];
    }

    /** The process ends and starts again on the same database. */
    method Restart()
      requires Valid()
      modifies this`snapshots, this`hydrated, this`lastCreatedAt
      ensures Valid() && !hydrated
    {
      snapshots, hydrated, lastCreatedAt := map[], false, 0;
    }

    /** Another part of the bridge commits a step. */
    method Interleave(s: Runs.Step)
      requires Valid() && Foreign(s, owner)
      modifies this`store
      ensures Valid() && store == Runs.Store(old(store), s)
    {
      var b' := Runs.Store(store, s);
      ForeignKeeps(store, s, b', owner);
      store := b';
    }

    /** Memory is read back once; an invalid stored time is an error. */
    method Hydrate() returns (ok: bool)
      requires Valid()
      modifies this`snapshots, this`hydrated, this`lastCreatedAt
      ensures Valid()
      ensures ok == Stored().Some? && (ok ==> hydrated)
      ensures old(hydrated) || !ok ==> unchanged(this)
    {
      if hydrated {
        return true;
      }
      var loaded: map<Scope, Snapshot> := map[];
      for i := 0 to |enabledScopes|
        invariant forall k :: 0 <= k < i ==> enabledScopes[k] in loaded
        invariant forall s :: s in loaded ==> loaded[s].union == SyncTargets(store.targets, s)
      {
        loaded := loaded[enabledScopes[i] := Snapshot(SyncTargets(store.targets, enabledScopes[i]), map[])];
      }
      var key := (OwnerScope(owner), CURSOR);
      if key in store.cursors {
        var persisted := Decimal.Parse(store.cursors[key]);
        if persisted.None? || persisted.value < 0 {
          return false;
        }
        lastCreatedAt := persisted.value;
      }
      snapshots, hydrated := loaded, true;
      return true;
    }

    /** One reconciliation. `build` maps and signs the events of a candidate state
        at a time, or fails; `targets` are the snapshot's accounts, sorted. A failed
        call leaves the database as it was. */
    method Reconcile(scope: Scope, snapshot: Snapshot, targets: seq<string>, now: int,
                     build: (map<Scope, Snapshot>, int) -> Option<seq<EventRequest>>)
      returns (ok: bool)
      requires Valid()
      requires forall t :: t in targets <==> t in snapshot.union
      requires forall m, t :: build(m, t).Some? ==> Stamped(build(m, t).value, t)
      modifies this
      ensures Valid()
      ensures !ok ==> store == old(store) && stamps == old(stamps) && batches == old(batches)
      ensures ok ==> Stored().Some? && Seconds(now) <= Stored().value && stamps == old(stamps) + [Stored().value]
      ensures ok ==>
        && build(snapshots, lastCreatedAt).Some?
        && batches == old(batches) + [Enqueued(old(store), build(snapshots, lastCreatedAt).value, lastCreatedAt)]
      ensures ok ==> SyncTargets(store.targets, scope) == snapshot.union
    {
      ok := Hydrate();
      if !ok {
        return false;
      }
      var candidate := snapshots[scope := snapshot];
      var createdAt := Seconds(now);
      if createdAt <= lastCreatedAt {
        createdAt := lastCreatedAt + 1;
      }
      var events := build(candidate, createdAt);
      if events.None? {
        return false;
      }
      ok := Commit(scope, snapshot, targets, createdAt, events.value, candidate);
    }

    method Commit(scope: Scope, snapshot: Snapshot, targets: seq<string>, createdAt: int, events: seq<EventRequest>,
                  candidate: map<Scope, Snapshot>)
      returns (ok: bool)
      requires Valid() && hydrated && lastCreatedAt < createdAt && Stamped(events, createdAt)
      requires candidate == snapshots[scope := snapshot]
      requires forall t :: t in targets <==> t in snapshot.union
      modifies this`store, this`snapshots, this`lastCreatedAt, this`stamps, this`batches
      ensures Valid()
      ensures !ok ==> unchanged(this)
      ensures ok ==> Stored() == Some(createdAt) && stamps == old(stamps) + [createdAt]
      ensures ok ==> batches == old(batches) + [Enqueued(old(store), events, createdAt)]
      ensures ok ==> snapshots == candidate && lastCreatedAt == createdAt
      ensures ok ==> SyncTargets(store.targets, scope) == snapshot.union
    {
      var r := BatchRequest(scope, targets, [scope, OwnerScope(owner)], events, OwnerScope(owner),
                            Some(CursorUpdate(CURSOR, Decimal.Format(createdAt))), limit);
      var result := ReconcileBatch(store, r);
      if result.1.Rejected? {
        return false;
      }
      ghost var enqueued := Enqueued(store, events, createdAt);
      BatchRecords(store, r, result.0, owner, createdAt);
      CandidateRemembers(snapshots, enabledScopes, store.targets, scope, snapshot, targets, result.0.targets);
      LogGrows(stamps, batches, Stored(), createdAt, enqueued);
      stamps, batches := stamps + [createdAt], batches + [enqueued];
      store := result.0;
      snapshots, lastCreatedAt := candidate, createdAt;
      return true;
    }
  }

  /** The events a batch really enqueues. */
  ghost function Enqueued(b: Bridge, events: seq<EventRequest>, createdAt: int): (es: seq<Event>)
    requires Stamped(events, createdAt)
    ensures AllAt(es, createdAt)
  {
    ChangedStamped(b, events, createdAt);
    Events(Changed(b, events))
  }

  /** The relay received `m` of batch `k`; whatever else it received of the address
      was enqueued too, and no later batch has an event of the address. */
  ghost predicate LastBatch(stamps: seq<int>, batches: seq<seq<Event>>, k: nat, m: Event, received: seq<Event>) {
    && |stamps| == |batches| && Ascending(stamps) && k < |batches| && m in batches[k] && m in received
    && (forall i :: 0 <= i < |batches| ==> AllAt(batches[i], stamps[i]))
    && (forall i, x :: k < i < |batches| && x in batches[i] ==> !Relay.SameAddress(x, m))
    && forall x :: x in received && Relay.SameAddress(x, m) ==> exists i :: 0 <= i < |batches| && x in batches[i]
  }

  /** What else was received of the address from the batch of `m` loses to `m`. All
      of it has one time, so the id decides. */
  ghost predicate WinsBatch(batch: seq<Event>, m: Event, received: seq<Event>) {
    forall x :: x in received && x in batch && Relay.SameAddress(x, m) ==> x == m || Relay.IsOlder(x, m)
  }

  lemma LastBatchBest(stamps: seq<int>, batches: seq<seq<Event>>, k: nat, m: Event, received: seq<Event>)
    requires LastBatch(stamps, batches, k, m, received)
    ensures WinsBatch(batches[k], m, received) <==> RelayTheorems.IsBest(received, m)
  {
    if WinsBatch(batches[k], m, received) {
      assert m.createdAt == stamps[k];
      forall x | x in received && Relay.SameAddress(x, m) ensures x == m || Relay.IsOlder(x, m) {
        var i :| 0 <= i < |batches| && x in batches[i];
        assert x.createdAt == stamps[i];
      }
    }
  }

  /** Whatever order the enqueued events reach the relay in, and however often, an
      address ends with the event that wins its last batch, unless it is deleted. */
  lemma {:induction false} LastEnqueuedWins(stamps: seq<int>, batches: seq<seq<Event>>, k: nat, m: Event,
                                            received: seq<Event>)
    requires LastBatch(stamps, batches, k, m, received) && WinsBatch(batches[k], m, received)
    requires RelayTheorems.DistinctIds(received) && Relay.Addressed(m.kind)
    requires !RelayTheorems.Condemned(received, m.pubkey, m.id)
    ensures RelayTheorems.HoldsOnly(Relay.ReceiveAll(received), m)
  {
    LastBatchBest(stamps, batches, k, m, received);
    RelayTheorems.WinnerIsHeld(received, m);
  }

  /** Without deletions at the address it ends with no other event of that batch. */
  lemma {:induction false} LastEnqueuedExactly(stamps: seq<int>, batches: seq<seq<Event>>, k: nat, m: Event,
                                               received: seq<Event>)
    requires LastBatch(stamps, batches, k, m, received)
    requires RelayTheorems.DistinctIds(received) && Relay.Addressed(m.kind) && RelayTheorems.Clean(received, m)
    ensures RelayTheorems.HoldsOnly(Relay.ReceiveAll(received), m) <==> WinsBatch(batches[k], m, received)
  {
    LastBatchBest(stamps, batches, k, m, received);
    if WinsBatch(batches[k], m, received) {
      LastEnqueuedWins(stamps, batches, k, m, received);
    } else {
      var best := RelayTheorems.AddressConverges(received, m);
      assert best != m;
    }
  }

  // ------------------------------------------------------------ quiet repeats

  /** What an event says, apart from its time, id and signature. */
  datatype Draft = Draft(source: SourceRef, pubkey: Hex, kind: int, tags: seq<seq<string>>, content: string)

  /** The request for a draft signed at some time. Its operation is the hash of
      what it says, so it does not depend on the time. */
  function EventRequestOf(d: Draft, e: Event, reconciledAt: int,
                          hash: (Hex, int, seq<seq<string>>, string) -> string): EventRequest {
    EventRequest(
      Mapping(d.source, e.id, "reconciliation", e.pubkey, Seconds(reconciledAt)),
      OutboxRequest(e.pubkey, PublishEvent, e.pubkey, Json(e), Seconds(reconciledAt)),
      0, None, "sha256:" + hash(e.pubkey, e.kind, e.tags, e.content))
  }

  predicate Says(e: Event, d: Draft) {
    e.pubkey == d.pubkey && e.kind == d.kind && e.tags == d.tags && e.content == d.content
  }

  /** The requests of a reconciliation that maps `drafts` at some time. */
  ghost predicate Requests(rs: seq<EventRequest>, drafts: seq<Draft>,
                           hash: (Hex, int, seq<seq<string>>, string) -> string) {
    && |rs| == |drafts|
    && forall i :: 0 <= i < |rs| ==>
         && rs[i].event.payload.Json?
         && Says(rs[i].event.payload.event, drafts[i])
         && exists at :: rs[i] == EventRequestOf(drafts[i], rs[i].event.payload.event, at, hash)
  }

  /** Reconciling the same content again, at any later time, enqueues nothing. */
  lemma RepeatIsQuiet(b: Bridge, r: BatchRequest, again: BatchRequest, drafts: seq<Draft>,
                      hash: (Hex, int, seq<seq<string>>, string) -> string)
    requires OutboxInvariants.RecordsOk(b) && ReconcileBatch(b, r).1.Done? && OutboxTheorems.DistinctSources(r.events)
    requires Requests(r.events, drafts, hash) && Requests(again.events, drafts, hash)
    ensures var b' := ReconcileBatch(b, r).0; var b2 := ReconcileBatch(b', again).0;
      Changed(b', again.events) == [] && b2 == b'.(cursors := b2.cursors, targets := b2.targets)
  {
    OutboxTheorems.RepeatedBatchInsertsNothing(b, r, again);
  }
}
