/** The durable outbox of nostr-bridge, seen as one first-in first-out queue of
    jobs per aggregate. Every operation of the store is one atomic step on
    `Bridge`; `OutboxTables` and `OutboxStore` show that the SQL tables, with
    their sequence numbers, implement these steps. */
module Outbox {
  import opened Clock
  import opened Wrappers
  import opened Nostr

  type Key = Hex

  datatype Scope = Scope(provider: string, account: string)
  datatype SourceRef = SourceRef(scope: Scope, uri: string)

  datatype Operation = AllowPublisher | PublishEvent | UnallowPublisher

  /** JSON is abstracted: a payload is empty, does not parse, or is an event. */
  datatype Payload = Empty | Malformed(text: string) | Json(event: Event)

  datatype Error =
    | AuthorMismatch
    | InvalidPayload
    | ScopeMismatch
    | NoMapping
    | PurgePending
    | PurgeConflict
    | InvalidPurge
    | PurgeNotCovering
    | NotRegistered
    | OutboxFull
    | InvalidLease
    | ClaimLost

  datatype Outcome = Done | Rejected(error: Error)

  datatype OutboxRequest = OutboxRequest(
    aggregateKey: Key, operation: Operation, pubkey: Key, payload: Payload, availableAt: int)

  datatype Mapping = Mapping(
    source: SourceRef, eventId: Hex, sourceKind: string, author: Key, updatedAt: int)

  datatype CursorUpdate = CursorUpdate(name: string, value: string)

  datatype EventRequest = EventRequest(
    mapping: Mapping, event: OutboxRequest, limit: int,
    cursor: Option<CursorUpdate>, sourceOperation: string)

  datatype DeleteRequest = DeleteRequest(
    source: SourceRef, event: OutboxRequest, limit: int, cursor: Option<CursorUpdate>)

  datatype UpdateRequest = UpdateRequest(
    mapping: Mapping, deletion: OutboxRequest, replacement: OutboxRequest,
    sourceOperation: string, limit: int, cursor: Option<CursorUpdate>)

  datatype PurgeRequest = PurgeRequest(
    pubkey: Key, payload: Payload, availableAt: int, limit: int)

  datatype BatchRequest = BatchRequest(
    targetScope: Scope, targets: seq<string>, eventScopes: seq<Scope>,
    events: seq<EventRequest>, cursorScope: Scope, cursor: Option<CursorUpdate>, limit: int)

  datatype Job = Job(
    id: int, aggregate: Key, operation: Operation, pubkey: Key, payload: Payload,
    attempts: nat, availableAt: int, lastError: string,
    token: string, claimedUntil: int)

  datatype PurgeMark = PurgeMark(deletionId: Hex, createdAt: int)

  /** The store. `count` is the number of outbox rows, `nextId` the next row id. */
  datatype Bridge = Bridge(
    queues: map<Key, seq<Job>>,
    nextId: int,
    count: int,
    registered: map<Key, int>,
    purges: map<Key, PurgeMark>,
    mappings: map<SourceRef, Mapping>,
    operations: map<SourceRef, string>,
    cursors: map<(Scope, string), string>,
    targets: set<(Scope, string)>)

  const EMPTY := Bridge(map[], 1, 0, map[], map[], map[], map[], map[], {})

  function Queue(b: Bridge, a: Key): seq<Job> {
    if a in b.queues then b.queues[a] else []
  }

  // ---------------------------------------------------------------- appending

  function NewJob(id: int, r: OutboxRequest): Job {
    Job(id, r.aggregateKey, r.operation, r.pubkey, r.payload, 0, r.availableAt, "", "", 0)
  }

  function Append(b: Bridge, r: OutboxRequest): Bridge {
    b.(queues := b.queues[r.aggregateKey := Queue(b, r.aggregateKey) + [NewJob(b.nextId, r)]],
       nextId := b.nextId + 1,
       count := b.count + 1)
  }

  function AppendAll(b: Bridge, rs: seq<OutboxRequest>): Bridge
    decreases rs
  {
    if rs == [] then b else AppendAll(Append(b, rs[0]), rs[1..])
  }

  function AllowRequest(r: OutboxRequest): OutboxRequest {
    OutboxRequest(r.aggregateKey, AllowPublisher, r.pubkey, Empty, r.availableAt)
  }

  predicate HasOperation(q: seq<Job>, op: Operation) {
    exists i :: 0 <= i < |q| && q[i].operation == op
  }

  predicate RegisteredOrPending(b: Bridge, pubkey: Key, a: Key) {
    pubkey in b.registered || HasOperation(Queue(b, a), AllowPublisher)
  }

  // --------------------------------------------------------------- validation

  function ValidatePublish(r: OutboxRequest): Outcome {
    if r.operation != PublishEvent then Rejected(InvalidPayload)
    else if !IsHex32(r.pubkey) || r.aggregateKey != r.pubkey then Rejected(AuthorMismatch)
    else if !r.payload.Json? || !r.payload.event.idValid || !r.payload.event.signatureValid then
      Rejected(InvalidPayload)
    else if r.payload.event.pubkey != r.pubkey then Rejected(AuthorMismatch)
    else Done
  }

  function ValidateMappingId(m: Mapping, r: OutboxRequest): Outcome {
    if !r.payload.Json? || m.eventId != r.payload.event.id then Rejected(InvalidPayload) else Done
  }

  function SaveCursor(b: Bridge, scope: Scope, cursor: Option<CursorUpdate>): Bridge {
    if cursor.None? then b
    else b.(cursors := b.cursors[(scope, cursor.value.name) := cursor.value.value])
  }

  function SaveOperation(b: Bridge, ref: SourceRef, identity: string): Bridge {
    if identity == "" then b else b.(operations := b.operations[ref := identity])
  }

  function UpsertMapping(b: Bridge, m: Mapping): Bridge {
    b.(mappings := b.mappings[m.source := m])
  }

  predicate Fits(b: Bridge, needed: int, limit: int) {
    limit > 0 && b.count + needed <= limit
  }

  /** Rows that must precede a publish in an aggregate that is not yet allowed. */
  function AllowFirst(b: Bridge, r: OutboxRequest): seq<OutboxRequest> {
    if RegisteredOrPending(b, r.pubkey, r.aggregateKey) then [] else [AllowRequest(r)]
  }

  // --------------------------------------------------------- producing steps

  function CheckEvent(b: Bridge, r: EventRequest): Outcome {
    if r.event.pubkey != r.mapping.author then Rejected(AuthorMismatch)
    else if ValidatePublish(r.event).Rejected? then ValidatePublish(r.event)
    else if ValidateMappingId(r.mapping, r.event).Rejected? then ValidateMappingId(r.mapping, r.event)
    else if r.event.pubkey in b.purges then Rejected(PurgePending)
    else Done
  }

  function EventRows(b: Bridge, r: OutboxRequest): seq<OutboxRequest> {
    AllowFirst(b, r) + [r]
  }

  function WriteEvent(b: Bridge, r: EventRequest): Bridge {
    var b1 := UpsertMapping(AppendAll(b, EventRows(b, r.event)), r.mapping);
    var b2 := SaveCursor(b1, r.mapping.source.scope, r.cursor);
    SaveOperation(b2, r.mapping.source, r.sourceOperation)
  }

  function EnqueueEvent(b: Bridge, r: EventRequest): (Bridge, Outcome) {
    if CheckEvent(b, r).Rejected? then (b, CheckEvent(b, r))
    else if !Fits(b, |EventRows(b, r.event)|, r.limit) then (b, Rejected(OutboxFull))
    else (WriteEvent(b, r), Done)
  }

  function CheckDelete(b: Bridge, r: DeleteRequest): Outcome {
    if r.source !in b.mappings then Rejected(NoMapping)
    else if r.event.pubkey != b.mappings[r.source].author then Rejected(AuthorMismatch)
    else if ValidatePublish(r.event).Rejected? then ValidatePublish(r.event)
    else if r.event.pubkey in b.purges then Rejected(PurgePending)
    else Done
  }

  function WriteDelete(b: Bridge, r: DeleteRequest): Bridge {
    var b1 := AppendAll(b, EventRows(b, r.event));
    var b2 := b1.(mappings := b1.mappings - {r.source}, operations := b1.operations - {r.source});
    SaveCursor(b2, r.source.scope, r.cursor)
  }

  function EnqueueDelete(b: Bridge, r: DeleteRequest): (Bridge, Outcome) {
    if CheckDelete(b, r).Rejected? then (b, CheckDelete(b, r))
    else if !Fits(b, |EventRows(b, r.event)|, r.limit) then (b, Rejected(OutboxFull))
    else (WriteDelete(b, r), Done)
  }

  function CheckUpdate(b: Bridge, r: UpdateRequest): Outcome {
    if r.deletion.pubkey != r.replacement.pubkey || r.replacement.pubkey != r.mapping.author then
      Rejected(AuthorMismatch)
    else if ValidatePublish(r.deletion).Rejected? then ValidatePublish(r.deletion)
    else if ValidatePublish(r.replacement).Rejected? then ValidatePublish(r.replacement)
    else if ValidateMappingId(r.mapping, r.replacement).Rejected? then
      ValidateMappingId(r.mapping, r.replacement)
    else if r.replacement.pubkey in b.purges then Rejected(PurgePending)
    else Done
  }

  /** The deletion of the old event goes ahead of its replacement. */
  function UpdateRows(b: Bridge, r: UpdateRequest): seq<OutboxRequest> {
    AllowFirst(b, r.replacement) + [r.deletion, r.replacement]
  }

  function WriteUpdate(b: Bridge, r: UpdateRequest): Bridge {
    var b1 := UpsertMapping(AppendAll(b, UpdateRows(b, r)), r.mapping);
    var b2 := SaveOperation(b1, r.mapping.source, r.sourceOperation);
    SaveCursor(b2, r.mapping.source.scope, r.cursor)
  }

  function EnqueueUpdate(b: Bridge, r: UpdateRequest): (Bridge, Outcome) {
    if CheckUpdate(b, r).Rejected? then (b, CheckUpdate(b, r))
    else if !Fits(b, |UpdateRows(b, r)|, r.limit) then (b, Rejected(OutboxFull))
    else (WriteUpdate(b, r), Done)
  }

  // ------------------------------------------------------------------- purge

  function IdsByAuthor(b: Bridge, pubkey: Key): set<Hex> {
    set ref | ref in b.mappings && b.mappings[ref].author == pubkey :: b.mappings[ref].eventId
  }

  predicate IsPurgeDeletion(r: PurgeRequest) {
    && r.payload.Json?
    && r.payload.event.kind == DELETION
    && r.payload.event.pubkey == r.pubkey
    && r.payload.event.idValid
    && r.payload.event.signatureValid
  }

  function CheckPurge(b: Bridge, r: PurgeRequest): Outcome {
    if !IsPurgeDeletion(r) then Rejected(InvalidPurge)
    else if TaggedIds(r.payload.event.tags) != IdsByAuthor(b, r.pubkey) then Rejected(PurgeNotCovering)
    else if r.pubkey in b.purges then
      if b.purges[r.pubkey].deletionId == r.payload.event.id then Done else Rejected(PurgePending)
    else if HasOperation(Queue(b, r.pubkey), UnallowPublisher) then Rejected(PurgeConflict)
    else if r.pubkey !in b.registered then Rejected(NotRegistered)
    else if !Fits(b, 2, r.limit) then Rejected(OutboxFull)
    else Done
  }

  function PurgeRows(r: PurgeRequest): seq<OutboxRequest> {
    [OutboxRequest(r.pubkey, PublishEvent, r.pubkey, r.payload, r.availableAt),
     OutboxRequest(r.pubkey, UnallowPublisher, r.pubkey, Empty, r.availableAt)]
  }

  function EnqueuePurge(b: Bridge, r: PurgeRequest): (Bridge, Outcome) {
    if CheckPurge(b, r).Rejected? then (b, CheckPurge(b, r))
    else if r.pubkey in b.purges then (b, Done)
    else
      var marked := b.(purges := b.purges[r.pubkey := PurgeMark(r.payload.event.id, r.availableAt)]);
      (AppendAll(marked, PurgeRows(r)), Done)
  }

  // --------------------------------------------------------------- reconcile

  /** The event is already recorded: same identity, or same event id. */
  predicate Unchanged(b: Bridge, r: EventRequest) {
    && r.mapping.source in b.mappings
    && if r.sourceOperation != ""
       then r.mapping.source in b.operations && b.operations[r.mapping.source] == r.sourceOperation
       else b.mappings[r.mapping.source].eventId == r.mapping.eventId
  }

  function Changed(b: Bridge, rs: seq<EventRequest>): seq<EventRequest> {
    if rs == [] then []
    else
      var n := |rs| - 1;
      Changed(b, rs[..n]) + (if Unchanged(b, rs[n]) then [] else [rs[n]])
  }

  function Publishers(rs: seq<EventRequest>): set<Key> {
    set k | 0 <= k < |rs| :: rs[k].event.pubkey
  }

  /** Rows of a batch: one allow ahead of the first publish of each publisher
      that was neither registered nor pending before the batch. */
  function BatchRows(b: Bridge, rs: seq<EventRequest>): seq<OutboxRequest> {
    if rs == [] then []
    else
      var n := |rs| - 1;
      var r := rs[n].event;
      BatchRows(b, rs[..n]) + (if r.pubkey in Publishers(rs[..n]) then [] else AllowFirst(b, r)) + [r]
  }

  function CheckBatchEvent(b: Bridge, scopes: seq<Scope>, r: EventRequest): Outcome {
    if r.mapping.source.scope !in scopes then Rejected(ScopeMismatch) else CheckEvent(b, r)
  }

  function CheckBatchEvents(b: Bridge, scopes: seq<Scope>, rs: seq<EventRequest>): Outcome {
    if rs == [] then Done
    else
      var n := |rs| - 1;
      var o := CheckBatchEvents(b, scopes, rs[..n]);
      if o.Rejected? then o else CheckBatchEvent(b, scopes, rs[n])
  }

  function CheckBatch(b: Bridge, r: BatchRequest): Outcome {
    if r.cursor.Some? && r.cursorScope !in r.eventScopes then Rejected(ScopeMismatch)
    else if CheckBatchEvents(b, r.eventScopes, r.events).Rejected? then
      CheckBatchEvents(b, r.eventScopes, r.events)
    else if !Fits(b, |BatchRows(b, Changed(b, r.events))|, r.limit) then Rejected(OutboxFull)
    else Done
  }

  function RecordMappings(ms: map<SourceRef, Mapping>, rs: seq<EventRequest>): map<SourceRef, Mapping> {
    if rs == [] then ms
    else
      var n := |rs| - 1;
      RecordMappings(ms, rs[..n])[rs[n].mapping.source := rs[n].mapping]
  }

  function RecordOperations(ops: map<SourceRef, string>, rs: seq<EventRequest>): map<SourceRef, string> {
    if rs == [] then ops
    else
      var n := |rs| - 1;
      var before := RecordOperations(ops, rs[..n]);
      if rs[n].sourceOperation == "" then before else before[rs[n].mapping.source := rs[n].sourceOperation]
  }

  function RecordEvents(b: Bridge, rs: seq<EventRequest>): Bridge {
    b.(mappings := RecordMappings(b.mappings, rs), operations := RecordOperations(b.operations, rs))
  }

  function ReplaceTargets(b: Bridge, scope: Scope, targets: seq<string>): Bridge {
    b.(targets := (set t | t in b.targets && t.0 != scope) + (set i | 0 <= i < |targets| :: (scope, targets[i])))
  }

  function ReconcileBatch(b: Bridge, r: BatchRequest): (Bridge, Outcome) {
    if CheckBatch(b, r).Rejected? then (b, CheckBatch(b, r))
    else
      var news := Changed(b, r.events);
      var b1 := RecordEvents(AppendAll(b, BatchRows(b, news)), news);
      (SaveCursor(ReplaceTargets(b1, r.targetScope, r.targets), r.cursorScope, r.cursor), Done)
  }

  // ------------------------------------------------------------------ claims

  predicate Claimable(j: Job, now: int) {
    (j.token == "" || j.claimedUntil <= now) && j.availableAt <= Seconds(now)
  }

  /** Only the head of a queue can be claimed. */
  ghost function Eligible(b: Bridge, now: int): set<Job> {
    set a | a in b.queues && b.queues[a] != [] && Claimable(b.queues[a][0], now) :: b.queues[a][0]
  }

  predicate ClaimOrder(x: Job, y: Job) {
    x.availableAt < y.availableAt || (x.availableAt == y.availableAt && x.id < y.id)
  }

  /** `chosen` are the first `limit` eligible heads by availability, then id. */
  ghost predicate IsClaim(b: Bridge, now: int, limit: int, chosen: set<Job>) {
    var all := Eligible(b, now);
    && chosen <= all
    && |chosen| <= limit
    && (chosen != all ==> |chosen| == limit)
    && forall x, y :: x in chosen && y in all - chosen ==> ClaimOrder(x, y)
  }

  function Ids(jobs: set<Job>): set<int> {
    set j | j in jobs :: j.id
  }

  function JobsIn(jobs: seq<Job>): set<Job> {
    set j | j in jobs
  }

  function Leased(jobs: set<Job>, token: string, until: int): set<Job> {
    set j | j in jobs :: j.(token := token, claimedUntil := until)
  }

  function LeaseJob(j: Job, ids: set<int>, token: string, until: int): Job {
    if j.id in ids then j.(token := token, claimedUntil := until) else j
  }

  function LeaseQueue(q: seq<Job>, ids: set<int>, token: string, until: int): seq<Job> {
    seq(|q|, i requires 0 <= i < |q| => LeaseJob(q[i], ids, token, until))
  }

  function Lease(b: Bridge, ids: set<int>, token: string, until: int): Bridge {
    b.(queues := map a | a in b.queues :: LeaseQueue(b.queues[a], ids, token, until))
  }

  // -------------------------------------------------------------- completion

  predicate Holds(j: Job, id: int, token: string, now: int) {
    j.id == id && j.token == token && token != "" && j.claimedUntil > now
  }

  /** The claim `(id, token)` is live on aggregate `a` at time `now`. */
  predicate Live(b: Bridge, a: Key, id: int, token: string, now: int) {
    Queue(b, a) != [] && Holds(Queue(b, a)[0], id, token, now)
  }

  function Pop(b: Bridge, a: Key): Bridge
    requires Queue(b, a) != []
  {
    b.(queues := b.queues[a := Queue(b, a)[1..]], count := b.count - 1)
  }

  function Register(b: Bridge, pubkey: Key, at: int): Bridge {
    b.(registered := b.registered[pubkey := at])
  }

  function OwnedBy(ms: map<SourceRef, Mapping>, pubkey: Key): set<SourceRef> {
    set ref | ref in ms && ms[ref].author == pubkey
  }

  /** Clears the registration, and the operations and mappings of the author. */
  function Forget(b: Bridge, pubkey: Key): Bridge {
    var owned := OwnedBy(b.mappings, pubkey);
    b.(registered := b.registered - {pubkey},
       operations := b.operations - owned,
       mappings := b.mappings - owned)
  }

  function Retry(b: Bridge, a: Key, availableAt: int, lastError: string): Bridge
    requires Queue(b, a) != []
  {
    var q := Queue(b, a);
    var j := q[0].(attempts := q[0].attempts + 1, availableAt := availableAt, lastError := lastError,
                   token := "", claimedUntil := 0);
    b.(queues := b.queues[a := [j] + q[1..]])
  }

  function AllowAgain(j: Job, now: int): Job {
    j.(operation := AllowPublisher, payload := Empty, attempts := 0, lastError := "",
       token := "", claimedUntil := 0, availableAt := Seconds(now))
  }

  function Republish(j: Job, id: int, now: int): Job {
    Job(id, j.aggregate, PublishEvent, j.aggregate, j.payload, 0, Seconds(now), "", "", 0)
  }

  /** A rejected publish becomes allow-publisher followed by the same publish. */
  function Recover(b: Bridge, a: Key, now: int): Bridge
    requires Queue(b, a) != []
  {
    var q := Queue(b, a);
    b.(queues := b.queues[a := [AllowAgain(q[0], now), Republish(q[0], b.nextId, now)] + q[1..]],
       registered := b.registered - {a},
       nextId := b.nextId + 1,
       count := b.count + 1)
  }
}
