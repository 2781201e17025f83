/** Runs of the outbox: producers, the purge command and any number of
    dispatchers, interleaved arbitrarily, with claims that expire and items that
    stale dispatchers still hold. */
module OutboxRuns {
  import opened Clock
  import opened Wrappers
  import opened Nostr
  import opened Outbox

  /** What a dispatcher remembers of a claimed row. */
  datatype Item = Item(aggregate: Key, id: int, operation: Operation, pubkey: Key, payload: Payload, token: string)

  datatype Delivery = Delivered | NotAllowed | Failed

  datatype Step =
    | EventStep(event: EventRequest)
    | DeleteStep(delete: DeleteRequest)
    | UpdateStep(update: UpdateRequest)
    | BatchStep(batch: BatchRequest)
    | PurgeStep(purge: PurgeRequest)
    | CursorStep(scope: Scope, cursor: CursorUpdate)
    | ClaimStep(claimedAt: int, lease: int, limit: int, token: string, chosen: set<Job>)
    | DeliverStep(item: Item, delivery: Delivery, now: int, retryAt: int, error: string)

  /** The store together with what happened so far: publishes accepted from
      producers and publishes delivered, per aggregate; every claim handed out;
      and the deletion event behind every purge mark. */
  datatype World = World(
    b: Bridge,
    enqueued: map<Key, seq<Payload>>,
    completed: map<Key, seq<Payload>>,
    issued: set<Item>,
    deletions: map<Key, Event>)

  const START := World(EMPTY, map[], map[], {}, map[])

  function Log(m: map<Key, seq<Payload>>, a: Key): seq<Payload> {
    if a in m then m[a] else []
  }

  function LogAll(m: map<Key, seq<Payload>>, ps: seq<(Key, Payload)>): map<Key, seq<Payload>>
    decreases ps
  {
    if ps == [] then m
    else LogAll(m[ps[0].0 := Log(m, ps[0].0) + [ps[0].1]], ps[1..])
  }

  function Named(rs: seq<EventRequest>): seq<(Key, Payload)> {
    seq(|rs|, i requires 0 <= i < |rs| => (rs[i].event.pubkey, rs[i].event.payload))
  }

  /** The publishes a producer call promises, in order, when it succeeds. */
  function Promised(b: Bridge, s: Step): seq<(Key, Payload)> {
    match s
    case EventStep(r) =>
      if EnqueueEvent(b, r).1.Done? then [(r.event.pubkey, r.event.payload)] else []
    case DeleteStep(r) =>
      if EnqueueDelete(b, r).1.Done? then [(r.event.pubkey, r.event.payload)] else []
    case UpdateStep(r) =>
      if EnqueueUpdate(b, r).1.Done?
      then [(r.deletion.pubkey, r.deletion.payload), (r.replacement.pubkey, r.replacement.payload)] else []
    case BatchStep(r) =>
      if ReconcileBatch(b, r).1.Done? then Named(Changed(b, r.events)) else []
    case PurgeStep(r) =>
      if EnqueuePurge(b, r).1.Done? && r.pubkey !in b.purges then [(r.pubkey, r.payload)] else []
    case _ => []
  }

  /** What the dispatcher asks of the store once a delivery attempt is over. */
  function Dispatch(b: Bridge, i: Item, d: Delivery, now: int, retryAt: int, error: string): Bridge {
    if !Live(b, i.aggregate, i.id, i.token, now) then b
    else if d.Delivered? then
      match i.operation
      case AllowPublisher => Register(Pop(b, i.aggregate), i.pubkey, Seconds(now))
      case UnallowPublisher => Forget(Pop(b, i.aggregate), i.pubkey)
      case PublishEvent => Pop(b, i.aggregate)
    else if d.NotAllowed? && i.operation == PublishEvent then
      if Queue(b, i.aggregate)[0].operation != PublishEvent || i.aggregate != i.pubkey then b
      else Recover(b, i.aggregate, now)
    else Retry(b, i.aggregate, retryAt, error)
  }

  function Delivered1(b: Bridge, s: Step): seq<(Key, Payload)> {
    if s.DeliverStep? && s.delivery.Delivered? && Live(b, s.item.aggregate, s.item.id, s.item.token, s.now)
       && Queue(b, s.item.aggregate)[0].operation == PublishEvent
    then [(s.item.aggregate, Queue(b, s.item.aggregate)[0].payload)] else []
  }

  function Store(b: Bridge, s: Step): Bridge {
    match s
    case EventStep(r) => EnqueueEvent(b, r).0
    case DeleteStep(r) => EnqueueDelete(b, r).0
    case UpdateStep(r) => EnqueueUpdate(b, r).0
    case BatchStep(r) => ReconcileBatch(b, r).0
    case PurgeStep(r) => EnqueuePurge(b, r).0
    case CursorStep(scope, c) => SaveCursor(b, scope, Some(c))
    case ClaimStep(now, lease, limit, token, chosen) =>
      Lease(b, Ids(chosen), token, now + lease)
    case DeliverStep(i, d, now, retryAt, error) => Dispatch(b, i, d, now, retryAt, error)
  }

  function Items(chosen: set<Job>, token: string): set<Item> {
    set j | j in chosen :: Item(j.aggregate, j.id, j.operation, j.pubkey, j.payload, token)
  }

  function Next(w: World, s: Step): World {
    World(
      Store(w.b, s),
      LogAll(w.enqueued, Promised(w.b, s)),
      LogAll(w.completed, Delivered1(w.b, s)),
      if s.ClaimStep? then w.issued + Items(s.chosen, s.token) else w.issued,
      if s.PurgeStep? && EnqueuePurge(w.b, s.purge).1.Done? && s.purge.pubkey !in w.b.purges
      then w.deletions[s.purge.pubkey := s.purge.payload.event] else w.deletions)
  }

  /** Claim tokens are 16 random bytes: non-empty and never drawn twice. A
      dispatcher acts only on a row it was handed. */
  ghost predicate Enabled(w: World, s: Step) {
    match s
    case ClaimStep(now, lease, limit, token, chosen) =>
      && lease > 0 && limit > 0 && token != ""
      && IsClaim(w.b, now, limit, chosen)
      && (forall i :: i in w.issued ==> i.token != token)
    case DeliverStep(i, _, _, _, _) => i in w.issued
    case _ => true
  }

  ghost predicate Enables(w: World, ss: seq<Step>)
    decreases ss
  {
    ss == [] || (Enabled(w, ss[0]) && Enables(Next(w, ss[0]), ss[1..]))
  }

  function Run(w: World, ss: seq<Step>): World
    decreases ss
  {
    if ss == [] then w else Run(Next(w, ss[0]), ss[1..])
  }
}
