/** What holds in every state the bridge can reach. */
module OutboxTheorems {
  import opened Clock
  import opened Wrappers
  import opened Nostr
  import opened Outbox
  import opened OutboxRuns
  import opened OutboxInvariants
  import opened OutboxSteps

  /** A producer call that is refused leaves everything as it was. */
  lemma RefusedChangesNothing(w: World, s: Step)
    requires match s
      case EventStep(r) => EnqueueEvent(w.b, r).1.Rejected?
      case DeleteStep(r) => EnqueueDelete(w.b, r).1.Rejected?
      case UpdateStep(r) => EnqueueUpdate(w.b, r).1.Rejected?
      case BatchStep(r) => ReconcileBatch(w.b, r).1.Rejected?
      case PurgeStep(r) => EnqueuePurge(w.b, r).1.Rejected? || r.pubkey in w.b.purges
      case _ => false
    ensures Next(w, s) == w
  {
  }

  lemma CursorEnqueues(b: Bridge, scope: Scope, c: CursorUpdate)
    requires RecordsOk(b)
    ensures Enqueues(b, SaveCursor(b, scope, Some(c)), [], [])
  {
  }

  lemma CursorKeeps(w: World, s: Step)
    requires Inv(w) && s.CursorStep?
    ensures Inv(Next(w, s))
  {
    var w' := Next(w, s);
    CursorNext(w, s, w');
    CursorEnqueues(w.b, s.scope, s.cursor);
    ProducerKeeps(w, w', [], []);
  }

  lemma CursorNext(w: World, s: Step, w': World)
    requires s.CursorStep? && w' == Next(w, s)
    ensures w' == w.(b := SaveCursor(w.b, s.scope, Some(s.cursor)))
    ensures w'.enqueued == LogAll(w.enqueued, [])
  {
  }

  lemma StepKeeps(w: World, s: Step)
    requires Inv(w) && Enabled(w, s)
    ensures Inv(Next(w, s))
  {
    match s
    case EventStep(r) =>
      if EnqueueEvent(w.b, r).1.Done? { EventKeeps(w, r); } else { RefusedChangesNothing(w, s); }
    case DeleteStep(r) =>
      if EnqueueDelete(w.b, r).1.Done? { DeleteKeeps(w, r); } else { RefusedChangesNothing(w, s); }
    case UpdateStep(r) =>
      if EnqueueUpdate(w.b, r).1.Done? { UpdateKeeps(w, r); } else { RefusedChangesNothing(w, s); }
    case BatchStep(r) =>
      if ReconcileBatch(w.b, r).1.Done? { BatchKeeps(w, r); } else { RefusedChangesNothing(w, s); }
    case PurgeStep(r) =>
      if EnqueuePurge(w.b, r).1.Done? && r.pubkey !in w.b.purges { PurgeKeeps(w, r); }
      else { RefusedChangesNothing(w, s); }
    case CursorStep(_, _) => CursorKeeps(w, s);
    case ClaimStep(_, _, _, _, _) => ClaimKeeps(w, s);
    case DeliverStep(_, _, _, _, _) => DeliverKeeps(w, s);
  }

  lemma {:induction false} RunKeeps(w: World, ss: seq<Step>)
    requires Inv(w) && Enables(w, ss)
    ensures Inv(Run(w, ss))
    decreases ss
  {
    if ss != [] {
      StepKeeps(w, ss[0]);
      RunKeeps(Next(w, ss[0]), ss[1..]);
    }
  }

  lemma StartOk()
    ensures Inv(START)
  {
  }

  lemma {:induction false} Reachable(ss: seq<Step>)
    requires Enables(START, ss)
    ensures Inv(Run(START, ss))
  {
    StartOk();
    RunKeeps(START, ss);
  }

  /** No publish is lost, duplicated or reordered: in every reachable state the
      completed publishes of an aggregate, followed by its pending ones in
      queue order, are exactly the publishes accepted for it, in order. */
  lemma {:induction false} DeliveredInOrder(ss: seq<Step>, a: Key)
    requires Enables(START, ss)
    ensures var w := Run(START, ss);
      Log(w.completed, a) + ToPublish(w.b, a) == Log(w.enqueued, a)
  {
    Reachable(ss);
  }

  /** Every pending publish belongs to a registered publisher or has a pending
      allow-publisher ahead of it in its aggregate. */
  lemma {:induction false} PublishersAreAllowed(ss: seq<Step>, a: Key, i: nat)
    requires Enables(START, ss)
    requires i < |Queue(Run(START, ss).b, a)| && Queue(Run(START, ss).b, a)[i].operation == PublishEvent
    ensures var w := Run(START, ss);
      || a in w.b.registered
      || exists j :: 0 <= j < i && Queue(w.b, a)[j].operation == AllowPublisher
  {
    Reachable(ss);
    var w := Run(START, ss);
    assert Covered(w.b.queues[a], a in w.b.registered);
  }

  /** A claimed row is the head of its aggregate, so no aggregate has two. */
  lemma {:induction false} OnlyHeadsAreClaimed(ss: seq<Step>, a: Key, i: nat)
    requires Enables(START, ss)
    requires i < |Queue(Run(START, ss).b, a)| && Queue(Run(START, ss).b, a)[i].token != ""
    ensures i == 0
  {
    Reachable(ss);
    assert QueueOk(Run(START, ss).b.queues[a], a, Run(START, ss).b.nextId);
  }

  // ---------------------------------------------------------------- lost claims

  /** No row carries the claim any more. */
  ghost predicate Lost(b: Bridge, i: Item) {
    forall a, k :: a in b.queues && 0 <= k < |b.queues[a]| ==> !SameClaim(i, b.queues[a][k])
  }

  /** A step puts a token on a row only by claiming it with a token of its own. */
  ghost predicate TokenKept(b: Bridge, s: Step, a: Key, j: Job) {
    j.token == "" || j in Queue(b, a) || (s.ClaimStep? && j.token == s.token)
  }

  lemma {:induction false} ProducedRows(b: Bridge, rs: seq<OutboxRequest>, a: Key)
    ensures forall j :: j in Queue(AppendAll(b, rs), a) ==> j.token == "" || j in Queue(b, a)
    decreases rs
  {
    if rs != [] {
      AppendQueue(b, rs[0], a);
      ProducedRows(Append(b, rs[0]), rs[1..], a);
    }
  }

  /** The rows a producer call appends. */
  function Rows(b: Bridge, s: Step): seq<OutboxRequest> {
    match s
    case EventStep(r) => if EnqueueEvent(b, r).1.Done? then EventRows(b, r.event) else []
    case DeleteStep(r) => if EnqueueDelete(b, r).1.Done? then EventRows(b, r.event) else []
    case UpdateStep(r) =>
      if EnqueueUpdate(b, r).1.Done? then UpdateRows(b, r) else []
    case BatchStep(r) => if ReconcileBatch(b, r).1.Done? then BatchRows(b, Changed(b, r.events)) else []
    case _ => []
  }

  predicate Produces(s: Step) {
    s.EventStep? || s.DeleteStep? || s.UpdateStep? || s.BatchStep? || s.CursorStep?
  }

  lemma {:induction false} ProducedQueues(b: Bridge, s: Step)
    requires RecordsOk(b) && Produces(s)
    ensures Store(b, s).queues == AppendAll(b, Rows(b, s)).queues
  {
    match s
    case EventStep(r) => if EnqueueEvent(b, r).1.Done? { EventRecords(b, r); }
    case DeleteStep(r) => if EnqueueDelete(b, r).1.Done? { DeleteRecords(b, r); }
    case UpdateStep(r) => if EnqueueUpdate(b, r).1.Done? { UpdateRecords(b, r); }
    case BatchStep(r) => if ReconcileBatch(b, r).1.Done? { BatchRecords(b, r); }
    case CursorStep(_, _) =>
  }

  lemma ProducedTokens(b: Bridge, s: Step, a: Key)
    requires RecordsOk(b) && (Produces(s) || s.PurgeStep?)
    ensures forall j :: j in Queue(Store(b, s), a) ==> TokenKept(b, s, a, j)
  {
    if s.PurgeStep? {
      if EnqueuePurge(b, s.purge).1.Done? && s.purge.pubkey !in b.purges {
        PurgeQueues(b, s.purge);
      }
    } else {
      ProducedQueues(b, s);
      ProducedRows(b, Rows(b, s), a);
    }
  }

  lemma ClaimTokens(b: Bridge, s: Step, a: Key)
    requires s.ClaimStep?
    ensures forall j :: j in Queue(Store(b, s), a) ==> TokenKept(b, s, a, j)
  {
    var b' := Store(b, s);
    forall j | j in Queue(b', a) ensures TokenKept(b, s, a, j) {
      var k :| 0 <= k < |b'.queues[a]| && b'.queues[a][k] == j;
      assert j == LeaseJob(b.queues[a][k], Ids(s.chosen), s.token, s.claimedAt + s.lease);
    }
  }

  /** The rows of `q'` are rows of `q`, or carry no token. */
  ghost predicate NoNewTokens(q: seq<Job>, q': seq<Job>) {
    forall j :: j in q' ==> j.token == "" || j in q
  }

  lemma TailTokens(q: seq<Job>, new': seq<Job>)
    requires q != [] && forall j :: j in new' ==> j.token == ""
    ensures NoNewTokens(q, new' + q[1..])
  {
    assert forall j :: j in q[1..] ==> j in q;
  }

  /** What a report puts in front of the rest of the queue. */
  lemma DispatchedQueue(b: Bridge, i: Item, d: Delivery, now: int, retryAt: int, error: string, b': Bridge)
    requires b' == Dispatch(b, i, d, now, retryAt, error) && Live(b, i.aggregate, i.id, i.token, now)
    ensures var q, q' := Queue(b, i.aggregate), Queue(b', i.aggregate);
      || q' == q
      || q' == [] + q[1..]
      || q' == [Queue(Retry(b, i.aggregate, retryAt, error), i.aggregate)[0]] + q[1..]
      || q' == [AllowAgain(q[0], now), Republish(q[0], b.nextId, now)] + q[1..]
  {
    var a := i.aggregate;
    if d.Delivered? {
      PoppedQueue(b, i, now);
    } else if d.NotAllowed? && i.operation == PublishEvent {
      if b' != b {
        RecoveredQueueIs(b, a, now);
      }
    } else {
      RetriedQueue(b, a, retryAt, error);
    }
  }

  lemma PoppedQueue(b: Bridge, i: Item, now: int)
    requires Queue(b, i.aggregate) != []
    ensures var q, p := Queue(b, i.aggregate), Pop(b, i.aggregate);
      && Queue(p, i.aggregate) == [] + q[1..]
      && Queue(Register(p, i.pubkey, Seconds(now)), i.aggregate) == [] + q[1..]
      && Queue(Forget(p, i.pubkey), i.aggregate) == [] + q[1..]
  {
    assert [] + Queue(b, i.aggregate)[1..] == Queue(b, i.aggregate)[1..];
  }

  lemma RecoveredQueueIs(b: Bridge, a: Key, now: int)
    requires Queue(b, a) != []
    ensures var q := Queue(b, a);
      Queue(Recover(b, a, now), a) == [AllowAgain(q[0], now), Republish(q[0], b.nextId, now)] + q[1..]
  {
  }

  lemma RetriedQueue(b: Bridge, a: Key, retryAt: int, error: string)
    requires Queue(b, a) != []
    ensures var r := Queue(Retry(b, a, retryAt, error), a); r != [] && r == [r[0]] + Queue(b, a)[1..]
  {
  }

  lemma DispatchTokens(b: Bridge, i: Item, d: Delivery, now: int, retryAt: int, error: string, b': Bridge)
    requires b' == Dispatch(b, i, d, now, retryAt, error) && Live(b, i.aggregate, i.id, i.token, now)
    ensures NoNewTokens(Queue(b, i.aggregate), Queue(b', i.aggregate))
  {
    var q, q' := Queue(b, i.aggregate), Queue(b', i.aggregate);
    DispatchedQueue(b, i, d, now, retryAt, error, b');
    if q' == [] + q[1..] {
      TailTokens(q, []);
    } else if q' == [Queue(Retry(b, i.aggregate, retryAt, error), i.aggregate)[0]] + q[1..] {
      TailTokens(q, [Queue(Retry(b, i.aggregate, retryAt, error), i.aggregate)[0]]);
    } else if q' != q {
      TailTokens(q, [AllowAgain(q[0], now), Republish(q[0], b.nextId, now)]);
    }
  }

  lemma DeliverTokens(b: Bridge, s: Step, a: Key)
    requires s.DeliverStep?
    ensures forall j :: j in Queue(Store(b, s), a) ==> TokenKept(b, s, a, j)
  {
    var i := s.item;
    if i.aggregate == a && Live(b, a, i.id, i.token, s.now) {
      DispatchTokens(b, i, s.delivery, s.now, s.retryAt, s.error, Store(b, s));
    } else {
      UnheldQueueKept(b, s, a);
    }
  }

  lemma LostStays(w: World, s: Step, i: Item)
    requires Inv(w) && Enabled(w, s) && i in w.issued && Lost(w.b, i)
    ensures i in Next(w, s).issued && Lost(Next(w, s).b, i)
  {
    var b' := Store(w.b, s);
    forall a, k | a in b'.queues && 0 <= k < |b'.queues[a]| ensures !SameClaim(i, b'.queues[a][k]) {
      var j := b'.queues[a][k];
      assert j in Queue(b', a);
      assert TokenKept(w.b, s, a, j) by {
        if s.ClaimStep? { ClaimTokens(w.b, s, a); }
        else if s.DeliverStep? { DeliverTokens(w.b, s, a); }
        else { ProducedTokens(w.b, s, a); }
      }
    }
  }

  /** A dispatcher that lost its claim can never change the store with it again,
      whatever happens meanwhile. */
  lemma {:induction false} LostClaimIsDead(w: World, ss: seq<Step>, i: Item, d: Delivery, now: int, retryAt: int,
                                           error: string)
    requires Inv(w) && Enables(w, ss) && i in w.issued && Lost(w.b, i)
    ensures Dispatch(Run(w, ss).b, i, d, now, retryAt, error) == Run(w, ss).b
    decreases ss
  {
    if ss != [] {
      StepKeeps(w, ss[0]);
      LostStays(w, ss[0], i);
      LostClaimIsDead(Next(w, ss[0]), ss[1..], i, d, now, retryAt, error);
    } else if Live(w.b, i.aggregate, i.id, i.token, now) {
      assert SameClaim(i, w.b.queues[i.aggregate][0]);
    }
  }

  /** Completing, retrying or recovering takes the claim off its row. */
  lemma ReportLosesClaim(w: World, s: Step)
    requires Inv(w) && Enabled(w, s) && Holder(w, s)
    ensures Lost(Next(w, s).b, s.item)
  {
    var i, b' := s.item, Store(w.b, s);
    HeldHead(w, s);
    forall a, k | a in b'.queues && 0 <= k < |b'.queues[a]| ensures !SameClaim(i, b'.queues[a][k]) {
      if a == i.aggregate {
        ReportedTokens(w.b, s, b');
        assert b'.queues[a][k] in Queue(b', a);
      } else {
        UnheldQueueKept(w.b, s, a);
        assert w.b.queues[i.aggregate][0].id != w.b.queues[a][k].id;
      }
    }
  }

  /** No row of the reported aggregate carries a token afterwards. */
  lemma ReportedTokens(b: Bridge, s: Step, b': Bridge)
    requires s.DeliverStep? && Live(b, s.item.aggregate, s.item.id, s.item.token, s.now) && b' == Store(b, s)
    requires QueueOk(Queue(b, s.item.aggregate), s.item.aggregate, b.nextId) && s.item.pubkey == s.item.aggregate
    requires s.item.operation == Queue(b, s.item.aggregate)[0].operation
    ensures forall j :: j in Queue(b', s.item.aggregate) ==> j.token == ""
  {
    var a := s.item.aggregate;
    var q, q' := Queue(b, a), Queue(b', a);
    assert forall j :: j in q[1..] ==> j.token == "";
    if s.delivery.Delivered? {
      PopQueue(b, s, a);
    } else if s.delivery.NotAllowed? && s.item.operation == PublishEvent {
      assert q' == [AllowAgain(q[0], s.now), Republish(q[0], b.nextId, s.now)] + q[1..];
    } else {
      assert q' == [Queue(Retry(b, a, s.retryAt, s.error), a)[0]] + q[1..];
    }
  }

  /** Claiming a row again, after its lease ran out, takes it from the old holder. */
  lemma ReclaimLosesClaim(w: World, s: Step, i: Item)
    requires Inv(w) && Enabled(w, s) && s.ClaimStep? && i in w.issued && i.id in Ids(s.chosen)
    ensures Lost(Next(w, s).b, i)
  {
    var b' := Store(w.b, s);
    forall a, k | a in b'.queues && 0 <= k < |b'.queues[a]| ensures !SameClaim(i, b'.queues[a][k]) {
      assert b'.queues[a][k] == LeaseJob(w.b.queues[a][k], Ids(s.chosen), s.token, s.claimedAt + s.lease);
    }
  }

  /** The claim ends: it was reported on, or its row was claimed again. */
  ghost predicate EndsClaim(w: World, s: Step, i: Item) {
    (Holder(w, s) && s.item == i) || (s.ClaimStep? && i in w.issued && i.id in Ids(s.chosen))
  }

  /** From then on nothing is ever completed, retried or recovered under it,
      whatever happens meanwhile. */
  lemma {:induction false} EndedClaimIsDead(w: World, s: Step, ss: seq<Step>, i: Item, d: Delivery, now: int,
                                            retryAt: int, error: string)
    requires Inv(w) && Enabled(w, s) && EndsClaim(w, s, i) && Enables(Next(w, s), ss)
    ensures var b := Run(Next(w, s), ss).b; Dispatch(b, i, d, now, retryAt, error) == b
  {
    if s.ClaimStep? {
      ReclaimLosesClaim(w, s, i);
    } else {
      ReportLosesClaim(w, s);
    }
    StepKeeps(w, s);
    LostClaimIsDead(Next(w, s), ss, i, d, now, retryAt, error);
  }

  // --------------------------------------------------------------------- purge

  lemma {:induction false} PurgedGetNoRows(b: Bridge, rs: seq<OutboxRequest>, a: Key)
    requires AllAdmissible(b, rs) && a in b.purges
    ensures Queue(AppendAll(b, rs), a) == Queue(b, a)
    decreases rs
  {
    if rs != [] {
      AppendQueue(b, rs[0], a);
      PurgedGetNoRows(Append(b, rs[0]), rs[1..], a);
    }
  }

  lemma {:induction false} RowsAdmissible(b: Bridge, s: Step)
    requires Produces(s)
    ensures AllAdmissible(b, Rows(b, s))
  {
    match s
    case EventStep(r) => if EnqueueEvent(b, r).1.Done? { PublishRowsAdmissible(b, r.event, [r.event]); }
    case DeleteStep(r) => if EnqueueDelete(b, r).1.Done? { PublishRowsAdmissible(b, r.event, [r.event]); }
    case UpdateStep(r) =>
      if EnqueueUpdate(b, r).1.Done? { PublishRowsAdmissible(b, r.replacement, [r.deletion, r.replacement]); }
    case BatchStep(r) =>
      if ReconcileBatch(b, r).1.Done? {
        BatchEventsOk(b, r);
        BatchRowsAdmissible(b, Changed(b, r.events));
      }
    case CursorStep(_, _) =>
  }

  /** Purge marks are never removed or replaced. */
  lemma MarksStay(b: Bridge, s: Step, a: Key)
    requires RecordsOk(b) && a in b.purges
    ensures a in Store(b, s).purges && Store(b, s).purges[a] == b.purges[a]
  {
    match s
    case EventStep(r) => if EnqueueEvent(b, r).1.Done? { EventRecords(b, r); AppendAllFrame(b, Rows(b, s)); }
    case DeleteStep(r) => if EnqueueDelete(b, r).1.Done? { DeleteRecords(b, r); AppendAllFrame(b, Rows(b, s)); }
    case UpdateStep(r) => if EnqueueUpdate(b, r).1.Done? { UpdateRecords(b, r); AppendAllFrame(b, Rows(b, s)); }
    case BatchStep(r) => if ReconcileBatch(b, r).1.Done? { BatchRecords(b, r); AppendAllFrame(b, Rows(b, s)); }
    case PurgeStep(r) =>
      if EnqueuePurge(b, r).1.Done? && r.pubkey !in b.purges {
        var marked := b.(purges := b.purges[r.pubkey := PurgeMark(r.payload.event.id, r.availableAt)]);
        AppendAllFrame(marked, PurgeRows(r));
      }
    case _ =>
  }

  lemma PurgedQueueKept(b: Bridge, s: Step, a: Key)
    requires RecordsOk(b) && a in b.purges && (Produces(s) || s.PurgeStep?)
    ensures Queue(Store(b, s), a) == Queue(b, a)
  {
    if s.PurgeStep? {
      if EnqueuePurge(b, s.purge).1.Done? && s.purge.pubkey !in b.purges {
        PurgeQueues(b, s.purge);
      }
    } else {
      ProducedQueues(b, s);
      RowsAdmissible(b, s);
      PurgedGetNoRows(b, Rows(b, s), a);
    }
  }

  lemma UnheldQueueKept(b: Bridge, s: Step, a: Key)
    requires s.DeliverStep? && !(s.item.aggregate == a && Live(b, a, s.item.id, s.item.token, s.now))
    ensures Queue(Store(b, s), a) == Queue(b, a)
  {
  }

  /** An aggregate that a completed purge emptied receives no row again. */
  lemma PurgedStaysEmpty(w: World, s: Step, a: Key)
    requires Inv(w) && a in w.b.purges && Queue(w.b, a) == []
    ensures Queue(Store(w.b, s), a) == []
  {
    if s.DeliverStep? {
      UnheldQueueKept(w.b, s, a);
    } else if !s.ClaimStep? {
      PurgedQueueKept(w.b, s, a);
    }
  }

  lemma GoneStays(w: World, s: Step, a: Key)
    requires Inv(w) && Enabled(w, s) && a in w.b.purges && Gone(w.b, a)
    ensures a in Next(w, s).b.purges && Gone(Next(w, s).b, a)
  {
    StepKeeps(w, s);
    MarksStay(w.b, s, a);
    PurgedStaysEmpty(w, s, a);
    assert UnallowLast(Queue(Next(w, s).b, a)) || Gone(Next(w, s).b, a);
  }

  /** Purge is final. From the moment an aggregate is marked its last row is the
      unallow, until nothing of the author is left; and once nothing is left,
      nothing ever comes back. */
  lemma {:induction false} PurgeIsFinal(w: World, ss: seq<Step>, a: Key)
    requires Inv(w) && Enables(w, ss) && a in w.b.purges
    ensures var w' := Run(w, ss);
      && a in w'.b.purges && w'.b.purges[a] == w.b.purges[a]
      && (UnallowLast(Queue(w'.b, a)) || Gone(w'.b, a))
      && (Gone(w.b, a) ==> Gone(w'.b, a))
    decreases ss
  {
    if ss != [] {
      StepKeeps(w, ss[0]);
      MarksStay(w.b, ss[0], a);
      if Gone(w.b, a) {
        GoneStays(w, ss[0], a);
      }
      PurgeIsFinal(Next(w, ss[0]), ss[1..], a);
    }
  }

  lemma LastUnallowPops(w: World, s: Step, a: Key)
    requires Inv(w) && Enabled(w, s) && a in w.b.purges && UnallowLast(Queue(w.b, a))
    requires Queue(Store(w.b, s), a) == []
    ensures Holder(w, s) && s.delivery.Delivered? && s.item.aggregate == a && s.item.operation == UnallowPublisher
    ensures |Queue(w.b, a)| == 1
  {
    if s.DeliverStep? {
      if s.item.aggregate == a && Holder(w, s) {
        HeldUnallowPops(w, s);
      } else {
        UnheldQueueKept(w.b, s, a);
      }
    } else if !s.ClaimStep? {
      PurgedQueueKept(w.b, s, a);
    }
  }

  lemma HeldUnallowPops(w: World, s: Step)
    requires Inv(w) && Holder(w, s) && UnallowLast(Queue(w.b, s.item.aggregate))
    requires Queue(Store(w.b, s), s.item.aggregate) == []
    ensures s.delivery.Delivered? && s.item.operation == UnallowPublisher && |Queue(w.b, s.item.aggregate)| == 1
  {
    HeldOperation(w, s);
    OnlyUnallowLeft(w.b, s);
  }

  lemma HeldOperation(w: World, s: Step)
    requires Inv(w) && Holder(w, s)
    ensures s.item.operation == Queue(w.b, s.item.aggregate)[0].operation
  {
    HeldHead(w, s);
  }

  lemma OnlyUnallowLeft(b: Bridge, s: Step)
    requires s.DeliverStep? && Live(b, s.item.aggregate, s.item.id, s.item.token, s.now)
    requires UnallowLast(Queue(b, s.item.aggregate)) && Queue(Store(b, s), s.item.aggregate) == []
    ensures var q := Queue(b, s.item.aggregate);
      s.delivery.Delivered? && |q| == 1 && q[0].operation == UnallowPublisher
  {
    HeldQueueKept(b, s);
  }

  lemma HeldQueueKept(b: Bridge, s: Step)
    requires s.DeliverStep? && Live(b, s.item.aggregate, s.item.id, s.item.token, s.now)
    ensures var q, q' := Queue(b, s.item.aggregate), Queue(Store(b, s), s.item.aggregate);
      if s.delivery.Delivered? then q' == q[1..] else q' != []
  {
  }

  /** The step that makes a purged author disappear is the delivery of its
      unallow. By then every publish accepted for the author has been delivered,
      among them the deletion event, and that event names every mapping that the
      step removes. The source operations of those mappings go with them. */
  lemma PurgeCompletes(w: World, s: Step, a: Key)
    requires Inv(w) && Enabled(w, s) && a in w.b.purges && !Gone(w.b, a) && Gone(Next(w, s).b, a)
    ensures s.DeliverStep? && s.delivery.Delivered? && s.item.operation == UnallowPublisher
    ensures Log(w.completed, a) == Log(w.enqueued, a) && Json(w.deletions[a]) in Log(w.completed, a)
    ensures forall ref :: ref in w.b.mappings && w.b.mappings[ref].author == a ==>
      && w.b.mappings[ref].eventId in TaggedIds(w.deletions[a].tags)
      && ref !in Next(w, s).b.mappings && ref !in Next(w, s).b.operations
  {
    LastUnallowPops(w, s, a);
    HeldHead(w, s);
    AllDelivered(w, a);
    ForgetsTagged(w, s, a);
  }

  /** Behind the unallow nothing of the author is left to publish. */
  lemma AllDelivered(w: World, a: Key)
    requires InOrder(w) && DeletionsOk(w) && a in w.b.purges
    requires |Queue(w.b, a)| == 1 && Queue(w.b, a)[0].operation == UnallowPublisher
    ensures Log(w.completed, a) == Log(w.enqueued, a)
    ensures a in w.deletions && Json(w.deletions[a]) in Log(w.completed, a)
  {
    var q := Queue(w.b, a);
    assert q[1..] == [] && Publishes(q) == [];
    assert Log(w.completed, a) + ToPublish(w.b, a) == Log(w.enqueued, a);
    assert DeletionOk(w, a);
  }

  lemma ForgetsTagged(w: World, s: Step, a: Key)
    requires Holder(w, s) && s.delivery.Delivered? && s.item.operation == UnallowPublisher && s.item.pubkey == a
    requires DeletionsOk(w) && a in w.b.purges
    ensures a in w.deletions
    ensures forall ref :: ref in w.b.mappings && w.b.mappings[ref].author == a ==>
      && w.b.mappings[ref].eventId in TaggedIds(w.deletions[a].tags)
      && ref !in Next(w, s).b.mappings && ref !in Next(w, s).b.operations
  {
    assert DeletionOk(w, a);
    forall ref | ref in w.b.mappings && w.b.mappings[ref].author == a
      ensures w.b.mappings[ref].eventId in TaggedIds(w.deletions[a].tags)
      ensures ref !in Next(w, s).b.mappings && ref !in Next(w, s).b.operations
    {
      assert w.b.mappings[ref].eventId in IdsByAuthor(w.b, a);
      ForgottenBy(w, s, ref);
    }
  }

  lemma ForgottenBy(w: World, s: Step, ref: SourceRef)
    requires Holder(w, s) && s.delivery.Delivered? && s.item.operation == UnallowPublisher
    requires ref in w.b.mappings && w.b.mappings[ref].author == s.item.pubkey
    ensures ref !in Next(w, s).b.mappings && ref !in Next(w, s).b.operations
  {
  }

  // ----------------------------------------------------------------- reconcile

  /** Publishers among the events that are neither registered nor pending. */
  function Strangers(b: Bridge, rs: seq<EventRequest>): set<Key> {
    set a | a in Publishers(rs) && !RegisteredOrPending(b, a, a)
  }

  lemma {:induction false} BatchRowCount(b: Bridge, rs: seq<EventRequest>)
    requires forall r :: r in rs ==> r.event.aggregateKey == r.event.pubkey
    ensures |BatchRows(b, rs)| == |rs| + |Strangers(b, rs)|
  {
    if rs == [] {
      assert Strangers(b, rs) == {};
    } else {
      var n := |rs| - 1;
      var p := rs[n].event.pubkey;
      assert rs[n] in rs;
      BatchRowCount(b, rs[..n]);
      PublishersStep(rs);
      var before := Strangers(b, rs[..n]);
      if p in Publishers(rs[..n]) || RegisteredOrPending(b, p, p) {
        assert Strangers(b, rs) == before;
      } else {
        assert Strangers(b, rs) == before + {p};
      }
    }
  }

  /** An accepted batch appends the rows it needs, and the limit allows them. */
  lemma {:induction false} AcceptedBatchFits(b: Bridge, r: BatchRequest, b': Bridge, rows: seq<OutboxRequest>)
    requires ReconcileBatch(b, r) == (b', Done) && rows == BatchRows(b, Changed(b, r.events))
    ensures b'.count == AppendAll(b, rows).count && b.count + |rows| <= r.limit
  {
  }

  lemma {:induction false} AcceptedBatchCounts(b: Bridge, r: BatchRequest, b': Bridge, news: seq<EventRequest>)
    requires ReconcileBatch(b, r) == (b', Done) && news == Changed(b, r.events)
    ensures b'.count == b.count + |news| + |Strangers(b, news)| && b'.count <= r.limit
  {
    var rows := BatchRows(b, news);
    BatchEventsOk(b, r);
    AcceptedBatchFits(b, r, b', rows);
    AppendAllFrame(b, rows);
    BatchRowCount(b, news);
  }

  /** A successful batch adds one row per changed event and one per publisher it
      introduces, and stays within the limit; a refused one changes nothing. */
  lemma {:induction false} BatchInsertsWhatItCounted(b: Bridge, r: BatchRequest)
    ensures var (b', o) := ReconcileBatch(b, r);
      var news := Changed(b, r.events);
      if o.Rejected? then b' == b
      else b'.count == b.count + |news| + |Strangers(b, news)| && b'.count <= r.limit
  {
    var (b', o) := ReconcileBatch(b, r);
    if o.Done? {
      AcceptedBatchCounts(b, r, b', Changed(b, r.events));
    }
  }

  ghost predicate DistinctSources(rs: seq<EventRequest>) {
    forall i, j :: 0 <= i < j < |rs| ==> rs[i].mapping.source != rs[j].mapping.source
  }

  /** A batch leaves the sources it does not name alone. */
  lemma {:induction false} RecordedElsewhere(b: Bridge, rs: seq<EventRequest>, ref: SourceRef)
    requires forall k :: 0 <= k < |rs| ==> rs[k].mapping.source != ref
    ensures var b' := RecordEvents(b, rs);
      && (ref in b'.mappings <==> ref in b.mappings)
      && (ref in b.mappings ==> b'.mappings[ref] == b.mappings[ref])
      && (ref in b'.operations <==> ref in b.operations)
      && (ref in b.operations ==> b'.operations[ref] == b.operations[ref])
  {
    if rs != [] {
      RecordedElsewhere(b, rs[..|rs| - 1], ref);
    }
  }

  /** A batch records the event and the operation of each of its sources. */
  lemma {:induction false} RecordedAt(b: Bridge, rs: seq<EventRequest>, k: nat)
    requires DistinctSources(rs) && k < |rs|
    ensures var b' := RecordEvents(b, rs); var e := rs[k];
      && e.mapping.source in b'.mappings && b'.mappings[e.mapping.source] == e.mapping
      && (e.sourceOperation != "" ==>
            e.mapping.source in b'.operations && b'.operations[e.mapping.source] == e.sourceOperation)
  {
    var n := |rs| - 1;
    if k < n {
      assert DistinctSources(rs[..n]);
      RecordedAt(b, rs[..n], k);
    }
  }

  lemma {:induction false} ChangedDistinct(b: Bridge, rs: seq<EventRequest>)
    requires DistinctSources(rs)
    ensures DistinctSources(Changed(b, rs))
    ensures forall r :: r in rs && !Unchanged(b, r) ==> r in Changed(b, rs)
  {
    if rs != [] {
      var n := |rs| - 1;
      assert DistinctSources(rs[..n]);
      ChangedDistinct(b, rs[..n]);
      ChangedSubset(b, rs[..n]);
      var c := Changed(b, rs[..n]);
      forall j | 0 <= j < |c| ensures c[j].mapping.source != rs[n].mapping.source {
        assert c[j] in rs[..n];
      }
    }
  }

  lemma {:induction false} NoneChanged(b: Bridge, rs: seq<EventRequest>)
    requires forall k :: 0 <= k < |rs| ==> Unchanged(b, rs[k])
    ensures Changed(b, rs) == []
  {
    if rs != [] {
      NoneChanged(b, rs[..|rs| - 1]);
    }
  }

  /** Whether new or known before, an event of the batch is known afterwards. */
  lemma RecordedIsUnchanged(b: Bridge, b1: Bridge, rs: seq<EventRequest>, news: seq<EventRequest>, e: EventRequest)
    requires b1.mappings == b.mappings && b1.operations == b.operations && RecordsOk(b)
    requires DistinctSources(rs) && DistinctSources(news) && forall x :: x in news ==> x in rs
    requires e in rs && (e in news || Unchanged(b, e))
    ensures Unchanged(RecordEvents(b1, news), e)
  {
    if e in news {
      var n :| 0 <= n < |news| && news[n] == e;
      RecordedAt(b1, news, n);
    } else {
      forall n | 0 <= n < |news| ensures news[n].mapping.source != e.mapping.source {
        assert news[n] in rs;
      }
      RecordedElsewhere(b1, news, e.mapping.source);
    }
  }

  /** The batch names the same version of the same source. */
  predicate SameIdentity(e: EventRequest, again: EventRequest) {
    && again.mapping.source == e.mapping.source && again.sourceOperation == e.sourceOperation
    && (e.sourceOperation == "" ==> again.mapping.eventId == e.mapping.eventId)
  }

  lemma BatchIsRecorded(b: Bridge, r: BatchRequest)
    requires RecordsOk(b) && ReconcileBatch(b, r).1.Done? && DistinctSources(r.events)
    ensures forall e :: e in r.events ==> Unchanged(ReconcileBatch(b, r).0, e)
  {
    var news := Changed(b, r.events);
    ChangedDistinct(b, r.events);
    ChangedSubset(b, r.events);
    AppendAllFrame(b, BatchRows(b, news));
    forall e | e in r.events ensures Unchanged(ReconcileBatch(b, r).0, e) {
      RecordedIsUnchanged(b, AppendAll(b, BatchRows(b, news)), r.events, news, e);
    }
  }

  /** A batch without news only moves cursors and targets. */
  lemma {:induction false} NoNews(b: Bridge, r: BatchRequest)
    requires Changed(b, r.events) == []
    ensures var b' := ReconcileBatch(b, r).0; b' == b.(cursors := b'.cursors, targets := b'.targets)
  {
    assert BatchRows(b, []) == [];
  }

  /** Repeating a batch, with the same sources and identities but whatever new
      events and timestamps, inserts nothing and records nothing. */
  lemma RepeatedBatchInsertsNothing(b: Bridge, r: BatchRequest, again: BatchRequest)
    requires RecordsOk(b) && ReconcileBatch(b, r).1.Done? && DistinctSources(r.events)
    requires |again.events| == |r.events|
    requires forall k :: 0 <= k < |r.events| ==> SameIdentity(r.events[k], again.events[k])
    ensures var b' := ReconcileBatch(b, r).0; var b2 := ReconcileBatch(b', again).0;
      && Changed(b', again.events) == []
      && b2 == b'.(cursors := b2.cursors, targets := b2.targets)
  {
    var b' := ReconcileBatch(b, r).0;
    BatchIsRecorded(b, r);
    forall k | 0 <= k < |again.events| ensures Unchanged(b', again.events[k]) {
      assert r.events[k] in r.events;
    }
    NoneChanged(b', again.events);
    NoNews(b', again);
  }
}
