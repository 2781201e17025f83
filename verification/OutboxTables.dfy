/** The outbox table: rows keyed by id, ordered inside an aggregate by a sequence
    number under UNIQUE(aggregate_key, sequence). `Pending` reads an aggregate's
    queue off the table; the lemmas say what each SQL statement does to it. */
module OutboxTables {
  import opened Clock
  import opened Outbox
  import opened Sequences

  datatype Row = Row(
    aggregate: Key, sequence: int, operation: Operation, pubkey: Key, payload: Payload,
    attempts: nat, availableAt: int, lastError: string, token: string, claimedUntil: int)

  type Table = map<int, Row>

  function JobOf(id: int, r: Row): Job {
    Job(id, r.aggregate, r.operation, r.pubkey, r.payload, r.attempts, r.availableAt, r.lastError,
        r.token, r.claimedUntil)
  }

  ghost predicate At(t: Table, id: int, a: Key, k: int) {
    id in t && t[id].aggregate == a && t[id].sequence == k
  }

  /** The UNIQUE constraint. */
  ghost predicate Unique(t: Table) {
    forall i, j :: i in t && j in t && t[i].aggregate == t[j].aggregate && t[i].sequence == t[j].sequence ==> i == j
  }

  /** No row of the aggregate has a smaller sequence number. */
  predicate Lowest(t: Table, id: int)
    requires id in t
  {
    forall p :: p in t && t[p].aggregate == t[id].aggregate ==> t[p].sequence >= t[id].sequence
  }

  ghost predicate InRange(t: Table, last: map<Key, nat>, nextId: int) {
    && 0 < nextId
    && forall id :: id in t ==>
         0 < id < nextId && t[id].aggregate in last && 1 <= t[id].sequence <= last[t[id].aggregate]
  }

  ghost predicate ClaimsLowest(t: Table) {
    forall id :: id in t && t[id].token != "" ==> Lowest(t, id)
  }

  ghost predicate TableOk(t: Table, last: map<Key, nat>, nextId: int) {
    Unique(t) && InRange(t, last, nextId) && ClaimsLowest(t)
  }

  ghost function Slot(t: Table, a: Key, k: int): seq<Job> {
    if exists id :: At(t, id, a, k)
    then var id :| At(t, id, a, k); [JobOf(id, t[id])]
    else []
  }

  /** Rows of `a` with sequence numbers 1 to `n`, in order. */
  ghost function Pending(t: Table, a: Key, n: nat): seq<Job> {
    if n == 0 then [] else Pending(t, a, n - 1) + Slot(t, a, n)
  }

  ghost function Queues(t: Table, last: map<Key, nat>): map<Key, seq<Job>> {
    map a | a in last :: Pending(t, a, last[a])
  }

  lemma SlotIs(t: Table, id: int)
    requires Unique(t) && id in t
    ensures Slot(t, t[id].aggregate, t[id].sequence) == [JobOf(id, t[id])]
  {
    assert At(t, id, t[id].aggregate, t[id].sequence);
  }

  lemma {:induction false} PendingSame(t: Table, t': Table, a: Key, n: nat)
    requires forall k :: 1 <= k <= n ==> Slot(t', a, k) == Slot(t, a, k)
    ensures Pending(t', a, n) == Pending(t, a, n)
  {
    if n > 0 {
      PendingSame(t, t', a, n - 1);
    }
  }

  lemma {:induction false} PendingHas(t: Table, a: Key, n: nat, id: int)
    requires Unique(t) && id in t && t[id].aggregate == a && 1 <= t[id].sequence <= n
    ensures JobOf(id, t[id]) in Pending(t, a, n)
  {
    if t[id].sequence == n {
      SlotIs(t, id);
    } else {
      PendingHas(t, a, n - 1, id);
    }
  }

  lemma {:induction false} PendingFrom(t: Table, a: Key, n: nat, j: Job)
    requires j in Pending(t, a, n)
    ensures exists id :: id in t && t[id].aggregate == a && 1 <= t[id].sequence <= n && j == JobOf(id, t[id])
  {
    if j in Slot(t, a, n) {
      var id :| At(t, id, a, n) && Slot(t, a, n) == [JobOf(id, t[id])];
    } else {
      PendingFrom(t, a, n - 1, j);
    }
  }

  /** Looking for an operation in the rows is looking for it in the queue. */
  lemma {:induction false} OperationInRows(t: Table, last: map<Key, nat>, nextId: int, a: Key, op: Operation)
    requires TableOk(t, last, nextId)
    ensures (exists id :: id in t && t[id].aggregate == a && t[id].operation == op)
       <==> a in last && HasOperation(Pending(t, a, last[a]), op)
  {
    if id :| id in t && t[id].aggregate == a && t[id].operation == op {
      PendingHas(t, a, last[a], id);
      var q := Pending(t, a, last[a]);
      var i :| 0 <= i < |q| && q[i] == JobOf(id, t[id]);
    }
    if a in last && HasOperation(Pending(t, a, last[a]), op) {
      var q := Pending(t, a, last[a]);
      var i :| 0 <= i < |q| && q[i].operation == op;
      PendingFrom(t, a, last[a], q[i]);
    }
  }

  // -------------------------------------------------------------------- insert

  lemma InsertRow(t: Table, id: int, r: Row, n: nat)
    requires Unique(t) && id !in t && r.sequence == n + 1
    requires forall p :: p in t && t[p].aggregate == r.aggregate ==> t[p].sequence <= n
    ensures Unique(t[id := r])
    ensures Pending(t[id := r], r.aggregate, n + 1) == Pending(t, r.aggregate, n) + [JobOf(id, r)]
    ensures forall a, m: nat :: a != r.aggregate ==> Pending(t[id := r], a, m) == Pending(t, a, m)
  {
    var t' := t[id := r];
    forall a, k | (a != r.aggregate || k <= n) ensures Slot(t', a, k) == Slot(t, a, k) {
      SlotSame(t, t', a, k);
    }
    PendingSame(t, t', r.aggregate, n);
    SlotIs(t', id);
    forall a, m: nat | a != r.aggregate ensures Pending(t', a, m) == Pending(t, a, m) {
      PendingSame(t, t', a, m);
    }
  }

  lemma InsertKeepsClaims(t: Table, id: int, r: Row)
    requires ClaimsLowest(t) && id !in t && r.token == ""
    requires forall p :: p in t && t[p].aggregate == r.aggregate ==> t[p].sequence < r.sequence
    ensures ClaimsLowest(t[id := r])
  {
    var t' := t[id := r];
    forall i | i in t' && t'[i].token != "" ensures Lowest(t', i) {
      assert Lowest(t, i);
    }
  }

  lemma {:induction false} InsertedQueues(t: Table, last: map<Key, nat>, nextId: int, r: Row, n: nat, t': Table,
                                          q: seq<Job>)
    requires Unique(t) && nextId !in t && r.sequence == n + 1 && t' == t[nextId := r]
    requires forall p :: p in t && t[p].aggregate == r.aggregate ==> t[p].sequence <= n
    requires q == Pending(t, r.aggregate, n) + [JobOf(nextId, r)]
    ensures Queues(t', last[r.aggregate := n + 1]) == Queues(t, last)[r.aggregate := q]
  {
    InsertRow(t, nextId, r, n);
    OneQueueChanges(t, t', last, r.aggregate, n + 1, q);
  }

  lemma InsertedOk(t: Table, last: map<Key, nat>, nextId: int, r: Row, n: nat, t': Table)
    requires TableOk(t, last, nextId) && r.token == "" && r.sequence == n + 1 && t' == t[nextId := r]
    requires n == if r.aggregate in last then last[r.aggregate] else 0
    ensures TableOk(t', last[r.aggregate := n + 1], nextId + 1) && |t'| == |t| + 1
  {
    InsertRow(t, nextId, r, n);
    InsertKeepsClaims(t, nextId, r);
    assert t'.Keys == t.Keys + {nextId};
  }

  /** Inserting at the advanced sequence number appends to the queue. */
  lemma InsertedTable(t: Table, last: map<Key, nat>, nextId: int, r: Row)
    requires TableOk(t, last, nextId) && r.token == ""
    requires r.sequence == (if r.aggregate in last then last[r.aggregate] else 0) + 1
    ensures var last' := last[r.aggregate := r.sequence]; var t' := t[nextId := r];
      && TableOk(t', last', nextId + 1)
      && |t'| == |t| + 1
      && Queues(t', last') == Queues(t, last)[r.aggregate :=
           (if r.aggregate in last then Pending(t, r.aggregate, last[r.aggregate]) else []) + [JobOf(nextId, r)]]
  {
    var n: nat := if r.aggregate in last then last[r.aggregate] else 0;
    var t' := t[nextId := r];
    InsertedOk(t, last, nextId, r, n, t');
    InsertedQueues(t, last, nextId, r, n, t', Pending(t, r.aggregate, n) + [JobOf(nextId, r)]);
    assert r.aggregate !in last ==> Pending(t, r.aggregate, 0) == [];
  }

  lemma SlotSame(t: Table, t': Table, a: Key, k: int)
    requires Unique(t) && Unique(t')
    requires forall id :: At(t, id, a, k) ==> At(t', id, a, k) && JobOf(id, t'[id]) == JobOf(id, t[id])
    requires forall id :: At(t', id, a, k) ==> At(t, id, a, k)
    ensures Slot(t', a, k) == Slot(t, a, k)
  {
    if id :| At(t, id, a, k) {
      SlotIs(t, id);
      SlotIs(t', id);
    }
  }

  // -------------------------------------------------------------- head and tail

  lemma {:induction false} NothingBelow(t: Table, id: int, n: nat)
    requires id in t && Lowest(t, id) && n < t[id].sequence
    ensures Pending(t, t[id].aggregate, n) == []
  {
    if n > 0 {
      NothingBelow(t, id, n - 1);
    }
  }

  /** Replacing the head of `q` by `front` commutes with adding `x` behind. */
  lemma HeadReplaced(front: seq<Job>, q: seq<Job>, x: seq<Job>)
    requires q != []
    ensures front + q[1..] + x == front + (q + x)[1..] && (q + x)[0] == q[0]
  {
    assert (q + x)[1..] == q[1..] + x;
  }

  lemma {:induction false} PendingAt(t: Table, a: Key, n: nat)
    requires n > 0
    ensures Pending(t, a, n) == Pending(t, a, n - 1) + Slot(t, a, n)
  {
  }

  /** One more slot on both sides keeps the head replaced by `front`. */
  lemma {:induction false} StillReplaced(front: seq<Job>, t: Table, a: Key, n: nat, t': Table, m: nat)
    requires n > 0 && m > 0 && Pending(t, a, n - 1) != [] && Pending(t', a, m - 1) == front + Pending(t, a, n - 1)[1..]
    requires Slot(t', a, m) == Slot(t, a, n)
    ensures Pending(t, a, n) != [] && Pending(t', a, m) == front + Pending(t, a, n)[1..]
  {
    HeadReplaced(front, Pending(t, a, n - 1), Slot(t, a, n));
  }

  /** The queue up to the lowest row is that row. */
  lemma {:induction false} PendingToLowest(t: Table, id: int)
    requires Unique(t) && id in t && Lowest(t, id) && 1 <= t[id].sequence
    ensures Pending(t, t[id].aggregate, t[id].sequence) == [JobOf(id, t[id])]
  {
    NothingBelow(t, id, t[id].sequence - 1);
    SlotIs(t, id);
    PendingAt(t, t[id].aggregate, t[id].sequence);
  }

  /** The lowest row is the head of the queue. */
  lemma {:induction false} LowestIsHead(t: Table, id: int, n: nat)
    requires Unique(t) && id in t && Lowest(t, id) && 1 <= t[id].sequence <= n
    ensures var q := Pending(t, t[id].aggregate, n); q != [] && q[0] == JobOf(id, t[id])
  {
    if t[id].sequence == n {
      PendingToLowest(t, id);
    } else {
      LowestIsHead(t, id, n - 1);
      PendingAt(t, t[id].aggregate, n);
      HeadReplaced([], Pending(t, t[id].aggregate, n - 1), Slot(t, t[id].aggregate, n));
    }
  }

  lemma {:induction false} HeadIsLowest(t: Table, a: Key, n: nat)
    requires Unique(t) && Pending(t, a, n) != []
    requires forall p :: p in t && t[p].aggregate == a ==> 1 <= t[p].sequence
    ensures exists id ::
      && id in t && t[id].aggregate == a && t[id].sequence <= n
      && Lowest(t, id) && Pending(t, a, n)[0] == JobOf(id, t[id])
  {
    if Pending(t, a, n - 1) != [] {
      HeadIsLowest(t, a, n - 1);
    } else {
      var id :| At(t, id, a, n) && Slot(t, a, n) == [JobOf(id, t[id])];
      forall p | p in t && t[p].aggregate == a ensures t[p].sequence >= n {
        if t[p].sequence < n {
          PendingHas(t, a, n - 1, p);
        }
      }
    }
  }

  lemma DeleteSlots(t: Table, id: int, a: Key, k: int)
    requires Unique(t) && id in t && (a != t[id].aggregate || k != t[id].sequence)
    ensures Unique(t - {id}) && Slot(t - {id}, a, k) == Slot(t, a, k)
  {
    SlotSame(t, t - {id}, a, k);
  }

  /** Deleting the lowest row drops the head of its queue and touches no other. */
  lemma {:induction false} DeleteHead(t: Table, id: int, a: Key, n: nat)
    requires Unique(t) && id in t && Lowest(t, id) && 1 <= t[id].sequence
    ensures a == t[id].aggregate && t[id].sequence <= n ==> Pending(t, a, n) != []
    ensures Pending(t - {id}, a, n) ==
      if a == t[id].aggregate && t[id].sequence <= n then Pending(t, a, n)[1..] else Pending(t, a, n)
  {
    if n > 0 {
      DeleteHead(t, id, a, n - 1);
      if a == t[id].aggregate && t[id].sequence == n {
        NothingBelow(t, id, n - 1);
        SlotIs(t, id);
        assert forall i :: !At(t - {id}, i, a, n);
      } else {
        DeleteSlots(t, id, a, n);
      }
    }
  }

  // ------------------------------------------------------------- lease and retry

  function LeaseRows(t: Table, ids: set<int>, token: string, until: int): Table {
    map id | id in t :: if id in ids then t[id].(token := token, claimedUntil := until) else t[id]
  }

  lemma LeaseSlot(t: Table, ids: set<int>, token: string, until: int, a: Key, k: int)
    requires Unique(t)
    ensures Unique(LeaseRows(t, ids, token, until))
    ensures Slot(LeaseRows(t, ids, token, until), a, k) == LeaseQueue(Slot(t, a, k), ids, token, until)
  {
    var t' := LeaseRows(t, ids, token, until);
    assert forall id :: At(t', id, a, k) <==> At(t, id, a, k);
    if id :| At(t, id, a, k) {
      SlotIs(t, id);
      SlotIs(t', id);
    }
  }

  lemma {:induction false} LeasePending(t: Table, ids: set<int>, token: string, until: int, a: Key, n: nat)
    requires Unique(t)
    ensures Pending(LeaseRows(t, ids, token, until), a, n) == LeaseQueue(Pending(t, a, n), ids, token, until)
  {
    if n > 0 {
      LeasePending(t, ids, token, until, a, n - 1);
      LeaseSlot(t, ids, token, until, a, n);
    }
  }

  lemma RewriteUnique(t: Table, id: int, r: Row)
    requires Unique(t) && id in t && r.aggregate == t[id].aggregate && r.sequence == t[id].sequence
    ensures Unique(t[id := r]) && (Lowest(t, id) ==> Lowest(t[id := r], id))
  {
  }

  lemma RewriteSlot(t: Table, id: int, r: Row, a: Key, k: int)
    requires Unique(t) && id in t && r.aggregate == t[id].aggregate && r.sequence == t[id].sequence
    requires a != t[id].aggregate || k != t[id].sequence
    ensures Slot(t[id := r], a, k) == Slot(t, a, k)
  {
    RewriteUnique(t, id, r);
    SlotSame(t, t[id := r], a, k);
  }

  lemma {:induction false} RewriteOthers(t: Table, id: int, r: Row, a: Key, n: nat)
    requires Unique(t) && id in t && r.aggregate == t[id].aggregate && r.sequence == t[id].sequence
    requires a != t[id].aggregate || n < t[id].sequence
    ensures Pending(t[id := r], a, n) == Pending(t, a, n)
  {
    forall k | 1 <= k <= n ensures Slot(t[id := r], a, k) == Slot(t, a, k) {
      RewriteSlot(t, id, r, a, k);
    }
    PendingSame(t, t[id := r], a, n);
  }

  lemma {:induction false} RewriteAt(t: Table, id: int, r: Row, t': Table, a: Key, n: nat)
    requires Unique(t) && id in t && Lowest(t, id) && 1 <= t[id].sequence <= n && a == t[id].aggregate
    requires r.aggregate == t[id].aggregate && r.sequence == t[id].sequence && t' == t[id := r]
    ensures Pending(t, a, n) != [] && Pending(t', a, n) == [JobOf(id, r)] + Pending(t, a, n)[1..]
  {
    RewriteUnique(t, id, r);
    if n == t[id].sequence {
      PendingToLowest(t, id);
      PendingToLowest(t', id);
    } else {
      RewriteAt(t, id, r, t', a, n - 1);
      RewriteSlot(t, id, r, a, n);
      StillReplaced([JobOf(id, r)], t, a, n, t', n);
    }
  }

  // --------------------------------------------------------------- renumbering

  /** The later rows of `a` that an UPDATE has already reached carry the negated number. */
  function Negated(t: Table, a: Key, c: int, done: set<int>): Table {
    map id | id in t ::
      if id in done && t[id].aggregate == a && t[id].sequence > c then t[id].(sequence := -t[id].sequence) else t[id]
  }

  /** Rows with a negative number that an UPDATE has reached move back, one up. */
  function Shifted(t: Table, a: Key, done: set<int>): Table {
    map id | id in t ::
      if id in done && t[id].aggregate == a && t[id].sequence < 0
      then t[id].(sequence := -t[id].sequence + 1)
      else t[id]
  }

  ghost predicate Positive(t: Table) {
    forall id :: id in t ==> t[id].sequence >= 1
  }

  /** Negation never meets a duplicate key, whichever rows it has reached. */
  lemma NegatingStaysUnique(t: Table, a: Key, c: int, done: set<int>)
    requires Unique(t) && Positive(t)
    ensures Unique(Negated(t, a, c, done))
  {
    var t' := Negated(t, a, c, done);
    forall i, j | i in t' && j in t' && t'[i].aggregate == t'[j].aggregate && t'[i].sequence == t'[j].sequence
      ensures i == j
    {
      assert t[i].aggregate == t[j].aggregate && t[i].sequence == t[j].sequence;
    }
  }

  /** The number of a row between the two updates and after the second one. */
  function Moved(r: Row, a: Key, c: int, reached: bool): int {
    if r.aggregate != a || r.sequence <= c then r.sequence
    else if reached then r.sequence + 1
    else -r.sequence
  }

  lemma MovedRow(t: Table, a: Key, c: int, done: set<int>, id: int)
    requires id in t && t[id].sequence >= 1
    ensures var t' := Shifted(Negated(t, a, c, t.Keys), a, done);
      id in t' && t'[id] == t[id].(sequence := Moved(t[id], a, c, id in done))
  {
    var m := Negated(t, a, c, t.Keys);
    assert id in m && m[id].aggregate == t[id].aggregate;
  }

  /** Neither does the shift back, as the place just above `c` is free: every row
      that moves lands above `c + 1`. */
  lemma ShiftingStaysUnique(t: Table, a: Key, c: int, done: set<int>)
    requires Unique(t) && Positive(t)
    ensures Unique(Shifted(Negated(t, a, c, t.Keys), a, done))
  {
    var t' := Shifted(Negated(t, a, c, t.Keys), a, done);
    forall i, j | i in t' && j in t' && t'[i].aggregate == t'[j].aggregate && t'[i].sequence == t'[j].sequence
      ensures i == j
    {
      MovedRow(t, a, c, done, i);
      MovedRow(t, a, c, done, j);
    }
  }

  /** Making room directly: what the two UPDATEs add up to. */
  function Renumbered(t: Table, a: Key, c: int): Table {
    map id | id in t ::
      if t[id].aggregate == a && t[id].sequence > c then t[id].(sequence := t[id].sequence + 1) else t[id]
  }

  lemma NegateThenShift(t: Table, a: Key, c: int)
    requires Positive(t)
    ensures Shifted(Negated(t, a, c, t.Keys), a, t.Keys) == Renumbered(t, a, c)
  {
    var m := Negated(t, a, c, t.Keys);
    forall id | id in t ensures Shifted(m, a, t.Keys)[id] == Renumbered(t, a, c)[id] {
      assert m[id].sequence < 0 <==> t[id].aggregate == a && t[id].sequence > c;
    }
    assert Shifted(m, a, t.Keys).Keys == Renumbered(t, a, c).Keys;
  }

  lemma RenumberedUnique(t: Table, a: Key, c: int)
    requires Unique(t)
    ensures Unique(Renumbered(t, a, c))
    ensures forall id :: id in t && t[id].aggregate == a ==> Renumbered(t, a, c)[id].sequence != c + 1
  {
    var t' := Renumbered(t, a, c);
    forall i, j | i in t' && j in t' && t'[i].aggregate == t'[j].aggregate && t'[i].sequence == t'[j].sequence
      ensures i == j
    {
      assert t[i].sequence == t[j].sequence;
    }
  }

  lemma RenumberedSlot(t: Table, a: Key, c: int, x: Key, k: int)
    requires Unique(t)
    ensures Slot(Renumbered(t, a, c), x, if x == a && k > c then k + 1 else k) == Slot(t, x, k)
  {
    var t' := Renumbered(t, a, c);
    RenumberedUnique(t, a, c);
    var k' := if x == a && k > c then k + 1 else k;
    forall id ensures At(t', id, x, k') <==> At(t, id, x, k) {}
    if id :| At(t, id, x, k) {
      SlotIs(t, id);
      SlotIs(t', id);
    }
  }

  /** The table after recovery: the rejected publish of row `id` became an allow
      in place, later rows moved up by one, and row `newId` republishes in the gap. */
  function Recovered(t: Table, id: int, newId: int, now: int): Table
    requires id in t
  {
    var r := t[id];
    var allow := r.(operation := AllowPublisher, payload := Empty, attempts := 0, lastError := "",
                    token := "", claimedUntil := 0, availableAt := Seconds(now));
    var again := Row(r.aggregate, r.sequence + 1, PublishEvent, r.aggregate, r.payload, 0, Seconds(now), "", "", 0);
    Renumbered(t[id := allow], r.aggregate, r.sequence)[newId := again]
  }

  lemma RecoveredUnique(t: Table, id: int, newId: int, now: int)
    requires Unique(t) && id in t && newId !in t
    ensures Unique(Recovered(t, id, newId, now))
  {
    var t' := Recovered(t, id, newId, now);
    var allow := JobOf(id, t'[id]);
    var t1 := t[id := t'[id]];
    assert Unique(t1);
    RenumberedUnique(t1, t[id].aggregate, t[id].sequence);
  }

  /** Inserting a row touches no other slot. */
  lemma InsertSlot(t: Table, id: int, r: Row, a: Key, k: int)
    requires Unique(t) && Unique(t[id := r]) && id !in t && (a != r.aggregate || k != r.sequence)
    ensures Slot(t[id := r], a, k) == Slot(t, a, k)
  {
    SlotSame(t, t[id := r], a, k);
  }

  lemma RecoveredSlot(t: Table, id: int, newId: int, now: int, x: Key, k: int)
    requires Unique(t) && id in t && newId !in t
    requires x != t[id].aggregate || k != t[id].sequence
    ensures Slot(Recovered(t, id, newId, now), x, if x == t[id].aggregate && k > t[id].sequence then k + 1 else k)
         == Slot(t, x, k)
  {
    var t' := Recovered(t, id, newId, now);
    var a, c := t[id].aggregate, t[id].sequence;
    var t1 := t[id := t'[id]];
    var t2 := Renumbered(t1, a, c);
    assert t' == t2[newId := t'[newId]];
    RewriteUnique(t, id, t'[id]);
    RewriteSlot(t, id, t'[id], x, k);
    RenumberedUnique(t1, a, c);
    RenumberedSlot(t1, a, c, x, k);
    RecoveredUnique(t, id, newId, now);
    InsertSlot(t2, newId, t'[newId], x, if x == a && k > c then k + 1 else k);
  }

  lemma {:induction false} RecoveredAtHead(t: Table, id: int, newId: int, now: int)
    requires Unique(t) && id in t && newId !in t && Lowest(t, id) && 1 <= t[id].sequence
    ensures var t' := Recovered(t, id, newId, now);
      && Pending(t, t[id].aggregate, t[id].sequence) == [JobOf(id, t[id])]
      && Pending(t', t[id].aggregate, t[id].sequence + 1) == [JobOf(id, t'[id]), JobOf(newId, t'[newId])]
  {
    var t' := Recovered(t, id, newId, now);
    var a, c := t[id].aggregate, t[id].sequence;
    RecoveredUnique(t, id, newId, now);
    NothingBelow(t, id, c - 1);
    SlotIs(t, id);
    assert t'[id].sequence == c && Lowest(t', id);
    NothingBelow(t', id, c - 1);
    SlotIs(t', id);
    SlotIs(t', newId);
    assert Pending(t', a, c) == Pending(t', a, c - 1) + Slot(t', a, c);
    assert Pending(t', a, c + 1) == Pending(t', a, c) + Slot(t', a, c + 1);
  }

  /** With the same slots behind, replacing the head alone replaces the head of the queue. */
  lemma {:induction false} ReplacedFrom(front: seq<Job>, t: Table, a: Key, c: nat, t': Table, n: nat)
    requires c <= n && |Pending(t, a, c)| == 1 && Pending(t', a, c + 1) == front
    requires forall k :: c < k <= n ==> Slot(t', a, k + 1) == Slot(t, a, k)
    ensures Pending(t, a, n) != [] && Pending(t', a, n + 1) == front + Pending(t, a, n)[1..]
    decreases n
  {
    if n > c {
      ReplacedFrom(front, t, a, c, t', n - 1);
      StillReplaced(front, t, a, n, t', n + 1);
    } else {
      assert Pending(t, a, c)[1..] == [];
    }
  }

  /** Recovery turns the head of the queue into an allow followed by the same
      publish, keeps everything behind in order, and touches no other queue. */
  lemma {:induction false} RecoveredPending(t: Table, id: int, newId: int, now: int, t': Table, a: Key, two: seq<Job>,
                                            n: nat)
    requires Unique(t) && id in t && newId !in t && Lowest(t, id) && 1 <= t[id].sequence <= n
    requires t' == Recovered(t, id, newId, now) && a == t[id].aggregate
    requires two == [JobOf(id, t'[id]), JobOf(newId, t'[newId])]
    ensures Pending(t, a, n) != [] && Pending(t', a, n + 1) == two + Pending(t, a, n)[1..]
  {
    var c := t[id].sequence;
    RecoveredAtHead(t, id, newId, now);
    forall k | c < k <= n ensures Slot(t', a, k + 1) == Slot(t, a, k) {
      RecoveredSlot(t, id, newId, now, a, k);
    }
    ReplacedFrom(two, t, a, c, t', n);
  }

  lemma {:induction false} RecoveredOthers(t: Table, id: int, newId: int, now: int, a: Key, n: nat)
    requires Unique(t) && id in t && newId !in t && a != t[id].aggregate
    ensures Pending(Recovered(t, id, newId, now), a, n) == Pending(t, a, n)
  {
    forall k | 1 <= k <= n ensures Slot(Recovered(t, id, newId, now), a, k) == Slot(t, a, k) {
      RecoveredSlot(t, id, newId, now, a, k);
    }
    PendingSame(t, Recovered(t, id, newId, now), a, n);
  }

  // ------------------------------------------------ statements on a whole table

  lemma {:induction false} QueueOfRow(t: Table, last: map<Key, nat>, nextId: int, id: int)
    requires TableOk(t, last, nextId) && id in t && Lowest(t, id)
    ensures var a := t[id].aggregate;
      a in last && Pending(t, a, last[a]) != [] && Pending(t, a, last[a])[0] == JobOf(id, t[id])
  {
    LowestIsHead(t, id, last[t[id].aggregate]);
  }

  lemma {:induction false} DeletedTable(t: Table, last: map<Key, nat>, nextId: int, id: int)
    requires TableOk(t, last, nextId) && id in t && Lowest(t, id)
    ensures var a := t[id].aggregate; var q := Pending(t, a, last[a]);
      && q != []
      && TableOk(t - {id}, last, nextId)
      && |t - {id}| == |t| - 1
      && Queues(t - {id}, last) == Queues(t, last)[a := q[1..]]
  {
    var t' := t - {id};
    assert t'.Keys == t.Keys - {id};
    forall i | i in t' && t'[i].token != "" ensures Lowest(t', i) {
      assert Lowest(t, i);
    }
    forall x | x in last
      ensures x == t[id].aggregate ==> Pending(t, x, last[x]) != []
      ensures Pending(t', x, last[x]) ==
        if x == t[id].aggregate then Pending(t, x, last[x])[1..] else Pending(t, x, last[x])
    {
      DeleteHead(t, id, x, last[x]);
    }
  }

  lemma {:induction false} RewrittenQueues(t: Table, last: map<Key, nat>, id: int, r: Row, t': Table, a: Key)
    requires Unique(t) && id in t && Lowest(t, id) && a == t[id].aggregate && a in last &&
      1 <= t[id].sequence <= last[a]
    requires r.aggregate == a && r.sequence == t[id].sequence && t' == t[id := r]
    ensures Pending(t, a, last[a]) != []
    ensures Queues(t', last) == Queues(t, last)[a := [JobOf(id, r)] + Pending(t, a, last[a])[1..]]
  {
    RewriteAt(t, id, r, t', a, last[a]);
    forall x | x in last && x != a ensures Pending(t', x, last[x]) == Pending(t, x, last[x]) {
      RewriteOthers(t, id, r, x, last[x]);
    }
    OneQueueChanges(t, t', last, a, last[a], [JobOf(id, r)] + Pending(t, a, last[a])[1..]);
    assert last[a := last[a]] == last;
  }

  lemma RewrittenTable(t: Table, last: map<Key, nat>, nextId: int, id: int, r: Row)
    requires TableOk(t, last, nextId) && id in t && Lowest(t, id)
    requires r.aggregate == t[id].aggregate && r.sequence == t[id].sequence
    ensures var a := t[id].aggregate; var q := Pending(t, a, last[a]);
      && q != []
      && TableOk(t[id := r], last, nextId)
      && |t[id := r]| == |t|
      && Queues(t[id := r], last) == Queues(t, last)[a := [JobOf(id, r)] + q[1..]]
  {
    var t' := t[id := r];
    assert t'.Keys == t.Keys;
    forall i | i in t' && t'[i].token != "" ensures Lowest(t', i) {
      assert i != id ==> Lowest(t, i);
    }
    RewriteUnique(t, id, r);
    RewrittenQueues(t, last, id, r, t', t[id].aggregate);
  }

  lemma LeasedQueues(t: Table, last: map<Key, nat>, ids: set<int>, token: string, until: int, t': Table, b: Bridge)
    requires Unique(t) && t' == LeaseRows(t, ids, token, until) && b.queues == Queues(t, last)
    ensures b.(queues := Queues(t', last)) == Lease(b, ids, token, until)
  {
    var leased := Lease(b, ids, token, until).queues;
    forall x | x in last ensures Queues(t', last)[x] == leased[x] {
      LeasePending(t, ids, token, until, x, last[x]);
      assert leased[x] == LeaseQueue(Pending(t, x, last[x]), ids, token, until);
    }
    assert Queues(t', last) == leased;
  }

  lemma LeasedTable(t: Table, last: map<Key, nat>, nextId: int, ids: set<int>, token: string, until: int, t': Table)
    requires TableOk(t, last, nextId) && (forall id :: id in ids ==> id in t && Lowest(t, id))
    requires t' == LeaseRows(t, ids, token, until)
    ensures TableOk(t', last, nextId) && |t'| == |t|
  {
    assert t'.Keys == t.Keys;
    LeaseSlot(t, ids, token, until, "", 0);
    forall i | i in t' && t'[i].token != "" ensures Lowest(t', i) {
      assert Lowest(t, i);
    }
  }

  lemma RecoveredClaims(t: Table, last: map<Key, nat>, nextId: int, id: int, now: int)
    requires TableOk(t, last, nextId) && id in t && Lowest(t, id)
    ensures ClaimsLowest(Recovered(t, id, nextId, now))
  {
    var t' := Recovered(t, id, nextId, now);
    forall i | i in t' && t'[i].token != "" ensures Lowest(t', i) {
      assert Lowest(t, i);
      assert t[i].aggregate == t[id].aggregate ==> i == id;
    }
  }

  /** All sequence numbers stay within 1 and the aggregate's last one. */
  lemma RecoveredInRange(t: Table, last: map<Key, nat>, nextId: int, id: int, now: int)
    requires TableOk(t, last, nextId) && id in t
    ensures InRange(Recovered(t, id, nextId, now), last[t[id].aggregate := last[t[id].aggregate] + 1], nextId + 1)
  {
  }

  lemma RecoveredSize(t: Table, id: int, newId: int, now: int)
    requires id in t && newId !in t
    ensures |Recovered(t, id, newId, now)| == |t| + 1
  {
    var t' := Recovered(t, id, newId, now);
    assert t'.Keys == t.Keys + {newId};
  }

  lemma RecoveredTable(t: Table, last: map<Key, nat>, nextId: int, id: int, now: int, t': Table, a: Key)
    requires TableOk(t, last, nextId) && id in t && Lowest(t, id)
    requires t' == Recovered(t, id, nextId, now) && a == t[id].aggregate
    ensures TableOk(t', last[a := last[a] + 1], nextId + 1) && |t'| == |t| + 1
  {
    RecoveredSize(t, id, nextId, now);
    RecoveredUnique(t, id, nextId, now);
    RecoveredClaims(t, last, nextId, id, now);
    RecoveredInRange(t, last, nextId, id, now);
  }

  lemma RecoveredRows(t: Table, id: int, newId: int, now: int, t': Table)
    requires id in t && newId !in t && t' == Recovered(t, id, newId, now)
    ensures id in t' && JobOf(id, t'[id]) == AllowAgain(JobOf(id, t[id]), now)
    ensures newId in t' && JobOf(newId, t'[newId]) == Republish(JobOf(id, t[id]), newId, now)
  {
  }

  lemma {:induction false} RecoveredQueue(t: Table, last: map<Key, nat>, nextId: int, id: int, t': Table, now: int,
                                          a: Key, q: seq<Job>)
    requires Unique(t) && nextId !in t && id in t && Lowest(t, id)
    requires a == t[id].aggregate && a in last && 1 <= t[id].sequence <= last[a]
    requires t' == Recovered(t, id, nextId, now) && q == Pending(t, a, last[a]) != []
    ensures Pending(t', a, last[a] + 1) == [AllowAgain(q[0], now), Republish(q[0], nextId, now)] + q[1..]
  {
    RecoveredRows(t, id, nextId, now, t');
    LowestIsHead(t, id, last[a]);
    RecoveredPending(t, id, nextId, now, t', a, [JobOf(id, t'[id]), JobOf(nextId, t'[nextId])], last[a]);
  }

  lemma {:induction false} RecoveredQueues(t: Table, last: map<Key, nat>, nextId: int, id: int, t': Table, now: int,
                                           a: Key, q': seq<Job>)
    requires Unique(t) && nextId !in t && id in t && Lowest(t, id)
    requires a == t[id].aggregate && a in last && 1 <= t[id].sequence <= last[a]
    requires t' == Recovered(t, id, nextId, now) && Pending(t, a, last[a]) != []
    requires var q := Pending(t, a, last[a]); q' == [AllowAgain(q[0], now), Republish(q[0], nextId, now)] + q[1..]
    ensures Queues(t', last[a := last[a] + 1]) == Queues(t, last)[a := q']
  {
    RecoveredQueue(t, last, nextId, id, t', now, a, Pending(t, a, last[a]));
    forall x | x in last && x != a ensures Pending(t', x, last[x]) == Pending(t, x, last[x]) {
      RecoveredOthers(t, id, nextId, now, x, last[x]);
    }
    OneQueueChanges(t, t', last, a, last[a] + 1, q');
  }

  /** Both together, for the tables as the transaction leaves them. */
  lemma {:induction false} RecoveredStore(t: Table, last: map<Key, nat>, nextId: int, id: int, now: int, a: Key,
                       t': Table, last': map<Key, nat>, q': seq<Job>)
    requires TableOk(t, last, nextId) && id in t && Lowest(t, id) && a == t[id].aggregate
    requires t' == Recovered(t, id, nextId, now) && last' == last[a := last[a] + 1] && Pending(t, a, last[a]) != []
    requires var q := Pending(t, a, last[a]); q' == [AllowAgain(q[0], now), Republish(q[0], nextId, now)] + q[1..]
    ensures TableOk(t', last', nextId + 1) && |t'| == |t| + 1 && Queues(t', last') == Queues(t, last)[a := q']
  {
    RecoveredTable(t, last, nextId, id, now, t', a);
    RecoveredQueues(t, last, nextId, id, t', now, a, q');
  }

  lemma {:induction false} OneQueueChanges(t: Table, t': Table, last: map<Key, nat>, a: Key, n: nat, q: seq<Job>)
    requires Pending(t', a, n) == q
    requires forall x :: x in last && x != a ==> Pending(t', x, last[x]) == Pending(t, x, last[x])
    ensures Queues(t', last[a := n]) == Queues(t, last)[a := q]
  {
  }

  // ------------------------------------------------ recovery, row by row

  function Later(t: Table, a: Key, c: int): set<int> {
    set id | id in t && t[id].aggregate == a && t[id].sequence > c
  }

  function Negative(t: Table, a: Key): set<int> {
    set id | id in t && t[id].aggregate == a && t[id].sequence < 0
  }

  lemma NegateOne(t: Table, a: Key, c: int, done: set<int>, id: int)
    requires id in Later(t, a, c) && id !in done
    ensures var m := Negated(t, a, c, done);
      m[id := m[id].(sequence := -m[id].sequence)] == Negated(t, a, c, done + {id})
  {
  }

  lemma ShiftOne(t: Table, a: Key, done: set<int>, id: int)
    requires id in Negative(t, a) && id !in done
    ensures var m := Shifted(t, a, done);
      m[id := m[id].(sequence := -m[id].sequence + 1)] == Shifted(t, a, done + {id})
  {
  }

  lemma NegatedAll(t: Table, a: Key, c: int)
    ensures Negated(t, a, c, {}) == t
    ensures Negated(t, a, c, Later(t, a, c)) == Negated(t, a, c, t.Keys)
  {
  }

  lemma ShiftedAll(t: Table, a: Key)
    ensures Shifted(t, a, {}) == t
    ensures Shifted(t, a, Negative(t, a)) == Shifted(t, a, t.Keys)
  {
  }

  /** Takes one row out of those an update has still to reach. */
  method NextRow(todo: set<int>, ghost done: set<int>, ghost all: set<int>)
    returns (id: int, left: set<int>, ghost reached: set<int>)
    requires todo != {} && todo !! done && todo + done == all
    ensures id in todo && id !in done && id in all
    ensures left == todo - {id} && reached == done + {id} && left !! reached && left + reached == all
  {
    ghost var some := Element(todo);
    id :| id in todo;
    left, reached := todo - {id}, done + {id};
  }

  /** One row of the first update: no duplicate key appears. */
  method NegateRow(t0: Table, id: int, ghost t: Table, ghost a: Key, ghost c: int, ghost done: set<int>)
    returns (t': Table)
    requires Unique(t) && Positive(t) && id in Later(t, a, c) && id !in done && t0 == Negated(t, a, c, done)
    ensures t' == Negated(t, a, c, done + {id}) && Unique(t')
  {
    NegateOne(t, a, c, done, id);
    NegatingStaysUnique(t, a, c, done + {id});
    t' := t0[id := t0[id].(sequence := -t0[id].sequence)];
  }

  /** The first update negates the later sequence numbers, one row at a time in any
      order: the numbers of an aggregate are unique after every single row. */
  method NegateLaterRows(t: Table, a: Key, c: int) returns (t': Table)
    requires Unique(t) && Positive(t)
    ensures t' == Negated(t, a, c, t.Keys) && Unique(t')
  {
    t' := t;
    var todo := Later(t, a, c);
    ghost var done, all := {}, todo;
    NegatedAll(t, a, c);
    while todo != {}
      invariant todo !! done && todo + done == all && t' == Negated(t, a, c, done)
      decreases |todo|
    {
      ghost var before := done;
      var id;
      id, todo, done := NextRow(todo, done, all);
      t' := NegateRow(t', id, t, a, c, before);
    }
    assert done == all;
    NegatingStaysUnique(t, a, c, t.Keys);
  }

  /** One row of the second update: no duplicate key appears. */
  method ShiftRow(m: Table, a: Key, t0: Table, id: int, ghost t: Table, ghost c: int, ghost done: set<int>)
    returns (t': Table)
    requires Unique(t) && Positive(t) && m == Negated(t, a, c, t.Keys) && id in Negative(m, a) && id !in done
    requires t0 == Shifted(m, a, done)
    ensures t' == Shifted(m, a, done + {id}) && Unique(t')
  {
    ShiftOne(m, a, done, id);
    ShiftingStaysUnique(t, a, c, done + {id});
    t' := t0[id := t0[id].(sequence := -t0[id].sequence + 1)];
  }

  /** The second update brings the negated numbers back, one higher, one row at a
      time in any order. */
  method ShiftNegatedRows(m: Table, a: Key, ghost t: Table, ghost c: int) returns (t': Table)
    requires Unique(t) && Positive(t) && m == Negated(t, a, c, t.Keys)
    ensures t' == Renumbered(t, a, c) && Unique(t')
  {
    t' := m;
    var todo := Negative(m, a);
    ghost var done, all := {}, todo;
    ShiftedAll(m, a);
    while todo != {}
      invariant todo !! done && todo + done == all && t' == Shifted(m, a, done)
      decreases |todo|
    {
      ghost var before := done;
      var id;
      id, todo, done := NextRow(todo, done, all);
      t' := ShiftRow(m, a, t', id, t, c, before);
    }
    assert done == all && m.Keys == t.Keys;
    NegateThenShift(t, a, c);
    RenumberedUnique(t, a, c);
  }

  /** The table statements of a recovery, in order. */
  method RecoverRows(t: Table, id: int, newId: int, now: int) returns (t': Table)
    requires Unique(t) && Positive(t) && id in t && newId !in t
    ensures t' == Recovered(t, id, newId, now) && Unique(t')
  {
    var claimed := t[id];
    var t1 := t[id := claimed.(operation := AllowPublisher, payload := Empty, attempts := 0, lastError := "",
                               token := "", claimedUntil := 0, availableAt := now / SECOND)];
    var m := NegateLaterRows(t1, claimed.aggregate, claimed.sequence);
    t' := ShiftNegatedRows(m, claimed.aggregate, t1, claimed.sequence);
    t' := t'[newId := Row(claimed.aggregate, claimed.sequence + 1, PublishEvent, claimed.aggregate, claimed.payload,
                          0, now / SECOND, "", "", 0)];
    RecoveredUnique(t, id, newId, now);
  }

  // -------------------------------------------------------------------- claims

  function ClaimableRows(t: Table, now: int): set<int> {
    set id | id in t && Claimable(JobOf(id, t[id]), now) && Lowest(t, id)
  }

  function Jobs(t: Table, ids: set<int>): set<Job>
    requires ids <= t.Keys
  {
    set id | id in ids :: JobOf(id, t[id])
  }

  /** The lowest rows that can be claimed are the eligible heads. */
  lemma ClaimableAreEligible(t: Table, last: map<Key, nat>, nextId: int, b: Bridge, now: int)
    requires TableOk(t, last, nextId) && b.queues == Queues(t, last)
    ensures Jobs(t, ClaimableRows(t, now)) == Eligible(b, now)
  {
    forall j | j in Jobs(t, ClaimableRows(t, now)) ensures j in Eligible(b, now) {
      var id :| id in ClaimableRows(t, now) && j == JobOf(id, t[id]);
      QueueOfRow(t, last, nextId, id);
      assert b.queues[t[id].aggregate][0] == j;
    }
    forall j | j in Eligible(b, now) ensures j in Jobs(t, ClaimableRows(t, now)) {
      var a :| a in b.queues && b.queues[a] != [] && Claimable(b.queues[a][0], now) && j == b.queues[a][0];
      HeadIsLowest(t, a, last[a]);
      var id :| id in t && t[id].aggregate == a && Lowest(t, id) && j == JobOf(id, t[id]);
      assert id in ClaimableRows(t, now);
    }
  }

  predicate Before(t: Table, x: int, y: int)
    requires x in t && y in t
  {
    ClaimOrder(JobOf(x, t[x]), JobOf(y, t[y]))
  }

  /** The row that became available first, the lower id on a tie. */
  method FirstRow(t: Table, ids: set<int>) returns (first: int)
    requires ids <= t.Keys && ids != {}
    ensures first in ids && forall y :: y in ids && y != first ==> Before(t, first, y)
  {
    ghost var some := Element(ids);
    first :| first in ids;
    var rest := ids - {first};
    while rest != {}
      invariant rest <= ids && first in ids && first !in rest
      invariant forall y :: y in ids && y !in rest && y != first ==> Before(t, first, y)
      decreases |rest|
    {
      ghost var some := Element(rest);
      var y :| y in rest;
      if Before(t, y, first) {
        first := y;
      }
      rest := rest - {y};
    }
  }

  /** ORDER BY available_at, id LIMIT: the chosen rows, in order. */
  method SelectRows(t: Table, all: set<int>, limit: nat) returns (chosen: seq<int>)
    requires all <= t.Keys
    ensures forall i :: 0 <= i < |chosen| ==> chosen[i] in all
    ensures forall i, k :: 0 <= i < k < |chosen| ==> Before(t, chosen[i], chosen[k])
    ensures forall i, y :: 0 <= i < |chosen| && y in all && y !in chosen ==> Before(t, chosen[i], y)
    ensures |chosen| <= limit
    ensures |chosen| < limit ==> forall y :: y in all ==> y in chosen
  {
    chosen := [];
    var rest := all;
    while |chosen| < limit && rest != {}
      invariant |chosen| <= limit && rest <= all
      invariant forall i :: 0 <= i < |chosen| ==> chosen[i] in all
      invariant forall y :: y in all <==> y in rest || y in chosen
      invariant forall i, k :: 0 <= i < k < |chosen| ==> Before(t, chosen[i], chosen[k])
      invariant forall i, y :: 0 <= i < |chosen| && y in rest ==> Before(t, chosen[i], y)
      decreases |rest|
    {
      var first := FirstRow(t, rest);
      ghost var before := chosen;
      chosen := chosen + [first];
      rest := rest - {first};
      assert forall y :: y in chosen <==> y in before || y == first;
    }
  }

  function LeasedItems(t: Table, ids: seq<int>, token: string, until: int): (items: seq<Job>)
    requires forall i :: 0 <= i < |ids| ==> ids[i] in t
    requires forall i, k :: 0 <= i < k < |ids| ==> Before(t, ids[i], ids[k])
    ensures forall i, k :: 0 <= i < k < |items| ==> ClaimOrder(items[i], items[k])
    ensures |items| == |ids|
    ensures forall i :: 0 <= i < |ids| ==>
      items[i] == JobOf(ids[i], t[ids[i]]).(token := token, claimedUntil := until)
  {
    var items := seq(|ids|, i requires 0 <= i < |ids| && ids[i] in t =>
      JobOf(ids[i], t[ids[i]]).(token := token, claimedUntil := until));
    assert forall i, k :: 0 <= i < k < |items| ==> Before(t, ids[i], ids[k]) ==> ClaimOrder(items[i], items[k]);
    items
  }

  lemma {:induction false} PickedSize(t: Table, ids: seq<int>, chosen: set<Job>)
    requires forall i :: 0 <= i < |ids| ==> ids[i] in t
    requires forall i, k :: 0 <= i < k < |ids| ==> Before(t, ids[i], ids[k])
    requires chosen == Jobs(t, set id | id in ids)
    ensures |chosen| == |ids|
  {
    if ids == [] {
      assert chosen == {};
    } else {
      var n := |ids| - 1;
      var before := Jobs(t, set id | id in ids[..n]);
      PickedSize(t, ids[..n], before);
      var last := JobOf(ids[n], t[ids[n]]);
      assert chosen == before + {last};
      assert last !in before;
    }
  }

  lemma ClaimIsFirst(t: Table, last: map<Key, nat>, nextId: int, b: Bridge, now: int, limit: int, ids: seq<int>,
                     chosen: set<Job>)
    requires TableOk(t, last, nextId) && b.queues == Queues(t, last) && limit > 0
    requires forall i :: 0 <= i < |ids| ==> ids[i] in t && ids[i] in ClaimableRows(t, now)
    requires forall i, k :: 0 <= i < k < |ids| ==> Before(t, ids[i], ids[k])
    requires forall i, y :: 0 <= i < |ids| && y in ClaimableRows(t, now) && y !in ids ==> Before(t, ids[i], y)
    requires |ids| <= limit && (|ids| < limit ==> forall y :: y in ClaimableRows(t, now) ==> y in ids)
    requires chosen == Jobs(t, set id | id in ids)
    ensures IsClaim(b, now, limit, chosen)
    ensures Ids(chosen) == set id | id in ids
  {
    ClaimableAreEligible(t, last, nextId, b, now);
    PickedSize(t, ids, chosen);
    forall x, y | x in chosen && y in Eligible(b, now) - chosen ensures ClaimOrder(x, y) {
      var i :| 0 <= i < |ids| && x == JobOf(ids[i], t[ids[i]]);
      var id :| id in ClaimableRows(t, now) && y == JobOf(id, t[id]);
      assert Before(t, ids[i], id);
    }
    if |ids| < limit {
      assert chosen == Eligible(b, now);
    }
  }

  /** The claiming UPDATE: leases the first `limit` claimable heads. */
  method ClaimRows(t: Table, ghost last: map<Key, nat>, ghost nextId: int, ghost b: Bridge,
                   now: int, limit: int, token: string, until: int)
    returns (t': Table, items: seq<Job>, ghost chosen: set<Job>)
    requires TableOk(t, last, nextId) && b.queues == Queues(t, last) && limit > 0
    ensures IsClaim(b, now, limit, chosen)
    ensures TableOk(t', last, nextId) && |t'| == |t|
    ensures b.(queues := Queues(t', last)) == Lease(b, Ids(chosen), token, until)
    ensures forall i, k :: 0 <= i < k < |items| ==> ClaimOrder(items[i], items[k])
    ensures JobsIn(items) == Leased(chosen, token, until)
  {
    var ids := SelectRows(t, ClaimableRows(t, now), limit);
    var picked := set id | id in ids;
    chosen := Jobs(t, picked);
    ClaimIsFirst(t, last, nextId, b, now, limit, ids, chosen);
    items := LeasedItems(t, ids, token, until);
    t' := LeaseRows(t, picked, token, until);
    LeasedTable(t, last, nextId, picked, token, until, t');
    LeasedQueues(t, last, picked, token, until, t', b);
    ItemsAreLeased(t, ids, chosen, items, token, until);
  }

  lemma ItemsAreLeased(t: Table, ids: seq<int>, chosen: set<Job>, items: seq<Job>, token: string, until: int)
    requires (forall i :: 0 <= i < |ids| ==> ids[i] in t) && |items| == |ids|
    requires chosen == Jobs(t, set id | id in ids)
    requires forall i :: 0 <= i < |ids| ==> items[i] == JobOf(ids[i], t[ids[i]]).(token := token, claimedUntil := until)
    ensures JobsIn(items) == Leased(chosen, token, until)
  {
    forall x | x in items ensures x in Leased(chosen, token, until) {
      var i :| 0 <= i < |items| && items[i] == x;
      assert JobOf(ids[i], t[ids[i]]) in chosen;
    }
    forall x | x in Leased(chosen, token, until) ensures x in items {
      var j :| j in chosen && x == j.(token := token, claimedUntil := until);
      var i :| 0 <= i < |ids| && j == JobOf(ids[i], t[ids[i]]);
      assert items[i] == x;
    }
  }
}
