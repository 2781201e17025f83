/** The delivery worker: its backoff, and what it reports to the store. */
module Dispatcher {
  import opened Clock
  import opened Outbox
  import opened OutboxRuns
  import opened OutboxStore

  const MINUTE := 60 * SECOND

  function Pow2(n: nat): (r: nat)
    ensures r >= 1
  {
    if n == 0 then 1 else 2 * Pow2(n - 1)
  }

  function OrElse(d: int, default: int): int {
    if d <= 0 then default else d
  }

  function Min(x: int, y: int): int {
    if x <= y then x else y
  }

  lemma {:induction false} PowerDominates(delay: int, k: nat, n: nat)
    requires delay > 0 && k <= n
    ensures delay * Pow2(k) <= delay * Pow2(n)
  {
    if k < n {
      PowerDominates(delay, k, n - 1);
      assert delay * Pow2(n) == 2 * (delay * Pow2(n - 1));
    }
  }

  /** Doubles from the base once per attempt and never exceeds the maximum. The
      comparison with half the maximum means no value above it is ever computed,
      so 64-bit durations cannot overflow. */
  method Backoff(baseBackoff: int, maxBackoff: int, attempts: nat) returns (delay: int)
    ensures var base, most := OrElse(baseBackoff, SECOND), OrElse(maxBackoff, MINUTE);
      delay == Min(base * Pow2(attempts), most)
  {
    var base := if baseBackoff <= 0 then SECOND else baseBackoff;
    var most := if maxBackoff <= 0 then MINUTE else maxBackoff;
    delay := base;
    var i := 0;
    while i < attempts && delay < most
      invariant 0 <= i <= attempts && delay == base * Pow2(i)
      invariant base <= delay && (delay <= most || i == 0)
    {
      if delay > most / 2 {
        assert base * Pow2(i + 1) == 2 * delay;
        PowerDominates(base, i + 1, attempts);
        return most;
      }
      assert base * Pow2(i + 1) == 2 * delay;
      delay := delay * 2;
      i := i + 1;
    }
    PowerDominates(base, i, attempts);
    if delay > most {
      return most;
    }
  }

  function ItemOf(j: Job): Item {
    Item(j.aggregate, j.id, j.operation, j.pubkey, j.payload, j.token)
  }

  function RetryAt(now: int, attempts: nat, baseBackoff: int, maxBackoff: int): int {
    Seconds(now + Min(OrElse(baseBackoff, SECOND) * Pow2(attempts), OrElse(maxBackoff, MINUTE)))
  }

  lemma IdsOne(j: Job)
    ensures Ids({j}) == {j.id}
  {
  }

  lemma LeaseNone(b: Bridge, token: string, until: int)
    ensures Lease(b, {}, token, until) == b && Ids({}) == {}
  {
    var q' := Lease(b, {}, token, until).queues;
    forall a | a in b.queues ensures q'[a] == b.queues[a] {
      assert q'[a] == LeaseQueue(b.queues[a], {}, token, until);
    }
    assert q' == b.queues;
  }

  /** A head that was just leased is live for its new holder. */
  lemma FreshClaimIsLive(b: Bridge, a: Key, j: Job, token: string, now: int, lease: int)
    requires Queue(b, a) != [] && Queue(b, a)[0] == j && token != "" && lease > 0
    ensures var b1 := Lease(b, {j.id}, token, now + lease);
      Live(b1, a, j.id, token, now) && Queue(b1, a)[0] == j.(token := token, claimedUntil := now + lease)
  {
  }

  lemma OneChosen(jobs: set<Job>, items: seq<Job>, token: string, until: int)
    requires |jobs| <= 1 && JobsIn(items) == Leased(jobs, token, until)
    ensures items == [] ==> jobs == {}
    ensures items != [] ==> exists j :: jobs == {j} && items[0] == j.(token := token, claimedUntil := until)
  {
    if items != [] {
      assert items[0] in Leased(jobs, token, until);
      var j :| j in jobs && items[0] == j.(token := token, claimedUntil := until);
      assert |jobs - {j}| == |jobs| - 1;
      assert jobs - {j} == {};
      assert jobs == {j};
    } else {
      assert Leased(jobs, token, until) == {};
      LeasedNone(jobs, token, until);
    }
  }

  lemma LeasedNone(jobs: set<Job>, token: string, until: int)
    ensures Leased(jobs, token, until) == {} ==> jobs == {}
  {
    if Leased(jobs, token, until) == {} {
      forall j: Job ensures j !in jobs {
        assert j in jobs ==> j.(token := token, claimedUntil := until) in Leased(jobs, token, until);
      }
    }
  }

  lemma NoneClaimed(b: Bridge, b': Bridge, chosen: set<Job>, items: seq<Job>, now: int, lease: int, token: string)
    requires IsClaim(b, now, 1, chosen) && b' == Lease(b, Ids(chosen), token, now + lease)
    requires JobsIn(items) == Leased(chosen, token, now + lease) && items == []
    ensures Eligible(b, now) == {} && b' == b
  {
    OneChosen(chosen, items, token, now + lease);
    LeaseNone(b, token, now + lease);
  }

  lemma OneClaimed(b: Bridge, b': Bridge, chosen: set<Job>, items: seq<Job>, now: int, lease: int, token: string)
    returns (job: Job)
    requires IsClaim(b, now, 1, chosen) && b' == Lease(b, Ids(chosen), token, now + lease)
    requires JobsIn(items) == Leased(chosen, token, now + lease) && items != []
    ensures chosen == {job} && IsClaim(b, now, 1, {job}) && b' == Lease(b, {job.id}, token, now + lease)
    ensures items[0] == job.(token := token, claimedUntil := now + lease)
  {
    AtMostOne(b, now, chosen);
    OneChosen(chosen, items, token, now + lease);
    job :| chosen == {job} && items[0] == job.(token := token, claimedUntil := now + lease);
    IdsOne(job);
  }

  lemma AtMostOne(b: Bridge, now: int, chosen: set<Job>)
    requires IsClaim(b, now, 1, chosen)
    ensures |chosen| <= 1
  {
  }

  /** Which completion, retry or recovery goes with which outcome. The claim may
      have been lost during the delivery; a row that still carries it is the one
      that was handed out, so it has not changed its aggregate. */
  method Report(store: SQLiteStore, item: Job, delivery: Delivery, now: int, error: string, baseBackoff: int,
                maxBackoff: int)
    requires store.Valid()
    requires store.Claimed(item.id, item.token, now) ==> store.outbox[item.id].aggregate == item.aggregate
    modifies store
    ensures store.Valid()
    ensures store.View() == Dispatch(old(store.View()), ItemOf(item), delivery, now,
                                     RetryAt(now, item.attempts, baseBackoff, maxBackoff), error)
  {
    if delivery.Delivered? {
      Complete(store, item, delivery, now, RetryAt(now, item.attempts, baseBackoff, maxBackoff), error);
      return;
    }
    var wait := Backoff(baseBackoff, maxBackoff, item.attempts);
    Repeat(store, item, delivery, now, now + wait, error);
  }

  /** A failed delivery: recovery of the registration, or another attempt at `next`. */
  method Repeat(store: SQLiteStore, item: Job, delivery: Delivery, now: int, next: int, error: string)
    requires store.Valid() && !delivery.Delivered?
    requires store.Claimed(item.id, item.token, now) ==> store.outbox[item.id].aggregate == item.aggregate
    modifies store
    ensures store.Valid()
    ensures store.View() == Dispatch(old(store.View()), ItemOf(item), delivery, now, Seconds(next), error)
  {
    var o;
    store.ClaimedIsLive(item.id, item.token, now);
    if item.operation == PublishEvent && delivery.NotAllowed? {
      o := store.RecoverPublisherRegistration(item.id, item.token, item.pubkey, now);
      return;
    }
    o := store.RetryOutbox(item.id, item.token, now, next, error);
  }

  /** The completion that goes with each operation. */
  method Complete(store: SQLiteStore, item: Job, ghost delivery: Delivery, now: int, ghost retryAt: int,
                  ghost error: string)
    requires store.Valid() && delivery.Delivered?
    requires store.Claimed(item.id, item.token, now) ==> store.outbox[item.id].aggregate == item.aggregate
    modifies store
    ensures store.Valid() && store.View() == Dispatch(old(store.View()), ItemOf(item), delivery, now, retryAt, error)
  {
    var o;
    store.ClaimedIsLive(item.id, item.token, now);
    match item.operation
    case AllowPublisher => o := store.CompletePublisherRegistration(item.id, item.token, item.pubkey, now);
    case UnallowPublisher => o := store.CompletePublisherUnregistration(item.id, item.token, now, item.pubkey);
    case PublishEvent => o := store.CompleteOutbox(item.id, item.token, now);
  }
}
