/** The store in use: producers, the purge command and dispatchers act on one
    database, and whatever they do is a run of `OutboxRuns`. */
module Deployment {
  import opened Wrappers
  import opened Outbox
  import opened OutboxRuns
  import opened OutboxInvariants
  import opened OutboxTheorems
  import opened OutboxStore
  import opened Dispatcher

  /** What another process may do to the database. */
  datatype Action =
    | Produce(step: Step)
    | Claim(claimedAt: int, lease: int, limit: int, token: string)
    | Deliver(item: Job, delivery: Delivery, now: int, error: string, baseBackoff: int, maxBackoff: int)

  function ItemsOf(jobs: seq<Job>): set<Item> {
    set j | j in jobs :: ItemOf(j)
  }

  lemma LeasedItemsOf(items: seq<Job>, chosen: set<Job>, token: string, until: int)
    requires JobsIn(items) == Leased(chosen, token, until)
    ensures ItemsOf(items) == Items(chosen, token)
  {
    forall i ensures i in ItemsOf(items) <==> i in Items(chosen, token) {
      if i in ItemsOf(items) {
        var j :| j in items && i == ItemOf(j);
        assert j in Leased(chosen, token, until);
        var c :| c in chosen && j == c.(token := token, claimedUntil := until);
      }
      if i in Items(chosen, token) {
        var c :| c in chosen && i == Item(c.aggregate, c.id, c.operation, c.pubkey, c.payload, token);
        var j := c.(token := token, claimedUntil := until);
        assert j in Leased(chosen, token, until);
        assert i == ItemOf(j);
      }
    }
  }

  lemma {:induction false} RunOne(w: World, ss: seq<Step>, s: Step)
    requires Enables(w, ss) && Enabled(Run(w, ss), s)
    ensures Enables(w, ss + [s]) && Run(w, ss + [s]) == Next(Run(w, ss), s)
    decreases ss
  {
    if ss == [] {
      assert ss + [s] == [s] && [s][1..] == [];
    } else {
      assert (ss + [s])[1..] == ss[1..] + [s];
      RunOne(Next(w, ss[0]), ss[1..], s);
    }
  }

  lemma {:induction false} JustOne(w: World, s: Step)
    requires Enabled(w, s)
    ensures Enables(w, [s]) && Run(w, [s]) == Next(w, s)
  {
    assert [s][1..] == [];
  }

  /** A row that carries the claim of an item is the row the item was made from. */
  lemma ClaimedAgrees(store: SQLiteStore, w: World, item: Job, now: int)
    requires store.Valid() && store.View() == w.b && ClaimsOk(w.b, w.issued) && ItemOf(item) in w.issued
    ensures store.Claimed(item.id, item.token, now) ==> store.outbox[item.id].aggregate == item.aggregate
  {
    store.ClaimedIsLive(item.id, item.token, now);
    if store.Claimed(item.id, item.token, now) {
      var a := store.outbox[item.id].aggregate;
      assert SameClaim(ItemOf(item), w.b.queues[a][0]);
    }
  }

  predicate NewToken(issued: set<Item>, token: string) {
    token != "" && forall i :: i in issued ==> i.token != token
  }

  lemma ClaimEnabled(w: World, now: int, lease: int, limit: int, token: string, chosen: set<Job>)
    requires lease > 0 && limit > 0 && NewToken(w.issued, token) && IsClaim(w.b, now, limit, chosen)
    ensures Enabled(w, ClaimStep(now, lease, limit, token, chosen))
  {
  }

  lemma ClaimIsStep(w: World, w': World, b': Bridge, now: int, lease: int, limit: int, token: string, chosen: set<Job>)
    requires Inv(w) && lease > 0 && limit > 0 && NewToken(w.issued, token)
    requires IsClaim(w.b, now, limit, chosen) && b' == Lease(w.b, Ids(chosen), token, now + lease)
    requires w' == Next(w, ClaimStep(now, lease, limit, token, chosen))
    ensures Enabled(w, ClaimStep(now, lease, limit, token, chosen))
    ensures Inv(w') && w'.b == b' && w'.issued == w.issued + Items(chosen, token)
  {
    var s := ClaimStep(now, lease, limit, token, chosen);
    ClaimEnabled(w, now, lease, limit, token, chosen);
    assert Inv(w') by {
      StepKeeps(w, s);
    }
    ClaimedNext(w, now, lease, limit, token, chosen);
  }

  lemma ClaimedNext(w: World, now: int, lease: int, limit: int, token: string, chosen: set<Job>)
    ensures var w' := Next(w, ClaimStep(now, lease, limit, token, chosen));
      w'.b == Lease(w.b, Ids(chosen), token, now + lease) && w'.issued == w.issued + Items(chosen, token)
  {
  }

  /** A claim on the store as a value. */
  method ClaimFrom(store: SQLiteStore, ghost b: Bridge, now: int, lease: int, limit: int, token: string)
    returns (items: seq<Job>, ghost chosen: set<Job>, ghost b': Bridge)
    requires store.Valid() && store.View() == b && lease > 0 && limit > 0
    modifies store
    ensures store.Valid() && store.View() == b'
    ensures IsClaim(b, now, limit, chosen) && b' == Lease(b, Ids(chosen), token, now + lease)
    ensures JobsIn(items) == Leased(chosen, token, now + lease) && ItemsOf(items) == Items(chosen, token)
  {
    var o;
    o, items, chosen := store.ClaimOutbox(now, lease, limit, token);
    b' := store.View();
    LeasedItemsOf(items, chosen, token, now + lease);
  }

  class System {
    const store: SQLiteStore
    // every claim handed out so far
    var handed: set<Item>
    // the store with its history
    ghost var w: World

    ghost predicate Valid()
      reads this, store
    {
      store.Valid() && store.View() == w.b && handed == w.issued && Inv(w)
    }

    constructor ()
      ensures Valid() && w == START && fresh(store)
    {
      store := new SQLiteStore();
      handed, w := {}, START;
      new;
      StartOk();
    }

    /** An enqueue, a batch, a purge or a cursor: the step of the same name. */
    method Write(s: Step)
      requires store.Valid() && !s.ClaimStep? && !s.DeliverStep?
      modifies store
      ensures store.Valid() && store.View() == Store(old(store.View()), s)
    {
      var o;
      match s
      case EventStep(r) => o := store.EnqueueEvent(r);
      case DeleteStep(r) => o := store.EnqueueDelete(r);
      case UpdateStep(r) => o := store.EnqueueUpdate(r);
      case BatchStep(r) => o := store.ReconcileBatch(r);
      case PurgeStep(r) => o := store.EnqueuePurge(r);
      case CursorStep(scope, c) => store.StoreCursor(scope, Some(c));
    }

    method Produce(s: Step)
      requires Valid() && !s.ClaimStep? && !s.DeliverStep?
      modifies this`w, store
      ensures Valid() && w == Next(old(w), s)
    {
      StepKeeps(w, s);
      Write(s);
      w := Next(w, s);
    }

    method Claim(now: int, lease: int, limit: int, token: string) returns (items: seq<Job>, ghost s: Step)
      requires Valid() && lease > 0 && limit > 0 && NewToken(handed, token)
      modifies this`w, this`handed, store
      ensures Valid() && s.ClaimStep? && s == ClaimStep(now, lease, limit, token, s.chosen)
      ensures Enabled(old(w), s) && w == Next(old(w), s)
      ensures IsClaim(old(w).b, now, limit, s.chosen) && w.b == Lease(old(w).b, Ids(s.chosen), token, now + lease)
      ensures JobsIn(items) == Leased(s.chosen, token, now + lease)
      ensures handed == old(handed) + ItemsOf(items)
    {
      ghost var w0, chosen, b' := w, {}, EMPTY;
      items, chosen, b' := ClaimFrom(store, w0.b, now, lease, limit, token);
      s := ClaimStep(now, lease, limit, token, chosen);
      w := Next(w0, s);
      ClaimIsStep(w0, w, b', now, lease, limit, token, chosen);
      handed := handed + ItemsOf(items);
    }

    /** At most one row, leased, with the job it was before. */
    method ClaimOne(now: int, lease: int, token: string) returns (items: seq<Job>, ghost s: Step, ghost job: Job)
      requires Valid() && lease > 0 && NewToken(handed, token)
      modifies this`w, this`handed, store
      ensures Valid() && Enabled(old(w), s) && w == Next(old(w), s)
      ensures items == [] ==> Eligible(old(w).b, now) == {} && w.b == old(w).b
      ensures items != [] ==>
        && s == ClaimStep(now, lease, 1, token, {job}) && items[0] == job.(token := token, claimedUntil := now + lease)
        && ItemOf(items[0]) in handed
    {
      items, s := Claim(now, lease, 1, token);
      if items == [] {
        job := Job(0, "", AllowPublisher, "", Empty, 0, 0, "", "", 0);
        NoneClaimed(old(w).b, w.b, s.chosen, items, now, lease, token);
      } else {
        job := OneClaimed(old(w).b, w.b, s.chosen, items, now, lease, token);
      }
    }

    method Deliver(item: Job, delivery: Delivery, now: int, error: string, baseBackoff: int, maxBackoff: int)
      requires Valid() && ItemOf(item) in handed
      modifies this`w, store
      ensures Valid()
      ensures w == Next(old(w),
        DeliverStep(ItemOf(item), delivery, now, RetryAt(now, item.attempts, baseBackoff, maxBackoff), error))
    {
      ghost var retryAt := RetryAt(now, item.attempts, baseBackoff, maxBackoff);
      ghost var s := DeliverStep(ItemOf(item), delivery, now, retryAt, error);
      ClaimedAgrees(store, w, item, now);
      StepKeeps(w, s);
      Report(store, item, delivery, now, error, baseBackoff, maxBackoff);
      w := Next(w, s);
    }

    /** One action of another process; a claim or a report that no dispatcher could
        make is not made. */
    method Act(a: Action) returns (ghost ss: seq<Step>)
      requires Valid()
      modifies this`w, this`handed, store
      ensures Valid() && Enables(old(w), ss) && w == Run(old(w), ss) && old(handed) <= handed
    {
      ss := [];
      match a
      case Produce(s) =>
        if !s.ClaimStep? && !s.DeliverStep? {
          Produce(s);
          ss := [s];
          JustOne(old(w), s);
        }
      case Claim(now, lease, limit, token) =>
        if lease > 0 && limit > 0 && NewToken(handed, token) {
          var items;
          ghost var s;
          items, s := Claim(now, lease, limit, token);
          ss := [s];
          JustOne(old(w), s);
        }
      case Deliver(item, delivery, now, error, baseBackoff, maxBackoff) =>
        if ItemOf(item) in handed {
          Deliver(item, delivery, now, error, baseBackoff, maxBackoff);
          ghost var retryAt := RetryAt(now, item.attempts, baseBackoff, maxBackoff);
          ghost var s := DeliverStep(ItemOf(item), delivery, now, retryAt, error);
          ss := [s];
          JustOne(old(w), s);
        }
    }

    /** Any number of such actions: a run. */
    method Meanwhile(actions: seq<Action>) returns (ghost ss: seq<Step>)
      requires Valid()
      modifies this`w, this`handed, store
      ensures Valid() && Enables(old(w), ss) && w == Run(old(w), ss) && old(handed) <= handed
    {
      ss := [];
      for i := 0 to |actions|
        invariant Valid() && Enables(old(w), ss) && w == Run(old(w), ss) && old(handed) <= handed
      {
        ghost var more := Act(actions[i]);
        RunOn(old(w), ss, more);
        ss := ss + more;
      }
    }

    /** One round of a dispatcher: a claim, a delivery during which anything may
        happen to the store, and the report. `delivery` is what the relay answers. */
    method DispatchOne(now: int, leaseDuration: int, token: string, delivery: Delivery, error: string,
                       baseBackoff: int, maxBackoff: int, meanwhile: seq<Action>)
      returns (worked: bool, ghost job: Job, ghost between: seq<Step>)
      requires Valid() && NewToken(handed, token)
      modifies this`w, this`handed, store
      ensures Valid()
      ensures !worked ==> Eligible(old(w).b, now) == {} && w.b == old(w).b
      ensures worked ==>
        var claim := ClaimStep(now, OrElse(leaseDuration, MINUTE), 1, token, {job});
        var item := ItemOf(job.(token := token));
        var report := DeliverStep(item, delivery, now, RetryAt(now, job.attempts, baseBackoff, maxBackoff), error);
        var ss := [claim] + between + [report];
        Enables(old(w), ss) && w == Run(old(w), ss)
    {
      var lease := if leaseDuration <= 0 then MINUTE else leaseDuration;
      ghost var w0, claim := w, CursorStep(Scope("", ""), CursorUpdate("", ""));
      var items;
      items, claim, job := ClaimOne(now, lease, token);
      between := [];
      if items == [] {
        return false, job, between;
      }
      var item := items[0];
      ghost var w1 := w;
      between := Meanwhile(meanwhile);
      Deliver(item, delivery, now, error, baseBackoff, maxBackoff);
      worked := true;
      RoundIsRun(w0, claim, w1, between,
                 DeliverStep(ItemOf(item), delivery, now, RetryAt(now, item.attempts, baseBackoff, maxBackoff), error));
    }
  }

  lemma {:induction false} RunOn(w: World, ss: seq<Step>, more: seq<Step>)
    requires Enables(w, ss) && Enables(Run(w, ss), more)
    ensures Enables(w, ss + more) && Run(w, ss + more) == Run(Run(w, ss), more)
    decreases ss
  {
    if ss == [] {
      assert ss + more == more;
    } else {
      assert (ss + more)[1..] == ss[1..] + more;
      RunOn(Next(w, ss[0]), ss[1..], more);
    }
  }

  lemma {:induction false} RoundIsRun(w: World, claim: Step, w1: World, between: seq<Step>, report: Step)
    requires Enabled(w, claim) && w1 == Next(w, claim) && Enables(w1, between) && Enabled(Run(w1, between), report)
    ensures Enables(w, [claim] + between + [report])
    ensures Run(w, [claim] + between + [report]) == Next(Run(w1, between), report)
  {
    RunOne(w, [], claim);
    assert [] + [claim] == [claim];
    RunOn(w, [claim], between);
    RunOne(w, [claim] + between, report);
  }
}
