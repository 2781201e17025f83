/** The replica file itself: a visible page index, a page cache, staged updates
    and a lock level behind one mutex. Each mutex section is one atomic step;
    wherever the code releases the mutex, `Environment` runs any steps of other
    readers, of the poller and of the lock owner. */
module ReplicaFile {
  import opened Wrappers
  import opened ReplicaUpdates
  import opened Sequences
  import Poller = ReplicaPoller

  newtype byte = b: int | 0 <= b < 256

  datatype PageData = PageData(pgno: nat, bytes: seq<byte>)

  datatype Error = Busy | PageNotFound | FetchFailed | RandFailed | EOF

  datatype Result<T> = Ok(value: T) | Err(error: Error)

  /** How one fetch attempt ends when the storage does not answer with a page. */
  datatype Attempt = Answers | Cancelled | Fails(retryable: bool)

  /** A step another goroutine takes while this reader does not hold the mutex. */
  datatype EnvStep =
    | Poll(update: Update)
    | TakeLock(lock: Lock)
    | ReleaseLock(lock: Lock)
    | Evict(page: nat)
    | FinishFetch(pgno: nat, elem: Elem, generation: int)

  /** What readers and the lock owner do to the file. */
  function ReaderMove(f: File, s: EnvStep): File {
    match s
    case TakeLock(l) => LockTo(f, l)
    case ReleaseLock(l) => UnlockTo(f, l)
    case _ => f
  }

  function ReaderMoves(f: File, steps: seq<EnvStep>): File {
    if steps == [] then f else ReaderMove(ReaderMoves(f, steps[..|steps| - 1]), steps[|steps| - 1])
  }

  /** They show what was staged, but add nothing to it. */
  lemma {:induction false} ReadersKeepLatest(f: File, steps: seq<EnvStep>)
    requires FileOk(f)
    ensures var f' := ReaderMoves(f, steps); FileOk(f') && Latest(f'.v, f'.pending) == Latest(f.v, f.pending)
  {
    if steps != [] {
      ReadersKeepLatest(f, steps[..|steps| - 1]);
    }
  }

  class Replica {
    const pageSize: nat
    /** Immutable storage: what lies behind an index element. */
    const remote: map<Elem, PageData>

    var commit: nat
    var index: Index
    var pos: Pos
    var maxTXID1: int
    var pending: Option<Update>
    var lock: Lock
    var generation: int
    var cache: map<nat, seq<byte>>
    var pollPos: Pos
    var pollMaxTXID1: int
    var pollCommit: nat

    ghost function Shown(): Visible
      reads this`index, this`commit, this`pos, this`maxTXID1
    {
      Visible(index, commit, pos, maxTXID1)
    }

    ghost function State(): File
      reads this`index, this`commit, this`pos, this`maxTXID1, this`pending, this`lock, this`generation
    {
      File(Shown(), pending, lock, generation)
    }

    /** `data` is the page `pgno` that `elem` leads to. */
    ghost predicate IsPage(pgno: nat, elem: Elem, data: seq<byte>) {
      elem in remote && remote[elem].pgno == pgno && remote[elem].bytes == data && |data| == pageSize
    }

    /** Every cached page is the page its current index element leads to. */
    ghost predicate CacheOk()
      reads this`cache, this`index
    {
      forall p :: p in cache ==> p in index && IsPage(p, index[p], cache[p])
    }

    /** The poll cursors follow the staged state, or the visible one. */
    ghost predicate CursorsOk()
      reads this`index, this`commit, this`pos, this`maxTXID1, this`pending, this`pollPos, this`pollMaxTXID1,
        this`pollCommit
    {
      var now := Latest(Shown(), pending);
      pollPos == now.pos && pollMaxTXID1 == now.maxTXID1 && pollCommit == now.commit
    }

    ghost predicate Valid()
      reads this
    {
      pageSize >= 512 && FileOk(State()) && CacheOk() && CursorsOk()
    }

    constructor (pageSize: nat, remote: map<Elem, PageData>, snapshot: Visible)
      requires pageSize >= 512
      ensures Valid() && State() == File(snapshot, None, LockNone, 0)
      ensures this.pageSize == pageSize && this.remote == remote
    {
      this.pageSize, this.remote := pageSize, remote;
      index, commit, pos, maxTXID1 := snapshot.index, snapshot.commit, snapshot.pos, snapshot.maxTXID1;
      pollPos, pollMaxTXID1, pollCommit := snapshot.pos, snapshot.maxTXID1, snapshot.commit;
      pending, lock, generation, cache := None, LockNone, 0, map[];
    }

    // -------------------------------------------------------- mutex sections

    /** applyUpdateLocked: replaced or rewritten pages leave the cache. */
    method ApplyUpdate(u: Update)
      requires CacheOk()
      modifies this`index, this`cache, this`commit, this`pos, this`maxTXID1, this`generation
      ensures CacheOk() && Shown() == Apply(old(Shown()), u) && generation == old(generation) + 1
    {
      if u.replace {
        index := map p | p in u.index && p <= u.commit :: u.index[p];
        cache := map[];
      } else {
        index := index + u.index;
        cache := cache - u.index.Keys;
      }
      commit, pos, maxTXID1, generation := u.commit, u.pos, u.maxTXID1, generation + 1;
    }

    /** Whether an update without pages says what is already staged, or shown. */
    predicate ChangesNothing(u: Update)
      reads this
    {
      && !u.replace && |u.index| == 0
      && if pending.None? then u.pos == pos && u.commit == commit && u.maxTXID1 == maxTXID1
         else u.pos == pending.value.pos && u.commit == pending.value.commit && u.maxTXID1 == pending.value.maxTXID1
    }

    /** stageUpdateLocked: shows the update or, under SHARED, merges it into the staged one. */
    method Show(u: Update)
      requires CacheOk()
      modifies this`index, this`cache, this`commit, this`pos, this`maxTXID1, this`generation, this`pending
      ensures CacheOk() && State() == Stage(old(State()), u)
      ensures old(lock) == Shared ==> cache == old(cache)
    {
      ghost var f := State();
      StageParts(f, u);
      if ChangesNothing(u) {
        assert Noop(f, u);
        return;
      }
      if lock != LockNone {
        MergePending(u);
        assert State() == f.(pending := Some(Merge(f.pending, u)));
        return;
      }
      ApplyUpdate(u);
    }

    static lemma StageParts(f: File, u: Update)
      ensures Noop(f, u) ==> Stage(f, u) == f
      ensures !Noop(f, u) && f.lock != LockNone ==> Stage(f, u) == f.(pending := Some(Merge(f.pending, u)))
      ensures !Noop(f, u) && f.lock == LockNone ==>
        Stage(f, u) == f.(v := Apply(f.v, u), generation := f.generation + 1)
    {
    }

    /** The end of a poll: moves the cursors and stages the update. */
    method StageUpdate(u: Update)
      requires Valid()
      modifies this
      ensures Valid() && State() == Stage(old(State()), u)
      ensures pollPos == u.pos && pollMaxTXID1 == u.maxTXID1 && pollCommit == u.commit
      ensures old(lock) == Shared ==> cache == old(cache)
      ensures Latest(Shown(), pending) == Apply(old(Latest(Shown(), pending)), u) <==> Exact(old(pending), u)
    {
      ghost var f := State();
      pollPos, pollMaxTXID1, pollCommit := u.pos, u.maxTXID1, u.commit;
      Show(u);
      ghost var f' := State();
      StagedCursors(f, u, f');
      StagedExactly(f, u, f');
    }

    static lemma StagedExactly(f: File, u: Update, f': File)
      requires FileOk(f) && f' == Stage(f, u)
      ensures Latest(f'.v, f'.pending) == Apply(Latest(f.v, f.pending), u) <==> Exact(f.pending, u)
    {
      StepIsEager(f, Polled(u));
    }

    /** Whatever is staged, the latest state carries the update's position. */
    static lemma StagedCursors(f: File, u: Update, f': File)
      requires FileOk(f) && f' == Stage(f, u)
      ensures FileOk(f')
      ensures var l := Latest(f'.v, f'.pending);
        l.pos == u.pos && l.commit == u.commit && l.maxTXID1 == u.maxTXID1
    {
    }

    method MergePending(u: Update)
      modifies this`pending
      ensures pending == Some(Merge(old(pending), u))
    {
      if u.replace || pending.None? {
        pending := Some(u);
      } else {
        pending := Some(Update(pending.value.index + u.index, pending.value.replace, u.commit, u.pos, u.maxTXID1));
      }
    }

    method LockFile(l: Lock) returns (ok: bool)
      requires Valid()
      modifies this`lock
      ensures Valid() && State() == LockTo(old(State()), l)
      ensures ok <==> Level(old(lock)) <= Level(l) < Level(Reserved)
    {
      if Level(l) < Level(lock) || Level(l) >= Level(Reserved) {
        return false;
      }
      lock := l;
      ok := true;
    }

    method UnlockFile(l: Lock) returns (ok: bool)
      requires Valid()
      modifies this`lock, this`pending, this`index, this`cache, this`commit, this`pos, this`maxTXID1, this`generation
      ensures Valid() && State() == UnlockTo(old(State()), l)
      ensures ok <==> l == LockNone || l == Shared
    {
      if l != LockNone && l != Shared {
        return false;
      }
      lock := l;
      if l == LockNone && pending.Some? {
        ApplyUpdate(pending.value);
        pending := None;
      }
      ok := true;
    }

    /** The second half of `page`: the fetched page enters the cache only if the
        snapshot and the element it was fetched for are still current. */
    method InsertPage(pgno: nat, elem: Elem, at: int, data: seq<byte>) returns (r: Result<seq<byte>>)
      requires CacheOk() && IsPage(pgno, elem, data)
      modifies this`cache
      ensures CacheOk()
      ensures r.Ok? <==> generation == at && pgno in index && index[pgno] == elem
      ensures r.Ok? ==> IsPage(pgno, index[pgno], r.value)
      ensures r.Err? ==> r.error == Busy && cache == old(cache)
    {
      if at != generation {
        return Err(Busy);
      }
      if pgno !in index || index[pgno] != elem {
        return Err(Busy);
      }
      if pgno in cache {
        return Ok(cache[pgno]);
      }
      cache := cache[pgno := data];
      return Ok(data);
    }

    // ----------------------------------------------------------- environment

    /** The snapshot of generation `g` is `v` as long as that generation lasts. */
    ghost predicate Pinned(g: int, v: Visible)
      reads this`index, this`commit, this`pos, this`maxTXID1, this`generation
    {
      generation >= g && (generation == g ==> Shown() == v)
    }

    /** A step of a reader or of the lock owner. Polls exclude each other, so while
        one is under way another does not start. */
    method ReaderStep(s: EnvStep)
      requires Valid()
      modifies this`lock, this`pending, this`index, this`cache, this`commit, this`pos, this`maxTXID1, this`generation
      ensures Valid() && State() == ReaderMove(old(State()), s)
    {
      match s
      case Poll(_) =>
      case TakeLock(l) => var _ := LockFile(l);
      case ReleaseLock(l) => var _ := UnlockFile(l);
      case Evict(p) => cache := cache - {p};
      case FinishFetch(pgno, elem, at) =>
        if elem in remote && remote[elem].pgno == pgno && |remote[elem].bytes| == pageSize {
          var _ := InsertPage(pgno, elem, at, remote[elem].bytes);
        }
    }

    method Readers(steps: seq<EnvStep>)
      requires Valid()
      modifies this`lock, this`pending, this`index, this`cache, this`commit, this`pos, this`maxTXID1, this`generation
      ensures Valid() && State() == ReaderMoves(old(State()), steps)
      ensures steps == [] ==> cache == old(cache)
    {
      for i := 0 to |steps|
        invariant Valid() && State() == ReaderMoves(old(State()), steps[..i])
        invariant i == 0 ==> cache == old(cache)
      {
        TakeNext(steps, i);
        ReaderStep(steps[i]);
      }
      TakeAll(steps);
    }

    /** pollReplicaClient: reads the cursors, polls without the mutex while readers go
        on, and stages what it found. The cursors it read are still those of the
        latest state by then, so an update that does not replace never shrinks the
        file. A failed poll changes nothing. */
    method PollReplicaClient(list0: Poller.Listing, list1: Poller.Listing, plan: Poller.Result<seq<Poller.Ltx>>,
                             roots0: Poller.Listing, roots1: Poller.Listing, meanwhile: seq<EnvStep>)
      returns (update: Option<Update>)
      requires Valid() && Poller.ListingOk(list0) && Poller.ListingOk(list1)
      modifies this
      ensures Valid()
      ensures var r := Poller.PollOutcome(old(pollPos), old(pollMaxTXID1), old(pollCommit), pageSize, list0, list1,
                                     plan, roots0, roots1);
        update == if r.Ok? then Some(r.value) else None
      ensures update.None? ==>
        State() == ReaderMoves(old(State()), meanwhile) && (meanwhile == [] ==> cache == old(cache))
      ensures update.Some? ==>
        var f := ReaderMoves(old(State()), meanwhile);
        && State() == Stage(f, update.value)
        && Latest(f.v, f.pending) == old(Latest(Shown(), pending))
        && (Exact(f.pending, update.value) <==>
            Latest(Shown(), pending) == Apply(old(Latest(Shown(), pending)), update.value))
        && (update.value.replace || update.value.commit >= old(Latest(Shown(), pending).commit))
    {
      var at, at1, commit0 := pollPos, pollMaxTXID1, pollCommit;
      ReadersKeepLatest(State(), meanwhile);
      Readers(meanwhile);
      var r := Poller.PollOnce(at, at1, commit0, pageSize, list0, list1, plan, roots0, roots1);
      if r.Err? {
        return None;
      }
      Poller.PollNeverShrinks(at, at1, commit0, pageSize, list0, list1, plan, roots0, roots1);
      StageUpdate(r.value);
      return Some(r.value);
    }

    method EnvironmentStep(s: EnvStep, ghost g: int, ghost v: Visible)
      requires Valid() && Pinned(g, v)
      modifies this
      ensures Valid() && Pinned(g, v)
    {
      if s.Poll? {
        StageUpdate(s.update);
      } else {
        ReaderStep(s);
      }
    }

    method Environment(steps: seq<EnvStep>, ghost g: int, ghost v: Visible)
      requires Valid() && Pinned(g, v)
      modifies this
      ensures Valid() && Pinned(g, v)
    {
      for i := 0 to |steps|
        invariant Valid() && Pinned(g, v)
      {
        EnvironmentStep(steps[i], g, v);
      }
    }

    // --------------------------------------------------------------- reading

    /** The attempt failed in a way that is tried again; a missing file is one. */
    predicate Repeats(elem: Elem, a: Attempt) {
      a == Fails(true) || (a == Answers && elem !in remote)
    }

    /** Up to three attempts. The first one that is not to be repeated decides; it
        succeeds exactly if the storage answers with that page at full size. */
    method FetchPageWithRetry(pgno: nat, elem: Elem, net: nat -> Attempt) returns (r: Result<seq<byte>>)
      ensures if r.Ok? then IsPage(pgno, elem, r.value) else r.error != EOF
      ensures (forall i :: 0 <= i < 3 ==> Repeats(elem, net(i))) ==> r == Err(Busy)
      ensures forall i :: 0 <= i < 3 && !Repeats(elem, net(i)) && (forall j :: 0 <= j < i ==> Repeats(elem, net(j))) ==>
        r == if net(i) == Answers && IsPage(pgno, elem, remote[elem].bytes) then Ok(remote[elem].bytes)
          else Err(FetchFailed)
    {
      for attempt := 0 to 3
        invariant forall j :: 0 <= j < attempt ==> Repeats(elem, net(j))
      {
        match net(attempt)
        case Cancelled => return Err(FetchFailed);
        case Fails(retryable) =>
          if !retryable {
            return Err(FetchFailed);
          }
        case Answers =>
          if elem in remote {
            if remote[elem].pgno != pgno || |remote[elem].bytes| != pageSize {
              return Err(FetchFailed);
            }
            return Ok(remote[elem].bytes);
          }
      }
      return Err(Busy);
    }

    /** Lookup, fetch without the mutex, insertion. */
    method Page(pgno: nat, g: int, steps: seq<EnvStep>, net: nat -> Attempt, ghost v: Visible)
      returns (r: Result<seq<byte>>)
      requires Valid() && Pinned(g, v)
      modifies this
      ensures Valid() && Pinned(g, v)
      ensures if r.Ok? then pgno in v.index && IsPage(pgno, v.index[pgno], r.value) else r.error != EOF
    {
      if g != generation {
        return Err(Busy);
      }
      if pgno in cache {
        return Ok(cache[pgno]);
      }
      if pgno !in index {
        return Err(PageNotFound);
      }
      var elem := index[pgno];
      Environment(steps, g, v);
      r := FetchPageWithRetry(pgno, elem, net);
      if r.Err? {
        return;
      }
      r := InsertPage(pgno, elem, g, r.value);
    }

    /** Byte `k` of the snapshot `v`: pages concatenated from page 1. */
    ghost predicate SnapshotByte(v: Visible, k: nat, b: byte)
      requires pageSize > 0
    {
      var p := k / pageSize + 1;
      p in v.index && v.index[p] in remote && |remote[v.index[p]].bytes| == pageSize && remote[v.index[p]].pgno == p
      && remote[v.index[p]].bytes[k % pageSize] == b
    }

    /** Fills the buffer from the file as it stood when the read began. If it
        succeeds, or ends at the end of the file, the buffer holds exactly the
        bytes of that one snapshot, apart from the header bytes that make the
        file look like a rollback-journal database. */
    method ReadAt(p: array<byte>, off: nat, env: nat -> seq<EnvStep>, net: nat -> nat -> Attempt,
                  random: Option<(byte, byte, byte, byte)>)
      returns (n: nat, err: Option<Error>)
      requires Valid()
      modifies this, p
      ensures Valid() && n <= p.Length
      ensures err != Some(RandFailed) ==>
        && Filled(p, off, n, old(Shown()))
        && (forall i :: n <= i < p.Length ==> p[i] == old(p[i]))
      ensures err == None || err == Some(EOF) ==>
        && var size := old(commit) * pageSize;
        && n == (if off >= size then 0 else if p.Length <= size - off then p.Length else size - off)
        && (err == None <==> n == p.Length)
    {
      if p.Length == 0 {
        return 0, None;
      }
      ghost var v := Shown();
      var g := generation;
      var size := commit * pageSize;
      var t := 0;
      Environment(env(t), g, v);
      if off >= size {
        return 0, Some(EOF);
      }
      var total := 0;
      while total < p.Length && off + total < size
        invariant Valid() && Pinned(g, v)
        invariant total <= p.Length && off + total <= size && size == v.commit * pageSize
        invariant Filled(p, off, total, v) && PastHeader(off, total, p.Length)
        invariant forall i :: total <= i < p.Length ==> p[i] == old(p[i])
        decreases p.Length - total
      {
        var m;
        m, err := ReadPage(p, total, off, g, v, env, t, net, random);
        if err.Some? {
          return if err == Some(RandFailed) then 0 else total, err;
        }
        total := total + m;
        t := t + 3;
      }
      if total < p.Length {
        return total, Some(EOF);
      }
      return total, None;
    }

    /** One turn of the reading loop: a page, the check that nothing was applied
        meanwhile, and the copy. */
    method ReadPage(p: array<byte>, total: nat, off: nat, g: int, ghost v: Visible, env: nat -> seq<EnvStep>, t: nat,
                    net: nat -> nat -> Attempt, random: Option<(byte, byte, byte, byte)>)
      returns (m: nat, err: Option<Error>)
      requires Valid() && Pinned(g, v) && total < p.Length && off + total < v.commit * pageSize
      requires Filled(p, off, total, v) && PastHeader(off, total, p.Length)
      modifies this, p
      ensures Valid() && Pinned(g, v) && err != Some(EOF)
      ensures err.None? ==>
        && 0 < m && total + m <= p.Length && off + total + m <= v.commit * pageSize
        && Filled(p, off, total + m, v) && PastHeader(off, total + m, p.Length)
        && forall i :: total + m <= i < p.Length ==> p[i] == old(p[i])
      ensures err.Some? && err != Some(RandFailed) ==> p[..] == old(p[..])
    {
      var pgno := (off + total) / pageSize + 1;
      var pageOff := (off + total) % pageSize;
      var page := Page(pgno, g, env(t + 1), net(t), v);
      if page.Err? {
        return 0, Some(page.error);
      }
      Environment(env(t + 2), g, v);
      var changed := generation != g;
      Environment(env(t + 3), g, v);
      if changed {
        return 0, Some(Busy);
      }
      PageBounds(off + total, v.commit, pageSize);
      var ok;
      ok, m := FillFromPage(p, total, page.value, pageOff, off, v, pgno, random);
      err := if ok then None else Some(RandFailed);
    }

    static predicate HeaderByte(off: nat, length: nat, i: int) {
      off == 0 && length >= 28 && (i == 18 || i == 19 || 24 <= i < 28)
    }

    /** The first `n` bytes of the buffer are those of the snapshot from `off` on,
        except that the header says 1 for both format versions and carries a random
        change counter. */
    ghost predicate Filled(p: array<byte>, off: nat, n: nat, v: Visible)
      reads p
    {
      && pageSize > 0 && n <= p.Length
      && (off == 0 && n >= 28 ==> p[18] == 1 && p[19] == 1)
      && forall i :: 0 <= i < n && !HeaderByte(off, p.Length, i) ==> SnapshotByte(v, off + i, p[i])
    }

    /** The first page copied covers the whole header, if the buffer does. */
    static predicate PastHeader(off: nat, total: nat, length: nat) {
      off == 0 && total > 0 && length >= 28 ==> total >= 28
    }

    /** Copies from one page and, at the start of the file, rewrites the header. */
    method FillFromPage(p: array<byte>, total: nat, page: seq<byte>, pageOff: nat, off: nat, ghost v: Visible,
                        ghost pgno: nat, random: Option<(byte, byte, byte, byte)>)
      returns (ok: bool, m: nat)
      requires pageSize >= 28 && total < p.Length && |page| == pageSize && Filled(p, off, total, v)
      requires pgno == (off + total) / pageSize + 1 && pageOff == (off + total) % pageSize
      requires pgno in v.index && IsPage(pgno, v.index[pgno], page)
      requires PastHeader(off, total, p.Length)
      modifies p
      ensures m == if p.Length - total <= pageSize - pageOff then p.Length - total else pageSize - pageOff
      ensures m > 0 && PastHeader(off, total + m, p.Length)
      ensures ok ==> Filled(p, off, total + m, v) && forall i :: total + m <= i < p.Length ==> p[i] == old(p[i])
    {
      m := CopyPage(p, total, page, pageOff, off, v, pgno);
      if off == 0 && total == 0 && m >= 28 {
        p[18], p[19] := 1, 1;
        if random.None? {
          return false, m;
        }
        p[24], p[25], p[26], p[27] := random.value.0, random.value.1, random.value.2, random.value.3;
      }
      ok := true;
    }

    /** `copy(p[total:], page[pageOff:])`. */
    method CopyPage(p: array<byte>, total: nat, page: seq<byte>, pageOff: nat, off: nat, ghost v: Visible,
                    ghost pgno: nat)
      returns (m: nat)
      requires pageSize > 0 && total < p.Length && |page| == pageSize
      requires pgno == (off + total) / pageSize + 1 && pageOff == (off + total) % pageSize
      requires pgno in v.index && IsPage(pgno, v.index[pgno], page)
      modifies p
      ensures m == if p.Length - total <= pageSize - pageOff then p.Length - total else pageSize - pageOff
      ensures m > 0
      ensures forall i :: 0 <= i < p.Length && !(total <= i < total + m) ==> p[i] == old(p[i])
      ensures forall i :: total <= i < total + m ==> SnapshotByte(v, off + i, p[i])
    {
      m := if p.Length - total <= pageSize - pageOff then p.Length - total else pageSize - pageOff;
      for j := 0 to m
        invariant forall i :: 0 <= i < p.Length && !(total <= i < total + j) ==> p[i] == old(p[i])
        invariant forall i :: total <= i < total + j ==> SnapshotByte(v, off + i, p[i])
      {
        p[total + j] := page[pageOff + j];
        SamePage(off + total, j, pageSize);
      }
    }

    static lemma SamePage(k: nat, j: nat, size: nat)
      requires size > 0 && k % size + j < size
      ensures (k + j) / size == k / size && (k + j) % size == k % size + j
    {
      var q, r := k / size, k % size;
      assert k + j == q * size + (r + j);
      DivideUnique(k + j, size, q, r + j);
    }

    static lemma MulMono(a: nat, b: nat, size: nat)
      ensures a <= b ==> a * size <= b * size
    {
    }

    static lemma DivideUnique(x: nat, size: nat, q: nat, r: nat)
      requires size > 0 && x == q * size + r && r < size
      ensures x / size == q && x % size == r
    {
      var q', r' := x / size, x % size;
      assert x == q' * size + r';
      MulMono(q + 1, q', size);
      MulMono(q' + 1, q, size);
      assert (q + 1) * size == q * size + size && (q' + 1) * size == q' * size + size;
    }

    /** The page under a position inside the file ends inside the file. */
    static lemma PageBounds(k: nat, commit: nat, size: nat)
      requires size > 0 && k < commit * size
      ensures k / size + 1 <= commit && k - k % size + size <= commit * size
    {
      var q := k / size;
      assert k == q * size + k % size;
      MulMono(commit, q, size);
      MulMono(q + 1, commit, size);
      assert (q + 1) * size == q * size + size;
    }
  }
}
