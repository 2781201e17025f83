/** The visible state of a live-following replica file, and how updates reach it:
    at once, or staged while a reader holds SHARED and applied on unlock. */
module ReplicaUpdates {
  import opened Wrappers

  /** Where a page version is stored: level, transaction range and extent. */
  datatype Elem = Elem(level: int, minTXID: int, maxTXID: int, offset: int, size: int)

  type Index = map<nat, Elem>

  datatype Pos = Pos(txid: int, checksum: int)

  datatype Update = Update(index: Index, replace: bool, commit: nat, pos: Pos, maxTXID1: int)

  datatype Visible = Visible(index: Index, commit: nat, pos: Pos, maxTXID1: int)

  datatype Lock = LockNone | Shared | Reserved | PendingLock | Exclusive

  function Level(l: Lock): nat {
    match l
    case LockNone => 0
    case Shared => 1
    case Reserved => 2
    case PendingLock => 3
    case Exclusive => 4
  }

  function Within(index: Index, commit: nat): Index {
    map p | p in index && p <= commit :: index[p]
  }

  /** applyUpdateLocked: a replacement keeps only pages within its commit. */
  function Apply(v: Visible, u: Update): Visible {
    Visible(if u.replace then Within(u.index, u.commit) else v.index + u.index, u.commit, u.pos, u.maxTXID1)
  }

  /** mergePendingLocked. */
  function Merge(pending: Option<Update>, u: Update): Update {
    if u.replace || pending.None? then u
    else u.(index := pending.value.index + u.index, replace := pending.value.replace)
  }

  /** What readers will see once nothing is staged any more. */
  function Latest(v: Visible, pending: Option<Update>): Visible {
    if pending.None? then v else Apply(v, pending.value)
  }

  // ------------------------------------------------------- staging is exact

  /** Staging `u` behind a pending replacement `q` agrees with applying both at
      once exactly when no page falls between the two commits unwritten. */
  predicate StagesExactly(q: Update, u: Update) {
    && (forall p :: p in u.index ==> p <= u.commit)
    && (forall p :: p in q.index && p !in u.index ==> (p <= q.commit <==> p <= u.commit))
  }

  lemma StagedBehindReplacement(v: Visible, q: Update, u: Update)
    requires q.replace && !u.replace
    ensures Apply(v, Merge(Some(q), u)) == Apply(Apply(v, q), u) <==> StagesExactly(q, u)
  {
    var staged, eager := Within(q.index + u.index, u.commit), Within(q.index, q.commit) + u.index;
    if StagesExactly(q, u) {
      forall p | p in staged || p in eager ensures p in staged && p in eager && staged[p] == eager[p] {}
      assert staged.Keys == eager.Keys;
      assert staged == eager;
    }
    if staged == eager {
      forall p | p in u.index ensures p <= u.commit {
        assert p in eager;
      }
      forall p | p in q.index && p !in u.index ensures p <= q.commit <==> p <= u.commit {
        assert p in staged <==> p in eager;
      }
    }
  }

  /** Behind nothing, or behind an incremental update, staging is always exact. */
  lemma StagedBehindIncrement(v: Visible, pending: Option<Update>, u: Update)
    requires pending.None? || !pending.value.replace || u.replace
    ensures Apply(v, Merge(pending, u)) == Apply(Latest(v, pending), u)
  {
    if !u.replace && pending.Some? {
      assert v.index + (pending.value.index + u.index) == (v.index + pending.value.index) + u.index;
    }
  }

  /** A replacement whose index lists a page beyond its own commit, then growth
      that does not write it: staged, the stale page comes back. */
  lemma StagingRevivesStalePage(e: Elem, v: Visible)
    ensures
      var q := Update(map[1 := e, 2 := e], true, 1, Pos(5, 0), 0);
      var u := Update(map[], false, 2, Pos(6, 0), 0);
      && !StagesExactly(q, u)
      && 2 in Apply(v, Merge(Some(q), u)).index && 2 !in Apply(Apply(v, q), u).index
  {
    var q := Update(map[1 := e, 2 := e], true, 1, Pos(5, 0), 0);
    assert 2 in q.index;
  }

  /** Nothing is staged that the update could not be merged into exactly. */
  predicate Exact(pending: Option<Update>, u: Update) {
    pending.Some? && pending.value.replace && !u.replace ==> StagesExactly(pending.value, u)
  }

  lemma MergeIsApply(v: Visible, pending: Option<Update>, u: Update)
    ensures Latest(v, Some(Merge(pending, u))) == Apply(Latest(v, pending), u) <==> Exact(pending, u)
  {
    if pending.Some? && pending.value.replace && !u.replace {
      StagedBehindReplacement(v, pending.value, u);
    } else {
      StagedBehindIncrement(v, pending, u);
    }
  }

  /** An incremental update writes only pages within its commit, covers any
      growth, and never shrinks the file. */
  predicate Incremental(commit: nat, u: Update) {
    && commit <= u.commit
    && (forall p :: p in u.index ==> p <= u.commit)
    && (forall p :: commit < p <= u.commit ==> p in u.index)
  }

  predicate Acceptable(commit: nat, u: Update) {
    u.replace || Incremental(commit, u)
  }

  /** Such an update can be staged whatever is pending. */
  lemma AcceptableIsExact(v: Visible, pending: Option<Update>, u: Update)
    requires Acceptable(Latest(v, pending).commit, u)
    ensures Exact(pending, u)
  {
  }

  // ------------------------------------------------------------- the protocol

  datatype File = File(v: Visible, pending: Option<Update>, lock: Lock, generation: int)

  predicate SameState(v: Visible, u: Update) {
    u.pos == v.pos && u.commit == v.commit && u.maxTXID1 == v.maxTXID1
  }

  predicate SameUpdate(q: Update, u: Update) {
    u.pos == q.pos && u.commit == q.commit && u.maxTXID1 == q.maxTXID1
  }

  predicate Noop(f: File, u: Update) {
    && !u.replace && |u.index| == 0
    && if f.pending.None? then SameState(f.v, u) else SameUpdate(f.pending.value, u)
  }

  /** stageUpdateLocked. */
  function Stage(f: File, u: Update): File {
    if Noop(f, u) then f
    else if Level(f.lock) >= Level(Shared) then f.(pending := Some(Merge(f.pending, u)))
    else f.(v := Apply(f.v, u), generation := f.generation + 1)
  }

  function LockTo(f: File, l: Lock): File {
    if Level(l) < Level(f.lock) || Level(l) >= Level(Reserved) then f else f.(lock := l)
  }

  function UnlockTo(f: File, l: Lock): File {
    if l != LockNone && l != Shared then f
    else if l == LockNone && f.pending.Some?
    then File(Apply(f.v, f.pending.value), None, l, f.generation + 1)
    else f.(lock := l)
  }

  datatype Event = Polled(update: Update) | Locked(lock: Lock) | Unlocked(lock: Lock)

  function Step(f: File, e: Event): File {
    match e
    case Polled(u) => Stage(f, u)
    case Locked(l) => LockTo(f, l)
    case Unlocked(l) => UnlockTo(f, l)
  }

  function Run(f: File, es: seq<Event>): File
    decreases es
  {
    if es == [] then f else Run(Step(f, es[0]), es[1..])
  }

  /** The same updates with no readers around: each applied as it arrives. */
  function Eager(v: Visible, es: seq<Event>): Visible
    decreases es
  {
    if es == [] then v
    else Eager(if es[0].Polled? then Apply(v, es[0].update) else v, es[1..])
  }

  /** Every update can be merged exactly into what is staged when it arrives. */
  predicate StagesAll(f: File, es: seq<Event>)
    decreases es
  {
    es == [] || ((es[0].Polled? ==> Exact(f.pending, es[0].update)) && StagesAll(Step(f, es[0]), es[1..]))
  }

  /** After every event, visible and staged together are the eager state `v`. */
  ghost predicate Agrees(f: File, v: Visible, es: seq<Event>)
    decreases es
  {
    && Latest(f.v, f.pending) == v
    && (es == [] || Agrees(Step(f, es[0]), Eager(v, es[..1]), es[1..]))
  }

  ghost predicate Acceptables(v: Visible, es: seq<Event>)
    decreases es
  {
    es == [] ||
    (if es[0].Polled? then Acceptable(v.commit, es[0].update) && Acceptables(Apply(v, es[0].update), es[1..])
     else Acceptables(v, es[1..]))
  }

  /** Updates are staged only under SHARED, and no other lock is ever held. */
  predicate FileOk(f: File) {
    (f.lock == LockNone || f.lock == Shared) && (f.pending.Some? ==> f.lock == Shared)
  }

  /** What one event does to the file without readers. */
  function EagerStep(v: Visible, e: Event): Visible {
    if e.Polled? then Apply(v, e.update) else v
  }

  lemma {:induction false} EagerOne(v: Visible, es: seq<Event>)
    requires es != []
    ensures Eager(v, es[..1]) == EagerStep(v, es[0])
    ensures Eager(v, es) == Eager(EagerStep(v, es[0]), es[1..])
  {
    assert es[..1][1..] == [];
  }

  /** A step without pages that says what is staged, or shown, changes nothing. */
  lemma NoopIsApplied(f: File, u: Update)
    requires Noop(f, u)
    ensures Apply(Latest(f.v, f.pending), u) == Latest(f.v, f.pending) && Exact(f.pending, u)
  {
    assert u.index == map[];
    var now := Latest(f.v, f.pending);
    assert now.index + u.index == now.index;
  }

  lemma StepIsEager(f: File, e: Event)
    requires FileOk(f)
    ensures FileOk(Step(f, e))
    ensures Latest(Step(f, e).v, Step(f, e).pending) == EagerStep(Latest(f.v, f.pending), e)
      <==> (e.Polled? ==> Exact(f.pending, e.update))
  {
    if e.Polled? {
      if Noop(f, e.update) {
        NoopIsApplied(f, e.update);
      } else if Level(f.lock) >= Level(Shared) {
        MergeIsApply(f.v, f.pending, e.update);
      }
    }
  }

  /** Over every interleaving of polls, locks and unlocks: what is visible plus
      what is staged is throughout the file that had every update applied at once,
      exactly when every update could be merged exactly as it arrived. */
  lemma {:induction false} StagingAgreesExactly(f: File, es: seq<Event>)
    requires FileOk(f)
    ensures Agrees(f, Latest(f.v, f.pending), es) <==> StagesAll(f, es)
    decreases es
  {
    if es != [] {
      StepIsEager(f, es[0]);
      EagerOne(Latest(f.v, f.pending), es);
      StagingAgreesExactly(Step(f, es[0]), es[1..]);
    }
  }

  /** Then, with no reader left, the eager file is what readers see. */
  lemma {:induction false} StagingIsInvisible(f: File, es: seq<Event>)
    requires FileOk(f) && StagesAll(f, es)
    ensures FileOk(Run(f, es))
    ensures Latest(Run(f, es).v, Run(f, es).pending) == Eager(Latest(f.v, f.pending), es)
    ensures Run(f, es).lock == LockNone ==> Run(f, es).v == Eager(Latest(f.v, f.pending), es)
    decreases es
  {
    if es != [] {
      StepIsEager(f, es[0]);
      EagerOne(Latest(f.v, f.pending), es);
      StagingIsInvisible(Step(f, es[0]), es[1..]);
    }
  }

  /** Updates that cover their growth can always be staged. */
  lemma {:induction false} AcceptablesStage(f: File, es: seq<Event>)
    requires FileOk(f) && Acceptables(Latest(f.v, f.pending), es)
    ensures StagesAll(f, es)
    decreases es
  {
    if es != [] {
      if es[0].Polled? {
        AcceptableIsExact(f.v, f.pending, es[0].update);
      }
      StepIsEager(f, es[0]);
      AcceptablesStage(Step(f, es[0]), es[1..]);
    }
  }

  /** While SHARED is held, whatever is polled, readers see one snapshot. */
  lemma {:induction false} SharedSnapshotIsStable(f: File, es: seq<Event>)
    requires f.lock == Shared && forall i :: 0 <= i < |es| ==> es[i] != Unlocked(LockNone)
    ensures Run(f, es).v == f.v && Run(f, es).generation == f.generation && Run(f, es).lock == Shared
    decreases es
  {
    if es != [] {
      assert forall i :: 0 <= i < |es[1..]| ==> es[1..][i] == es[i + 1];
      SharedSnapshotIsStable(Step(f, es[0]), es[1..]);
    }
  }
}
