/** Polling of the two lowest compaction levels, and the update a poll yields. */
module ReplicaPoller {
  import opened ReplicaUpdates
  import opened Wrappers

  datatype Result<T> = Ok(value: T) | Err

  /** A transaction file: what the listing says, what its header says, and its
      page index. `readable` is false when fetching index or header fails. */
  datatype Ltx = Ltx(
    level: int, minTXID: int, maxTXID: int, checksum: int,
    headerPageSize: int, headerMinTXID: int, headerMaxTXID: int, commit: nat,
    index: Index, readable: bool)

  /** The listing at one level: the files, and whether iterating it failed. */
  datatype Listing = Listing(files: seq<Ltx>, failed: bool)

  datatype PollLevel = PollLevel(
    maxTXID: int, index: Index, commit: nat, gapAt: int, replace: bool, fromRoot: bool)

  predicate GoodHeader(f: Ltx, pageSize: int) {
    f.readable && f.headerPageSize == pageSize && f.headerMinTXID == f.minTXID && f.headerMaxTXID == f.maxTXID
  }

  function Overlay(fs: seq<Ltx>): Index {
    if fs == [] then map[] else Overlay(fs[..|fs| - 1]) + fs[|fs| - 1].index
  }

  /** Each file starts right after the one before it. */
  predicate Contiguous(previous: int, fs: seq<Ltx>) {
    && (fs != [] ==> fs[0].minTXID == previous + 1)
    && (forall i :: 0 < i < |fs| ==> Follows(fs[i - 1], fs[i]))
  }

  predicate Follows(f: Ltx, g: Ltx) {
    g.minTXID == f.maxTXID + 1
  }

  function TipTXID(previous: int, fs: seq<Ltx>): int {
    if fs == [] then previous else fs[|fs| - 1].maxTXID
  }

  function TipCommit(base: nat, fs: seq<Ltx>): nat {
    if fs == [] then base else fs[|fs| - 1].commit
  }

  /** File `i` restarts the index: it shrinks the file or is a root snapshot. */
  predicate Resets(base: nat, fs: seq<Ltx>, i: nat)
    requires i < |fs|
  {
    fs[i].commit < TipCommit(base, fs[..i]) || fs[i].headerMinTXID == 1
  }

  /** `r` is what the files `fs` amount to on top of `previous` and `base`: the
      overlay of everything since the last restart. */
  ghost predicate Polls(previous: int, base: nat, fs: seq<Ltx>, r: PollLevel) {
    && Contiguous(previous, fs)
    && r.maxTXID == TipTXID(previous, fs)
    && r.commit == TipCommit(base, fs)
    && (!r.replace ==> r.index == Overlay(fs) && forall i :: 0 <= i < |fs| ==> !Resets(base, fs, i))
    && (r.replace ==> exists s :: RestartsAt(base, fs, s, r.index, r.fromRoot))
  }

  ghost predicate RestartsAt(base: nat, fs: seq<Ltx>, s: int, index: Index, fromRoot: bool) {
    && 0 <= s < |fs| && Resets(base, fs, s)
    && (forall i :: s < i < |fs| ==> !Resets(base, fs, i))
    && index == Overlay(fs[s..])
    && (fromRoot <==> fs[s].headerMinTXID == 1)
  }

  function Begin(previous: int, base: nat): PollLevel {
    PollLevel(previous, map[], base, 0, false, false)
  }

  function Advance(s: PollLevel, f: Ltx): PollLevel {
    var reset := f.commit < s.commit || f.headerMinTXID == 1;
    s.(replace := s.replace || reset, fromRoot := if reset then f.headerMinTXID == 1 else s.fromRoot,
       commit := f.commit, index := (if reset then map[] else s.index) + f.index, maxTXID := f.maxTXID)
  }

  /** File by file: at level 0 a gap ends the pass and is reported; any other
      break in the sequence, or a bad file, fails it. */
  function Scan(level: int, s: PollLevel, pageSize: int, fs: seq<Ltx>): Result<PollLevel>
    decreases fs
  {
    if fs == [] then Ok(s)
    else if fs[0].minTXID != s.maxTXID + 1 then
      if level == 0 && fs[0].minTXID > s.maxTXID + 1 then Ok(s.(gapAt := fs[0].minTXID)) else Err
    else if !GoodHeader(fs[0], pageSize) then Err
    else Scan(level, Advance(s, fs[0]), pageSize, fs[1..])
  }

  function Polled(level: int, previous: int, base: nat, pageSize: int, listing: Listing): Result<PollLevel> {
    if listing.failed then Err else Scan(level, Begin(previous, base), pageSize, listing.files)
  }

  /** Reads forward from `previous + 1`. */
  method Poll(level: int, previous: int, base: nat, pageSize: int, listing: Listing) returns (r: Result<PollLevel>)
    ensures r == Polled(level, previous, base, pageSize, listing)
  {
    var fs := listing.files;
    var s := PollLevel(previous, map[], base, 0, false, false);
    assert fs[0..] == fs;
    for i := 0 to |fs|
      invariant Scan(level, s, pageSize, fs[i..]) == Scan(level, Begin(previous, base), pageSize, fs)
    {
      var f := fs[i];
      assert fs[i..][1..] == fs[i + 1..];
      if f.minTXID != s.maxTXID + 1 {
        if level == 0 && f.minTXID > s.maxTXID + 1 {
          s := s.(gapAt := f.minTXID);
          return if listing.failed then Err else Ok(s);
        }
        return Err;
      }
      if !f.readable || f.headerPageSize != pageSize || f.headerMinTXID != f.minTXID || f.headerMaxTXID != f.maxTXID {
        return Err;
      }
      if f.commit < s.commit || f.headerMinTXID == 1 {
        s := s.(replace := true, fromRoot := f.headerMinTXID == 1, index := map[]);
      }
      s := s.(commit := f.commit, index := s.index + f.index, maxTXID := f.maxTXID);
    }
    if listing.failed {
      return Err;
    }
    return Ok(s);
  }

  /** What a pass has read, and where it stopped: everything, or the first file
      beyond a gap at level 0. */
  ghost predicate ReadsTo(level: int, previous: int, base: nat, pageSize: int, fs: seq<Ltx>, r: PollLevel, k: nat) {
    && k <= |fs|
    && Polls(previous, base, fs[..k], r)
    && (forall i :: 0 <= i < k ==> GoodHeader(fs[i], pageSize))
    && (r.gapAt == 0 <==> k == |fs|)
    && (k < |fs| ==> level == 0 && r.gapAt == fs[k].minTXID > r.maxTXID + 1)
  }

  lemma {:induction false} ScanFrom(level: int, previous: int, base: nat, pageSize: int, fs: seq<Ltx>, i: nat,
                                    s: PollLevel)
    returns (k: nat)
    requires forall n :: 0 <= n < |fs| ==> 1 <= fs[n].minTXID <= fs[n].maxTXID
    requires i <= |fs| && s.gapAt == 0 && Polls(previous, base, fs[..i], s) && Scan(level, s, pageSize, fs[i..]).Ok?
    requires forall n :: 0 <= n < i ==> GoodHeader(fs[n], pageSize)
    ensures ReadsTo(level, previous, base, pageSize, fs, Scan(level, s, pageSize, fs[i..]).value, k)
    decreases |fs| - i
  {
    if i == |fs| {
      k := i;
    } else if fs[i].minTXID != s.maxTXID + 1 {
      k := i;
    } else {
      assert fs[i..][1..] == fs[i + 1..];
      PollNext(previous, base, fs, i, s, Advance(s, fs[i]));
      k := ScanFrom(level, previous, base, pageSize, fs, i + 1, Advance(s, fs[i]));
    }
  }

  /** A pass that succeeds is the overlay of contiguous, well-formed files since
      the last restart. */
  lemma {:induction false} PolledMeans(level: int, previous: int, base: nat, pageSize: int, listing: Listing)
    returns (k: nat)
    requires ListingOk(listing) && Polled(level, previous, base, pageSize, listing).Ok?
    ensures ReadsTo(level, previous, base, pageSize, listing.files,
      Polled(level, previous, base, pageSize, listing).value, k)
  {
    assert listing.files[0..] == listing.files && listing.files[..0] == [];
    k := ScanFrom(level, previous, base, pageSize, listing.files, 0, Begin(previous, base));
  }

  lemma {:induction false} OverlaySnoc(fs: seq<Ltx>, f: Ltx)
    ensures Overlay(fs + [f]) == Overlay(fs) + f.index
  {
    assert (fs + [f])[..|fs|] == fs;
  }

  lemma ResetsBefore(base: nat, fs: seq<Ltx>, f: Ltx, i: nat)
    requires i < |fs|
    ensures Resets(base, fs + [f], i) == Resets(base, fs, i)
  {
    assert (fs + [f])[..i] == fs[..i];
  }

  lemma TipSnoc(previous: int, base: nat, fs: seq<Ltx>, f: Ltx)
    requires Contiguous(previous, fs) && f.minTXID == TipTXID(previous, fs) + 1
    ensures Contiguous(previous, fs + [f])
    ensures TipTXID(previous, fs + [f]) == f.maxTXID && TipCommit(base, fs + [f]) == f.commit
    ensures Resets(base, fs + [f], |fs|) <==> f.commit < TipCommit(base, fs) || f.headerMinTXID == 1
  {
    var all := fs + [f];
    assert all[..|fs|] == fs;
    forall i | 0 < i < |all| ensures Follows(all[i - 1], all[i]) {
      if i < |fs| {
        assert Follows(fs[i - 1], fs[i]);
      }
    }
  }

  lemma PollStep(previous: int, base: nat, fs: seq<Ltx>, f: Ltx, s: PollLevel, s': PollLevel)
    requires Polls(previous, base, fs, s) && f.minTXID == s.maxTXID + 1
    requires s' == Advance(s, f)
    ensures Polls(previous, base, fs + [f], s')
  {
    var all, n := fs + [f], |fs|;
    TipSnoc(previous, base, fs, f);
    forall i | 0 <= i < n ensures Resets(base, all, i) == Resets(base, fs, i) {
      ResetsBefore(base, fs, f, i);
    }
    OverlaySnoc(fs, f);
    if Resets(base, all, n) {
      RestartsLast(base, fs, f, s');
    } else if s.replace {
      var k :| RestartsAt(base, fs, k, s.index, s.fromRoot);
      RestartsStill(base, fs, f, k, s, s');
    }
  }

  lemma RestartsLast(base: nat, fs: seq<Ltx>, f: Ltx, s': PollLevel)
    requires Resets(base, fs + [f], |fs|)
    requires s'.index == map[] + f.index && (s'.fromRoot <==> f.headerMinTXID == 1)
    ensures RestartsAt(base, fs + [f], |fs|, s'.index, s'.fromRoot)
  {
    OverlaySnoc([], f);
    assert (fs + [f])[|fs|..] == [] + [f];
  }

  lemma RestartsStill(base: nat, fs: seq<Ltx>, f: Ltx, k: int, s: PollLevel, s': PollLevel)
    requires RestartsAt(base, fs, k, s.index, s.fromRoot) && !Resets(base, fs + [f], |fs|)
    requires s'.index == s.index + f.index && s'.fromRoot == s.fromRoot
    requires forall i :: 0 <= i < |fs| ==> Resets(base, fs + [f], i) == Resets(base, fs, i)
    ensures RestartsAt(base, fs + [f], k, s'.index, s'.fromRoot)
  {
    assert (fs + [f])[k..] == fs[k..] + [f];
    OverlaySnoc(fs[k..], f);
  }

  lemma PollNext(previous: int, base: nat, fs: seq<Ltx>, i: nat, s: PollLevel, s': PollLevel)
    requires i < |fs| && Polls(previous, base, fs[..i], s) && fs[i].minTXID == s.maxTXID + 1
    requires s' == Advance(s, fs[i])
    ensures Polls(previous, base, fs[..i + 1], s')
  {
    PollStep(previous, base, fs[..i], fs[i], s, s');
    assert fs[..i + 1] == fs[..i] + [fs[i]];
  }

  /** A pass without restart never shrinks the file. */
  lemma {:induction false} NoRestartNoShrink(base: nat, fs: seq<Ltx>)
    requires forall i :: 0 <= i < |fs| ==> !Resets(base, fs, i)
    ensures TipCommit(base, fs) >= base
  {
    if fs != [] {
      var n := |fs| - 1;
      forall i | 0 <= i < n ensures !Resets(base, fs[..n], i) {
        assert fs == fs[..n] + [fs[n]];
        ResetsBefore(base, fs[..n], fs[n], i);
      }
      NoRestartNoShrink(base, fs[..n]);
      assert !Resets(base, fs, n);
    }
  }

  // ------------------------------------------------------------ one whole poll

  function Newer(l0: Index, l1: Index): Index {
    map p | p in l0.Keys + l1.Keys ::
      if p in l1 && (p !in l0 || l1[p].maxTXID >= l0[p].maxTXID) then l1[p] else l0[p]
  }

  function Max(x: int, y: int): int {
    if x >= y then x else y
  }

  method MergeIndex(l0: Index, l1: Index) returns (index: Index)
    ensures index == Newer(l0, l1)
  {
    index := l0;
    var todo := l1.Keys;
    ghost var done: set<nat> := {};
    PickedAll(l0, l1);
    while todo != {}
      invariant done !! todo && done + todo == l1.Keys && index == Picked(l0, l1, done)
      decreases todo
    {
      var p :| p in todo;
      PickOne(l0, l1, done, p);
      if p !in index || l1[p].maxTXID >= index[p].maxTXID {
        index := index[p := l1[p]];
      }
      todo, done := todo - {p}, done + {p};
    }
    assert done == l1.Keys;
  }

  /** The commit of the level that reached furthest, if it read anything. */
  function MergedCommit(pos: Pos, maxTXID1: int, commit: nat, l0: PollLevel, l1: PollLevel): nat {
    if l0.maxTXID >= l1.maxTXID && (l0.maxTXID > pos.txid || l0.index != map[]) then l0.commit
    else if l1.maxTXID > maxTXID1 || l1.index != map[] then l1.commit
    else commit
  }

  function Merged(pos: Pos, maxTXID1: int, commit: nat, l0: PollLevel, l1: PollLevel): Update {
    Update(Newer(l0.index, l1.index), false, MergedCommit(pos, maxTXID1, commit, l0, l1),
           pos.(txid := Max(pos.txid, Max(l0.maxTXID, l1.maxTXID))), l1.maxTXID)
  }

  /** mergePollLevelResults: the loop over level 1 lets a page in unless level 0
      has a strictly newer one. */
  method MergeLevels(pos: Pos, maxTXID1: int, commit: nat, l0: PollLevel, l1: PollLevel) returns (u: Update)
    ensures u == Merged(pos, maxTXID1, commit, l0, l1)
  {
    var index := MergeIndex(l0.index, l1.index);
    var merged := commit;
    if l0.maxTXID >= l1.maxTXID && (l0.maxTXID > pos.txid || |l0.index| > 0) {
      merged := l0.commit;
    } else if l1.maxTXID > maxTXID1 || |l1.index| > 0 {
      merged := l1.commit;
    }
    var at := pos;
    if l0.maxTXID > at.txid {
      at := at.(txid := l0.maxTXID);
    }
    if l1.maxTXID > at.txid {
      at := at.(txid := l1.maxTXID);
    }
    u := Update(index, false, merged, at, l1.maxTXID);
  }

  /** Level 1 pages in `done` were considered. */
  ghost function Picked(l0: Index, l1: Index, done: set<nat>): Index {
    Newer(l0, map p | p in l1 && p in done :: l1[p])
  }

  lemma PickOne(l0: Index, l1: Index, done: set<nat>, p: nat)
    requires p in l1 && p !in done
    ensures var m := Picked(l0, l1, done);
      Picked(l0, l1, done + {p}) == if p !in m || l1[p].maxTXID >= m[p].maxTXID then m[p := l1[p]] else m
  {
  }

  lemma PickedAll(l0: Index, l1: Index)
    ensures Picked(l0, l1, l1.Keys) == Newer(l0, l1) && Picked(l0, l1, {}) == l0
  {
    assert (map p | p in l1 && p in l1.Keys :: l1[p]) == l1;
  }

  // ---------------------------------------------------------------- snapshots

  /** The position of the file that reaches furthest, the first one on a tie. */
  function HighestPos(fs: seq<Ltx>): Pos {
    if fs == [] then Pos(0, 0)
    else
      var before, f := HighestPos(fs[..|fs| - 1]), fs[|fs| - 1];
      if f.maxTXID > before.txid then Pos(f.maxTXID, f.checksum) else before
  }

  function HighestAtLevel1(fs: seq<Ltx>): int {
    if fs == [] then 0
    else
      var n := |fs| - 1;
      if fs[n].level == 1 then Max(HighestAtLevel1(fs[..n]), fs[n].maxTXID) else HighestAtLevel1(fs[..n])
  }

  function SnapshotOf(plan: seq<Ltx>): Visible {
    Visible(Overlay(plan), TipCommit(0, plan), HighestPos(plan), HighestAtLevel1(plan))
  }

  predicate AllGood(plan: seq<Ltx>, pageSize: int) {
    forall i :: 0 <= i < |plan| ==> GoodHeader(plan[i], pageSize)
  }

  /** buildSnapshot: replays the restore plan; one bad file fails it. */
  method BuildSnapshot(plan: seq<Ltx>, pageSize: int) returns (r: Result<Visible>)
    ensures r == if AllGood(plan, pageSize) then Ok(SnapshotOf(plan)) else Err
  {
    var v := Visible(map[], 0, Pos(0, 0), 0);
    for i := 0 to |plan|
      invariant AllGood(plan[..i], pageSize) && v == SnapshotOf(plan[..i])
    {
      var f := plan[i];
      if !f.readable || f.headerPageSize != pageSize || f.headerMinTXID != f.minTXID || f.headerMaxTXID != f.maxTXID {
        return Err;
      }
      assert plan[..i + 1][..i] == plan[..i];
      v := v.(index := v.index + f.index, commit := f.commit);
      if f.maxTXID > v.pos.txid {
        v := v.(pos := Pos(f.maxTXID, f.checksum));
      }
      if f.level == 1 && f.maxTXID > v.maxTXID1 {
        v := v.(maxTXID1 := f.maxTXID);
      }
    }
    assert plan[..|plan|] == plan;
    return Ok(v);
  }

  function Rebuilt(plan: Result<seq<Ltx>>, pageSize: int): Result<Update> {
    if plan.Err? || plan.value == [] || !AllGood(plan.value, pageSize) then Err
    else
      var v := SnapshotOf(plan.value);
      Ok(Update(v.index, true, v.commit, v.pos, v.maxTXID1))
  }

  /** rebuildLatest: an empty plan is an error. */
  method RebuildLatest(plan: Result<seq<Ltx>>, pageSize: int) returns (r: Result<Update>)
    ensures r == Rebuilt(plan, pageSize)
  {
    if plan.Err? || plan.value == [] {
      return Err;
    }
    var v := BuildSnapshot(plan.value, pageSize);
    if v.Err? {
      return Err;
    }
    return Ok(Update(v.value.index, true, v.value.commit, v.value.pos, v.value.maxTXID1));
  }

  /** A listing shows a root snapshot beyond the current tip. */
  predicate Superseding(files: seq<Ltx>, txid: int) {
    exists i :: 0 <= i < |files| && files[i].minTXID == 1 && files[i].maxTXID > txid
  }

  /** hasSupersedingSnapshot: level 0, then level 1; the first hit ends the
      search, before any failure behind it. */
  function Superseded(roots0: Listing, roots1: Listing, txid: int): Result<bool> {
    if Superseding(roots0.files, txid) then Ok(true)
    else if roots0.failed then Err
    else if Superseding(roots1.files, txid) then Ok(true)
    else if roots1.failed then Err
    else Ok(false)
  }

  method FindRoot(files: seq<Ltx>, txid: int) returns (found: bool)
    ensures found == Superseding(files, txid)
  {
    for i := 0 to |files|
      invariant !Superseding(files[..i], txid)
    {
      if files[i].minTXID == 1 && files[i].maxTXID > txid {
        return true;
      }
    }
    assert files[..|files|] == files;
    return false;
  }

  method HasSupersedingSnapshot(roots0: Listing, roots1: Listing, txid: int) returns (r: Result<bool>)
    ensures r == Superseded(roots0, roots1, txid)
  {
    var found := FindRoot(roots0.files, txid);
    if found {
      return Ok(true);
    }
    if roots0.failed {
      return Err;
    }
    found := FindRoot(roots1.files, txid);
    if found {
      return Ok(true);
    }
    return if roots1.failed then Err else Ok(false);
  }

  // ------------------------------------------------------------ one whole poll

  predicate ListingOk(l: Listing) {
    forall i :: 0 <= i < |l.files| ==> 1 <= l.files[i].minTXID <= l.files[i].maxTXID
  }

  /** A complete root snapshot was read at the level that decides. */
  predicate CompleteSnapshot(l0: PollLevel, l1: PollLevel) {
    if l1.replace then l1.fromRoot else l0.replace && l0.fromRoot
  }

  /** Level 1 reaches the file behind the gap at level 0. */
  predicate Bridged(l0: PollLevel, l1: PollLevel) {
    l0.gapAt != 0 && l1.maxTXID + 1 >= l0.gapAt
  }

  predicate NeedsRebuild(l0: PollLevel, l1: PollLevel) {
    || (l0.gapAt != 0 && !Bridged(l0, l1))
    || ((l0.replace || l1.replace) && !(Bridged(l0, l1) && CompleteSnapshot(l0, l1)))
  }

  /** isNoopPollUpdate. */
  predicate SaysNothing(pos: Pos, maxTXID1: int, commit: nat, u: Update) {
    !u.replace && u.index == map[] && u.pos == pos && u.maxTXID1 == maxTXID1 && u.commit == commit
  }

  /** The update a poll yields from its two passes. */
  function Outcome(pos: Pos, maxTXID1: int, commit: nat, pageSize: int, l0: PollLevel, l1: PollLevel,
                   plan: Result<seq<Ltx>>, superseded: Result<bool>): Result<Update> {
    var u := Merged(pos, maxTXID1, commit, l0, l1).(replace := l0.replace || l1.replace);
    if NeedsRebuild(l0, l1) then Rebuilt(plan, pageSize)
    else if !SaysNothing(pos, maxTXID1, commit, u) then Ok(u)
    else if superseded.Err? then Err
    else if superseded.value then Rebuilt(plan, pageSize)
    else Ok(u)
  }

  function PollOutcome(pos: Pos, maxTXID1: int, commit: nat, pageSize: int, list0: Listing, list1: Listing,
                       plan: Result<seq<Ltx>>, roots0: Listing, roots1: Listing): Result<Update> {
    var p0 := Polled(0, pos.txid, commit, pageSize, list0);
    if p0.Err? then Err
    else
      var p1 := Polled(1, maxTXID1, p0.value.commit, pageSize, list1);
      if p1.Err? then Err
      else Outcome(pos, maxTXID1, commit, pageSize, p0.value, p1.value, plan, Superseded(roots0, roots1, pos.txid))
  }

  /** pollReplicaClient up to staging, from the cursors it starts at. */
  method PollOnce(pos: Pos, maxTXID1: int, commit: nat, pageSize: int, list0: Listing, list1: Listing,
                  plan: Result<seq<Ltx>>, roots0: Listing, roots1: Listing)
    returns (r: Result<Update>)
    ensures r == PollOutcome(pos, maxTXID1, commit, pageSize, list0, list1, plan, roots0, roots1)
  {
    var p0 := Poll(0, pos.txid, commit, pageSize, list0);
    if p0.Err? {
      return Err;
    }
    var p1 := Poll(1, maxTXID1, p0.value.commit, pageSize, list1);
    if p1.Err? {
      return Err;
    }
    var a, b := p0.value, p1.value;
    var gapBridged := a.gapAt != 0 && b.maxTXID + 1 >= a.gapAt;
    var unbridgedGap := a.gapAt != 0 && !gapBridged;
    var safeBridgedReplace := gapBridged && (a.replace || b.replace) && CompleteSnapshot(a, b);
    if unbridgedGap || ((a.replace || b.replace) && !safeBridgedReplace) {
      r := RebuildLatest(plan, pageSize);
      return;
    }
    var u := MergeLevels(pos, maxTXID1, commit, a, b);
    if safeBridgedReplace {
      u := u.(replace := true);
    }
    if !u.replace && |u.index| == 0 && u.pos == pos && u.maxTXID1 == maxTXID1 && u.commit == commit {
      var superseded := HasSupersedingSnapshot(roots0, roots1, pos.txid);
      if superseded.Err? {
        return Err;
      }
      if superseded.value {
        r := RebuildLatest(plan, pageSize);
        return;
      }
    }
    r := Ok(u);
  }

  /** An update that does not replace the index comes from two passes without
      restart and without a gap that level 1 does not bridge; it never shrinks the
      file and never moves back. A replacement is a rebuilt snapshot, or passes of
      which the deciding one read a root snapshot that bridged a gap. */
  lemma PollIsSafe(pos: Pos, maxTXID1: int, commit: nat, pageSize: int, list0: Listing, list1: Listing,
                   plan: Result<seq<Ltx>>, roots0: Listing, roots1: Listing, l0: PollLevel, l1: PollLevel, u: Update)
    requires ListingOk(list0) && ListingOk(list1)
    requires PollOutcome(pos, maxTXID1, commit, pageSize, list0, list1, plan, roots0, roots1) == Ok(u)
    requires Polled(0, pos.txid, commit, pageSize, list0) == Ok(l0)
    requires Polled(1, maxTXID1, l0.commit, pageSize, list1) == Ok(l1)
    ensures !u.replace ==>
      && !l0.replace && !l1.replace && commit <= u.commit
      && u.index == Newer(l0.index, l1.index) && (l0.gapAt == 0 || Bridged(l0, l1))
      && u.pos.txid >= pos.txid && u.maxTXID1 == l1.maxTXID
    ensures u.replace ==>
      || Rebuilt(plan, pageSize) == Ok(u)
      || (CompleteSnapshot(l0, l1) && Bridged(l0, l1) && u.index == Newer(l0.index, l1.index))
  {
    if !u.replace {
      var k0 := PolledMeans(0, pos.txid, commit, pageSize, list0);
      var k1 := PolledMeans(1, maxTXID1, l0.commit, pageSize, list1);
      NoRestartNoShrink(commit, list0.files[..k0]);
      NoRestartNoShrink(l0.commit, list1.files[..k1]);
    }
  }

  lemma PollNeverShrinks(pos: Pos, maxTXID1: int, commit: nat, pageSize: int, list0: Listing, list1: Listing,
                         plan: Result<seq<Ltx>>, roots0: Listing, roots1: Listing)
    requires ListingOk(list0) && ListingOk(list1)
    ensures var r := PollOutcome(pos, maxTXID1, commit, pageSize, list0, list1, plan, roots0, roots1);
      r.Ok? ==> r.value.replace || commit <= r.value.commit
  {
    var r := PollOutcome(pos, maxTXID1, commit, pageSize, list0, list1, plan, roots0, roots1);
    if r.Ok? {
      var p0 := Polled(0, pos.txid, commit, pageSize, list0);
      var p1 := Polled(1, maxTXID1, p0.value.commit, pageSize, list1);
      PollIsSafe(pos, maxTXID1, commit, pageSize, list0, list1, plan, roots0, roots1, p0.value, p1.value, r.value);
    }
  }

  // ------------------------------------------------------------ page versions

  /** A page version carries the last transaction of its file. */
  predicate Stamped(fs: seq<Ltx>) {
    forall i, p :: 0 <= i < |fs| && p in fs[i].index ==> fs[i].index[p].maxTXID == fs[i].maxTXID
  }

  /** No visible page is newer than the position. */
  predicate Tipped(v: Visible) {
    forall p :: p in v.index ==> v.index[p].maxTXID <= v.pos.txid
  }

  /** The update puts an older version of a visible page in its place. */
  predicate Rewinds(v: Visible, u: Update, p: nat) {
    p in v.index && p in Apply(v, u).index && Apply(v, u).index[p].maxTXID < v.index[p].maxTXID
  }

  lemma {:induction false} OverlayFrom(fs: seq<Ltx>, p: nat) returns (i: nat)
    requires p in Overlay(fs)
    ensures i < |fs| && p in fs[i].index && Overlay(fs)[p] == fs[i].index[p]
  {
    var n := |fs| - 1;
    if p in fs[n].index {
      i := n;
    } else {
      i := OverlayFrom(fs[..n], p);
    }
  }

  /** Contiguous files run upwards from the previous transaction to the tip. */
  lemma {:induction false} ContiguousBounds(previous: int, fs: seq<Ltx>, i: nat)
    requires Contiguous(previous, fs) && i < |fs| && forall n :: 0 <= n < |fs| ==> fs[n].minTXID <= fs[n].maxTXID
    ensures previous < fs[i].maxTXID <= TipTXID(previous, fs)
    decreases |fs|
  {
    var n := |fs| - 1;
    if n > 0 {
      assert Follows(fs[n - 1], fs[n]);
      forall k | 0 < k < n ensures Follows(fs[..n][k - 1], fs[..n][k]) {
        assert Follows(fs[k - 1], fs[k]);
      }
      ContiguousBounds(previous, fs[..n], if i < n then i else n - 1);
    }
  }

  /** Pages a pass read are newer than where it began and no newer than its tip. */
  lemma PassVersions(level: int, previous: int, base: nat, pageSize: int, listing: Listing, l: PollLevel, p: nat)
    requires ListingOk(listing) && Stamped(listing.files) && Polled(level, previous, base, pageSize, listing) == Ok(l)
    requires p in l.index
    ensures previous < l.index[p].maxTXID <= l.maxTXID
  {
    var k := PolledMeans(level, previous, base, pageSize, listing);
    var fs := listing.files[..k];
    var s := 0;
    if l.replace {
      s :| RestartsAt(base, fs, s, l.index, l.fromRoot);
    } else {
      assert fs[0..] == fs;
    }
    var i := OverlayFrom(fs[s..], p);
    assert fs[s..][i] == fs[s + i] == listing.files[s + i];
    ContiguousBounds(previous, fs, s + i);
  }

  lemma {:induction false} PlanVersions(plan: seq<Ltx>, p: nat)
    requires Stamped(plan) && p in Overlay(plan)
    ensures Overlay(plan)[p].maxTXID <= HighestPos(plan).txid
  {
    var n := |plan| - 1;
    assert Stamped(plan[..n]);
    if p !in plan[n].index {
      PlanVersions(plan[..n], p);
    }
  }

  /** Whatever a poll yields, the position stays ahead of every page. */
  lemma PollKeepsTip(v: Visible, pageSize: int, list0: Listing, list1: Listing, plan: Result<seq<Ltx>>,
                     roots0: Listing, roots1: Listing, l0: PollLevel, l1: PollLevel, u: Update)
    requires ListingOk(list0) && ListingOk(list1) && Tipped(v)
    requires Stamped(list0.files) && Stamped(list1.files) && (plan.Ok? ==> Stamped(plan.value))
    requires PollOutcome(v.pos, v.maxTXID1, v.commit, pageSize, list0, list1, plan, roots0, roots1) == Ok(u)
    requires Polled(0, v.pos.txid, v.commit, pageSize, list0) == Ok(l0)
    requires Polled(1, v.maxTXID1, l0.commit, pageSize, list1) == Ok(l1)
    ensures Tipped(Apply(v, u))
  {
    var v' := Apply(v, u);
    if u.replace && Rebuilt(plan, pageSize) == Ok(u) {
      forall p | p in v'.index ensures v'.index[p].maxTXID <= v'.pos.txid {
        PlanVersions(plan.value, p);
      }
    } else {
      forall p | p in v'.index ensures v'.index[p].maxTXID <= v'.pos.txid {
        if p in l0.index { PassVersions(0, v.pos.txid, v.commit, pageSize, list0, l0, p); }
        if p in l1.index { PassVersions(1, v.maxTXID1, l0.commit, pageSize, list1, l1, p); }
      }
    }
  }

  /** An incremental update rewinds no page exactly when no page that only level 1
      brought is older than the visible one; level 0 alone never rewinds. */
  lemma RewindsExactly(v: Visible, pageSize: int, list0: Listing, list1: Listing, plan: Result<seq<Ltx>>,
                       roots0: Listing, roots1: Listing, l0: PollLevel, l1: PollLevel, u: Update)
    requires ListingOk(list0) && ListingOk(list1) && Tipped(v) && Stamped(list0.files)
    requires !u.replace
    requires PollOutcome(v.pos, v.maxTXID1, v.commit, pageSize, list0, list1, plan, roots0, roots1) == Ok(u)
    requires Polled(0, v.pos.txid, v.commit, pageSize, list0) == Ok(l0)
    requires Polled(1, v.maxTXID1, l0.commit, pageSize, list1) == Ok(l1)
    ensures (forall p :: !Rewinds(v, u, p)) <==>
      forall p :: p in v.index && p in l1.index && p !in l0.index ==> v.index[p].maxTXID <= l1.index[p].maxTXID
  {
    PollIsSafe(v.pos, v.maxTXID1, v.commit, pageSize, list0, list1, plan, roots0, roots1, l0, l1, u);
    forall p ensures Rewinds(v, u, p) <==>
      p in v.index && p in l1.index && p !in l0.index && l1.index[p].maxTXID < v.index[p].maxTXID
    {
      if p in l0.index {
        PassVersions(0, v.pos.txid, v.commit, pageSize, list0, l0, p);
      }
    }
  }

  function SampleElem(level: int, txid: int): Elem {
    Elem(level, txid, txid, 0, 0)
  }

  /** A file of one transaction that writes page 1. */
  function SampleFile(level: int, txid: int): Ltx {
    Ltx(level, txid, txid, 0, 4096, txid, txid, 1, map[1 := SampleElem(level, txid)], true)
  }

  /** Two polls: level 0 brings page 1 at transactions 2 and 3; then level 1 brings
      its copy of transaction 2, and the page goes back to it. */
  lemma LateCompactionRewinds(plan: Result<seq<Ltx>>, roots: Listing)
    ensures
      var none, two := Listing([], false), Listing([SampleFile(0, 2), SampleFile(0, 3)], false);
      var late := Listing([SampleFile(1, 2)], false);
      var v0 := Visible(map[1 := SampleElem(1, 1)], 1, Pos(1, 0), 1);
      var u1 := Update(map[1 := SampleElem(0, 3)], false, 1, Pos(3, 0), 1);
      var u2 := Update(map[1 := SampleElem(1, 2)], false, 1, Pos(3, 0), 2);
      var v1 := Apply(v0, u1);
      && PollOutcome(v0.pos, v0.maxTXID1, v0.commit, 4096, two, none, plan, roots, roots) == Ok(u1)
      && PollOutcome(v1.pos, v1.maxTXID1, v1.commit, 4096, none, late, plan, roots, roots) == Ok(u2)
      && Rewinds(v1, u2, 1)
  {
    var f, g, h := SampleFile(0, 2), SampleFile(0, 3), SampleFile(1, 2);
    var s := Begin(1, 1);
    assert [f, g][1..] == [g] && [g][1..] == [] && [h][1..] == [];
    var s1 := Advance(Advance(s, f), g);
    assert s1.index == map[1 := SampleElem(0, 3)];
    assert Scan(0, s, 4096, [f, g]) == Scan(0, Advance(s, f), 4096, [g]) == Ok(s1);
    assert Newer(s1.index, map[]) == s1.index;
    var t1 := Advance(s, h);
    assert t1.index == map[1 := SampleElem(1, 2)];
    assert Scan(1, s, 4096, [h]) == Ok(t1);
    assert Newer(map[], t1.index) == t1.index;
  }

  /** A level-0 file of transaction `txid` that writes `pages` and leaves `commit` pages. */
  function Written(txid: int, commit: nat, pages: set<nat>): Ltx {
    Ltx(0, txid, txid, 0, 4096, txid, txid, commit, map p | p in pages :: SampleElem(0, txid), true)
  }

  /** A reader holds SHARED over two polls. The first finds transaction 2, which cut
      off page 2, and rebuilds; the second finds transaction 3, which grows the file
      again without writing page 2. On unlock page 2 is there as of transaction 1,
      whereas applying each update at once leaves none. */
  lemma ShrunkPlanRevivesPage(roots: Listing, generation: int)
    ensures
      var root, cut, grow := Written(1, 2, {1, 2}), Written(2, 1, {1}), Written(3, 2, {1});
      var none, plan := Listing([], false), Ok([root, cut]);
      var v := Visible(root.index, 2, Pos(1, 0), 0);
      var q := Update(map[1 := SampleElem(0, 2), 2 := SampleElem(0, 1)], true, 1, Pos(2, 0), 0);
      var u := Update(map[1 := SampleElem(0, 3)], false, 2, Pos(3, 0), 0);
      var f := UnlockTo(Stage(Stage(File(v, None, Shared, generation), q), u), LockNone);
      && PollOutcome(v.pos, v.maxTXID1, v.commit, 4096, Listing([cut], false), none, plan, roots, roots) == Ok(q)
      && PollOutcome(q.pos, q.maxTXID1, q.commit, 4096, Listing([grow], false), none, plan, roots, roots) == Ok(u)
      && 2 in f.v.index && f.v.index[2] == SampleElem(0, 1) && 2 !in Apply(Apply(v, q), u).index
  {
    var root, cut, grow := Written(1, 2, {1, 2}), Written(2, 1, {1}), Written(3, 2, {1});
    var v := Visible(root.index, 2, Pos(1, 0), 0);
    var q := Update(map[1 := SampleElem(0, 2), 2 := SampleElem(0, 1)], true, 1, Pos(2, 0), 0);
    var u := Update(map[1 := SampleElem(0, 3)], false, 2, Pos(3, 0), 0);
    CutRebuilds(root, cut, v, q, roots);
    GrowthPolled(root, cut, grow, q, u, roots);
    StaleAfterUnlock(v, q, u, generation);
  }

  lemma StaleAfterUnlock(v: Visible, q: Update, u: Update, generation: int)
    requires q.replace && q.commit == 1 && q.pos != v.pos && !u.replace && u.index != map[] && u.commit == 2
    requires 2 in q.index && 2 !in u.index
    ensures var f := UnlockTo(Stage(Stage(File(v, None, Shared, generation), q), u), LockNone);
      2 in f.v.index && f.v.index[2] == q.index[2] && 2 !in Apply(Apply(v, q), u).index
  {
    assert Stage(File(v, None, Shared, generation), q).pending == Some(q);
  }

  lemma {:induction false} SnapshotSnoc(fs: seq<Ltx>, f: Ltx)
    requires f.level == 0 && HighestPos(fs).txid < f.maxTXID
    ensures SnapshotOf(fs + [f]) ==
      Visible(Overlay(fs) + f.index, f.commit, Pos(f.maxTXID, f.checksum), HighestAtLevel1(fs))
  {
    var all := fs + [f];
    assert all[..|all| - 1] == fs && all[|all| - 1] == f;
  }

  lemma {:induction false} SnapshotOfTwo(f: Ltx, g: Ltx)
    requires 0 < f.maxTXID < g.maxTXID && f.level == g.level == 0
    ensures SnapshotOf([f, g]) == Visible(f.index + g.index, g.commit, Pos(g.maxTXID, g.checksum), 0)
  {
    assert HighestPos([]) == Pos(0, 0);
    SnapshotSnoc([], f);
    assert [] + [f] == [f] && map[] + f.index == f.index;
    SnapshotSnoc([f], g);
    assert [f] + [g] == [f, g];
  }

  lemma CutRebuilds(root: Ltx, cut: Ltx, v: Visible, q: Update, roots: Listing)
    requires root == Written(1, 2, {1, 2}) && cut == Written(2, 1, {1}) && v == Visible(root.index, 2, Pos(1, 0), 0)
    requires q == Update(map[1 := SampleElem(0, 2), 2 := SampleElem(0, 1)], true, 1, Pos(2, 0), 0)
    ensures PollOutcome(v.pos, v.maxTXID1, v.commit, 4096, Listing([cut], false), Listing([], false), Ok([root, cut]),
                        roots, roots) == Ok(q)
  {
    assert [cut][1..] == [];
    assert Scan(0, Begin(1, 2), 4096, [cut]) == Ok(Advance(Begin(1, 2), cut));
    SnapshotOfTwo(root, cut);
    assert root.index + cut.index == q.index && AllGood([root, cut], 4096);
    assert Rebuilt(Ok([root, cut]), 4096) == Ok(q);
  }

  lemma GrowthPolled(root: Ltx, cut: Ltx, grow: Ltx, q: Update, u: Update, roots: Listing)
    requires grow == Written(3, 2, {1}) && q.pos == Pos(2, 0) && q.maxTXID1 == 0 && q.commit == 1
    requires u == Update(map[1 := SampleElem(0, 3)], false, 2, Pos(3, 0), 0)
    ensures PollOutcome(q.pos, q.maxTXID1, q.commit, 4096, Listing([grow], false), Listing([], false), Ok([root, cut]),
                        roots, roots) == Ok(u)
  {
    var s := Advance(Begin(2, 1), grow);
    assert [grow][1..] == [];
    assert Scan(0, Begin(2, 1), 4096, [grow]) == Ok(s);
    assert s.index == u.index && Newer(s.index, map[]) == s.index;
  }
}
