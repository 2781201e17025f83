/** What the store holds after any sequence of arrivals, in any order and with
    any repetition. */
module RelayTheorems {
  import opened Nostr
  import opened Relay
  import Text

  /** Ids are hashes: one id never names two events. */
  ghost predicate DistinctIds(es: seq<Event>) {
    forall x, y :: x in es && y in es && x.id == y.id ==> x == y
  }

  /** Some received deletion of the same author names the id. */
  ghost predicate Condemned(es: seq<Event>, pubkey: Hex, id: Hex) {
    exists d :: d in es && d.pubkey == pubkey && id in Deletes(d)
  }

  ghost predicate Stored(s: Store, e: Event) {
    e.id in s.events && s.events[e.id] == e
  }

  // ---------------------------------------------------------------- the order

  lemma OlderTotal(x: Event, y: Event)
    ensures x.id != y.id ==> IsOlder(x, y) || IsOlder(y, x)
    ensures !(IsOlder(x, y) && IsOlder(y, x)) && !IsOlder(x, x)
  {
    Text.LessTotal(x.id, y.id);
    Text.LessTotal(x.id, x.id);
  }

  lemma OlderTransitive(x: Event, y: Event, z: Event)
    requires IsOlder(x, y) && IsOlder(y, z)
    ensures IsOlder(x, z)
  {
    if x.createdAt == y.createdAt == z.createdAt {
      Text.LessTransitive(z.id, y.id, x.id);
    }
  }

  /** `m` is the NIP-01 winner among the received events of its address. */
  ghost predicate IsBest(es: seq<Event>, m: Event) {
    m in es && forall x :: x in es && SameAddress(x, m) ==> x == m || IsOlder(x, m)
  }

  /** Every address that received anything has a winner. */
  lemma {:induction false} BestExists(es: seq<Event>, e: Event) returns (m: Event)
    requires DistinctIds(es) && e in es
    ensures IsBest(es, m) && SameAddress(m, e)
  {
    var n := |es| - 1;
    var init, x := es[..n], es[n];
    assert es == init + [x];
    if exists y :: y in init && SameAddress(y, e) {
      var y :| y in init && SameAddress(y, e);
      var b := BestExists(init, y);
      OlderTotal(b, x);
      m := if SameAddress(x, e) && IsOlder(b, x) then x else b;
      forall z | z in es && SameAddress(z, m) ensures z == m || IsOlder(z, m) {
        if m == x && IsOlder(b, x) && z != x && z != b { OlderTransitive(z, b, x); }
      }
    } else {
      m := e;
    }
  }

  // ----------------------------------------------------------- what one step does

  lemma {:induction false} TombstonesAre(es: seq<Event>, pubkey: Hex, id: Hex)
    ensures (pubkey, id) in ReceiveAll(es).tombstones <==> Condemned(es, pubkey, id)
  {
    if es != [] {
      var n := |es| - 1;
      TombstonesAre(es[..n], pubkey, id);
      assert es == es[..n] + [es[n]];
    }
  }

  /** Stored events were received, under their own id, and are not deleted. */
  ghost predicate Sound(es: seq<Event>, s: Store) {
    forall id :: id in s.events ==>
      s.events[id].id == id && s.events[id] in es && !Condemned(es, s.events[id].pubkey, id)
  }

  lemma {:induction false} StoredWereReceived(es: seq<Event>)
    ensures Sound(es, ReceiveAll(es))
  {
    if es != [] {
      var n := |es| - 1;
      var init, x := es[..n], es[n];
      var s, s' := ReceiveAll(init), ReceiveAll(es);
      StoredWereReceived(init);
      assert es == init + [x];
      forall id | id in s'.events
        ensures s'.events[id].id == id && s'.events[id] in es && !Condemned(es, s'.events[id].pubkey, id)
      {
        ReceivedIs(s, x, id);
        TombstonesAre(init, s'.events[id].pubkey, id);
        CondemnedLast(init, x, s'.events[id].pubkey, id);
      }
    }
  }

  /** An event stored after an arrival was stored before or is the one that arrived,
      and the arrival does not delete it. */
  lemma ReceivedIs(s: Store, x: Event, id: Hex)
    requires id in Receive(s, x).events
    ensures var e := Receive(s, x).events[id];
      && ((id in s.events && s.events[id] == e) || (id == x.id && e == x && !Tombstoned(s, x)))
      && !(e.pubkey == x.pubkey && id in Deletes(x))
  {
    assert id in Save(s, x).events && Receive(s, x).events[id] == Save(s, x).events[id];
  }

  lemma CondemnedLast(es: seq<Event>, x: Event, pubkey: Hex, id: Hex)
    ensures Condemned(es + [x], pubkey, id) <==>
      Condemned(es, pubkey, id) || (x.pubkey == pubkey && id in Deletes(x))
  {
    assert x in es + [x];
    if d :| d in es && d.pubkey == pubkey && id in Deletes(d) {
      assert d in es + [x];
    }
  }

  /** Never two stored events at one address. */
  ghost predicate Single(s: Store) {
    forall i, j :: i in s.events && j in s.events ==>
      Addressed(s.events[i].kind) && SameAddress(s.events[i], s.events[j]) ==> i == j
  }

  lemma SaveKeepsSingle(s: Store, x: Event)
    requires Single(s)
    ensures Single(Save(s, x))
  {
    var s' := Save(s, x);
    if s' != s && Addressed(x.kind) {
      var rest := s.events - OlderRivals(s, x);
      assert forall id :: id in rest ==> id !in Rivals(s, x);
    }
  }

  lemma {:induction false} OneEventPerAddress(es: seq<Event>)
    ensures Single(ReceiveAll(es))
  {
    if es != [] {
      var s, x := ReceiveAll(es[..|es| - 1]), es[|es| - 1];
      OneEventPerAddress(es[..|es| - 1]);
      SaveKeepsSingle(s, x);
      assert ReceiveAll(es).events.Keys <= Save(s, x).events.Keys;
    }
  }

  /** Events outside the deletion's names stay. */
  lemma DeletionSpares(s: Store, x: Event, e: Event)
    requires Stored(Save(s, x), e)
    requires e.pubkey != x.pubkey || e.id !in Deletes(x)
    ensures Stored(Receive(s, x), e)
  {
  }

  // ------------------------------------------------------------ regular events

  lemma {:induction false} RegularEventsStay(es: seq<Event>, e: Event)
    requires DistinctIds(es) && e in es && !Addressed(e.kind) && !Condemned(es, e.pubkey, e.id)
    ensures Stored(ReceiveAll(es), e)
  {
    var n := |es| - 1;
    var init, x := es[..n], es[n];
    assert es == init + [x];
    var s := ReceiveAll(init);
    StoredWereReceived(init);
    if e in init {
      RegularEventsStay(init, e);
      assert e.id !in OlderRivals(s, x) || !Addressed(x.kind);
    } else {
      TombstonesAre(init, e.pubkey, e.id);
    }
    assert Stored(Save(s, x), e);
    DeletionSpares(s, x, e);
  }

  /** Of the regular kinds exactly the events that no received deletion of their
      author names are stored, whichever came first. */
  lemma {:induction false} RegularEventsConverge(es: seq<Event>, e: Event)
    requires DistinctIds(es) && !Addressed(e.kind)
    ensures Stored(ReceiveAll(es), e) <==> e in es && !Condemned(es, e.pubkey, e.id)
  {
    StoredWereReceived(es);
    if e in es && !Condemned(es, e.pubkey, e.id) {
      RegularEventsStay(es, e);
    }
  }

  // ------------------------------------------------- replaceable, addressable

  lemma {:induction false} BestIsStored(es: seq<Event>, m: Event)
    requires DistinctIds(es) && Addressed(m.kind) && IsBest(es, m) && !Condemned(es, m.pubkey, m.id)
    ensures Stored(ReceiveAll(es), m)
  {
    var n := |es| - 1;
    var init, x := es[..n], es[n];
    assert es == init + [x];
    var s := ReceiveAll(init);
    StoredWereReceived(init);
    if m in init {
      BestIsStored(init, m);
      BestSurvivesSave(s, x, m);
    } else {
      TombstonesAre(init, m.pubkey, m.id);
      BestIsSaved(init, s, m);
    }
    DeletionSpares(s, x, m);
  }

  lemma BestSurvivesSave(s: Store, x: Event, m: Event)
    requires Stored(s, m) && Addressed(m.kind)
    requires SameAddress(x, m) ==> x == m || IsOlder(x, m)
    ensures Stored(Save(s, x), m)
  {
    OlderTotal(x, m);
    if SameAddress(m, x) {
      assert m.id in Rivals(s, x);
      assert m.id !in OlderRivals(s, x);
    }
  }

  lemma BestIsSaved(es: seq<Event>, s: Store, m: Event)
    requires Sound(es, s) && Addressed(m.kind) && m !in es && !Tombstoned(s, m)
    requires forall x :: x in es && SameAddress(x, m) ==> IsOlder(x, m)
    requires forall x :: x in es ==> x.id != m.id
    ensures Stored(Save(s, m), m)
  {
    assert OlderRivals(s, m) == Rivals(s, m);
  }

  ghost predicate HoldsOnly(s: Store, m: Event) {
    Stored(s, m) && forall id :: id in s.events && SameAddress(s.events[id], m) ==> id == m.id
  }

  /** An address whose winner is not deleted holds exactly that winner. */
  lemma {:induction false} WinnerIsHeld(es: seq<Event>, m: Event)
    requires DistinctIds(es) && Addressed(m.kind) && IsBest(es, m) && !Condemned(es, m.pubkey, m.id)
    ensures HoldsOnly(ReceiveAll(es), m)
  {
    BestIsStored(es, m);
    OneEventPerAddress(es);
  }

  /** No received event of the address is deleted. */
  ghost predicate Clean(es: seq<Event>, e: Event) {
    forall x :: x in es && SameAddress(x, e) ==> !Condemned(es, x.pubkey, x.id)
  }

  /** Without deletions at an address, its content is the NIP-01 winner of what
      was received, for any order and repetition. */
  lemma AddressConverges(es: seq<Event>, e: Event) returns (m: Event)
    requires DistinctIds(es) && e in es && Addressed(e.kind) && Clean(es, e)
    ensures IsBest(es, m) && SameAddress(m, e) && HoldsOnly(ReceiveAll(es), m)
  {
    m := BestExists(es, e);
    WinnerIsHeld(es, m);
  }

  // --------------------------------------------------- deletions at an address

  ghost predicate SameEvents(es: seq<Event>, es': seq<Event>) {
    forall x :: x in es <==> x in es'
  }

  ghost predicate AllCondemned(es: seq<Event>, e: Event) {
    forall x :: x in es && SameAddress(x, e) ==> Condemned(es, x.pubkey, x.id)
  }

  /** The winner among the events of the address that are not deleted. */
  ghost predicate IsBestLeft(es: seq<Event>, m: Event) {
    && m in es && !Condemned(es, m.pubkey, m.id)
    && forall x :: x in es && SameAddress(x, m) && !Condemned(es, x.pubkey, x.id) ==> x == m || IsOlder(x, m)
  }

  ghost predicate Vacant(s: Store, e: Event) {
    forall id :: id in s.events ==> !SameAddress(s.events[id], e)
  }

  /** The address holds the winner of what is not deleted, or nothing if all is. */
  ghost predicate Settled(es: seq<Event>, e: Event) {
    && (AllCondemned(es, e) ==> Vacant(ReceiveAll(es), e))
    && (forall m :: IsBestLeft(es, m) && SameAddress(m, e) ==> HoldsOnly(ReceiveAll(es), m))
  }

  /** The received winner is not deleted, or everything at the address is. */
  ghost predicate OrderFree(es: seq<Event>, e: Event) {
    AllCondemned(es, e) || forall m :: IsBest(es, m) && SameAddress(m, e) ==> !Condemned(es, m.pubkey, m.id)
  }

  lemma CondemnedBySameEvents(es: seq<Event>, es': seq<Event>, pubkey: Hex, id: Hex)
    requires SameEvents(es, es')
    ensures Condemned(es, pubkey, id) <==> Condemned(es', pubkey, id)
  {
  }

  lemma OrderFreeSettles(es: seq<Event>, e: Event)
    requires DistinctIds(es) && e in es && Addressed(e.kind) && OrderFree(es, e)
    ensures Settled(es, e)
  {
    StoredWereReceived(es);
    var b := BestExists(es, e);
    if !Condemned(es, b.pubkey, b.id) {
      WinnerIsHeld(es, b);
      forall m | IsBestLeft(es, m) && SameAddress(m, e) ensures HoldsOnly(ReceiveAll(es), m) {
        OlderTotal(m, b);
      }
    }
  }

  function At(es: seq<Event>, e: Event): seq<Event> {
    if es == [] then []
    else (if SameAddress(es[0], e) then [es[0]] else []) + At(es[1..], e)
  }

  function Elsewhere(es: seq<Event>, e: Event): seq<Event> {
    if es == [] then []
    else (if SameAddress(es[0], e) then [] else [es[0]]) + Elsewhere(es[1..], e)
  }

  lemma {:induction false} AtAndElsewhere(es: seq<Event>, e: Event, x: Event)
    ensures x in At(es, e) <==> x in es && SameAddress(x, e)
    ensures x in Elsewhere(es, e) <==> x in es && !SameAddress(x, e)
  {
    if es != [] {
      assert es == [es[0]] + es[1..];
      AtAndElsewhere(es[1..], e, x);
    }
  }

  /** Events of other addresses never put anything at this one. */
  lemma {:induction false} OthersAddNothing(es: seq<Event>, rest: seq<Event>, e: Event, id: Hex)
    requires forall x :: x in rest ==> !SameAddress(x, e)
    requires id in ReceiveAll(es + rest).events && SameAddress(ReceiveAll(es + rest).events[id], e)
    ensures id in ReceiveAll(es).events && ReceiveAll(es).events[id] == ReceiveAll(es + rest).events[id]
    decreases |rest|
  {
    if rest == [] {
      assert es + rest == es;
    } else {
      var n := |rest| - 1;
      assert (es + rest)[..|es + rest| - 1] == es + rest[..n];
      assert rest[n] in rest;
      OthersAddNothing(es, rest[..n], e, id);
    }
  }

  /** The winner first, then the rest of its address, then everything else. */
  function WinnerFirst(es: seq<Event>, b: Event): seq<Event> {
    ([b] + At(es, b)) + Elsewhere(es, b)
  }

  lemma WinnerFirstIsSame(es: seq<Event>, b: Event)
    requires b in es
    ensures SameEvents(es, WinnerFirst(es, b))
  {
    forall x ensures x in es <==> x in WinnerFirst(es, b) {
      AtAndElsewhere(es, b, x);
    }
  }

  /** A deleted winner that arrives first keeps the others out, and its deletion
      then empties the address. */
  lemma WinnerFirstEmpties(es: seq<Event>, b: Event)
    requires DistinctIds(es) && Addressed(b.kind) && IsBest(es, b) && Condemned(es, b.pubkey, b.id)
    ensures Vacant(ReceiveAll(WinnerFirst(es, b)), b)
  {
    var first, rest := [b] + At(es, b), Elsewhere(es, b);
    forall x ensures (x in first ==> x in es && SameAddress(x, b)) && (x in rest ==> !SameAddress(x, b)) {
      AtAndElsewhere(es, b, x);
    }
    WinnerIsHeld(first, b);
    WinnerFirstIsSame(es, b);
    CondemnedBySameEvents(es, first + rest, b.pubkey, b.id);
    StoredWereReceived(first + rest);
    var s := ReceiveAll(first + rest);
    forall id | id in s.events ensures !SameAddress(s.events[id], b) {
      if SameAddress(s.events[id], b) {
        OthersAddNothing(first, rest, b, id);
        assert false;
      }
    }
  }

  lemma {:induction false} BestLeftExists(es: seq<Event>, all: seq<Event>, e: Event) returns (m: Event)
    requires DistinctIds(all) && e in es && !Condemned(all, e.pubkey, e.id)
    requires forall x :: x in es ==> x in all
    ensures m in es && SameAddress(m, e) && !Condemned(all, m.pubkey, m.id)
    ensures forall x :: x in es && SameAddress(x, m) && !Condemned(all, x.pubkey, x.id) ==> x == m || IsOlder(x, m)
  {
    var left := Left(es, all);
    forall x ensures x in left <==> x in es && !Condemned(all, x.pubkey, x.id) {
      LeftAre(es, all, x);
    }
    m := BestExists(left, e);
  }

  ghost function Left(es: seq<Event>, all: seq<Event>): seq<Event> {
    if es == [] then []
    else (if Condemned(all, es[0].pubkey, es[0].id) then [] else [es[0]]) + Left(es[1..], all)
  }

  lemma {:induction false} LeftAre(es: seq<Event>, all: seq<Event>, x: Event)
    ensures x in Left(es, all) <==> x in es && !Condemned(all, x.pubkey, x.id)
  {
    if es != [] {
      assert es == [es[0]] + es[1..];
      LeftAre(es[1..], all, x);
    }
  }

  /** Exactly when every arrival order leaves an address right: its received
      winner is not deleted, or nothing of it is left. */
  lemma DeletedAddressesConverge(es: seq<Event>, e: Event)
    requires DistinctIds(es) && e in es && Addressed(e.kind)
    ensures OrderFree(es, e) <==> forall es' :: SameEvents(es, es') ==> Settled(es', e)
  {
    if OrderFree(es, e) {
      forall es' | SameEvents(es, es') ensures Settled(es', e) {
        OrderFreeMeansSame(es, es', e);
        OrderFreeSettles(es', e);
      }
    } else {
      var b := BestExists(es, e);
      BestIsUnique(es, b, e);
      WinnerFirstIsSame(es, b);
      WinnerFirstEmpties(es, b);
      NotSettled(es, WinnerFirst(es, b), e);
    }
  }

  lemma OrderFreeMeansSame(es: seq<Event>, es': seq<Event>, e: Event)
    requires SameEvents(es, es')
    ensures OrderFree(es, e) == OrderFree(es', e)
  {
    forall x: Event ensures Condemned(es, x.pubkey, x.id) == Condemned(es', x.pubkey, x.id) {
      CondemnedBySameEvents(es, es', x.pubkey, x.id);
    }
    forall m ensures IsBest(es, m) == IsBest(es', m) {
    }
  }

  lemma BestIsUnique(es: seq<Event>, b: Event, e: Event)
    requires IsBest(es, b) && SameAddress(b, e) && !OrderFree(es, e)
    ensures Condemned(es, b.pubkey, b.id)
  {
    var m :| IsBest(es, m) && SameAddress(m, e) && Condemned(es, m.pubkey, m.id);
    OlderTotal(m, b);
  }

  lemma {:induction false} NotSettled(es: seq<Event>, es': seq<Event>, e: Event)
    requires DistinctIds(es) && SameEvents(es, es') && !AllCondemned(es, e) && Vacant(ReceiveAll(es'), e)
    ensures !Settled(es', e)
  {
    var x :| x in es && SameAddress(x, e) && !Condemned(es, x.pubkey, x.id);
    CondemnedBySameEvents(es, es', x.pubkey, x.id);
    var m := BestLeftExists(es', es', x);
    assert IsBestLeft(es', m) && SameAddress(m, e);
  }

  function SampleEvent(digit: char, createdAt: int, kind: int, tags: seq<seq<string>>): Event {
    Event(seq(64, _ => digit), seq(64, _ => 'f'), createdAt, kind, tags, "", true, true)
  }

  lemma ReceiveThree(x: Event, y: Event, z: Event)
    ensures ReceiveAll([x, y, z]) == Receive(Receive(Receive(EMPTY, x), y), z)
  {
    assert [x, y, z][..2] == [x, y] && [x, y][..1] == [x] && [x][..0] == [];
    assert ReceiveAll([x]) == Receive(ReceiveAll([]), x);
    assert ReceiveAll([x, y]) == Receive(ReceiveAll([x]), y);
  }

  ghost predicate DeletedUpdate(older: Event, newer: Event, deletion: Event) {
    && Addressed(older.kind) && SameAddress(newer, older) && IsOlder(older, newer)
    && older.id != newer.id && older.id != deletion.id && newer.id != deletion.id
    && deletion.kind == DELETION && deletion.pubkey == newer.pubkey && Deletes(deletion) == {newer.id}
  }

  /** A deletion whose target never came leaves its own row and a tombstone. */
  lemma ReceiveDeletion(newer: Event, deletion: Event)
    requires deletion.kind == DELETION && deletion.pubkey == newer.pubkey
    requires Deletes(deletion) == {newer.id} && newer.id != deletion.id
    ensures Receive(EMPTY, deletion) == Store(map[deletion.id := deletion], {(newer.pubkey, newer.id)})
  {
    var s := Save(EMPTY, deletion);
    assert s == Store(map[deletion.id := deletion], {});
    assert Owned(s.events, deletion.pubkey, {newer.id}) == {};
    assert Marks(deletion.pubkey, {newer.id}) == {(newer.pubkey, newer.id)};
  }

  lemma ReceiveNoDeletion(s: Store, e: Event)
    requires Deletes(e) == {}
    ensures Receive(s, e) == Save(s, e)
  {
    var s' := Save(s, e);
    assert Owned(s'.events, e.pubkey, {}) == {} && Marks(e.pubkey, {}) == {};
    assert s'.events - {} == s'.events;
  }

  lemma EarlyDeletionKeeps(older: Event, newer: Event, deletion: Event)
    requires DeletedUpdate(older, newer, deletion)
    ensures HoldsOnly(ReceiveAll([deletion, newer, older]), older)
  {
    ReceiveThree(deletion, newer, older);
    ReceiveDeletion(newer, deletion);
    var s := Receive(EMPTY, deletion);
    ReceiveNoDeletion(s, newer);
    ReceiveNoDeletion(s, older);
    assert Save(s, newer) == s;
    assert Rivals(s, older) == {} == OlderRivals(s, older);
    assert s.events - {} == s.events;
  }

  lemma FirstIsStored(newer: Event)
    requires Addressed(newer.kind)
    ensures Receive(EMPTY, newer) == Store(map[newer.id := newer], {})
  {
    ReceiveNoDeletion(EMPTY, newer);
    assert Rivals(EMPTY, newer) == {} == OlderRivals(EMPTY, newer);
    assert EMPTY.events - {} == EMPTY.events;
  }

  lemma OlderIsRefused(older: Event, newer: Event)
    requires Addressed(older.kind) && SameAddress(newer, older) && IsOlder(older, newer)
    ensures var s := Store(map[newer.id := newer], {}); Receive(s, older) == s
  {
    var s := Store(map[newer.id := newer], {});
    OlderTotal(older, newer);
    assert newer.id in Rivals(s, older) && newer.id !in OlderRivals(s, older);
    ReceiveNoDeletion(s, older);
  }

  lemma LateDeletionEmpties(older: Event, newer: Event, deletion: Event)
    requires DeletedUpdate(older, newer, deletion)
    ensures Vacant(ReceiveAll([newer, older, deletion]), older)
  {
    ReceiveThree(newer, older, deletion);
    FirstIsStored(newer);
    OlderIsRefused(older, newer);
    var s := Save(Store(map[newer.id := newer], {}), deletion);
    assert s.events == map[newer.id := newer, deletion.id := deletion];
    assert newer.id in Owned(s.events, deletion.pubkey, {newer.id});
  }

  /** The same three events: a profile, a newer profile, the newer one's deletion.
      When the deletion comes last the older profile is lost. */
  lemma DeletedWinnerLosesTheRest()
    ensures
      var older := SampleEvent('1', 1, 0, []);
      var newer := SampleEvent('2', 2, 0, []);
      var deletion := SampleEvent('3', 3, 5, [["e", newer.id]]);
      && HoldsOnly(ReceiveAll([deletion, newer, older]), older)
      && Vacant(ReceiveAll([newer, older, deletion]), older)
  {
    var older := SampleEvent('1', 1, 0, []);
    var newer := SampleEvent('2', 2, 0, []);
    var deletion := SampleEvent('3', 3, 5, [["e", newer.id]]);
    assert older.id[0] != newer.id[0] && newer.id[0] != deletion.id[0] && older.id[0] != deletion.id[0];
    assert deletion.tags[0] == ["e", newer.id];
    assert Deletes(deletion) == {newer.id};
    EarlyDeletionKeeps(older, newer, deletion);
    LateDeletionEmpties(older, newer, deletion);
  }
}
