/** The relay's SQLite store: the tables, changed in place by each transaction. */
module RelayStore {
  import Clock
  import opened Nostr
  import opened Relay
  import Nip98

  class SQLiteStore {
    var events: map<Hex, Event>
    // (owner, target id) to (deletion id, created at)
    var tombstones: map<(Hex, Hex), (Hex, int)>
    // consumed authorization id to the second it was seen
    var seen: map<Hex, int>

    ghost function View(): Store
      reads this
    {
      Store(events, tombstones.Keys)
    }

    constructor ()
      ensures View() == EMPTY && seen == map[]
    {
      events, tombstones, seen := map[], map[], map[];
    }

    /** The rows of an author and kind, visited in any order. */
    method CompareRows(e: Event) returns (deleteIds: set<Hex>, storeIncoming: bool)
      ensures storeIncoming <==> OlderRivals(View(), e) == Rivals(View(), e)
      ensures storeIncoming ==> deleteIds == OlderRivals(View(), e)
    {
      ghost var older, rivals := OlderRivals(View(), e), Rivals(View(), e);
      var rows := set id | id in events && events[id].pubkey == e.pubkey && events[id].kind == e.kind;
      var todo := rows;
      deleteIds, storeIncoming := {}, true;
      while todo != {}
        invariant todo <= rows
        invariant deleteIds <= older <= deleteIds + todo
        invariant storeIncoming ==> rivals <= older + todo
        invariant !storeIncoming ==> !(rivals <= older)
        decreases |todo|
      {
        var id :| id in todo;
        todo := todo - {id};
        var previous := events[id];
        assert id in rivals <==> SameAddress(previous, e);
        assert id in older <==> SameAddress(previous, e) && IsOlder(previous, e);
        if Addressable(e.kind) && GetD(previous.tags) != GetD(e.tags) {
        } else if IsOlder(previous, e) {
          deleteIds := deleteIds + {id};
        } else {
          storeIncoming := false;
        }
      }
      assert older <= rivals;
    }

    method SaveEvent(e: Event)
      modifies this`events
      ensures View() == Save(old(View()), e)
    {
      if (e.pubkey, e.id) in tombstones {
        return;
      }
      if Replaceable(e.kind) || Addressable(e.kind) {
        var deleteIds, storeIncoming := CompareRows(e);
        if !storeIncoming {
          return;
        }
        while deleteIds != {}
          invariant events - deleteIds == old(events) - OlderRivals(old(View()), e)
          decreases |deleteIds|
        {
          var id :| id in deleteIds;
          events, deleteIds := events - {id}, deleteIds - {id};
        }
      }
      if e.id !in events {
        events := events[e.id := e];
      }
    }

    method SaveEventAndApplyDeletion(e: Event)
      modifies this`events, this`tombstones
      ensures View() == Receive(old(View()), e)
    {
      SaveEvent(e);
      ghost var saved := View();
      if e.kind == DELETION {
        for i := 0 to |e.tags|
          invariant View() == ApplyDeletion(saved, e.pubkey, Targets(e.tags[..i]))
        {
          TargetsSoFar(e.tags, i);
          if NamesTarget(e.tags[i]) {
            var id := Canonical(e.tags[i][1]);
            DeleteOne(saved, e.pubkey, Targets(e.tags[..i]), id);
            DeleteTarget(e, id);
          }
        }
        assert e.tags[..|e.tags|] == e.tags;
      } else {
        assert Targets([]) == {};
      }
    }

    method DeleteTarget(e: Event, id: Hex)
      modifies this`events, this`tombstones
      ensures View() == ApplyDeletion(old(View()), e.pubkey, {id})
    {
      InsertTombstone(e.pubkey, id, e.id, e.createdAt);
      DeleteOwnedEvent(id, e.pubkey);
    }

    /** A duplicate rolls the purge back with everything else. */
    method ConsumeNIP98Event(id: Hex, now: int, retention: int) returns (ok: bool)
      modifies this`seen
      ensures (seen, ok) == Nip98.Consume(old(seen), id, now, retention)
    {
      var keep := if retention <= 0 then Nip98.DEFAULT_SKEW else retention;
      var cutoff := Clock.Seconds(now - keep);
      var todo, kept := seen.Keys, seen;
      while todo != {}
        invariant todo <= kept.Keys
        invariant forall k :: k in kept ==> k in seen && kept[k] == seen[k]
        invariant forall k :: k in kept ==> k in todo || seen[k] >= cutoff
        invariant forall k :: k in seen && seen[k] >= cutoff ==> k in kept
        decreases |todo|
      {
        var k :| k in todo;
        todo := todo - {k};
        if kept[k] < cutoff {
          kept := kept - {k};
        }
      }
      assert kept == Nip98.Purged(seen, cutoff);
      if id in kept {
        return false;
      }
      seen := kept[id := Clock.Seconds(now)];
      return true;
    }

    method InsertTombstone(owner: Hex, target: Hex, deletion: Hex, createdAt: int)
      modifies this`tombstones
      ensures tombstones.Keys == old(tombstones.Keys) + {(owner, target)}
      ensures forall k :: k in old(tombstones) ==> tombstones[k] == old(tombstones[k])
    {
      if (owner, target) !in tombstones {
        tombstones := tombstones[(owner, target) := (deletion, createdAt)];
      }
    }

    method DeleteOwnedEvent(id: Hex, owner: Hex)
      modifies this`events
      ensures events == old(events) - Owned(old(events), owner, {id})
    {
      if id in events && events[id].pubkey == owner {
        events := events - {id};
      }
    }
  }

  lemma TargetsSoFar(tags: seq<seq<string>>, i: nat)
    requires i < |tags|
    ensures Targets(tags[..i + 1]) ==
      Targets(tags[..i]) + (if NamesTarget(tags[i]) then {Canonical(tags[i][1])} else {})
  {
    var all, before := tags[..i + 1], tags[..i];
    forall x | x in Targets(before) ensures x in Targets(all) {
      var k :| 0 <= k < |before| && NamesTarget(before[k]) && x == Canonical(before[k][1]);
      assert all[k] == before[k];
    }
    if NamesTarget(tags[i]) {
      assert all[i] == tags[i];
    }
    forall x | x in Targets(all) ensures x in Targets(before) || (NamesTarget(tags[i]) && x == Canonical(tags[i][1])) {
      var k :| 0 <= k < |all| && NamesTarget(all[k]) && x == Canonical(all[k][1]);
      if k < i {
        assert before[k] == all[k];
      }
    }
  }

  lemma DeleteOne(s: Store, owner: Hex, ids: set<Hex>, id: Hex)
    ensures ApplyDeletion(ApplyDeletion(s, owner, ids), owner, {id}) == ApplyDeletion(s, owner, ids + {id})
  {
    var t := s.events - Owned(s.events, owner, ids);
    assert t - Owned(t, owner, {id}) == s.events - Owned(s.events, owner, ids + {id});
    assert Marks(owner, ids) + Marks(owner, {id}) == Marks(owner, ids + {id});
  }
}
