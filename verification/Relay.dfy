/** The relay's event store as a value: stored events by id, and tombstones by
    (owner, target id). `Receive` is one committed SaveEventAndApplyDeletion. */
module Relay {
  import opened Nostr
  import Text

  datatype Store = Store(events: map<Hex, Event>, tombstones: set<(Hex, Hex)>)

  const EMPTY := Store(map[], {})

  /** Kinds of which only the latest event per author is kept. */
  predicate Replaceable(kind: int) {
    kind == 0 || kind == 3 || 10000 <= kind < 20000
  }

  /** Kinds of which only the latest event per author and `d` tag is kept. */
  predicate Addressable(kind: int) {
    30000 <= kind < 40000
  }

  predicate Addressed(kind: int) {
    Replaceable(kind) || Addressable(kind)
  }

  /** The value of the first `d` tag, or nothing. */
  function GetD(tags: seq<seq<string>>): string {
    if tags == [] then ""
    else if |tags[0]| >= 2 && tags[0][0] == "d" then tags[0][1]
    else GetD(tags[1..])
  }

  predicate SameAddress(x: Event, y: Event) {
    x.pubkey == y.pubkey && x.kind == y.kind && (Addressable(y.kind) ==> GetD(x.tags) == GetD(y.tags))
  }

  /** The earlier event loses; among equal times the higher id loses. */
  predicate IsOlder(previous: Event, next: Event) {
    previous.createdAt < next.createdAt
    || (previous.createdAt == next.createdAt && Text.Less(next.id, previous.id))
  }

  // ------------------------------------------------------------------- saving

  predicate Tombstoned(s: Store, e: Event) {
    (e.pubkey, e.id) in s.tombstones
  }

  function Rivals(s: Store, e: Event): set<Hex> {
    set id | id in s.events && SameAddress(s.events[id], e)
  }

  function OlderRivals(s: Store, e: Event): set<Hex> {
    set id | id in s.events && SameAddress(s.events[id], e) && IsOlder(s.events[id], e)
  }

  /** INSERT OR IGNORE: a stored id is not overwritten. */
  function InsertEvent(events: map<Hex, Event>, e: Event): map<Hex, Event> {
    if e.id in events then events else events[e.id := e]
  }

  function Save(s: Store, e: Event): Store {
    if Tombstoned(s, e) then s
    else if !Addressed(e.kind) then s.(events := InsertEvent(s.events, e))
    else if OlderRivals(s, e) != Rivals(s, e) then s
    else s.(events := InsertEvent(s.events - OlderRivals(s, e), e))
  }

  // ----------------------------------------------------------------- deletion

  predicate IsHexText(s: string) {
    |s| == 64 && forall i :: 0 <= i < |s| ==> IsHexDigit(s[i]) || 'A' <= s[i] <= 'F'
  }

  function LowerDigit(c: char): char {
    if 'A' <= c <= 'F' then (c as int + 32) as char else c
  }

  /** What a hexadecimal digit of either case stands for. */
  function DigitValue(c: char): int {
    if '0' <= c <= '9' then c as int - '0' as int
    else if 'a' <= c <= 'f' then c as int - 'a' as int + 10
    else if 'A' <= c <= 'F' then c as int - 'A' as int + 10
    else -1
  }

  /** Parsing an id and printing it again: the same digits in lower case. */
  function Canonical(s: string): (r: string)
    requires IsHexText(s)
    ensures IsHex32(r) && forall i :: 0 <= i < 64 ==> DigitValue(r[i]) == DigitValue(s[i])
    ensures IsHex32(s) ==> r == s
  {
    seq(|s|, i requires 0 <= i < |s| => LowerDigit(s[i]))
  }

  predicate NamesTarget(tag: seq<string>) {
    |tag| >= 2 && tag[0] == "e" && IsHexText(tag[1])
  }

  /** The ids a deletion event names, bad ones skipped. */
  function Targets(tags: seq<seq<string>>): set<Hex> {
    set i | 0 <= i < |tags| && NamesTarget(tags[i]) :: Canonical(tags[i][1])
  }

  function Deletes(e: Event): set<Hex> {
    if e.kind == DELETION then Targets(e.tags) else {}
  }

  function Owned(events: map<Hex, Event>, owner: Hex, ids: set<Hex>): set<Hex> {
    set id | id in events && id in ids && events[id].pubkey == owner
  }

  function Marks(owner: Hex, ids: set<Hex>): set<(Hex, Hex)> {
    set id | id in ids :: (owner, id)
  }

  function ApplyDeletion(s: Store, owner: Hex, ids: set<Hex>): Store {
    Store(s.events - Owned(s.events, owner, ids), s.tombstones + Marks(owner, ids))
  }

  function Receive(s: Store, e: Event): Store {
    ApplyDeletion(Save(s, e), e.pubkey, Deletes(e))
  }

  function ReceiveAll(es: seq<Event>): Store {
    if es == [] then EMPTY else Receive(ReceiveAll(es[..|es| - 1]), es[|es| - 1])
  }
}
