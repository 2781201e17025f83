/** Replay protection of NIP-98 authorizations. Times are nanoseconds; the
    store keeps whole seconds. */
module Nip98 {
  import opened Clock
  import opened Nostr

  const DEFAULT_SKEW := 60 * SECOND

  type Seen = map<Hex, int>

  function Purged(seen: Seen, cutoff: int): Seen {
    map id | id in seen && seen[id] >= cutoff :: seen[id]
  }

  function Retention(retention: int): int {
    if retention <= 0 then DEFAULT_SKEW else retention
  }

  /** Purge, insert or ignore; a duplicate rolls everything back. */
  function Consume(seen: Seen, id: Hex, now: int, retention: int): (Seen, bool) {
    var kept := Purged(seen, Seconds(now - Retention(retention)));
    if id in kept then (seen, false) else (kept[id := Seconds(now)], true)
  }

  /** A request: its authorization event, and whether kind, id, signature,
      signer, URL, method and payload are all in order. */
  datatype Request = Request(id: Hex, createdAt: int, sound: bool, now: int)

  function Skew(maxSkew: int): int {
    if maxSkew <= 0 then DEFAULT_SKEW else maxSkew
  }

  predicate InWindow(r: Request, skew: int) {
    -skew <= r.now - r.createdAt * SECOND <= skew
  }

  function Validate(seen: Seen, r: Request, skew: int, retention: int): (Seen, bool) {
    if !r.sound || !InWindow(r, skew) then (seen, false)
    else Consume(seen, r.id, r.now, retention)
  }

  /** The table after a run of requests, from an empty one. */
  function After(rs: seq<Request>, skew: int, retention: int): Seen {
    if rs == [] then map[]
    else Validate(After(rs[..|rs| - 1], skew, retention), rs[|rs| - 1], skew, retention).0
  }

  predicate Accepted(rs: seq<Request>, i: nat, skew: int, retention: int)
    requires i < |rs|
  {
    Validate(After(rs[..i], skew, retention), rs[i], skew, retention).1
  }

  /** Validation times never go back, and an id fixes the event's time. */
  predicate Plausible(rs: seq<Request>) {
    && (forall i, j :: 0 <= i < j < |rs| ==> rs[i].now <= rs[j].now)
    && (forall i, j :: 0 <= i < |rs| && 0 <= j < |rs| && rs[i].id == rs[j].id ==> rs[i].createdAt == rs[j].createdAt)
  }

  ghost predicate AtMostOnce(rs: seq<Request>, skew: int, retention: int) {
    forall i, j :: 0 <= i < j < |rs| && Accepted(rs, i, skew, retention) && Accepted(rs, j, skew, retention)
                   ==> rs[i].id != rs[j].id
  }

  /** The retention reaches from the end of the window back to its beginning,
      whatever rounding does to either end. */
  predicate LongEnough(skew: int, retention: int) {
    Seconds(skew - Retention(retention)) <= Seconds(-skew)
  }

  lemma SecondsShift(c: int, nanos: int)
    ensures Seconds(c * SECOND + nanos) == c + Seconds(nanos)
  {
  }

  lemma SecondsMonotone(a: int, b: int)
    requires a <= b
    ensures Seconds(a) <= Seconds(b)
  {
  }

  /** No purge reaches an accepted id while its event is still in the window. */
  lemma PurgeSpares(c: int, accepted: int, now: int, skew: int, retention: int)
    requires LongEnough(skew, retention)
    requires c * SECOND - skew <= accepted && now <= c * SECOND + skew
    ensures Seconds(accepted) >= Seconds(now - Retention(retention))
  {
    SecondsShift(c, -skew);
    SecondsMonotone(c * SECOND - skew, accepted);
    SecondsShift(c, skew - Retention(retention));
    SecondsMonotone(now - Retention(retention), c * SECOND + (skew - Retention(retention)));
  }

  lemma {:induction false} Remembered(rs: seq<Request>, i: nat, now: int, skew: int, retention: int)
    requires LongEnough(skew, retention) && i < |rs| && Accepted(rs, i, skew, retention)
    requires forall k :: 0 <= k < |rs| ==> rs[k].now <= now
    requires now <= rs[i].createdAt * SECOND + skew
    ensures rs[i].id in After(rs, skew, retention)
    ensures After(rs, skew, retention)[rs[i].id] >= Seconds(rs[i].createdAt * SECOND - skew)
    decreases |rs|
  {
    var n := |rs| - 1;
    var init, x := rs[..n], rs[n];
    if i == n {
      SecondsMonotone(x.createdAt * SECOND - skew, x.now);
    } else {
      assert init[i] == rs[i] && init[..i] == rs[..i];
      Remembered(init, i, now, skew, retention);
      PurgeSpares(rs[i].createdAt, rs[i].createdAt * SECOND - skew, x.now, skew, retention);
    }
  }

  lemma LongEnoughIsSafe(rs: seq<Request>, skew: int, retention: int)
    requires LongEnough(skew, retention) && Plausible(rs)
    ensures AtMostOnce(rs, skew, retention)
  {
    forall i, j | 0 <= i < j < |rs| && Accepted(rs, i, skew, retention) && Accepted(rs, j, skew, retention)
      ensures rs[i].id != rs[j].id
    {
      if rs[i].id == rs[j].id {
        var prefix := rs[..j];
        assert prefix[i] == rs[i] && prefix[..i] == rs[..i];
        Remembered(prefix, i, rs[j].now, skew, retention);
        PurgeSpares(rs[i].createdAt, rs[i].createdAt * SECOND - skew, rs[j].now, skew, retention);
        assert false;
      }
    }
  }

  /** The validator's retention of twice the skew: over any run, however long and
      whatever is purged, no authorization is accepted twice. */
  lemma AcceptedAtMostOnce(rs: seq<Request>, maxSkew: int)
    requires Plausible(rs)
    ensures AtMostOnce(rs, Skew(maxSkew), 2 * Skew(maxSkew))
  {
    LongEnoughIsSafe(rs, Skew(maxSkew), 2 * Skew(maxSkew));
  }

  /** A too short retention: whenever it was signed, an event is accepted at both
      ends of its window. */
  lemma TooShortReplays(id: Hex, signedAt: int, skew: int, retention: int) returns (rs: seq<Request>)
    requires skew > 0 && !LongEnough(skew, retention)
    ensures |rs| == 2 && rs[0].id == rs[1].id == id && rs[0].createdAt == rs[1].createdAt == signedAt
    ensures Plausible(rs) && Accepted(rs, 0, skew, retention) && Accepted(rs, 1, skew, retention)
  {
    var first, last := signedAt * SECOND - skew, signedAt * SECOND + skew;
    rs := [Request(id, signedAt, true, first), Request(id, signedAt, true, last)];
    assert rs[..0] == [] && rs[..1] == [rs[0]] && [rs[0]][..0] == [];
    assert Accepted(rs, 0, skew, retention);
    var seen := After([rs[0]], skew, retention);
    assert seen == map[id := Seconds(first)];
    SecondsShift(signedAt, -skew);
    SecondsShift(signedAt, skew - Retention(retention));
    assert Seconds(last - Retention(retention)) > Seconds(first);
    assert Purged(seen, Seconds(last - Retention(retention))) == map[];
    assert Accepted(rs, 1, skew, retention);
  }

  /** Exactly the retentions that keep every run free of replays. */
  lemma RetentionExact(skew: int, retention: int)
    requires skew > 0
    ensures LongEnough(skew, retention) <==> forall rs :: Plausible(rs) ==> AtMostOnce(rs, skew, retention)
  {
    if LongEnough(skew, retention) {
      forall rs | Plausible(rs) ensures AtMostOnce(rs, skew, retention) {
        LongEnoughIsSafe(rs, skew, retention);
      }
    } else {
      var rs := TooShortReplays("", 0, skew, retention);
      assert !AtMostOnce(rs, skew, retention);
    }
  }
}
