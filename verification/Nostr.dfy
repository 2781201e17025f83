/** Nostr events as the bridge and the relay see them. Identifiers and public
    keys are lower-case hexadecimal text; hashing and signing are abstracted to
    the two flags `idValid` and `signatureValid`. */
module Nostr {
  type Hex = string

  datatype Event = Event(
    id: Hex,
    pubkey: Hex,
    createdAt: int,
    kind: int,
    tags: seq<seq<string>>,
    content: string,
    idValid: bool,
    signatureValid: bool)

  const DELETION := 5

  predicate IsHexDigit(c: char) {
    '0' <= c <= '9' || 'a' <= c <= 'f'
  }

  /** Canonical text of a 32-byte identifier or key: what `Hex()` prints. */
  predicate IsHex32(s: string) {
    |s| == 64 && forall i :: 0 <= i < |s| ==> IsHexDigit(s[i])
  }

  /** The values of the `e` tags that carry one. */
  function TaggedIds(tags: seq<seq<string>>): set<string> {
    set i | 0 <= i < |tags| && |tags[i]| >= 2 && tags[i][0] == "e" :: tags[i][1]
  }
}
