/** Unpadded base64url: section 5 of RFC 4648, as Go's RawURLEncoding has it.
    A byte is a character below 256. */
module Base64 {
  import opened Wrappers

  predicate IsBytes(s: string) {
    forall i :: 0 <= i < |s| ==> s[i] as int < 256
  }

  // ------------------------------------------------------------------ letters

  function Letter(n: nat): (c: char)
    requires n < 64
    ensures Sextet(c) == Some(n)
  {
    if n < 26 then ('A' as int + n) as char
    else if n < 52 then ('a' as int + n - 26) as char
    else if n < 62 then ('0' as int + n - 52) as char
    else if n == 62 then '-' else '_'
  }

  function Sextet(c: char): Option<nat> {
    if 'A' <= c <= 'Z' then Some(c as int - 'A' as int)
    else if 'a' <= c <= 'z' then Some(c as int - 'a' as int + 26)
    else if '0' <= c <= '9' then Some(c as int - '0' as int + 52)
    else if c == '-' then Some(62) else if c == '_' then Some(63) else None
  }

  predicate AreLetters(s: string) {
    forall i :: 0 <= i < |s| ==> Sextet(s[i]).Some?
  }

  /** `n` as `k` groups of six bits, high ones first. */
  function Letters(n: nat, k: nat): (s: string)
    ensures |s| == k
    decreases k
  {
    if k == 0 then [] else Letters(n / 64, k - 1) + [Letter(n % 64)]
  }

  /** The number a run of letters spells. */
  function Spelled(s: string): Option<nat> {
    if s == [] then Some(0)
    else
      var n := |s| - 1;
      var high, low := Spelled(s[..n]), Sextet(s[n]);
      if high.None? || low.None? then None else Some(high.value * 64 + low.value)
  }

  function Power64(k: nat): nat {
    if k == 0 then 1 else 64 * Power64(k - 1)
  }

  lemma {:induction false} LettersSpell(n: nat, k: nat)
    requires n < Power64(k)
    ensures AreLetters(Letters(n, k)) && Spelled(Letters(n, k)) == Some(n)
    decreases k
  {
    if k > 0 {
      LettersSpell(n / 64, k - 1);
      var s := Letters(n, k);
      assert s[..k - 1] == Letters(n / 64, k - 1);
    }
  }

  // ------------------------------------------------------------------- groups

  /** Up to three bytes, shifted left to fill whole letters. */
  function Packed(g: string): nat
    requires IsBytes(g) && 1 <= |g| <= 3
  {
    if |g| == 1 then g[0] as int * 16
    else if |g| == 2 then g[0] as int * 1024 + g[1] as int * 4
    else g[0] as int * 65536 + g[1] as int * 256 + g[2] as int
  }

  function Byte(n: nat): char {
    (n % 256) as char
  }

  /** The bytes of `k` letters; spare low bits are dropped. */
  function Unpacked(n: nat, k: nat): string
    requires 2 <= k <= 4
  {
    if k == 2 then [Byte(n / 16)]
    else if k == 3 then [Byte(n / 1024), Byte(n / 4)]
    else [Byte(n / 65536), Byte(n / 256), Byte(n)]
  }

  function EncodeGroup(g: string): (e: string)
    requires IsBytes(g) && 1 <= |g| <= 3
    ensures |e| == |g| + 1
  {
    Letters(Packed(g), |g| + 1)
  }

  function DecodeGroup(e: string): Option<string>
    requires 1 <= |e| <= 4
  {
    var n := Spelled(e);
    if n.None? || |e| == 1 then None else Some(Unpacked(n.value, |e|))
  }

  // --------------------------------------------------------------- whole text

  function Least(a: nat, b: nat): nat {
    if a < b then a else b
  }

  function Encode(s: string): string
    requires IsBytes(s)
  {
    if s == [] then []
    else
      var k := Least(3, |s|);
      EncodeGroup(s[..k]) + Encode(s[k..])
  }

  function Append(head: Option<string>, tail: Option<string>): Option<string> {
    if head.None? || tail.None? then None else Some(head.value + tail.value)
  }

  function DecodeGroups(s: string): Option<string> {
    if s == [] then Some([])
    else
      var k := Least(4, |s|);
      Append(DecodeGroup(s[..k]), DecodeGroups(s[k..]))
  }

  function WithoutLineBreaks(s: string): string {
    if s == [] then []
    else (if s[0] == '\r' || s[0] == '\n' then [] else [s[0]]) + WithoutLineBreaks(s[1..])
  }

  /** Line breaks in the input are skipped. */
  function Decode(s: string): Option<string> {
    DecodeGroups(WithoutLineBreaks(s))
  }

  // --------------------------------------------------------------- round trip

  lemma {:induction false} PackedFits(g: string)
    requires IsBytes(g) && 1 <= |g| <= 3
    ensures Packed(g) < Power64(|g| + 1)
  {
    assert Power64(2) == 64 * Power64(1) == 4096;
    assert Power64(3) == 64 * Power64(2) == 262144;
    assert Power64(4) == 64 * Power64(3) == 16777216;
  }

  lemma TwoBytes(a: nat, b: nat)
    requires a < 256 && b < 256
    ensures var n := a * 1024 + b * 4; n / 1024 % 256 == a && n / 4 % 256 == b
  {
    var n := a * 1024 + b * 4;
    assert n / 1024 == a;
    assert n / 4 == a * 256 + b;
  }

  lemma ThreeBytes(a: nat, b: nat, c: nat)
    requires a < 256 && b < 256 && c < 256
    ensures var n := a * 65536 + b * 256 + c; n / 65536 % 256 == a && n / 256 % 256 == b && n % 256 == c
  {
    var n := a * 65536 + b * 256 + c;
    assert n / 65536 == a;
    assert n / 256 == a * 256 + b;
  }

  lemma UnpackedPacked(g: string)
    requires IsBytes(g) && 1 <= |g| <= 3
    ensures Unpacked(Packed(g), |g| + 1) == g
  {
    if |g| == 2 {
      TwoBytes(g[0] as int, g[1] as int);
    } else if |g| == 3 {
      ThreeBytes(g[0] as int, g[1] as int, g[2] as int);
    }
  }

  lemma GroupRoundTrip(g: string)
    requires IsBytes(g) && 1 <= |g| <= 3
    ensures AreLetters(EncodeGroup(g)) && DecodeGroup(EncodeGroup(g)) == Some(g)
  {
    PackedFits(g);
    LettersSpell(Packed(g), |g| + 1);
    UnpackedPacked(g);
  }

  lemma {:induction false} GroupsRoundTrip(s: string)
    requires IsBytes(s)
    ensures AreLetters(Encode(s)) && DecodeGroups(Encode(s)) == Some(s)
  {
    if s != [] {
      var k := Least(3, |s|);
      var g, rest := s[..k], s[k..];
      GroupRoundTrip(g);
      GroupsRoundTrip(rest);
      var e := Encode(s);
      assert e == EncodeGroup(g) + Encode(rest);
      assert e[..Least(4, |e|)] == EncodeGroup(g) && e[Least(4, |e|)..] == Encode(rest);
      assert s == g + rest;
    }
  }

  lemma {:induction false} LettersHaveNoLineBreaks(s: string)
    requires AreLetters(s)
    ensures WithoutLineBreaks(s) == s
  {
    if s != [] {
      LettersHaveNoLineBreaks(s[1..]);
      assert s == [s[0]] + s[1..];
    }
  }

  /** Every byte string survives encoding and decoding, in letters alone. */
  lemma {:induction false} RoundTrip(s: string)
    requires IsBytes(s)
    ensures Decode(Encode(s)) == Some(s) && AreLetters(Encode(s))
  {
    GroupsRoundTrip(s);
    LettersHaveNoLineBreaks(Encode(s));
  }
}
