/** Secret attributes kept as tags of a 1Password item. */
module OpTags {
  import opened Wrappers
  import Base64
  import Text
  import opened Sequences

  const BASE := "wsl-keyring"
  const META := "wsl-keyring-meta-v1"
  const ATTRIBUTE := "wsl-keyring-attr:"
  const SEPARATOR := '='

  type Attributes = map<string, string>

  /** Keys and values are byte strings. */
  predicate AreBytes(attributes: Attributes) {
    forall k :: k in attributes ==> Base64.IsBytes(k) && Base64.IsBytes(attributes[k])
  }

  function AttributeTag(key: string, value: string): string
    requires Base64.IsBytes(key) && Base64.IsBytes(value)
  {
    ATTRIBUTE + Base64.Encode(key) + [SEPARATOR] + Base64.Encode(value)
  }

  // ----------------------------------------------------------------- decoding

  datatype Pair = NoPair | Pair(key: string, value: string)

  /** Where the separator first occurs, or the length. */
  function CutAt(s: string): (k: nat)
    ensures k <= |s|
    ensures k < |s| ==> s[k] == SEPARATOR
    ensures forall i :: 0 <= i < k ==> s[i] != SEPARATOR
  {
    if s == [] || s[0] == SEPARATOR then 0 else 1 + CutAt(s[1..])
  }

  function DecodeAttributeTag(tag: string): Pair {
    if !(ATTRIBUTE <= tag) then NoPair
    else
      var raw := tag[|ATTRIBUTE|..];
      var k := CutAt(raw);
      if k == |raw| then NoPair
      else
        var key, value := Base64.Decode(raw[..k]), Base64.Decode(raw[k + 1..]);
        if key.None? || value.None? then NoPair else Pair(key.value, value.value)
  }

  lemma {:induction false} CutBefore(e: string, v: string)
    requires Base64.AreLetters(e)
    ensures CutAt(e + [SEPARATOR] + v) == |e|
  {
    var s := e + [SEPARATOR] + v;
    assert s[|e|] == SEPARATOR;
    assert forall i :: 0 <= i < |e| ==> s[i] == e[i];
  }

  lemma DecodeParts(e: string, v: string, key: string, value: string)
    requires Base64.AreLetters(e) && Base64.Decode(e) == Some(key) && Base64.Decode(v) == Some(value)
    ensures DecodeAttributeTag(ATTRIBUTE + e + [SEPARATOR] + v) == Pair(key, value)
  {
    var raw := e + [SEPARATOR] + v;
    var tag := ATTRIBUTE + e + [SEPARATOR] + v;
    assert tag == ATTRIBUTE + raw;
    assert tag[|ATTRIBUTE|..] == raw;
    CutBefore(e, v);
    assert raw[..|e|] == e && raw[|e| + 1..] == v;
  }

  lemma TagRoundTrip(key: string, value: string)
    requires Base64.IsBytes(key) && Base64.IsBytes(value)
    ensures DecodeAttributeTag(AttributeTag(key, value)) == Pair(key, value)
  {
    Base64.RoundTrip(key);
    Base64.RoundTrip(value);
    DecodeParts(Base64.Encode(key), Base64.Encode(value), key, value);
  }

  /** What a list of tags says, a later tag overriding an earlier one. */
  function Decoded(tags: seq<string>): Attributes {
    if tags == [] then map[]
    else
      var n := |tags| - 1;
      var p := DecodeAttributeTag(tags[n]);
      if p.NoPair? then Decoded(tags[..n]) else Decoded(tags[..n])[p.key := p.value]
  }

  method MetadataFromTags(tags: seq<string>) returns (attributes: Attributes, hasMetadata: bool)
    ensures attributes == Decoded(tags)
    ensures hasMetadata <==> META in tags || attributes != map[]
  {
    attributes, hasMetadata := map[], false;
    for i := 0 to |tags|
      invariant attributes == Decoded(tags[..i])
      invariant hasMetadata <==> META in tags[..i] || attributes != map[]
    {
      assert tags[..i + 1][..i] == tags[..i];
      if tags[i] == META {
        assert DecodeAttributeTag(META).NoPair?;
        hasMetadata := true;
      } else {
        var p := DecodeAttributeTag(tags[i]);
        if p.Pair? {
          hasMetadata := true;
          attributes := attributes[p.key := p.value];
          assert p.key in attributes;
        }
      }
    }
    assert tags[..|tags|] == tags;
  }

  // ------------------------------------------------------------------ merging

  predicate IsMetadata(tag: string) {
    tag == META || ATTRIBUTE <= tag
  }

  /** Tags of other tools. */
  function Others(tags: seq<string>): set<string> {
    set t | t in tags && t != "" && !IsMetadata(t)
  }

  function Built(attributes: Attributes): set<string>
    requires AreBytes(attributes)
  {
    {BASE, META} + set k | k in attributes :: AttributeTag(k, attributes[k])
  }

  /** The list is the merge of `existing` and the attributes. */
  ghost predicate IsMerge(existing: seq<string>, attributes: Attributes, tags: seq<string>)
    requires AreBytes(attributes)
  {
    Text.Ascending(tags) && Text.Elements(tags) == Others(existing) + Built(attributes)
  }

  function Tagged(keys: seq<string>, attributes: Attributes): seq<string>
    requires AreBytes(attributes) && forall k :: k in keys ==> k in attributes
  {
    seq(|keys|, i requires 0 <= i < |keys| => AttributeTag(keys[i], attributes[keys[i]]))
  }

  lemma TaggedNext(keys: seq<string>, attributes: Attributes, i: nat)
    requires AreBytes(attributes) && (forall k :: k in keys ==> k in attributes) && i < |keys|
    ensures Tagged(keys[..i + 1], attributes) ==
      Tagged(keys[..i], attributes) + [AttributeTag(keys[i], attributes[keys[i]])]
  {
    TakeNext(keys, i);
  }

  method SortedKeys(attributes: Attributes) returns (keys: seq<string>)
    ensures Text.Ascending(keys) && Text.Elements(keys) == attributes.Keys
  {
    var todo, found := attributes.Keys, [];
    while todo != {}
      invariant todo + Text.Elements(found) == attributes.Keys && todo !! Text.Elements(found)
      invariant forall i, j :: 0 <= i < j < |found| ==> found[i] != found[j]
      decreases |todo|
    {
      var k :| k in todo;
      assert k !in Text.Elements(found);
      todo, found := todo - {k}, found + [k];
    }
    keys := Text.Sort(found);
  }

  /** The base tag, the marker, then one tag per attribute by ascending key. */
  method BuildTags(attributes: Attributes) returns (tags: seq<string>, ghost keys: seq<string>)
    requires AreBytes(attributes)
    ensures Text.Ascending(keys) && Text.Elements(keys) == attributes.Keys
    ensures forall k :: k in keys ==> k in attributes
    ensures tags == [BASE, META] + Tagged(keys, attributes)
    ensures Text.Elements(tags) == Built(attributes)
  {
    var sorted := SortedKeys(attributes);
    keys := sorted;
    assert forall k :: k in sorted ==> k in Text.Elements(sorted);
    tags := [BASE, META];
    for i := 0 to |sorted|
      invariant tags == [BASE, META] + Tagged(sorted[..i], attributes)
    {
      var tag := AttributeTag(sorted[i], attributes[sorted[i]]);
      TaggedNext(sorted, attributes, i);
      Assoc([BASE, META], Tagged(sorted[..i], attributes), [tag]);
      tags := tags + [tag];
    }
    TakeAll(sorted);
    BuiltAre(sorted, attributes, tags);
  }

  lemma BuiltAre(keys: seq<string>, attributes: Attributes, tags: seq<string>)
    requires AreBytes(attributes) && Text.Elements(keys) == attributes.Keys && forall k :: k in keys ==> k in attributes
    requires tags == [BASE, META] + Tagged(keys, attributes)
    ensures Text.Elements(tags) == Built(attributes)
  {
    forall t ensures t in tags <==> t in Built(attributes) {
      TaggedAre(keys, attributes, t);
      assert t in tags <==> t == BASE || t == META || t in Tagged(keys, attributes);
    }
  }

  lemma TaggedAre(keys: seq<string>, attributes: Attributes, t: string)
    requires AreBytes(attributes) && Text.Elements(keys) == attributes.Keys && forall k :: k in keys ==> k in attributes
    ensures t in Tagged(keys, attributes) <==> exists k :: k in attributes && t == AttributeTag(k, attributes[k])
  {
    if k :| k in attributes && t == AttributeTag(k, attributes[k]) {
      assert k in Text.Elements(keys);
      var i :| 0 <= i < |keys| && keys[i] == k;
      assert Tagged(keys, attributes)[i] == t;
    }
    if t in Tagged(keys, attributes) {
      var i :| 0 <= i < |keys| && Tagged(keys, attributes)[i] == t;
      assert keys[i] in attributes;
    }
  }

  predicate Distinct(ss: seq<string>) {
    forall i, j :: 0 <= i < j < |ss| ==> ss[i] != ss[j]
  }

  /** The tags of other tools, each once. */
  method KeepOthers(existing: seq<string>) returns (tags: seq<string>, seen: set<string>)
    ensures Distinct(tags) && seen == Text.Elements(tags) == Others(existing)
  {
    tags, seen := [], {};
    for i := 0 to |existing|
      invariant Distinct(tags) && seen == Text.Elements(tags)
      invariant forall t :: t in seen <==> t in existing[..i] && t != "" && !IsMetadata(t)
    {
      var tag := existing[i];
      if tag == META || ATTRIBUTE <= tag {
        continue;
      }
      if tag == "" || tag in seen {
        continue;
      }
      assert tag !in Text.Elements(tags);
      tags, seen := tags + [tag], seen + {tag};
    }
    assert existing[..|existing|] == existing;
  }

  method AddNew(others: seq<string>, built: seq<string>, seenOthers: set<string>) returns (tags: seq<string>)
    requires Distinct(others) && seenOthers == Text.Elements(others)
    ensures Distinct(tags) && Text.Elements(tags) == Text.Elements(others) + Text.Elements(built)
  {
    var seen := seenOthers;
    tags := others;
    for i := 0 to |built|
      invariant Distinct(tags) && seen == Text.Elements(tags)
      invariant forall t :: t in seen <==> t in others || t in built[..i]
    {
      var tag := built[i];
      if tag in seen {
        continue;
      }
      assert tag !in Text.Elements(tags);
      tags, seen := tags + [tag], seen + {tag};
    }
    assert built[..|built|] == built;
  }

  method MergeTags(existing: seq<string>, attributes: Attributes) returns (tags: seq<string>)
    requires AreBytes(attributes)
    ensures IsMerge(existing, attributes, tags)
  {
    var seen;
    tags, seen := KeepOthers(existing);
    var built, _ := BuildTags(attributes);
    tags := AddNew(tags, built, seen);
    tags := Text.Sort(tags);
  }

  // --------------------------------------------------------------- properties

  /** A merged list decodes to exactly the attributes it was merged from. */
  lemma {:induction false} MergeDecodes(existing: seq<string>, attributes: Attributes, tags: seq<string>)
    requires AreBytes(attributes) && IsMerge(existing, attributes, tags)
    ensures Decoded(tags) == attributes && META in tags
  {
    assert META in Text.Elements(tags);
    forall t | t in tags ensures Fits(t, attributes) {
      assert t in Text.Elements(tags);
      TagFits(existing, attributes, t);
    }
    DecodedWithin(tags, attributes);
    forall k | k in attributes ensures k in Decoded(tags) {
      var t := AttributeTag(k, attributes[k]);
      assert t in Text.Elements(tags);
      TagRoundTrip(k, attributes[k]);
      DecodedHas(tags, t);
    }
  }

  /** A tag that is no attribute, or one of the given attributes. */
  predicate Fits(tag: string, attributes: Attributes) {
    var p := DecodeAttributeTag(tag);
    p.NoPair? || (p.key in attributes && attributes[p.key] == p.value)
  }

  lemma TagFits(existing: seq<string>, attributes: Attributes, t: string)
    requires AreBytes(attributes) && t in Others(existing) + Built(attributes)
    ensures Fits(t, attributes)
  {
    if t !in Others(existing) && t != BASE && t != META {
      var k :| k in attributes && t == AttributeTag(k, attributes[k]);
      TagRoundTrip(k, attributes[k]);
    }
  }

  lemma {:induction false} DecodedWithin(tags: seq<string>, attributes: Attributes)
    requires forall t :: t in tags ==> Fits(t, attributes)
    ensures forall k :: k in Decoded(tags) ==> k in attributes && Decoded(tags)[k] == attributes[k]
  {
    if tags != [] {
      var n := |tags| - 1;
      DecodedWithin(tags[..n], attributes);
      assert Fits(tags[n], attributes);
    }
  }

  lemma {:induction false} DecodedHas(tags: seq<string>, t: string)
    requires t in tags && DecodeAttributeTag(t).Pair?
    ensures DecodeAttributeTag(t).key in Decoded(tags)
  {
    var n := |tags| - 1;
    if tags[n] != t {
      DecodedHas(tags[..n], t);
    }
  }

  /** Merging the same attributes into the merged list changes nothing. */
  lemma MergeIsIdempotent(existing: seq<string>, attributes: Attributes, tags: seq<string>, again: seq<string>)
    requires AreBytes(attributes) && IsMerge(existing, attributes, tags) && IsMerge(tags, attributes, again)
    ensures again == tags
  {
    forall t ensures t in Others(tags) + Built(attributes) <==> t in Others(existing) + Built(attributes) {
      assert t in tags <==> t in Text.Elements(tags);
    }
    Text.AscendingIsUnique(tags, again);
  }

  /** Later attributes replace earlier ones and leave other tools' tags alone. */
  lemma {:induction false} MergeReplaces(existing: seq<string>, before: Attributes, tags: seq<string>,
                                         after: Attributes, again: seq<string>)
    requires AreBytes(before) && AreBytes(after) && IsMerge(existing, before, tags) && IsMerge(tags, after, again)
    ensures Decoded(again) == after
    ensures Others(again) == Others(existing) + {BASE}
  {
    MergeDecodes(tags, after, again);
    OthersOfMerge(existing, before, tags);
    OthersOfMerge(tags, after, again);
  }

  lemma Starts(a: string, e: string, v: string)
    ensures a <= a + e + [SEPARATOR] + v
  {
    assert a + e + [SEPARATOR] + v == a + (e + [SEPARATOR] + v);
  }

  lemma BuiltIsMetadata(attributes: Attributes, t: string)
    requires AreBytes(attributes) && t in Built(attributes)
    ensures t == BASE || IsMetadata(t)
  {
    if t != BASE && t != META {
      var k :| k in attributes && t == AttributeTag(k, attributes[k]);
      Starts(ATTRIBUTE, Base64.Encode(k), Base64.Encode(attributes[k]));
    }
  }

  /** Every tag of another tool survives, and nothing but the base tag joins them. */
  lemma OthersOfMerge(existing: seq<string>, attributes: Attributes, tags: seq<string>)
    requires AreBytes(attributes) && IsMerge(existing, attributes, tags)
    ensures Others(tags) == Others(existing) + {BASE}
  {
    assert BASE != "" && !IsMetadata(BASE);
    forall t ensures t in Others(tags) <==> t in Others(existing) + {BASE} {
      assert t in tags <==> t in Text.Elements(tags);
      if t in Built(attributes) {
        BuiltIsMetadata(attributes, t);
      }
    }
  }
}
