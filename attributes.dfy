/** Attribute namespacing (pkg/telemetry/attributes.go): renaming the keys of
    telemetry key/value pairs with a prefix, and giving each contributor of an
    ordered list its own positional namespace. */
module Attributes {
  import opened Base

  /** The value of an attribute; namespacing never looks inside it. */
  datatype Value =
    | StringValue(s: string)
    | IntValue(i: int)
    | BoolValue(b: bool)
    | FloatValue(f: real)

  datatype KeyValue = KeyValue(key: string, value: Value)

  /** Every key renamed to `prefix + key`, values and order kept. */
  function PrefixAll(attrs: seq<KeyValue>, prefix: string): seq<KeyValue>
  {
    seq(|attrs|, i requires 0 <= i < |attrs| => KeyValue(prefix + attrs[i].key, attrs[i].value))
  }

  /** Models PrefixAttributes: fills a slice of the input's length, slot by slot. */
  method PrefixAttributes(attrs: seq<KeyValue>, prefix: string) returns (r: seq<KeyValue>)
    ensures |r| == |attrs|
    ensures forall i :: 0 <= i < |attrs| ==> r[i].key == prefix + attrs[i].key && r[i].value == attrs[i].value
    ensures r == PrefixAll(attrs, prefix)
  {
    var prefixed := new KeyValue[|attrs|];
    for i := 0 to |attrs|
      invariant forall k :: 0 <= k < i ==> prefixed[k] == KeyValue(prefix + attrs[k].key, attrs[k].value)
    {
      prefixed[i] := KeyValue(prefix + attrs[i].key, attrs[i].value);
    }
    r := prefixed[..];
  }

  /** With an empty prefix nothing is renamed. */
  lemma EmptyPrefixIsIdentity(attrs: seq<KeyValue>)
    ensures PrefixAll(attrs, "") == attrs
  {
    forall i | 0 <= i < |attrs|
      ensures PrefixAll(attrs, "")[i] == attrs[i]
    {
      assert "" + attrs[i].key == attrs[i].key;
    }
  }

  /** Prefixing twice is prefixing once with the two prefixes joined, the later one outermost. */
  lemma PrefixTwice(attrs: seq<KeyValue>, inner: string, outer: string)
    ensures PrefixAll(PrefixAll(attrs, inner), outer) == PrefixAll(attrs, outer + inner)
  {
    forall i | 0 <= i < |attrs|
      ensures PrefixAll(PrefixAll(attrs, inner), outer)[i] == PrefixAll(attrs, outer + inner)[i]
    {
      assert outer + (inner + attrs[i].key) == (outer + inner) + attrs[i].key;
    }
  }

  /** The inverse of PrefixAll: strips `prefix` from every key, or None when some key lacks it. */
  function StripAll(attrs: seq<KeyValue>, prefix: string): Option<seq<KeyValue>>
  {
    if forall i :: 0 <= i < |attrs| ==> HasPrefix(attrs[i].key, prefix)
    then Some(seq(|attrs|, i requires 0 <= i < |attrs| => KeyValue(Strip(attrs[i].key, prefix), attrs[i].value)))
    else None
  }

  function Strip(s: string, prefix: string): string
  {
    if HasPrefix(s, prefix) then s[|prefix|..] else s
  }

  /** Prefixing loses nothing: stripping the same prefix gives the original pairs back. */
  lemma StripAllPrefixAll(attrs: seq<KeyValue>, prefix: string)
    ensures StripAll(PrefixAll(attrs, prefix), prefix) == Some(attrs)
  {
    var p := PrefixAll(attrs, prefix);
    forall i | 0 <= i < |p|
      ensures HasPrefix(p[i].key, prefix) && Strip(p[i].key, prefix) == attrs[i].key
    {
      assert p[i].key == prefix + attrs[i].key;
    }
    assert StripAll(p, prefix).value == attrs;
  }

  /** The key PrefixAttributers gives attribute `key` of the contributor at `position`:
      "prefix.position.key". */
  function IndexedKey(prefix: string, position: nat, key: string): string
  {
    prefix + "." + Decimal(position) + "." + key
  }

  /** The namespace of the contributor at `position`. */
  function IndexPrefix(prefix: string, position: nat): string
  {
    prefix + "." + Decimal(position) + "."
  }

  /** What PrefixAttributers returns for contributors whose attribute lists are
      `contributors`: each list renamed into its own positional namespace, the
      lists concatenated in contributor order. */
  function PrefixIndexed(contributors: seq<seq<KeyValue>>, prefix: string): seq<KeyValue>
    decreases |contributors|
  {
    if contributors == [] then []
    else
      var last := |contributors| - 1;
      PrefixIndexed(contributors[..last], prefix) + PrefixAll(contributors[last], IndexPrefix(prefix, last))
  }

  /** How many attributes the contributors hold together. */
  function TotalLength(contributors: seq<seq<KeyValue>>): nat
    decreases |contributors|
  {
    if contributors == [] then 0
    else TotalLength(contributors[..|contributors| - 1]) + |contributors[|contributors| - 1]|
  }

  /** Models PrefixAttributers: appends to an accumulator in two nested loops. Each
      contributor's attribute list is read once, in order. */
  method PrefixAttributers(attributers: seq<seq<KeyValue>>, prefix: string) returns (allAttrs: seq<KeyValue>)
    ensures allAttrs == PrefixIndexed(attributers, prefix)
  {
    allAttrs := [];
    for i := 0 to |attributers|
      invariant allAttrs == PrefixIndexed(attributers[..i], prefix)
    {
      var attrs := attributers[i];
      ghost var before := allAttrs;
      for j := 0 to |attrs|
        invariant allAttrs == before + PrefixAll(attrs[..j], IndexPrefix(prefix, i))
      {
        allAttrs := allAttrs + [KeyValue(IndexedKey(prefix, i, attrs[j].key), attrs[j].value)];
        assert PrefixAll(attrs[..j + 1], IndexPrefix(prefix, i))
            == PrefixAll(attrs[..j], IndexPrefix(prefix, i)) + [KeyValue(IndexedKey(prefix, i, attrs[j].key), attrs[j].value)];
      }
      assert attrs[..|attrs|] == attrs;
      assert attributers[..i + 1][..i] == attributers[..i];
    }
    assert attributers[..|attributers|] == attributers;
  }

  /** The output holds exactly as many pairs as the contributors hold together. */
  lemma {:induction false} PrefixIndexedLength(contributors: seq<seq<KeyValue>>, prefix: string)
    ensures |PrefixIndexed(contributors, prefix)| == TotalLength(contributors)
    decreases |contributors|
  {
    if contributors != [] {
      PrefixIndexedLength(contributors[..|contributors| - 1], prefix);
    }
  }

  /** The first k contributors hold no more attributes than all of them. */
  lemma {:induction false} TotalLengthOfPrefix(contributors: seq<seq<KeyValue>>, k: nat)
    requires k <= |contributors|
    ensures TotalLength(contributors[..k]) <= TotalLength(contributors)
    decreases |contributors|
  {
    if k < |contributors| {
      var init := contributors[..|contributors| - 1];
      assert init[..k] == contributors[..k];
      TotalLengthOfPrefix(init, k);
    } else {
      assert contributors[..k] == contributors;
    }
  }

  /** Where each input attribute ends up: attribute j of the contributor at position i
      is found after the attributes of the contributors before it, renamed to
      "prefix.i.key" with its value unchanged. In particular a contributor with no
      attributes adds nothing and does not shift the positions given to later ones. */
  lemma {:induction false} PrefixIndexedAt(contributors: seq<seq<KeyValue>>, prefix: string, i: nat, j: nat)
    requires i < |contributors| && j < |contributors[i]|
    ensures TotalLength(contributors[..i]) + j < |PrefixIndexed(contributors, prefix)|
    ensures PrefixIndexed(contributors, prefix)[TotalLength(contributors[..i]) + j]
         == KeyValue(IndexedKey(prefix, i, contributors[i][j].key), contributors[i][j].value)
    decreases |contributors|
  {
    var last := |contributors| - 1;
    var init := contributors[..last];
    PrefixIndexedLength(init, prefix);
    assert IndexPrefix(prefix, i) + contributors[i][j].key == IndexedKey(prefix, i, contributors[i][j].key);
    if i == last {
      assert contributors[..i] == init;
    } else {
      assert init[..i] == contributors[..i];
      assert init[..i + 1][..i] == init[..i];
      TotalLengthOfPrefix(init, i + 1);
      PrefixIndexedAt(init, prefix, i, j);
    }
  }

  /** Keys of contributors at different positions never coincide, whatever their own keys. */
  lemma IndexedKeysDistinct(prefix: string, i1: nat, key1: string, i2: nat, key2: string)
    requires i1 != i2
    ensures IndexedKey(prefix, i1, key1) != IndexedKey(prefix, i2, key2)
  {
    var d1, d2 := Decimal(i1), Decimal(i2);
    var s1, s2 := d1 + "." + key1, d2 + "." + key2;
    var head := prefix + ".";
    assert IndexedKey(prefix, i1, key1) == head + s1;
    assert IndexedKey(prefix, i2, key2) == head + s2;
    if |d1| < |d2| {
      assert s1[|d1|] == '.' && IsDigit(s2[|d1|]);
    } else if |d2| < |d1| {
      assert s2[|d2|] == '.' && IsDigit(s1[|d2|]);
    } else {
      DecimalInjective(i1, i2);
      assert s1[..|d1|] == d1 && s2[..|d1|] == d2;
    }
    assert s1 != s2;
    assert (head + s1)[|head|..] == s1 && (head + s2)[|head|..] == s2;
  }

  /** No two contributors' attributes collide in the output of PrefixAttributers. */
  lemma PrefixIndexedNoCollision(contributors: seq<seq<KeyValue>>, prefix: string, i1: nat, j1: nat, i2: nat, j2: nat)
    requires i1 < |contributors| && j1 < |contributors[i1]|
    requires i2 < |contributors| && j2 < |contributors[i2]|
    requires i1 != i2
    ensures TotalLength(contributors[..i1]) + j1 < |PrefixIndexed(contributors, prefix)|
    ensures TotalLength(contributors[..i2]) + j2 < |PrefixIndexed(contributors, prefix)|
    ensures PrefixIndexed(contributors, prefix)[TotalLength(contributors[..i1]) + j1].key
         != PrefixIndexed(contributors, prefix)[TotalLength(contributors[..i2]) + j2].key
  {
    PrefixIndexedAt(contributors, prefix, i1, j1);
    PrefixIndexedAt(contributors, prefix, i2, j2);
    IndexedKeysDistinct(prefix, i1, contributors[i1][j1].key, i2, contributors[i2][j2].key);
  }

  /** With an empty prefix the key still starts with the separator: ".0.key", not "0.key". */
  lemma EmptyPrefixKeepsLeadingDot()
    ensures IndexedKey("", 0, "key") == ".0.key"
    ensures IndexedKey("", 0, "key") != "0.key"
  {
    assert Decimal(0) == "0";
  }
}
