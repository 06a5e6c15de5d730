/**
 * The byte keys of the partitions. The state machine works on maps keyed by
 * ids and pairs; these facts justify it: composite keys are injective, an
 * epoch's prefix selects exactly that epoch's keys, and byte order of epoch
 * keys is numeric order.
 */
module Keys {
  import opened Base

  function MethodByte(m: Method): Byte {
    match m
    case Evm => 0x01
    case Qtsa => 0x02
  }

  function FromMethodByte(b: Byte): Option<Method> {
    if b == 0x01 then Some(Evm) else if b == 0x02 then Some(Qtsa) else None
  }

  /** `to_be_bytes` of an integer of `width` bytes. */
  function BigEndian(n: nat, width: nat): (bytes: seq<Byte>)
    ensures |bytes| == width
  {
    if width == 0 then [] else BigEndian(n / 256, width - 1) + [(n % 256) as Byte]
  }

  function FromBigEndian(bytes: seq<Byte>): nat {
    if bytes == [] then 0 else
      FromBigEndian(bytes[..|bytes| - 1]) * 256 + bytes[|bytes| - 1] as nat
  }

  function Pow256(width: nat): nat {
    if width == 0 then 1 else 256 * Pow256(width - 1)
  }

  /** Lexicographic byte order: the order partitions iterate in. */
  predicate BytesBelow(a: seq<Byte>, b: seq<Byte>) {
    if a == [] || b == [] then a == [] && b != []
    else if a[0] != b[0] then a[0] < b[0]
    else BytesBelow(a[1..], b[1..])
  }

  lemma {:induction false} BigEndianRoundTrip(n: nat, width: nat)
    requires n < Pow256(width)
    ensures FromBigEndian(BigEndian(n, width)) == n
  {
    if width > 0 {
      BigEndianRoundTrip(n / 256, width - 1);
      assert BigEndian(n, width)[..width - 1] == BigEndian(n / 256, width - 1);
    }
  }

  /** Order of equally long keys is decided before their last byte, else by it. */
  lemma {:induction false} BelowSnoc(a: seq<Byte>, b: seq<Byte>, x: Byte, y: Byte)
    requires |a| == |b|
    ensures BytesBelow(a + [x], b + [y]) <==> BytesBelow(a, b) || (a == b && x < y)
  {
    if a != [] {
      BelowSnoc(a[1..], b[1..], x, y);
      assert (a + [x])[1..] == a[1..] + [x];
      assert (b + [y])[1..] == b[1..] + [y];
      assert a == [a[0]] + a[1..] && b == [b[0]] + b[1..];
    }
  }

  lemma {:induction false} ByteOrderIsNumericOrder(m: nat, n: nat, width: nat)
    requires m < Pow256(width) && n < Pow256(width)
    ensures BytesBelow(BigEndian(m, width), BigEndian(n, width)) <==> m < n
  {
    if width > 0 {
      ByteOrderIsNumericOrder(m / 256, n / 256, width - 1);
      var a, b := BigEndian(m / 256, width - 1), BigEndian(n / 256, width - 1);
      BelowSnoc(a, b, (m % 256) as Byte, (n % 256) as Byte);
      BigEndianRoundTrip(m / 256, width - 1);
      BigEndianRoundTrip(n / 256, width - 1);
      assert a == b <==> m / 256 == n / 256;
    }
  }

  lemma U64Fits()
    ensures Pow256(8) == MAX_U64 + 1
  {
  }

  /** Byte order of epoch keys is numeric order of the ids. */
  lemma EpochKeysAreOrdered(m: nat, n: nat)
    requires m <= MAX_U64 && n <= MAX_U64
    ensures BytesBelow(BigEndian(m, 8), BigEndian(n, 8)) <==> m < n
    ensures BigEndian(m, 8) == BigEndian(n, 8) <==> m == n
    ensures FromBigEndian(BigEndian(m, 8)) == m
  {
    U64Fits();
    ByteOrderIsNumericOrder(m, n, 8);
    BigEndianRoundTrip(m, 8);
    BigEndianRoundTrip(n, 8);
  }

  // ---- Iterating a partition keyed by epoch ids ----

  type Key = seq<Byte>

  /** Iterating the partition yields its keys in byte order, each once. */
  ghost predicate Iterates(ids: set<nat>, keys: seq<Key>) {
    && (forall i, j :: 0 <= i < j < |keys| ==> BytesBelow(keys[i], keys[j]))
    && (forall i :: 0 <= i < |keys| ==>
          FromBigEndian(keys[i]) in ids && keys[i] == BigEndian(FromBigEndian(keys[i]), 8))
    && (forall e :: e in ids ==> BigEndian(e, 8) in keys)
  }

  function KeysOf(ids: seq<nat>): (keys: seq<Key>)
    ensures |keys| == |ids| && forall i :: 0 <= i < |ids| ==> keys[i] == BigEndian(ids[i], 8)
  {
    seq(|ids|, i requires 0 <= i < |ids| => BigEndian(ids[i], 8))
  }

  /** `s` lists `ids` in numeric order. */
  ghost predicate Ascends(ids: set<nat>, s: seq<nat>) {
    Ascending(s) && forall x :: x in s <==> x in ids
  }

  lemma RestAscends(ids: set<nat>, s: seq<nat>)
    requires Ascends(ids, s) && s != []
    ensures Ascends(ids - {s[0]}, s[1..])
  {
    forall x
      ensures x in s[1..] <==> x in ids - {s[0]}
    {
      if x in s[1..] {
        var i :| 0 <= i < |s[1..]| && s[1..][i] == x;
        assert s[i + 1] == x && s[0] < s[i + 1];
      }
      if x in ids - {s[0]} {
        assert x in s;
        var i :| 0 <= i < |s| && s[i] == x;
        assert s[1..][i - 1] == x;
      }
    }
  }

  lemma AscendsHead(ids: set<nat>, s: seq<nat>, t: seq<nat>)
    requires Ascends(ids, s) && Ascends(ids, t)
    ensures s == [] <==> t == []
    ensures s != [] ==> s[0] == t[0]
  {
    assert s != [] ==> s[0] in s;
    assert t != [] ==> t[0] in t;
  }

  /** There is one ascending enumeration of a set. */
  lemma {:induction false} AscendingUnique(ids: set<nat>, s: seq<nat>, t: seq<nat>)
    requires Ascends(ids, s) && Ascends(ids, t)
    ensures s == t
    decreases |s|
  {
    AscendsHead(ids, s, t);
    if s != [] {
      RestAscends(ids, s);
      RestAscends(ids, t);
      AscendingUnique(ids - {s[0]}, s[1..], t[1..]);
      assert s == [s[0]] + s[1..] && t == [t[0]] + t[1..];
    }
  }

  lemma IdsOfIteration(ids: set<nat>, keys: seq<Key>, es: seq<nat>)
    requires (forall e :: e in ids ==> e <= MAX_U64) && Iterates(ids, keys)
    requires |es| == |keys| && forall i :: 0 <= i < |keys| ==> es[i] == FromBigEndian(keys[i])
    ensures Ascends(ids, es)
  {
    forall i, j | 0 <= i < j < |es|
      ensures es[i] < es[j]
    {
      EpochKeysAreOrdered(es[i], es[j]);
    }
    forall x | x in ids
      ensures x in es
    {
      var i :| 0 <= i < |keys| && keys[i] == BigEndian(x, 8);
      EpochKeysAreOrdered(x, x);
      assert es[i] == x;
    }
  }

  lemma KeysIterate(ids: set<nat>, s: seq<nat>)
    requires (forall e :: e in ids ==> e <= MAX_U64) && Ascends(ids, s)
    ensures Iterates(ids, KeysOf(s))
  {
    var keys := KeysOf(s);
    forall i | 0 <= i < |s|
      ensures FromBigEndian(keys[i]) == s[i] && s[i] in ids
    {
      assert s[i] in s;
      EpochKeysAreOrdered(s[i], s[i]);
    }
    forall i, j | 0 <= i < j < |s|
      ensures BytesBelow(keys[i], keys[j])
    {
      EpochKeysAreOrdered(s[i], s[j]);
    }
    forall e | e in ids
      ensures BigEndian(e, 8) in keys
    {
      assert e in s;
      var i :| 0 <= i < |s| && s[i] == e;
      assert keys[i] == BigEndian(e, 8);
    }
  }

  /** Iterating a partition in byte order is visiting its ids in numeric order. */
  lemma IterationIsInOrder(ids: set<nat>, keys: seq<Key>)
    requires forall e :: e in ids ==> e <= MAX_U64
    ensures Iterates(ids, keys) <==> keys == KeysOf(InOrder(ids))
  {
    if Iterates(ids, keys) {
      var es := seq(|keys|, i requires 0 <= i < |keys| => FromBigEndian(keys[i]));
      IdsOfIteration(ids, keys, es);
      AscendingUnique(ids, es, InOrder(ids));
    }
    if keys == KeysOf(InOrder(ids)) {
      KeysIterate(ids, InOrder(ids));
    }
  }

  /** `key[at..at + |part|].copy_from_slice(part)`. */
  method CopyInto(key: array<Byte>, at: nat, part: seq<Byte>)
    requires at + |part| <= key.Length
    modifies key
    ensures key[..] == old(key[..at]) + part + old(key[at + |part|..])
  {
    for i := 0 to |part|
      invariant key[..] == old(key[..at]) + part[..i] + old(key[at + i..])
    {
      key[at + i] := part[i];
      assert part[..i + 1] == part[..i] + [part[i]];
    }
    assert part[..|part|] == part;
  }

  method ComposeLeafToTipsKey(leaf: Leaf, m: Method) returns (bytes: seq<Byte>)
    ensures bytes == leaf + [MethodByte(m)]
  {
    var key := new Byte[33](_ => 0);
    CopyInto(key, 0, leaf);
    key[32] := MethodByte(m);
    bytes := key[..];
  }

  method ComposeLeavesKey(epochId: nat, leaf: Leaf) returns (bytes: seq<Byte>)
    ensures bytes == BigEndian(epochId, 8) + leaf
  {
    var key := new Byte[40](_ => 0);
    CopyInto(key, 0, BigEndian(epochId, 8));
    CopyInto(key, 8, leaf);
    bytes := key[..];
  }

  lemma LeafTipKeysAreInjective(l1: Leaf, m1: Method, l2: Leaf, m2: Method)
    ensures l1 + [MethodByte(m1)] == l2 + [MethodByte(m2)] <==> l1 == l2 && m1 == m2
    ensures FromMethodByte((l1 + [MethodByte(m1)])[32]) == Some(m1)
  {
    assert (l1 + [MethodByte(m1)])[..32] == l1;
    assert (l2 + [MethodByte(m2)])[..32] == l2;
    assert (l1 + [MethodByte(m1)])[32] == MethodByte(m1);
    assert (l2 + [MethodByte(m2)])[32] == MethodByte(m2);
  }

  /** A prefix scan of epoch `id` finds the key of (e, leaf) exactly when e is `id`. */
  lemma EpochPrefixSelectsEpoch(id: nat, e: nat, leaf: Leaf)
    requires id <= MAX_U64 && e <= MAX_U64
    ensures BigEndian(id, 8) <= BigEndian(e, 8) + leaf <==> id == e
    ensures (BigEndian(e, 8) + leaf)[8..] == leaf
  {
    EpochKeysAreOrdered(id, e);
    assert (BigEndian(e, 8) + leaf)[..8] == BigEndian(e, 8);
  }
}
