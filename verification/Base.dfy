/**
 * Vocabulary shared by every component: optional values and results, the
 * unsigned 64-bit range, 32-byte hashes, anchor methods, and the ascending
 * enumeration of a finite set of epoch ids.
 */
module Base {

  datatype Option<+T> = None | Some(value: T)

  datatype Result<+T, +E> = Ok(value: T) | Err(error: E)

  const MAX_U64: nat := 0xFFFF_FFFF_FFFF_FFFF

  /** `u64::saturating_add`. */
  function SatAdd(a: nat, b: nat): nat {
    if a + b <= MAX_U64 then a + b else MAX_U64
  }

  /** `u64::saturating_sub`. */
  function SatSub(a: nat, b: nat): nat {
    if b <= a then a - b else 0
  }

  function Min(a: nat, b: nat): nat {
    if a <= b then a else b
  }

  newtype Byte = n: int | 0 <= n < 256

  type Hash32 = h: seq<Byte> | |h| == 32 witness seq(32, _ => 0)

  type Leaf = Hash32

  type Did = string

  datatype Method = Evm | Qtsa

  /** One accepted leaf and the DID that submitted it first. */
  datatype LeafEntry = LeafEntry(leaf: Leaf, did: Did)

  ghost predicate NoDup<T(!new)>(s: seq<T>) {
    forall i, j :: 0 <= i < j < |s| ==> s[i] != s[j]
  }

  function LeavesOf(entries: seq<LeafEntry>): seq<Leaf> {
    if entries == [] then [] else
      var n := |entries| - 1;
      LeavesOf(entries[..n]) + [entries[n].leaf]
  }

  lemma {:induction false} LeavesOfAt(entries: seq<LeafEntry>)
    ensures |LeavesOf(entries)| == |entries|
    ensures forall i :: 0 <= i < |entries| ==> LeavesOf(entries)[i] == entries[i].leaf
  {
    if entries != [] {
      LeavesOfAt(entries[..|entries| - 1]);
    }
  }

  ghost predicate DistinctLeaves(entries: seq<LeafEntry>) {
    forall i, j :: 0 <= i < j < |entries| ==> entries[i].leaf != entries[j].leaf
  }

  ghost predicate HasLeaf(entries: seq<LeafEntry>, leaf: Leaf) {
    exists i :: 0 <= i < |entries| && entries[i].leaf == leaf
  }

  /** The leaves of `entries` as a set. */
  function LeafSet(entries: seq<LeafEntry>): set<Leaf> {
    if entries == [] then {} else
      var n := |entries| - 1;
      LeafSet(entries[..n]) + {entries[n].leaf}
  }

  lemma LeafSetMembers(entries: seq<LeafEntry>)
    ensures forall l :: l in LeafSet(entries) <==> HasLeaf(entries, l)
  {
  }

  lemma {:induction false} LeafSetMember(entries: seq<LeafEntry>, l: Leaf)
    ensures l in LeafSet(entries) <==> HasLeaf(entries, l)
  {
    if entries != [] {
      var n := |entries| - 1;
      LeafSetMember(entries[..n], l);
      if HasLeaf(entries[..n], l) {
        var i :| 0 <= i < n && entries[..n][i].leaf == l;
        assert entries[i].leaf == l;
      }
    }
  }

  lemma LeafSetPush(entries: seq<LeafEntry>, e: LeafEntry)
    ensures LeafSet(entries + [e]) == LeafSet(entries) + {e.leaf}
  {
  }

  lemma DistinctPush(entries: seq<LeafEntry>, e: LeafEntry)
    requires DistinctLeaves(entries) && e.leaf !in LeafSet(entries)
    ensures DistinctLeaves(entries + [e])
  {
    forall i | 0 <= i < |entries|
      ensures entries[i].leaf != e.leaf
    {
      LeafSetMember(entries, e.leaf);
      assert HasLeaf(entries, entries[i].leaf);
    }
  }

  // ---- Ascending enumeration of a set of ids ----

  ghost predicate Ascending(s: seq<nat>) {
    forall i, j :: 0 <= i < j < |s| ==> s[i] < s[j]
  }

  lemma LeastOf(ids: set<nat>) returns (m: nat)
    requires ids != {}
    ensures m in ids
    ensures forall x :: x in ids ==> m <= x
    decreases |ids|
  {
    m :| m in ids;
    var rest := ids - {m};
    if rest != {} {
      var k := LeastOf(rest);
      assert forall x :: x in ids ==> x == m || x in rest;
      m := if m < k then m else k;
    } else {
      forall x | x in ids
        ensures x == m
      {
        assert x !in rest;
      }
    }
  }

  lemma LeastExists(ids: set<nat>)
    requires ids != {}
    ensures exists m :: m in ids && forall x :: x in ids ==> m <= x
  {
    var m := LeastOf(ids);
  }

  function Least(ids: set<nat>): (m: nat)
    requires ids != {}
    ensures m in ids && forall x :: x in ids ==> m <= x
  {
    LeastExists(ids);
    var m :| m in ids && forall x :: x in ids ==> m <= x;
    m
  }

  /** The ids of a partition in key order: what iterating it from the front yields. */
  function InOrder(ids: set<nat>): (s: seq<nat>)
    ensures Ascending(s)
    ensures forall x :: x in s <==> x in ids
    ensures |s| == |ids|
    decreases |ids|
  {
    if ids == {} then [] else
      var m := Least(ids);
      [m] + InOrder(ids - {m})
  }
}
