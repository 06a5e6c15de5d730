/**
 * The order in which an identity tree's revisions are listed: the chain from
 * the genesis, then whatever it does not reach.
 */
module Identity {
  import opened Base

  /** The `previous_revision` field of a revision. */
  datatype Previous = Absent | Null | Text(hash: string) | OtherValue

  datatype RevisionEntry = RevisionEntry(hash: string, previous: Previous)

  /** The `revisions` object in the order it iterates: each key once. */
  ghost predicate Keys(entries: seq<RevisionEntry>) {
    forall i, j :: 0 <= i < j < |entries| ==> entries[i].hash != entries[j].hash
  }

  predicate IsGenesis(e: RevisionEntry) {
    e.previous == Absent || e.previous == Null
  }

  predicate Succeeds(e: RevisionEntry, hash: string) {
    e.previous == Text(hash)
  }

  ghost predicate HasKey(entries: seq<RevisionEntry>, hash: string) {
    exists i :: 0 <= i < |entries| && entries[i].hash == hash
  }

  /** `i` is the first genesis entry: one that names no predecessor, or a null one. */
  ghost predicate FirstGenesis(entries: seq<RevisionEntry>, i: nat) {
    && i < |entries| && entries[i].previous in {Absent, Null}
    && forall j :: 0 <= j < i ==> entries[j].previous !in {Absent, Null}
  }

  /** `i` is the first entry that names `hash` as its predecessor. */
  ghost predicate FirstAfter(entries: seq<RevisionEntry>, hash: string, i: nat) {
    && i < |entries| && entries[i].previous == Text(hash)
    && forall j :: 0 <= j < i ==> entries[j].previous != Text(hash)
  }

  /** Positions of a walk: the first genesis, then first successors. */
  ghost predicate IsWalk(entries: seq<RevisionEntry>, at: seq<nat>) {
    && (forall k :: 0 <= k < |at| ==> at[k] < |entries|)
    && (at != [] ==> FirstGenesis(entries, at[0]))
    && (forall k :: 0 < k < |at| ==> FirstAfter(entries, entries[at[k - 1]].hash, at[k]))
  }

  /** The walk goes as far as it can. */
  ghost predicate Complete(entries: seq<RevisionEntry>, at: seq<nat>)
    requires IsWalk(entries, at)
  {
    if at == [] then forall i :: 0 <= i < |entries| ==> entries[i].previous !in {Absent, Null}
    else forall i :: 0 <= i < |entries| ==> entries[i].previous != Text(entries[at[|at| - 1]].hash)
  }

  ghost function Extended(at: seq<nat>, i: nat): seq<nat> {
    at + [i]
  }

  function HashesAt(entries: seq<RevisionEntry>, at: seq<nat>): seq<string>
    requires forall k :: 0 <= k < |at| ==> at[k] < |entries|
  {
    if at == [] then [] else HashesAt(entries, at[..|at| - 1]) + [entries[at[|at| - 1]].hash]
  }

  /** Every entry whose hash is not in `order` yet, in iteration order. */
  function Appended(entries: seq<RevisionEntry>, order: seq<string>): seq<string> {
    if entries == [] then order else
      var n := |entries| - 1;
      var before := Appended(entries[..n], order);
      if entries[n].hash in before then before else before + [entries[n].hash]
  }

  // ---- The walk never comes back ----

  /**
   * A walk visits no entry twice, on any map: each entry names one predecessor,
   * so two equal positions would have equal predecessors all the way down to
   * the genesis, which has none.
   */
  lemma {:induction false} WalkIsInjective(entries: seq<RevisionEntry>, at: seq<nat>, i: nat, j: nat)
    requires Keys(entries) && IsWalk(entries, at) && i < j < |at|
    ensures at[i] != at[j]
    decreases i
  {
    assert FirstAfter(entries, entries[at[j - 1]].hash, at[j]);
    if i == 0 {
      assert FirstGenesis(entries, at[0]);
    } else if at[i] == at[j] {
      assert FirstAfter(entries, entries[at[i - 1]].hash, at[i]);
      WalkIsInjective(entries, at, i - 1, j - 1);
      assert false;
    }
  }

  lemma WalkIsShort(entries: seq<RevisionEntry>, at: seq<nat>)
    requires Keys(entries) && IsWalk(entries, at)
    ensures |at| <= |entries|
  {
    forall i, j | 0 <= i < j < |at|
      ensures at[i] != at[j]
    {
      WalkIsInjective(entries, at, i, j);
    }
    DistinctBelow(at, |entries|);
  }

  ghost function Positions(at: seq<nat>): set<nat> {
    if at == [] then {} else Positions(at[..|at| - 1]) + {at[|at| - 1]}
  }

  ghost function Below(n: nat): set<nat> {
    if n == 0 then {} else Below(n - 1) + {n - 1}
  }

  lemma {:induction false} DistinctPositions(at: seq<nat>, n: nat)
    requires NoDup(at) && forall k :: 0 <= k < |at| ==> at[k] < n
    ensures |Positions(at)| == |at| && Positions(at) <= Below(n)
    ensures forall x :: x in Positions(at) ==> x in at
  {
    if at != [] {
      var init := at[..|at| - 1];
      DistinctPositions(init, n);
      BelowIs(n, at[|at| - 1]);
      assert at[|at| - 1] !in init;
    }
  }

  lemma {:induction false} BelowIs(n: nat, x: nat)
    ensures x in Below(n) <==> x < n
    ensures |Below(n)| == n
  {
    if n > 0 {
      BelowIs(n - 1, x);
      BelowIs(n - 1, n - 1);
    }
  }

  lemma DistinctBelow(at: seq<nat>, n: nat)
    requires NoDup(at) && forall k :: 0 <= k < |at| ==> at[k] < n
    ensures |at| <= n
  {
    DistinctPositions(at, n);
    BelowIs(n, 0);
    assert Below(n) == Positions(at) + (Below(n) - Positions(at));
  }

  /** There is one complete walk: the listing is a function of the map. */
  lemma {:induction false} CompleteWalkIsUnique(entries: seq<RevisionEntry>, a: seq<nat>, b: seq<nat>, k: nat)
    requires IsWalk(entries, a) && IsWalk(entries, b) && Complete(entries, a) && Complete(entries, b)
    requires k <= |a| && k <= |b| && a[..k] == b[..k]
    ensures a == b
    decreases |a| - k
  {
    if k == |a| || k == |b| {
      SameEnd(entries, a, b, k);
    } else {
      SameNext(entries, a, b, k);
      assert a[..k + 1] == a[..k] + [a[k]] && b[..k + 1] == b[..k] + [b[k]];
      CompleteWalkIsUnique(entries, a, b, k + 1);
    }
  }

  lemma SameNext(entries: seq<RevisionEntry>, a: seq<nat>, b: seq<nat>, k: nat)
    requires IsWalk(entries, a) && IsWalk(entries, b) && k < |a| && k < |b| && a[..k] == b[..k]
    ensures a[k] == b[k]
  {
    if k > 0 {
      assert a[k - 1] == a[..k][k - 1] == b[..k][k - 1] == b[k - 1];
      assert FirstAfter(entries, entries[a[k - 1]].hash, a[k]) && FirstAfter(entries, entries[b[k - 1]].hash, b[k]);
    }
  }

  /** A walk that another one extends is not complete. */
  lemma ExtendedIsIncomplete(entries: seq<RevisionEntry>, a: seq<nat>, b: seq<nat>)
    requires IsWalk(entries, a) && IsWalk(entries, b)
    requires |a| < |b| && b[..|a|] == a
    ensures !Complete(entries, a)
  {
    var k := |a|;
    if k == 0 {
      assert FirstGenesis(entries, b[0]);
    } else {
      assert b[k - 1] == b[..k][k - 1];
      assert FirstAfter(entries, entries[b[k - 1]].hash, b[k]);
    }
  }

  lemma SameEnd(entries: seq<RevisionEntry>, a: seq<nat>, b: seq<nat>, k: nat)
    requires IsWalk(entries, a) && IsWalk(entries, b) && Complete(entries, a) && Complete(entries, b)
    requires k <= |a| && k <= |b| && a[..k] == b[..k] && (k == |a| || k == |b|)
    ensures a == b
  {
    assert k == |a| ==> a == a[..k];
    assert k == |b| ==> b == b[..k];
    if |a| < |b| {
      ExtendedIsIncomplete(entries, a, b);
    } else if |b| < |a| {
      ExtendedIsIncomplete(entries, b, a);
    }
  }

  // ---- What is walked and what is left over ----

  /** The hashes of the entries that are not in `walked`, in iteration order. */
  ghost function LeftOver(entries: seq<RevisionEntry>, walked: seq<string>): seq<string> {
    if entries == [] then [] else
      var n := |entries| - 1;
      LeftOver(entries[..n], walked) + if entries[n].hash in walked then [] else [entries[n].hash]
  }

  lemma {:induction false} LeftOverMembers(entries: seq<RevisionEntry>, walked: seq<string>, h: string)
    ensures h in LeftOver(entries, walked) <==> HasKey(entries, h) && h !in walked
  {
    if entries != [] {
      LeftOverMembers(entries[..|entries| - 1], walked, h);
      KeyPush(entries, h);
    }
  }

  /** What the listing appends to the walk: exactly the entries it did not reach, in iteration order. */
  lemma {:induction false} AppendedIsLeftOver(entries: seq<RevisionEntry>, walked: seq<string>)
    requires Keys(entries)
    ensures Appended(entries, walked) == walked + LeftOver(entries, walked)
  {
    if entries != [] {
      var n := |entries| - 1;
      AppendedIsLeftOver(entries[..n], walked);
      LeftOverMembers(entries[..n], walked, entries[n].hash);
      assert !HasKey(entries[..n], entries[n].hash);
    }
  }

  /** Two entries left over keep their order. */
  lemma {:induction false} LeftOverKeepsOrder(entries: seq<RevisionEntry>, walked: seq<string>, i: nat, j: nat)
      returns (p: nat, q: nat)
    requires i < j < |entries| && entries[i].hash !in walked && entries[j].hash !in walked
    ensures p < q < |LeftOver(entries, walked)|
    ensures LeftOver(entries, walked)[p] == entries[i].hash && LeftOver(entries, walked)[q] == entries[j].hash
  {
    var n := |entries| - 1;
    if j < n {
      p, q := LeftOverKeepsOrder(entries[..n], walked, i, j);
    } else {
      LeftOverMembers(entries[..n], walked, entries[i].hash);
      assert HasKey(entries[..n], entries[i].hash) by {
        assert entries[..n][i].hash == entries[i].hash;
      }
      var before := LeftOver(entries[..n], walked);
      p :| 0 <= p < |before| && before[p] == entries[i].hash;
      q := |before|;
    }
  }

  // ---- The listing ----

  method FindGenesis(entries: seq<RevisionEntry>) returns (r: Option<nat>)
    ensures r.Some? ==> FirstGenesis(entries, r.value)
    ensures r.None? ==> forall i :: 0 <= i < |entries| ==> entries[i].previous !in {Absent, Null}
  {
    for i := 0 to |entries|
      invariant forall j :: 0 <= j < i ==> !IsGenesis(entries[j])
    {
      if IsGenesis(entries[i]) {
        return Some(i);
      }
    }
    return None;
  }

  method FindAfter(entries: seq<RevisionEntry>, hash: string) returns (r: Option<nat>)
    ensures r.Some? ==> FirstAfter(entries, hash, r.value)
    ensures r.None? ==> forall i :: 0 <= i < |entries| ==> entries[i].previous != Text(hash)
  {
    for i := 0 to |entries|
      invariant forall j :: 0 <= j < i ==> !Succeeds(entries[j], hash)
    {
      if Succeeds(entries[i], hash) {
        return Some(i);
      }
    }
    return None;
  }

  lemma HashesPush(entries: seq<RevisionEntry>, at: seq<nat>, i: nat)
    requires (forall k :: 0 <= k < |at| ==> at[k] < |entries|) && i < |entries|
    ensures HashesAt(entries, Extended(at, i)) == HashesAt(entries, at) + [entries[i].hash]
  {
  }

  /**
   * The chain from the genesis, followed through first successors until there
   * is none, then the entries it did not reach. The walk keeps no set of
   * visited entries; it ends because it cannot visit one twice.
   */
  method TopologicalRevisionOrder(entries: seq<RevisionEntry>) returns (order: seq<string>, ghost at: seq<nat>)
    requires Keys(entries)
    ensures IsWalk(entries, at) && Complete(entries, at)
    ensures order == HashesAt(entries, at) + LeftOver(entries, HashesAt(entries, at))
    ensures NoDup(order) && forall h :: h in order <==> HasKey(entries, h)
  {
    at, order := [], [];
    var current: Option<nat> := FindGenesis(entries);
    while current.Some?
      invariant IsWalk(entries, at) && |at| <= |entries|
      invariant order == HashesAt(entries, at)
      invariant current.Some? ==> current.value < |entries| && IsWalk(entries, Extended(at, current.value))
      invariant current.None? ==> Complete(entries, at)
      decreases |entries| - |at|, if current.Some? then 1 else 0
    {
      var i := current.value;
      WalkIsShort(entries, Extended(at, i));
      HashesPush(entries, at, i);
      order := order + [entries[i].hash];
      at := Extended(at, i);
      current := FindAfter(entries, entries[i].hash);
    }
    order := AppendOrphans(entries, order);
    ListingIsTotal(entries, at);
    AppendedIsLeftOver(entries, HashesAt(entries, at));
  }

  method AppendOrphans(entries: seq<RevisionEntry>, walked: seq<string>) returns (order: seq<string>)
    ensures order == Appended(entries, walked)
  {
    order := walked;
    for i := 0 to |entries|
      invariant order == Appended(entries[..i], walked)
    {
      assert entries[..i + 1][..i] == entries[..i];
      if entries[i].hash !in order {
        order := order + [entries[i].hash];
      }
    }
    assert entries[..|entries|] == entries;
  }

  // ---- What the listing is ----

  lemma {:induction false} HashesAtIs(entries: seq<RevisionEntry>, at: seq<nat>)
    requires forall k :: 0 <= k < |at| ==> at[k] < |entries|
    ensures |HashesAt(entries, at)| == |at|
    ensures forall k :: 0 <= k < |at| ==> HashesAt(entries, at)[k] == entries[at[k]].hash
  {
    if at != [] {
      HashesAtIs(entries, at[..|at| - 1]);
    }
  }

  lemma {:induction false} AppendedIs(entries: seq<RevisionEntry>, order: seq<string>)
    requires NoDup(order)
    ensures NoDup(Appended(entries, order)) && order <= Appended(entries, order)
    ensures forall h :: h in Appended(entries, order) <==> h in order || HasKey(entries, h)
  {
    if entries != [] {
      var n := |entries| - 1;
      AppendedIs(entries[..n], order);
      var before := Appended(entries[..n], order);
      forall h
        ensures h in Appended(entries, order) <==> h in order || HasKey(entries, h)
      {
        assert HasKey(entries, h) <==> HasKey(entries[..n], h) || entries[n].hash == h by {
          KeyPush(entries, h);
        }
      }
    }
  }

  lemma KeyPush(entries: seq<RevisionEntry>, h: string)
    requires entries != []
    ensures HasKey(entries, h) <==> HasKey(entries[..|entries| - 1], h) || entries[|entries| - 1].hash == h
  {
  }

  /**
   * On every map, also with cycles and forks off the chain, the listing holds
   * each key exactly once; it begins with the walk, each of whose entries comes
   * right after its predecessor.
   */
  lemma {:induction false} ListingIsTotal(entries: seq<RevisionEntry>, at: seq<nat>)
    requires Keys(entries) && IsWalk(entries, at) && Complete(entries, at)
    ensures
      var order := Appended(entries, HashesAt(entries, at));
      && NoDup(order) && (forall h :: h in order <==> HasKey(entries, h))
      && |at| <= |order|
      && (forall k :: 0 <= k < |at| ==> order[k] == entries[at[k]].hash)
      && (forall k :: 0 < k < |at| ==> entries[at[k]].previous == Text(order[k - 1]))
  {
    var walked := HashesAt(entries, at);
    HashesAtIs(entries, at);
    forall i, j | 0 <= i < j < |walked|
      ensures walked[i] != walked[j]
    {
      WalkIsInjective(entries, at, i, j);
    }
    AppendedIs(entries, walked);
    forall h | h in walked
      ensures HasKey(entries, h)
    {
      var k :| 0 <= k < |walked| && walked[k] == h;
      assert entries[at[k]].hash == h;
    }
    forall k | 0 < k < |at|
      ensures entries[at[k]].previous == Text(Appended(entries, walked)[k - 1])
    {
      assert FirstAfter(entries, entries[at[k - 1]].hash, at[k]);
    }
  }
}
