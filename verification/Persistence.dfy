/**
 * The store component: one field per partition, one method per atomic batch,
 * and the listings over the partitions.
 */
module Persistence {
  import opened Base
  import opened Witness
  import opened Storage
  import opened Sealer
  import opened Backlog

  /** What a batch collects before it is committed. */
  method WriteWitnesses(x: Index, ws: seq<MintedWitness>) returns (y: Index)
    ensures y == PutWitnesses(x, ws)
  {
    y := x;
    for i := 0 to |ws|
      invariant y == PutWitnesses(x, ws[..i])
    {
      assert ws[..i + 1][..i] == ws[..i];
      var w := ws[i];
      y := y.(revisions := y.revisions[w.objectHash := w.objectRevision][w.signatureHash := w.signatureRevision]);
      y := y.(leafToTips := y.leafToTips[LeafMethod(w.leaf, w.via) := w.signatureHash]);
      y := y.(tipToPair := y.tipToPair[w.signatureHash := PairOf(w)]);
    }
    assert ws[..|ws|] == ws;
  }

  method WriteChecked(s: set<Hash>, ws: seq<MintedWitness>) returns (t: set<Hash>)
    ensures t == PutChecked(s, ws)
  {
    t := s;
    for i := 0 to |ws|
      invariant t == PutChecked(s, ws[..i])
    {
      assert ws[..i + 1][..i] == ws[..i];
      t := t + {ws[i].signatureHash};
    }
    assert ws[..|ws|] == ws;
  }

  method WriteLookups(m: map<LeafMethod, nat>, leaves: seq<Leaf>, ms: seq<Method>, e: nat)
      returns (n: map<LeafMethod, nat>)
    ensures n == PutAllLookups(m, leaves, ms, e)
  {
    n := m;
    for i := 0 to |leaves|
      invariant n == PutAllLookups(m, leaves[..i], ms, e)
    {
      assert leaves[..i + 1][..i] == leaves[..i];
      ghost var before := n;
      for j := 0 to |ms|
        invariant n == PutLookups(before, leaves[i], ms[..j], e)
      {
        assert ms[..j + 1][..j] == ms[..j];
        n := n[LeafMethod(leaves[i], ms[j]) := e];
      }
      assert ms[..|ms|] == ms;
    }
    assert leaves[..|leaves|] == leaves;
  }

  /** A lookup is dropped only if the store holds it for this epoch. */
  method RemoveLookups(current: map<LeafMethod, nat>, leaves: seq<Leaf>, m: Method, e: nat)
      returns (n: map<LeafMethod, nat>)
    ensures n == DropLookups(current, current, leaves, m, e)
  {
    n := current;
    for i := 0 to |leaves|
      invariant n == DropLookups(current, current, leaves[..i], m, e)
    {
      assert leaves[..i + 1][..i] == leaves[..i];
      var key := LeafMethod(leaves[i], m);
      if key in current && current[key] == e {
        n := n - {key};
      }
    }
    assert leaves[..|leaves|] == leaves;
  }

  method WriteLeaves(m: map<EpochLeaf, Did>, owners: map<Leaf, Did>, e: nat, entries: seq<LeafEntry>)
      returns (n: map<EpochLeaf, Did>, o: map<Leaf, Did>)
    ensures n == PutLeaves(m, e, entries) && o == PutOwners(owners, entries)
  {
    n, o := m, owners;
    for i := 0 to |entries|
      invariant n == PutLeaves(m, e, entries[..i]) && o == PutOwners(owners, entries[..i])
    {
      assert entries[..i + 1][..i] == entries[..i];
      n := n[EpochLeaf(e, entries[i].leaf) := entries[i].did];
      o := o[entries[i].leaf := entries[i].did];
    }
    assert entries[..|entries|] == entries;
  }

  lemma ListedIs(d: Disk, ids: seq<nat>, ps: seq<PendingRecord>)
    requires |ps| == |ids|
    requires forall j :: 0 <= j < |ids| ==> ids[j] in d.pendingAnchors && ps[j] == d.pendingAnchors[ids[j]]
    ensures (forall e :: e in ids ==> e in d.pendingAnchors) && ps == Listed(d, ids)
  {
    ListedAt(d, ids);
  }

  class Store {
    var epochs: map<nat, EpochRecord>
    var epochLeaves: map<EpochLeaf, Did>
    var leafOwner: map<Leaf, Did>
    var pendingAnchors: map<nat, PendingRecord>
    var pendingLeaves: map<LeafMethod, nat>
    var leafToTips: map<LeafMethod, Hash>
    var tipToPair: map<Hash, TipPair>
    var revisions: map<Hash, Revision>
    var selfChecked: set<Hash>

    function View(): Disk
      reads this
    {
      Disk(epochs, epochLeaves, leafOwner, pendingAnchors, pendingLeaves, leafToTips, tipToPair, revisions, selfChecked)
    }

    constructor ()
      ensures View() == EMPTY_DISK
    {
      epochs, epochLeaves, leafOwner := map[], map[], map[];
      pendingAnchors, pendingLeaves := map[], map[];
      leafToTips, tipToPair, revisions, selfChecked := map[], map[], map[], {};
    }

    /** The one atomic commit of what a batch has collected. */
    method Commit(batch: Disk, o: WriteOutcome) returns (r: WriteResult)
      modifies this
      ensures r == ResultOf(o)
      ensures View() == if Lands(o) then batch else old(View())
    {
      if Lands(o) {
        epochs, epochLeaves, leafOwner := batch.epochs, batch.epochLeaves, batch.leafOwner;
        pendingAnchors, pendingLeaves := batch.pendingAnchors, batch.pendingLeaves;
        leafToTips, tipToPair := batch.leafToTips, batch.tipToPair;
        revisions, selfChecked := batch.revisions, batch.selfChecked;
      }
      return ResultOf(o);
    }

    /** The sealed epoch with its leaves, owners, witnesses and outstanding methods, in one commit. */
    method PersistSealedEpochWithPending(record: EpochRecord, entries: seq<LeafEntry>, ws: seq<MintedWitness>,
                                         pending: Option<PendingRecord>, o: WriteOutcome) returns (r: WriteResult)
      modifies this
      ensures r == Answered(SealedDisk(old(View()), record, entries, ws, pending), o)
      ensures View() == Committed(old(View()), SealedDisk(old(View()), record, entries, ws, pending), o)
    {
      var batch := View();
      if pending.Some? {
        var p := pending.value;
        var hashes := LeafHashes(p.leaves);
        if hashes.Err? {
          return StoreError;
        }
        var lookups := WriteLookups(pendingLeaves, hashes.value, p.methods, p.epochId);
        batch := batch.(pendingAnchors := pendingAnchors[p.epochId := p], pendingLeaves := lookups);
      }
      var leaves, owners := WriteLeaves(epochLeaves, leafOwner, record.id, entries);
      var index := WriteWitnesses(WitnessIndex(View()), ws);
      batch := batch.(epochs := epochs[record.id := record], epochLeaves := leaves, leafOwner := owners,
                      leafToTips := index.leafToTips, tipToPair := index.tipToPair, revisions := index.revisions);
      assert SealedDisk(View(), record, entries, ws, pending) == Ok(batch);
      r := Commit(batch, o);
    }

    /** The self-checked witnesses of `done` and its removal from the pending record, in one commit. */
    method PersistPendingMinted(remaining: PendingRecord, done: Method, ws: seq<MintedWitness>, o: WriteOutcome)
        returns (r: WriteResult)
      modifies this
      ensures r == Answered(MintedDisk(old(View()), remaining, done, ws), o)
      ensures View() == Committed(old(View()), MintedDisk(old(View()), remaining, done, ws), o)
    {
      var index := WriteWitnesses(WitnessIndex(View()), ws);
      var checked := WriteChecked(selfChecked, ws);
      var hashes := LeafHashes(remaining.leaves);
      if hashes.Err? {
        return StoreError;
      }
      var lookups := RemoveLookups(pendingLeaves, hashes.value, done, remaining.epochId);
      var batch := View().(leafToTips := index.leafToTips, tipToPair := index.tipToPair, revisions := index.revisions,
                           selfChecked := checked, pendingLeaves := lookups);
      if remaining.methods == [] {
        batch := batch.(pendingAnchors := pendingAnchors - {remaining.epochId});
      } else {
        batch := batch.(pendingAnchors := pendingAnchors[remaining.epochId := remaining]);
      }
      assert MintedDisk(View(), remaining, done, ws) == Ok(batch);
      r := Commit(batch, o);
    }

    method SavePending(p: PendingRecord, o: WriteOutcome) returns (r: WriteResult)
      modifies this`pendingAnchors
      ensures r == ResultOf(o)
      ensures View() == if Lands(o) then SavedDisk(old(View()), p) else old(View())
    {
      if Lands(o) {
        pendingAnchors := pendingAnchors[p.epochId := p];
      }
      return ResultOf(o);
    }

    /** Every epoch with an outstanding anchor, oldest first. */
    method ListPendingEpochs() returns (ps: seq<PendingRecord>)
      ensures ps == PendingEpochs(View())
    {
      var ids := InOrder(pendingAnchors.Keys);
      ps := [];
      for i := 0 to |ids|
        invariant |ps| == i && forall j :: 0 <= j < i ==> ids[j] in pendingAnchors && ps[j] == pendingAnchors[ids[j]]
      {
        assert ids[i] in ids;
        ps := ps + [pendingAnchors[ids[i]]];
      }
      ListedIs(View(), ids, ps);
    }

    /** The highest persisted id. */
    method LastSealedEpochId() returns (r: Option<nat>)
      ensures r.None? <==> epochs == map[]
      ensures r.Some? ==> r.value in epochs && forall e :: e in epochs ==> e <= r.value
    {
      var ids := InOrder(epochs.Keys);
      if ids == [] {
        assert epochs.Keys == {};
        return None;
      }
      var last := ids[|ids| - 1];
      assert last in ids;
      forall e | e in epochs
        ensures e <= last
      {
        assert e in ids;
      }
      return Some(last);
    }
  }
}
