/**
 * The durable store: nine partitions, written only through atomic batches.
 *
 * `Disk` is the store as a value, with one function per batch. `Persistence`
 * holds the component: each commit is one method, tied to its function. A
 * write lands or does not; an error leaves the store unchanged; a crash may
 * fall on either side of the commit.
 */
module Storage {
  import opened Base
  import opened Merkle
  import opened Witness

  datatype EpochRecord = EpochRecord(id: nat, openedAt: nat, closedAt: nat, merkleRoot: Root, leafCount: nat)

  datatype TipPair = TipPair(
    objectHash: Hash, signatureHash: Hash, leaf: Leaf, via: Method, epochId: nat, did: Did,
    objectFile: FileName, signatureFile: FileName)

  function PairOf(w: MintedWitness): TipPair {
    TipPair(w.objectHash, w.signatureHash, w.leaf, w.via, w.epochId, w.did, w.objectFile, w.signatureFile)
  }

  datatype LeafMethod = LeafMethod(leaf: Leaf, via: Method)

  datatype EpochLeaf = EpochLeaf(epoch: nat, leaf: Leaf)

  datatype Disk = Disk(
    epochs: map<nat, EpochRecord>,
    epochLeaves: map<EpochLeaf, Did>,
    leafOwner: map<Leaf, Did>,
    pendingAnchors: map<nat, PendingRecord>,
    pendingLeaves: map<LeafMethod, nat>,
    leafToTips: map<LeafMethod, Hash>,
    tipToPair: map<Hash, TipPair>,
    revisions: map<Hash, Revision>,
    selfChecked: set<Hash>)

  const EMPTY_DISK: Disk := Disk(map[], map[], map[], map[], map[], map[], map[], map[], {})

  // ---- Batches as functions ----

  /** Every method of `ms` is looked up for `leaf` in epoch `e`. */
  function PutLookups(m: map<LeafMethod, nat>, leaf: Leaf, ms: seq<Method>, e: nat): map<LeafMethod, nat> {
    if ms == [] then m else
      var n := |ms| - 1;
      PutLookups(m, leaf, ms[..n], e)[LeafMethod(leaf, ms[n]) := e]
  }

  function PutAllLookups(m: map<LeafMethod, nat>, leaves: seq<Leaf>, ms: seq<Method>, e: nat): map<LeafMethod, nat> {
    if leaves == [] then m else
      var n := |leaves| - 1;
      PutLookups(PutAllLookups(m, leaves[..n], ms, e), leaves[n], ms, e)
  }

  function PutLeaves(m: map<EpochLeaf, Did>, e: nat, entries: seq<LeafEntry>): map<EpochLeaf, Did> {
    if entries == [] then m else
      var n := |entries| - 1;
      PutLeaves(m, e, entries[..n])[EpochLeaf(e, entries[n].leaf) := entries[n].did]
  }

  function PutOwners(m: map<Leaf, Did>, entries: seq<LeafEntry>): map<Leaf, Did> {
    if entries == [] then m else
      var n := |entries| - 1;
      PutOwners(m, entries[..n])[entries[n].leaf := entries[n].did]
  }

  /** The three partitions `write_witnesses` fills. */
  datatype Index = Index(
    leafToTips: map<LeafMethod, Hash>, tipToPair: map<Hash, TipPair>, revisions: map<Hash, Revision>)

  function PutWitness(x: Index, w: MintedWitness): Index {
    Index(x.leafToTips[LeafMethod(w.leaf, w.via) := w.signatureHash],
          x.tipToPair[w.signatureHash := PairOf(w)],
          x.revisions[w.objectHash := w.objectRevision][w.signatureHash := w.signatureRevision])
  }

  function PutWitnesses(x: Index, ws: seq<MintedWitness>): Index {
    if ws == [] then x else
      var n := |ws| - 1;
      PutWitness(PutWitnesses(x, ws[..n]), ws[n])
  }

  function WitnessIndex(d: Disk): Index {
    Index(d.leafToTips, d.tipToPair, d.revisions)
  }

  function PutChecked(s: set<Hash>, ws: seq<MintedWitness>): set<Hash> {
    if ws == [] then s else
      var n := |ws| - 1;
      PutChecked(s, ws[..n]) + {ws[n].signatureHash}
  }

  /**
   * Lookups of `m` dropped for `leaves`, but only those the store (`current`)
   * holds for epoch `e`: a leaf resubmitted in a later epoch points there.
   */
  function DropLookups(batch: map<LeafMethod, nat>, current: map<LeafMethod, nat>, leaves: seq<Leaf>, m: Method,
                       e: nat): map<LeafMethod, nat> {
    if leaves == [] then batch else
      var n := |leaves| - 1;
      var rest := DropLookups(batch, current, leaves[..n], m, e);
      var key := LeafMethod(leaves[n], m);
      if key in current && current[key] == e then rest - {key} else rest
  }

  /** The sealed epoch, its leaves, and its outstanding methods, in one batch. */
  function SealedDisk(d: Disk, record: EpochRecord, entries: seq<LeafEntry>, ws: seq<MintedWitness>,
                      pending: Option<PendingRecord>): Result<Disk, StoredLeafError>
  {
    match WithPending(d, pending)
    case Err(e) => Err(e)
    case Ok(d1) =>
      var index := PutWitnesses(WitnessIndex(d), ws);
      Ok(d1.(epochs := d.epochs[record.id := record],
             epochLeaves := PutLeaves(d.epochLeaves, record.id, entries),
             leafOwner := PutOwners(d.leafOwner, entries),
             leafToTips := index.leafToTips, tipToPair := index.tipToPair, revisions := index.revisions))
  }

  /** The pending record and its per-leaf lookups, when there is one. */
  function WithPending(d: Disk, pending: Option<PendingRecord>): Result<Disk, StoredLeafError> {
    match pending
    case None => Ok(d)
    case Some(p) =>
      match LeafHashes(p.leaves)
      case Err(e) => Err(e)
      case Ok(leaves) =>
        Ok(d.(pendingAnchors := d.pendingAnchors[p.epochId := p],
              pendingLeaves := PutAllLookups(d.pendingLeaves, leaves, p.methods, p.epochId)))
  }

  /** The self-checked witnesses of `done`, and its removal from the pending record, in one batch. */
  function MintedDisk(d: Disk, remaining: PendingRecord, done: Method,
                      ws: seq<MintedWitness>): Result<Disk, StoredLeafError>
  {
    match LeafHashes(remaining.leaves)
    case Err(e) => Err(e)
    case Ok(leaves) =>
      var index := PutWitnesses(WitnessIndex(d), ws);
      Ok(d.(leafToTips := index.leafToTips, tipToPair := index.tipToPair, revisions := index.revisions,
            selfChecked := PutChecked(d.selfChecked, ws),
            pendingLeaves := DropLookups(d.pendingLeaves, d.pendingLeaves, leaves, done, remaining.epochId),
            pendingAnchors := if remaining.methods == [] then d.pendingAnchors - {remaining.epochId}
                              else d.pendingAnchors[remaining.epochId := remaining]))
  }

  function SavedDisk(d: Disk, p: PendingRecord): Disk {
    d.(pendingAnchors := d.pendingAnchors[p.epochId := p])
  }

  // ---- Outcomes of a write ----

  /**
   * A commit lands, is refused with an error, or lands while the sync after it
   * reports an error; a crash may fall on either side of it.
   */
  datatype WriteOutcome = Written | Refused | Unsynced | CrashBefore | CrashAfter

  datatype WriteResult = Done | StoreError | Crash

  predicate Lands(w: WriteOutcome) {
    w == Written || w == Unsynced || w == CrashAfter
  }

  function ResultOf(w: WriteOutcome): WriteResult {
    match w
    case Written => Done
    case Refused => StoreError
    case Unsynced => StoreError
    case CrashBefore => Crash
    case CrashAfter => Crash
  }

  /** The store after committing the batch `r` with outcome `o`; a batch that cannot be built is not committed. */
  function Committed(d: Disk, r: Result<Disk, StoredLeafError>, o: WriteOutcome): Disk {
    if r.Ok? && Lands(o) then r.value else d
  }

  function Answered(r: Result<Disk, StoredLeafError>, o: WriteOutcome): WriteResult {
    if r.Ok? then ResultOf(o) else StoreError
  }

  // ---- What the batches do, key by key ----

  lemma {:induction false} PutLookupsAt(m: map<LeafMethod, nat>, leaf: Leaf, ms: seq<Method>, e: nat, k: LeafMethod)
    ensures k in PutLookups(m, leaf, ms, e) <==> k in m || (k.leaf == leaf && k.via in ms)
    ensures k in PutLookups(m, leaf, ms, e) ==>
      PutLookups(m, leaf, ms, e)[k] == if k.leaf == leaf && k.via in ms then e else m[k]
  {
    if ms != [] {
      PutLookupsAt(m, leaf, ms[..|ms| - 1], e, k);
      assert ms == ms[..|ms| - 1] + [ms[|ms| - 1]];
    }
  }

  lemma {:induction false} PutAllLookupsAt(m: map<LeafMethod, nat>, leaves: seq<Leaf>, ms: seq<Method>, e: nat,
                                           k: LeafMethod)
    ensures k in PutAllLookups(m, leaves, ms, e) <==> k in m || (k.leaf in leaves && k.via in ms)
    ensures k in PutAllLookups(m, leaves, ms, e) ==>
      PutAllLookups(m, leaves, ms, e)[k] == if k.leaf in leaves && k.via in ms then e else m[k]
  {
    if leaves != [] {
      var n := |leaves| - 1;
      PutAllLookupsAt(m, leaves[..n], ms, e, k);
      PutLookupsAt(PutAllLookups(m, leaves[..n], ms, e), leaves[n], ms, e, k);
      assert leaves == leaves[..n] + [leaves[n]];
    }
  }

  lemma {:induction false} PutLeavesAt(m: map<EpochLeaf, Did>, e: nat, entries: seq<LeafEntry>, k: EpochLeaf)
    ensures k in PutLeaves(m, e, entries) <==> k in m || (k.epoch == e && k.leaf in LeafSet(entries))
    ensures k in m && !(k.epoch == e && k.leaf in LeafSet(entries)) ==> PutLeaves(m, e, entries)[k] == m[k]
  {
    if entries != [] {
      PutLeavesAt(m, e, entries[..|entries| - 1], k);
    }
  }

  lemma {:induction false} PutLeavesValue(m: map<EpochLeaf, Did>, e: nat, entries: seq<LeafEntry>, i: nat)
    requires DistinctLeaves(entries) && i < |entries|
    ensures EpochLeaf(e, entries[i].leaf) in PutLeaves(m, e, entries)
    ensures PutLeaves(m, e, entries)[EpochLeaf(e, entries[i].leaf)] == entries[i].did
  {
    var n := |entries| - 1;
    if i < n {
      PutLeavesValue(m, e, entries[..n], i);
    }
  }

  lemma {:induction false} PutOwnersAt(m: map<Leaf, Did>, entries: seq<LeafEntry>, l: Leaf)
    ensures l in PutOwners(m, entries) <==> l in m || l in LeafSet(entries)
    ensures l in m && l !in LeafSet(entries) ==> PutOwners(m, entries)[l] == m[l]
  {
    if entries != [] {
      PutOwnersAt(m, entries[..|entries| - 1], l);
    }
  }

  lemma {:induction false} PutOwnersValue(m: map<Leaf, Did>, entries: seq<LeafEntry>, i: nat)
    requires DistinctLeaves(entries) && i < |entries|
    ensures entries[i].leaf in PutOwners(m, entries) && PutOwners(m, entries)[entries[i].leaf] == entries[i].did
  {
    var n := |entries| - 1;
    if i < n {
      PutOwnersValue(m, entries[..n], i);
      assert entries[i].leaf != entries[n].leaf;
    }
  }

  lemma {:induction false} DropLookupsAt(batch: map<LeafMethod, nat>, current: map<LeafMethod, nat>,
                                         leaves: seq<Leaf>, m: Method, e: nat, k: LeafMethod)
    ensures k in DropLookups(batch, current, leaves, m, e) <==>
      k in batch && !(k.leaf in leaves && k.via == m && k in current && current[k] == e)
    ensures k in DropLookups(batch, current, leaves, m, e) ==> DropLookups(batch, current, leaves, m, e)[k] == batch[k]
  {
    if leaves != [] {
      var n := |leaves| - 1;
      DropLookupsAt(batch, current, leaves[..n], m, e, k);
      assert leaves == leaves[..n] + [leaves[n]];
    }
  }

  /** Some witness of `ws` has tip `t`. */
  ghost predicate TipIn(ws: seq<MintedWitness>, t: Hash) {
    exists i :: 0 <= i < |ws| && ws[i].signatureHash == t
  }

  ghost predicate CoversIn(ws: seq<MintedWitness>, k: LeafMethod) {
    exists i :: 0 <= i < |ws| && LeafMethod(ws[i].leaf, ws[i].via) == k
  }

  lemma {:induction false} PutCheckedAt(s: set<Hash>, ws: seq<MintedWitness>, t: Hash)
    ensures t in PutChecked(s, ws) <==> t in s || TipIn(ws, t)
  {
    if ws != [] {
      var n := |ws| - 1;
      PutCheckedAt(s, ws[..n], t);
      if TipIn(ws[..n], t) {
        var i :| 0 <= i < n && ws[..n][i].signatureHash == t;
        assert ws[i].signatureHash == t;
      }
      if TipIn(ws, t) && ws[n].signatureHash != t {
        var i :| 0 <= i < |ws| && ws[i].signatureHash == t;
        assert ws[..n][i].signatureHash == t;
      }
    }
  }

  /** Which tips exist after writing witnesses; old ones survive. */
  lemma {:induction false} TipKeys(x: Index, ws: seq<MintedWitness>, t: Hash)
    ensures t in PutWitnesses(x, ws).tipToPair <==> t in x.tipToPair || TipIn(ws, t)
    ensures !TipIn(ws, t) && t in x.tipToPair ==> PutWitnesses(x, ws).tipToPair[t] == x.tipToPair[t]
  {
    if ws != [] {
      var n := |ws| - 1;
      TipKeys(x, ws[..n], t);
      assert forall i :: 0 <= i < n ==> ws[..n][i] == ws[i];
      if TipIn(ws, t) && !TipIn(ws[..n], t) {
        var i :| 0 <= i < |ws| && ws[i].signatureHash == t;
        assert i == n;
      }
    }
  }

  /** Which lookups exist after writing witnesses; old ones survive. */
  lemma {:induction false} TipOfLeafKeys(x: Index, ws: seq<MintedWitness>, k: LeafMethod)
    ensures k in PutWitnesses(x, ws).leafToTips <==> k in x.leafToTips || CoversIn(ws, k)
    ensures !CoversIn(ws, k) && k in x.leafToTips ==> PutWitnesses(x, ws).leafToTips[k] == x.leafToTips[k]
  {
    if ws != [] {
      var n := |ws| - 1;
      TipOfLeafKeys(x, ws[..n], k);
      assert forall i :: 0 <= i < n ==> ws[..n][i] == ws[i];
      if CoversIn(ws, k) && !CoversIn(ws[..n], k) {
        var i :| 0 <= i < |ws| && LeafMethod(ws[i].leaf, ws[i].via) == k;
        assert i == n;
      }
    }
  }

  ghost predicate DistinctTips(ws: seq<MintedWitness>) {
    forall i, j :: 0 <= i < j < |ws| ==> ws[i].signatureHash != ws[j].signatureHash
  }

  ghost predicate DistinctCovers(ws: seq<MintedWitness>) {
    forall i, j :: 0 <= i < j < |ws| ==> LeafMethod(ws[i].leaf, ws[i].via) != LeafMethod(ws[j].leaf, ws[j].via)
  }

  lemma {:induction false} PutWitnessesValue(x: Index, ws: seq<MintedWitness>, i: nat)
    requires i < |ws| && DistinctTips(ws) && DistinctCovers(ws)
    ensures
      var y := PutWitnesses(x, ws);
      var k := LeafMethod(ws[i].leaf, ws[i].via);
      && ws[i].signatureHash in y.tipToPair && y.tipToPair[ws[i].signatureHash] == PairOf(ws[i])
      && k in y.leafToTips && y.leafToTips[k] == ws[i].signatureHash
      && ws[i].objectHash in y.revisions && ws[i].signatureHash in y.revisions
  {
    var n := |ws| - 1;
    if i < n {
      PutWitnessesValue(x, ws[..n], i);
    }
  }
}
