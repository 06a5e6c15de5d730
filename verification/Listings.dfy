/**
 * The union listing of an epoch and the totals: what the store lists, against
 * the leaves that were sealed.
 */
module Listings {
  import opened Base
  import opened Witness
  import opened Storage
  import opened Sealer
  import opened Invariants
  import opened Persistence
  import opened Routes

  // ---- The witnesses of a DID in an epoch ----

  predicate Matches(p: TipPair, did: Did, e: nat, m: Method) {
    p.epochId == e && p.via == m && p.did == did
  }

  /** The tips of `did` in epoch `e` under `m`. */
  ghost function ListedTips(pairs: map<Hash, TipPair>, did: Did, e: nat, m: Method): set<Hash> {
    set t | t in pairs && Matches(pairs[t], did, e, m)
  }

  /** `out` lists the pairs of `tips`, each once. */
  ghost predicate Enumerates(pairs: map<Hash, TipPair>, tips: set<Hash>, out: seq<TipPair>) {
    && (forall i :: 0 <= i < |out| ==>
         out[i].signatureHash in tips && out[i].signatureHash in pairs && pairs[out[i].signatureHash] == out[i])
    && (forall i, j :: 0 <= i < j < |out| ==> out[i].signatureHash != out[j].signatureHash)
    && (forall t :: t in tips ==> exists i :: 0 <= i < |out| && out[i].signatureHash == t)
  }

  /** Pairs are stored under their own tip. */
  ghost predicate KeyedByTip(pairs: map<Hash, TipPair>) {
    forall t :: t in pairs ==> pairs[t].signatureHash == t
  }

  lemma EnumeratesPush(pairs: map<Hash, TipPair>, tips: set<Hash>, out: seq<TipPair>, t: Hash)
    requires Enumerates(pairs, tips, out) && t in pairs && t !in tips && pairs[t].signatureHash == t
    ensures Enumerates(pairs, tips + {t}, out + [pairs[t]])
  {
    var out' := out + [pairs[t]];
    forall u | u in tips + {t}
      ensures exists i :: 0 <= i < |out'| && out'[i].signatureHash == u
    {
      if u == t {
        assert out'[|out|].signatureHash == t;
      } else {
        var i :| 0 <= i < |out| && out[i].signatureHash == u;
        assert out'[i].signatureHash == u;
      }
    }
  }

  /** The scan of all tips for those of a DID, an epoch and a method. */
  method ListWitnesses(store: Store, did: Did, e: nat, m: Method) returns (out: seq<TipPair>)
    requires KeyedByTip(store.tipToPair)
    ensures Enumerates(store.tipToPair, ListedTips(store.tipToPair, did, e, m), out)
  {
    out := [];
    var pairs := store.tipToPair;
    var left := pairs.Keys;
    while left != {}
      invariant left <= pairs.Keys
      invariant Enumerates(pairs, ListedTips(pairs, did, e, m) - left, out)
      decreases |left|
    {
      var t :| t in left;
      if Matches(pairs[t], did, e, m) {
        EnumeratesPush(pairs, ListedTips(pairs, did, e, m) - left, out, t);
        out := out + [pairs[t]];
        assert ListedTips(pairs, did, e, m) - (left - {t}) == ListedTips(pairs, did, e, m) - left + {t};
      } else {
        assert ListedTips(pairs, did, e, m) - (left - {t}) == ListedTips(pairs, did, e, m) - left;
      }
      left := left - {t};
    }
    assert ListedTips(pairs, did, e, m) - {} == ListedTips(pairs, did, e, m);
  }

  /** The listing holds a pair of `leaf`. */
  ghost predicate LeafListed(pairs: map<Hash, TipPair>, tips: set<Hash>, leaf: Leaf) {
    exists t :: t in tips && t in pairs && pairs[t].leaf == leaf
  }

  /** A listed tip is the witness of one sealed leaf of this DID. */
  lemma ListedIsSubmitted(cfg: Config, h: History, served: Ledger, d: Disk, did: Did, e: nat, m: Method, t: Hash)
    requires DiskInv(cfg, h, served, d) && t in ListedTips(d.tipToPair, did, e, m)
    ensures EpochMethod(e, m) in served && e in h && |served[EpochMethod(e, m)].witnesses| == |h[e].entries|
    ensures exists i ::
      0 <= i < |h[e].entries| && h[e].entries[i] == LeafEntry(d.tipToPair[t].leaf, did)
      && served[EpochMethod(e, m)].witnesses[i].signatureHash == t
  {
    Parts(cfg, h, served, d);
    var k := EpochMethod(e, m);
    SelfCheckedTipIsGenuine(cfg, h, served, d, t);
    var i :| 0 <= i < |served[k].witnesses| && IsWitnessOf(d, served[k].witnesses[i], t);
    ServedLeafAt(cfg, h, k, served[k], i);
    assert h[e].entries[i] == LeafEntry(d.tipToPair[t].leaf, did);
  }

  lemma OneTipPerLeaf(cfg: Config, h: History, served: Ledger, d: Disk, did: Did, e: nat, m: Method, t1: Hash, t2: Hash)
    requires DiskInv(cfg, h, served, d)
    requires t1 in ListedTips(d.tipToPair, did, e, m) && t2 in ListedTips(d.tipToPair, did, e, m)
    requires d.tipToPair[t1].leaf == d.tipToPair[t2].leaf
    ensures t1 == t2
  {
    ListedIsSubmitted(cfg, h, served, d, did, e, m, t1);
    ListedIsSubmitted(cfg, h, served, d, did, e, m, t2);
    SealedIsOk(cfg, h, served, d, e);
    var ws := served[EpochMethod(e, m)].witnesses;
    var leaf := d.tipToPair[t1].leaf;
    var i :| 0 <= i < |h[e].entries| && h[e].entries[i] == LeafEntry(leaf, did) && ws[i].signatureHash == t1;
    var j :| 0 <= j < |h[e].entries| && h[e].entries[j] == LeafEntry(leaf, did) && ws[j].signatureHash == t2;
    assert i == j;
  }

  lemma SealedIsOk(cfg: Config, h: History, served: Ledger, d: Disk, e: nat)
    requires DiskInv(cfg, h, served, d) && e in h
    ensures SealedOk(h[e])
  {
    Parts(cfg, h, served, d);
  }

  lemma IndexedIsEntry(h: History, epochLeaves: map<EpochLeaf, Did>, e: nat, leaf: Leaf)
    requires LeavesInv(h, epochLeaves) && EpochLeaf(e, leaf) in epochLeaves
    ensures e in h && exists i ::
      0 <= i < |h[e].entries| && h[e].entries[i] == LeafEntry(leaf, epochLeaves[EpochLeaf(e, leaf)])
  {
    LeafSetMember(h[e].entries, leaf);
    var i :| 0 <= i < |h[e].entries| && h[e].entries[i].leaf == leaf;
    assert h[e].entries[i] == LeafEntry(leaf, epochLeaves[EpochLeaf(e, leaf)]);
  }

  lemma WitnessIsListed(cfg: Config, h: History, served: Ledger, d: Disk, k: EpochMethod, i: nat)
    requires TipInv(served, d.tipToPair, d.selfChecked) && k in served && k.epoch in h
    requires ServeOk(cfg, k, h[k.epoch], served[k])
    requires i < |h[k.epoch].entries|
    ensures LeafListed(d.tipToPair, ListedTips(d.tipToPair, h[k.epoch].entries[i].did, k.epoch, k.via),
                       h[k.epoch].entries[i].leaf)
  {
    ServedWitness(cfg, k, h[k.epoch], served[k]);
    var w := served[k].witnesses[i];
    ServedLeafAt(cfg, h, k, served[k], i);
    assert TipStored(w, d.tipToPair);
    assert w.signatureHash in ListedTips(d.tipToPair, w.did, k.epoch, k.via);
  }

  /** Once `m` is served for the epoch, every leaf of the DID is listed. */
  lemma SubmittedIsListed(cfg: Config, h: History, served: Ledger, d: Disk, did: Did, e: nat, m: Method, leaf: Leaf)
    requires DiskInv(cfg, h, served, d) && EpochMethod(e, m) in served
    requires EpochLeaf(e, leaf) in d.epochLeaves && d.epochLeaves[EpochLeaf(e, leaf)] == did
    ensures LeafListed(d.tipToPair, ListedTips(d.tipToPair, did, e, m), leaf)
  {
    Parts(cfg, h, served, d);
    IndexedIsEntry(h, d.epochLeaves, e, leaf);
    var i :| 0 <= i < |h[e].entries| && h[e].entries[i] == LeafEntry(leaf, did);
    WitnessIsListed(cfg, h, served, d, EpochMethod(e, m), i);
  }

  /**
   * The listing is the simple thing. For an epoch sealed with `m` and no longer
   * pending for it, the DID's listing holds exactly one pair for each leaf of
   * the epoch's leaf index this DID submitted, and nothing else. While `m` is
   * pending, or was not enabled, it is empty.
   */
  lemma ListingIsTheSubmittedLeaves(cfg: Config, h: History, served: Ledger, d: Disk, did: Did, e: nat, m: Method)
    requires DiskInv(cfg, h, served, d) && e in h
    ensures
      var tips := ListedTips(d.tipToPair, did, e, m);
      && (m in h[e].methods && !Pends(d.pendingAnchors, e, m) ==>
            forall leaf :: LeafListed(d.tipToPair, tips, leaf)
              <==> EpochLeaf(e, leaf) in d.epochLeaves && d.epochLeaves[EpochLeaf(e, leaf)] == did)
      && (m !in h[e].methods || Pends(d.pendingAnchors, e, m) ==> tips == {})
      && (forall t1, t2 :: t1 in tips && t2 in tips && d.tipToPair[t1].leaf == d.tipToPair[t2].leaf ==> t1 == t2)
  {
    var tips := ListedTips(d.tipToPair, did, e, m);
    PhaseOf(cfg, h, served, d, e, m);
    if m in h[e].methods && !Pends(d.pendingAnchors, e, m) {
      forall leaf
        ensures LeafListed(d.tipToPair, tips, leaf) <==>
          EpochLeaf(e, leaf) in d.epochLeaves && d.epochLeaves[EpochLeaf(e, leaf)] == did
      {
        if LeafListed(d.tipToPair, tips, leaf) {
          var t :| t in tips && t in d.tipToPair && d.tipToPair[t].leaf == leaf;
          ListedInIndex(cfg, h, served, d, did, e, m, t);
        }
        if EpochLeaf(e, leaf) in d.epochLeaves && d.epochLeaves[EpochLeaf(e, leaf)] == did {
          SubmittedIsListed(cfg, h, served, d, did, e, m, leaf);
        }
      }
    } else {
      forall t | t in tips
        ensures false
      {
        ListedIsSubmitted(cfg, h, served, d, did, e, m, t);
      }
    }
    forall t1, t2 | t1 in tips && t2 in tips && d.tipToPair[t1].leaf == d.tipToPair[t2].leaf
      ensures t1 == t2
    {
      OneTipPerLeaf(cfg, h, served, d, did, e, m, t1, t2);
    }
  }

  lemma PhaseOf(cfg: Config, h: History, served: Ledger, d: Disk, e: nat, m: Method)
    requires DiskInv(cfg, h, served, d) && e in h
    ensures EpochMethod(e, m) in served <==> m in h[e].methods && !Pends(d.pendingAnchors, e, m)
  {
    Parts(cfg, h, served, d);
  }

  lemma ListedInIndex(cfg: Config, h: History, served: Ledger, d: Disk, did: Did, e: nat, m: Method, t: Hash)
    requires DiskInv(cfg, h, served, d) && t in ListedTips(d.tipToPair, did, e, m)
    ensures
      var k := EpochLeaf(e, d.tipToPair[t].leaf);
      k in d.epochLeaves && d.epochLeaves[k] == did
  {
    ListedIsSubmitted(cfg, h, served, d, did, e, m, t);
    Parts(cfg, h, served, d);
    var i :| 0 <= i < |h[e].entries| && h[e].entries[i] == LeafEntry(d.tipToPair[t].leaf, did);
    assert EpochLeaf(e, h[e].entries[i].leaf) in d.epochLeaves;
  }

  // ---- The response maps ----

  /** Loading the pairs one after the other. */
  function LoadAll(d: Disk, idxs: seq<TipPair>): Result<Tree, Fault> {
    if idxs == [] then Ok(Tree(map[], map[])) else
      var n := |idxs| - 1;
      match LoadAll(d, idxs[..n])
      case Err(f) => Err(f)
      case Ok(t) => LoadPair(d, idxs[n], t)
  }

  /** The `revisions` and `file_index` maps of a response while they are filled. */
  class ResponseMaps {
    var revisions: map<Hash, Revision>
    var fileIndex: map<Hash, FileName>

    function View(): Tree
      reads this
    {
      Tree(revisions, fileIndex)
    }

    constructor ()
      ensures View() == Tree(map[], map[])
    {
      revisions, fileIndex := map[], map[];
    }

    /** Add one pair: nothing is added unless both revisions are stored. */
    method LoadPairInto(store: Store, idx: TipPair) returns (r: Option<Fault>)
      modifies this
      ensures r.None? <==> LoadPair(store.View(), idx, old(View())).Ok?
      ensures r.None? ==> View() == LoadPair(store.View(), idx, old(View())).value
      ensures r.Some? ==> View() == old(View()) && r.value == LoadPair(store.View(), idx, old(View())).error
    {
      if idx.objectHash !in store.revisions {
        return Some(ObjectRevisionMissing);
      }
      if idx.signatureHash !in store.revisions {
        return Some(SignatureRevisionMissing);
      }
      revisions := revisions[idx.objectHash := store.revisions[idx.objectHash]];
      revisions := revisions[idx.signatureHash := store.revisions[idx.signatureHash]];
      fileIndex := fileIndex[idx.objectHash := idx.objectFile];
      fileIndex := fileIndex[idx.signatureHash := idx.signatureFile];
      return None;
    }
  }

  lemma {:induction false} LoadPrefixFails(d: Disk, idxs: seq<TipPair>, i: nat)
    requires i <= |idxs| && LoadAll(d, idxs[..i]).Err?
    ensures LoadAll(d, idxs) == LoadAll(d, idxs[..i])
    decreases |idxs| - i
  {
    if i < |idxs| {
      assert idxs[..i + 1][..i] == idxs[..i];
      LoadPrefixFails(d, idxs, i + 1);
    } else {
      assert idxs[..i] == idxs;
    }
  }

  method LoadListed(store: Store, idxs: seq<TipPair>) returns (a: Answer)
    ensures a == match LoadAll(store.View(), idxs) case Ok(t) => Found(t) case Err(f) => Internal(f)
  {
    var maps := new ResponseMaps();
    for i := 0 to |idxs|
      invariant LoadAll(store.View(), idxs[..i]) == Ok(maps.View())
    {
      assert idxs[..i + 1][..i] == idxs[..i];
      var fault := maps.LoadPairInto(store, idxs[i]);
      if fault.Some? {
        LoadPrefixFails(store.View(), idxs, i + 1);
        return Internal(fault.value);
      }
    }
    assert idxs[..|idxs|] == idxs;
    return Found(maps.View());
  }

  /** `anchor_stalled`: the scan over the listed pending records. */
  method ScanStalled(store: Store, cap: nat, m: Method, e: nat) returns (stalled: bool)
    ensures stalled <==> IsStalled(store.View(), cap, m, e)
  {
    var ps := store.ListPendingEpochs();
    stalled := AnyStalled(ps, cap, m, e);
  }

  method AnyStalled(ps: seq<PendingRecord>, cap: nat, m: Method, e: nat) returns (stalled: bool)
    ensures stalled <==> exists i :: 0 <= i < |ps| && StalledRecord(ps[i], cap, m, e)
  {
    for i := 0 to |ps|
      invariant forall j :: 0 <= j < i ==> !StalledRecord(ps[j], cap, m, e)
    {
      if StalledRecord(ps[i], cap, m, e) {
        return true;
      }
    }
    return false;
  }

  /** `GET /trees?epoch=&method=`: the union of the caller's witnesses in an epoch. */
  method UnionForEpoch(store: Store, cap: nat, caller: Did, e: nat, m: Method)
      returns (a: Answer, ghost listed: seq<TipPair>)
    requires KeyedByTip(store.tipToPair)
    ensures e !in store.epochs ==> a == NoSuch(EpochNotSealed)
    ensures e in store.epochs && Pends(store.pendingAnchors, e, m) ==> a == PendingAnswer(store.View(), cap, m, e, None)
    ensures e in store.epochs && !Pends(store.pendingAnchors, e, m) ==>
      && Enumerates(store.tipToPair, ListedTips(store.tipToPair, caller, e, m), listed)
      && a == UnionAnswer(store.View(), listed, e, m)
  {
    listed := [];
    if e !in store.epochs {
      return NoSuch(EpochNotSealed), listed;
    }
    if e in store.pendingAnchors && m in store.pendingAnchors[e].methods {
      var stalled := ScanStalled(store, cap, m, e);
      return if stalled then AnchorStalled(m, e, None) else StillPending(m, e, None), listed;
    }
    var entries := ListWitnesses(store, caller, e, m);
    listed := entries;
    for i := 0 to |entries|
      invariant forall j :: 0 <= j < i ==> entries[j].signatureHash in store.selfChecked
    {
      if entries[i].signatureHash !in store.selfChecked {
        return NotVerifiable(m, e, None), listed;
      }
    }
    a := LoadListed(store, entries);
  }

  ghost function UnionAnswer(d: Disk, listed: seq<TipPair>, e: nat, m: Method): Answer {
    if exists i :: 0 <= i < |listed| && listed[i].signatureHash !in d.selfChecked then NotVerifiable(m, e, None)
    else match LoadAll(d, listed)
      case Err(f) => Internal(f)
      case Ok(t) => Found(t)
  }

  /** A revision of one of the pairs. */
  ghost predicate OfPair(p: TipPair, g: Hash) {
    g == p.objectHash || g == p.signatureHash
  }

  ghost predicate AllStored(d: Disk, idxs: seq<TipPair>) {
    forall i :: 0 <= i < |idxs| ==> idxs[i].objectHash in d.revisions && idxs[i].signatureHash in d.revisions
  }

  lemma {:induction false} StoredLoads(d: Disk, idxs: seq<TipPair>)
    requires AllStored(d, idxs)
    ensures LoadAll(d, idxs).Ok?
  {
    if idxs != [] {
      StoredLoads(d, idxs[..|idxs| - 1]);
    }
  }

  ghost predicate OfSome(idxs: seq<TipPair>, g: Hash) {
    exists i :: 0 <= i < |idxs| && OfPair(idxs[i], g)
  }

  lemma OfSomePush(idxs: seq<TipPair>, g: Hash)
    requires idxs != []
    ensures OfSome(idxs, g) <==> OfSome(idxs[..|idxs| - 1], g) || OfPair(idxs[|idxs| - 1], g)
  {
    var init := idxs[..|idxs| - 1];
    if OfSome(init, g) {
      var i :| 0 <= i < |init| && OfPair(init[i], g);
      assert OfPair(idxs[i], g);
    }
    if OfSome(idxs, g) && !OfPair(idxs[|idxs| - 1], g) {
      var i :| 0 <= i < |idxs| && OfPair(idxs[i], g);
      assert OfPair(init[i], g);
    }
  }

  /** Exactly the revisions of the pairs are loaded, each as the store has it. */
  lemma {:induction false} LoadAllIsExact(d: Disk, idxs: seq<TipPair>, g: Hash)
    requires LoadAll(d, idxs).Ok?
    ensures
      var t := LoadAll(d, idxs).value;
      && (g in t.revisions <==> OfSome(idxs, g)) && (g in t.revisions <==> g in t.fileIndex)
      && (g in t.revisions ==> g in d.revisions && t.revisions[g] == d.revisions[g])
  {
    if idxs != [] {
      LoadAllIsExact(d, idxs[..|idxs| - 1], g);
      OfSomePush(idxs, g);
    }
  }

  /** The file name of a revision: of an object, for its leaf; of a signature, for the leaf of the object it signs. */
  ghost predicate IsNamed(g: Hash, m: Method, f: FileName) {
    match g.preimage
    case TimestampObject(leaf, _) => IsObjectFile(f, m, leaf)
    case Signature(signs, _, _) => signs.preimage.TimestampObject? && IsSignatureFile(f, m, signs.preimage.previous)
  }

  ghost predicate PairNamed(p: TipPair, m: Method) {
    IsNamed(p.objectHash, m, p.objectFile) && IsNamed(p.signatureHash, m, p.signatureFile)
  }

  ghost predicate AllNamed(idxs: seq<TipPair>, m: Method) {
    forall i :: 0 <= i < |idxs| ==> PairNamed(idxs[i], m)
  }

  lemma {:induction false} LoadAllIsNamed(d: Disk, idxs: seq<TipPair>, m: Method, g: Hash)
    requires LoadAll(d, idxs).Ok? && AllNamed(idxs, m) && g in LoadAll(d, idxs).value.fileIndex
    ensures IsNamed(g, m, LoadAll(d, idxs).value.fileIndex[g])
  {
    if idxs != [] {
      var n := |idxs| - 1;
      assert PairNamed(idxs[n], m);
      if g in LoadAll(d, idxs[..n]).value.fileIndex {
        LoadAllIsNamed(d, idxs[..n], m, g);
      }
    }
  }

  /** A stored pair's files are named for its leaf. */
  lemma StoredPairIsNamed(cfg: Config, h: History, served: Ledger, d: Disk, t: Hash)
    requires DiskInv(cfg, h, served, d) && t in d.tipToPair
    ensures PairNamed(d.tipToPair[t], d.tipToPair[t].via)
  {
    Parts(cfg, h, served, d);
    SelfCheckedTipIsGenuine(cfg, h, served, d, t);
    var k := EpochMethod(d.tipToPair[t].epochId, d.tipToPair[t].via);
    var i :| 0 <= i < |served[k].witnesses| && IsWitnessOf(d, served[k].witnesses[i], t);
    var batch := Batch(k.epoch, h[k.epoch].root, h[k.epoch].entries);
    var v := served[k].record.value.Anchor(k.via).value.value;
    MintedSetIs(batch, k.via, v, cfg.serviceDid, served[k].mint.salts);
    assert IsWitness(served[k].witnesses[i], batch, i, k.via, v, cfg.serviceDid, served[k].mint.salts(i, k.via));
  }

  /** The union's tree over `listed`: exactly the revisions of the listed pairs, each under its hash and name. */
  ghost predicate UnionTree(listed: seq<TipPair>, m: Method, t: Tree) {
    && (forall g :: g in t.revisions <==> OfSome(listed, g))
    && (forall g :: g in t.revisions ==> t.revisions[g] == g.preimage)
    && t.fileIndex.Keys == t.revisions.Keys
    && (forall g :: g in t.fileIndex ==> IsNamed(g, m, t.fileIndex[g]))
  }

  /**
   * The union of a settled epoch is served, never 410 and never an internal
   * error, and holds exactly the revisions of the DID's listed pairs.
   */
  lemma UnionIsExact(cfg: Config, h: History, served: Ledger, d: Disk, did: Did, e: nat, m: Method,
                     listed: seq<TipPair>)
    requires DiskInv(cfg, h, served, d) && Enumerates(d.tipToPair, ListedTips(d.tipToPair, did, e, m), listed)
    ensures UnionAnswer(d, listed, e, m).Found?
    ensures UnionTree(listed, m, UnionAnswer(d, listed, e, m).tree)
  {
    Parts(cfg, h, served, d);
    forall i | 0 <= i < |listed|
      ensures PairNamed(listed[i], m)
    {
      StoredPairIsNamed(cfg, h, served, d, listed[i].signatureHash);
    }
    LoadsWhenStored(d, listed, e, m);
  }

  lemma LoadsWhenStored(d: Disk, listed: seq<TipPair>, e: nat, m: Method)
    requires RevisionInv(d.tipToPair, d.revisions) && d.selfChecked == d.tipToPair.Keys && AllNamed(listed, m)
    requires forall i :: 0 <= i < |listed| ==>
      listed[i].signatureHash in d.tipToPair && d.tipToPair[listed[i].signatureHash] == listed[i]
    ensures UnionAnswer(d, listed, e, m).Found?
    ensures UnionTree(listed, m, UnionAnswer(d, listed, e, m).tree)
  {
    StoredLoads(d, listed);
    LoadedTree(d, listed, m);
  }

  lemma LoadedTree(d: Disk, listed: seq<TipPair>, m: Method)
    requires LoadAll(d, listed).Ok? && AllNamed(listed, m)
    requires forall g :: g in d.revisions ==> d.revisions[g] == g.preimage
    ensures UnionTree(listed, m, LoadAll(d, listed).value)
  {
    var t := LoadAll(d, listed).value;
    forall g
      ensures g in t.revisions <==> OfSome(listed, g)
      ensures g in t.revisions <==> g in t.fileIndex
      ensures g in t.revisions ==> t.revisions[g] == g.preimage
      ensures g in t.fileIndex ==> IsNamed(g, m, t.fileIndex[g])
    {
      LoadAllIsExact(d, listed, g);
      if g in t.fileIndex {
        LoadAllIsNamed(d, listed, m, g);
      }
    }
  }

  // ---- Totals ----

  /** The leaf counts of the records of `ids`. */
  ghost function LeafCounts(epochs: map<nat, EpochRecord>, ids: seq<nat>): nat {
    if ids == [] then 0 else
      var n := |ids| - 1;
      LeafCounts(epochs, ids[..n]) + if ids[n] in epochs then epochs[ids[n]].leafCount else 0
  }

  /** `totals`: how many epochs, and how many leaves their records count. */
  method Totals(store: Store) returns (epochCount: nat, totalLeaves: nat)
    ensures epochCount == |store.epochs|
    ensures totalLeaves == LeafCounts(store.epochs, InOrder(store.epochs.Keys))
  {
    epochCount, totalLeaves := CountRecords(store.epochs, InOrder(store.epochs.Keys));
  }

  method CountRecords(epochs: map<nat, EpochRecord>, ids: seq<nat>) returns (count: nat, leaves: nat)
    requires forall i :: 0 <= i < |ids| ==> ids[i] in epochs
    ensures count == |ids| && leaves == LeafCounts(epochs, ids)
  {
    count, leaves := 0, 0;
    for i := 0 to |ids|
      invariant count == i && leaves == LeafCounts(epochs, ids[..i])
    {
      assert ids[..i + 1][..i] == ids[..i];
      count := count + 1;
      leaves := leaves + epochs[ids[i]].leafCount;
    }
    assert ids[..|ids|] == ids;
  }

  ghost function KeysOf(e: nat, entries: seq<LeafEntry>): set<EpochLeaf> {
    if entries == [] then {} else
      var n := |entries| - 1;
      KeysOf(e, entries[..n]) + {EpochLeaf(e, entries[n].leaf)}
  }

  lemma {:induction false} KeysOfAt(e: nat, entries: seq<LeafEntry>, k: EpochLeaf)
    ensures k in KeysOf(e, entries) <==> k.epoch == e && k.leaf in LeafSet(entries)
  {
    if entries != [] {
      KeysOfAt(e, entries[..|entries| - 1], k);
    }
  }

  lemma {:induction false} KeysOfCount(e: nat, entries: seq<LeafEntry>)
    requires DistinctLeaves(entries)
    ensures |KeysOf(e, entries)| == |entries|
  {
    if entries != [] {
      var n := |entries| - 1;
      KeysOfCount(e, entries[..n]);
      LeafSetMember(entries[..n], entries[n].leaf);
      KeysOfAt(e, entries[..n], EpochLeaf(e, entries[n].leaf));
    }
  }

  /** The leaf keys of the epochs of `ids`. */
  ghost function KeysIn(h: History, ids: seq<nat>): set<EpochLeaf>
    requires forall e :: e in ids ==> e in h
  {
    if ids == [] then {} else
      var n := |ids| - 1;
      KeysIn(h, ids[..n]) + KeysOf(ids[n], h[ids[n]].entries)
  }

  lemma {:induction false} KeysInAt(h: History, ids: seq<nat>, k: EpochLeaf)
    requires forall e :: e in ids ==> e in h
    ensures k in KeysIn(h, ids) <==> k.epoch in ids && k.leaf in LeafSet(h[k.epoch].entries)
  {
    if ids != [] {
      var n := |ids| - 1;
      KeysInAt(h, ids[..n], k);
      KeysOfAt(ids[n], h[ids[n]].entries, k);
      assert ids == ids[..n] + [ids[n]];
    }
  }

  lemma KeysInDisjoint(h: History, init: seq<nat>, e: nat)
    requires (forall q :: q in init ==> q in h) && e in h && e !in init
    ensures KeysIn(h, init) !! KeysOf(e, h[e].entries)
  {
    forall k | k in KeysIn(h, init)
      ensures k !in KeysOf(e, h[e].entries)
    {
      KeysInAt(h, init, k);
      KeysOfAt(e, h[e].entries, k);
    }
  }

  lemma {:induction false} CountsAreKeys(h: History, epochs: map<nat, EpochRecord>, ids: seq<nat>)
    requires EpochsInv(h, epochs) && NoDup(ids)
    requires forall e :: e in ids ==> e in epochs && e in h
    ensures LeafCounts(epochs, ids) == |KeysIn(h, ids)|
  {
    if ids != [] {
      var n := |ids| - 1;
      CountsAreKeys(h, epochs, ids[..n]);
      KeysOfCount(ids[n], h[ids[n]].entries);
      KeysInDisjoint(h, ids[..n], ids[n]);
    }
  }

  /** The totals count exactly the leaves of the sealed epochs. */
  lemma TotalsAreTheSealedLeaves(h: History, d: Disk)
    requires EpochsInv(h, d.epochs) && LeavesInv(h, d.epochLeaves)
    ensures |d.epochs| == |h|
    ensures LeafCounts(d.epochs, InOrder(d.epochs.Keys)) == |d.epochLeaves|
  {
    assert |d.epochs.Keys| == |h.Keys|;
    assert |d.epochLeaves.Keys| == |d.epochLeaves|;
    EveryLeafCounts(h, d.epochs, d.epochLeaves);
  }

  lemma KeysAreIndexed(h: History, epochLeaves: map<EpochLeaf, Did>, ids: seq<nat>)
    requires LeavesInv(h, epochLeaves) && (forall e :: e in ids <==> e in h)
    ensures KeysIn(h, ids) == epochLeaves.Keys
  {
    forall k
      ensures k in KeysIn(h, ids) <==> k in epochLeaves
    {
      KeysInAt(h, ids, k);
    }
  }

  /** The 64-bit sum of the counts does not wrap while there are fewer than 2^44 epochs. */
  lemma TotalsFit(cfg: Config, h: History, served: Ledger, d: Disk)
    requires DiskInv(cfg, h, served, d) && |d.epochs| < 0x1000_0000_0000
    ensures LeafCounts(d.epochs, InOrder(d.epochs.Keys)) <= MAX_U64
  {
    Parts(cfg, h, served, d);
    CountsAreBounded(h, d.epochs, InOrder(d.epochs.Keys));
  }

  lemma {:induction false} CountsAreBounded(h: History, epochs: map<nat, EpochRecord>, ids: seq<nat>)
    requires EpochsInv(h, epochs)
    ensures LeafCounts(epochs, ids) <= |ids| * 0x10_0000
  {
    if ids != [] {
      CountsAreBounded(h, epochs, ids[..|ids| - 1]);
    }
  }

  lemma EveryLeafCounts(h: History, epochs: map<nat, EpochRecord>, epochLeaves: map<EpochLeaf, Did>)
    requires EpochsInv(h, epochs) && LeavesInv(h, epochLeaves)
    ensures LeafCounts(epochs, InOrder(epochs.Keys)) == |epochLeaves.Keys|
  {
    var ids := InOrder(epochs.Keys);
    CountsAreKeys(h, epochs, ids);
    KeysAreIndexed(h, epochLeaves, ids);
  }
}
