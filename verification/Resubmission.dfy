/**
 * A leaf resubmitted in a later epoch, and the two epochs settling out of
 * order: which witness its lookup leads to.
 */
module Resubmission {
  import opened Base
  import opened Witness
  import opened SelfCheck
  import opened Storage
  import opened Sealer
  import opened Invariants

  /** The epoch of the witness a leaf lookup leads to. */
  ghost function TipEpoch(d: Disk, k: LeafMethod): nat
    requires k in d.leafToTips && d.leafToTips[k] in d.tipToPair
  {
    d.tipToPair[d.leafToTips[k]].epochId
  }

  /** A lookup the served set covers leads to that set's epoch afterwards. */
  lemma CoveredLookup(x: Index, k: EpochMethod, ws: seq<MintedWitness>, q: LeafMethod)
    requires SetOf(k, ws) && CoversIn(ws, q)
    ensures
      var y := PutWitnesses(x, ws);
      q in y.leafToTips && y.leafToTips[q] in y.tipToPair && y.tipToPair[y.leafToTips[q]].epochId == k.epoch
  {
    var i :| 0 <= i < |ws| && LeafMethod(ws[i].leaf, ws[i].via) == q;
    PutWitnessesValue(x, ws, i);
  }

  /** Any other lookup leads where it did. */
  lemma OtherLookup(x: Index, ws: seq<MintedWitness>, q: LeafMethod)
    requires FreshTips(x.tipToPair, ws) && !CoversIn(ws, q)
    requires q in x.leafToTips && x.leafToTips[q] in x.tipToPair
    ensures
      var y := PutWitnesses(x, ws);
      && q in y.leafToTips && y.leafToTips[q] == x.leafToTips[q]
      && y.leafToTips[q] in y.tipToPair && y.tipToPair[y.leafToTips[q]] == x.tipToPair[x.leafToTips[q]]
  {
    TipOfLeafKeys(x, ws, q);
    TipKeys(x, ws, x.leafToTips[q]);
  }

  lemma CoversExactly(cfg: Config, h: History, k: EpochMethod, s: Serve, q: LeafMethod)
    requires k.epoch in h && SealedOk(h[k.epoch]) && ServeOk(cfg, k, h[k.epoch], s)
    ensures CoversIn(s.witnesses, q) <==> q.via == k.via && q.leaf in LeafSet(h[k.epoch].entries)
  {
    ServedSet(cfg, h, k, s);
    ServedShape(cfg, k, h[k.epoch], s);
    LeafSetMembers(h[k.epoch].entries);
    if CoversIn(s.witnesses, q) {
      var i :| 0 <= i < |s.witnesses| && LeafMethod(s.witnesses[i].leaf, s.witnesses[i].via) == q;
      assert HasLeaf(h[k.epoch].entries, h[k.epoch].entries[i].leaf);
    }
  }

  /**
   * Serving moves a leaf's lookup back to an older witness exactly when the
   * epoch served is older than the one the lookup led to and holds the leaf.
   */
  lemma LookupMovesBackExactly(cfg: Config, h: History, served: Ledger, d: Disk, p: PendingRecord, m: Method,
                               s: Serve, q: LeafMethod)
    requires DiskInv(cfg, h, served, d) && q in d.leafToTips
    requires Current(cfg.maxFaults, h, d.pendingAnchors, p) && m in p.methods
    requires ServeOk(cfg, EpochMethod(p.epochId, m), h[p.epochId], s)
    ensures d.leafToTips[q] in d.tipToPair
    ensures
      var after := AfterServe(d, p, m, h[p.epochId].entries, s.witnesses);
      && q in after.leafToTips && after.leafToTips[q] in after.tipToPair
      && (TipEpoch(after, q) < TipEpoch(d, q) <==>
            q.via == m && q.leaf in LeafSet(h[p.epochId].entries) && p.epochId < TipEpoch(d, q))
  {
    var k := EpochMethod(p.epochId, m);
    Parts(cfg, h, served, d);
    ServeKeepsInv(cfg, h, served, d, p, m, s);
    ServedSet(cfg, h, k, s);
    ServedSetIsFresh(cfg, h, served, d, k, s);
    CoversExactly(cfg, h, k, s, q);
    if CoversIn(s.witnesses, q) {
      CoveredLookup(WitnessIndex(d), k, s.witnesses, q);
    } else {
      OtherLookup(WitnessIndex(d), s.witnesses, q);
    }
  }

  // ---- A state where it happens ----

  const CONFIG: Config := Config([Evm], 1, 0, "did:service", {Evm}, {Evm})

  const ANCHOR: TimestampValue := TimestampValue("0xsender", "", "0xtx", "0xcontract", "sepolia", 1)

  function OneLeaf(leaf: Leaf): seq<LeafEntry> {
    [LeafEntry(leaf, "did:owner")]
  }

  /** The leaf is sealed in epochs 1 and 2, over different roots. */
  function SealedAs(leaf: Leaf, e: nat): SealedEpoch {
    SealedEpoch(OneLeaf(leaf), [Evm], BatchRoot([leaf], e))
  }

  function RecordOf(leaf: Leaf, e: nat): EpochRecord {
    EpochRecord(e, 0, 0, BatchRoot([leaf], e), 1)
  }

  /** The epoch's record, holding its anchor. */
  function Holding(leaf: Leaf, e: nat): PendingRecord {
    NewPending(e, 0, 0, OneLeaf(leaf), BatchRoot([leaf], e), [Evm]).WithAnchor(Evm, ANCHOR, 0)
  }

  function Willing(): Hosts {
    Hosts(Some(_ => EvmVerified), Some((_, _, _) => LevelVerified), (_, _) => true, (_, _) => true)
  }

  function NoSalt(): Salts {
    (_, _) => 0
  }

  function Witnesses(leaf: Leaf, e: nat): seq<MintedWitness> {
    MintSet(Batch(e, BatchRoot([leaf], e), OneLeaf(leaf)), Evm, ANCHOR, CONFIG.serviceDid, NoSalt())
  }

  function ServeOf(leaf: Leaf, e: nat): Serve {
    Serve(Some(Holding(leaf, e)), Witnesses(leaf, e), Signed(NoSalt()), Judged(Willing()))
  }

  /** The history: nothing, epoch 1, epochs 1 and 2. */
  function Sealed1(leaf: Leaf): History {
    map[1 := SealedAs(leaf, 1)]
  }

  function Sealed2(leaf: Leaf): History {
    Sealed1(leaf)[2 := SealedAs(leaf, 2)]
  }

  /** Both epochs are sealed, anchored and pending. */
  ghost function BothPending(leaf: Leaf): Disk {
    var d1 := AfterSeal(EMPTY_DISK, RecordOf(leaf, 1), SealedAs(leaf, 1));
    var d2 := AfterSeal(d1, RecordOf(leaf, 2), SealedAs(leaf, 2));
    SavedDisk(SavedDisk(d2, Holding(leaf, 1)), Holding(leaf, 2))
  }

  /** Epoch 2 is served, epoch 1 still pending. */
  ghost function NewerServed(leaf: Leaf): Disk {
    AfterServe(BothPending(leaf), Holding(leaf, 2), Evm, OneLeaf(leaf), Witnesses(leaf, 2))
  }

  lemma SealedAsOk(leaf: Leaf, e: nat)
    ensures SealedOk(SealedAs(leaf, e))
  {
    assert OneLeaf(leaf)[..0] == [];
    assert LeavesOf(OneLeaf(leaf)) == [leaf];
  }

  lemma HoldingSlot(leaf: Leaf, e: nat, k: Method)
    ensures Holding(leaf, e).Anchor(k) == if k == Evm then Some(StoredAnchor(Evm, ANCHOR, Some(0))) else None
    ensures Holding(leaf, e).FaultCount(k) == 0
  {
    var p := NewPending(e, 0, 0, OneLeaf(leaf), BatchRoot([leaf], e), [Evm]);
    assert p.Anchor(k).None? && p.FaultCount(k) == 0;
    var q := p.WithAnchor(Evm, ANCHOR, 0);
    assert q.Anchor(k) == if k == Evm then Some(StoredAnchor(Evm, ANCHOR, Some(0))) else p.Anchor(k);
    assert q.FaultCount(k) == p.FaultCount(k);
  }

  lemma HoldingOk(leaf: Leaf, e: nat)
    ensures RecordOk(1, e, SealedAs(leaf, e), Holding(leaf, e)) && Holding(leaf, e).methods == [Evm]
    ensures Holding(leaf, e).Anchor(Evm) == Some(StoredAnchor(Evm, ANCHOR, Some(0)))
  {
    forall k
      ensures SlotOk(1, Holding(leaf, e), k)
    {
      HoldingSlot(leaf, e, k);
    }
    HoldingSlot(leaf, e, Evm);
  }

  /** Willing hosts confirm whatever is minted for EVM or qTSA. */
  lemma WillingConfirms(batch: Batch, m: Method, v: TimestampValue, did: Did, salts: Salts)
    ensures Confirming(Willing(), MintSet(batch, m, v, did, salts))
  {
    var ws := MintSet(batch, m, v, did, salts);
    MintSetShape(batch, m, v, did, salts);
    forall i | 0 <= i < |ws|
      ensures ws[i].objectRevision.TimestampObject?
      ensures AnchorHolds(ws[i].via, ws[i].objectRevision.payload.anchor, Willing())
    {
      assert ws[i] == MintOne(batch, i, m, FromValue(m, v), did, salts(i, m));
    }
  }

  lemma ServeOfOk(leaf: Leaf, e: nat)
    ensures ServeOk(CONFIG, EpochMethod(e, Evm), SealedAs(leaf, e), ServeOf(leaf, e))
  {
    HoldingOk(leaf, e);
    var batch := Batch(e, BatchRoot([leaf], e), OneLeaf(leaf));
    WillingConfirms(batch, Evm, ANCHOR, CONFIG.serviceDid, NoSalt());
    MintedSetVerifies(batch, Evm, ANCHOR, CONFIG.serviceDid, NoSalt(), Willing());
  }

  lemma BothPendingIsGood(leaf: Leaf)
    ensures DiskInv(CONFIG, Sealed2(leaf), map[], BothPending(leaf))
    ensures BothPending(leaf).pendingAnchors == map[1 := Holding(leaf, 1), 2 := Holding(leaf, 2)]
  {
    EmptyDiskInv(CONFIG);
    SealedAsOk(leaf, 1);
    SealedAsOk(leaf, 2);
    SealKeepsInv(CONFIG, map[], map[], EMPTY_DISK, RecordOf(leaf, 1), SealedAs(leaf, 1));
    var d1 := AfterSeal(EMPTY_DISK, RecordOf(leaf, 1), SealedAs(leaf, 1));
    SealKeepsInv(CONFIG, Sealed1(leaf), map[], d1, RecordOf(leaf, 2), SealedAs(leaf, 2));
    var d2 := AfterSeal(d1, RecordOf(leaf, 2), SealedAs(leaf, 2));
    HoldingOk(leaf, 1);
    HoldingOk(leaf, 2);
    SaveKeepsInv(CONFIG, Sealed2(leaf), map[], d2, Holding(leaf, 1));
    SaveKeepsInv(CONFIG, Sealed2(leaf), map[], SavedDisk(d2, Holding(leaf, 1)), Holding(leaf, 2));
  }

  lemma NewerServedIsGood(leaf: Leaf)
    ensures DiskInv(CONFIG, Sealed2(leaf), map[EpochMethod(2, Evm) := ServeOf(leaf, 2)], NewerServed(leaf))
    ensures Current(1, Sealed2(leaf), NewerServed(leaf).pendingAnchors, Holding(leaf, 1))
  {
    BothPendingIsGood(leaf);
    HoldingOk(leaf, 1);
    HoldingOk(leaf, 2);
    ServeOfOk(leaf, 2);
    ServeKeepsInv(CONFIG, Sealed2(leaf), map[], BothPending(leaf), Holding(leaf, 2), Evm, ServeOf(leaf, 2));
  }

  lemma LeafIsLookedUp(leaf: Leaf)
    ensures
      var q := LeafMethod(leaf, Evm);
      var d := NewerServed(leaf);
      q in d.leafToTips && d.leafToTips[q] in d.tipToPair && TipEpoch(d, q) == 2
  {
    SealedAsOk(leaf, 2);
    ServeOfOk(leaf, 2);
    var h := Sealed2(leaf);
    ServedSet(CONFIG, h, EpochMethod(2, Evm), ServeOf(leaf, 2));
    CoveredLookup(WitnessIndex(BothPending(leaf)), EpochMethod(2, Evm), Witnesses(leaf, 2), LeafMethod(leaf, Evm));
  }

  /**
   * Epoch 2 is served before epoch 1, which holds the same leaf. Once epoch 1 is
   * served too, the leaf's lookup leads back to the witness of epoch 1. Both
   * states are good ones.
   */
  lemma OlderServeTakesTheLookupBack(leaf: Leaf)
    ensures
      var q := LeafMethod(leaf, Evm);
      var before := NewerServed(leaf);
      var after := AfterServe(before, Holding(leaf, 1), Evm, OneLeaf(leaf), Witnesses(leaf, 1));
      && DiskInv(CONFIG, Sealed2(leaf), map[EpochMethod(2, Evm) := ServeOf(leaf, 2)], before)
      && q in before.leafToTips && before.leafToTips[q] in before.tipToPair
      && q in after.leafToTips && after.leafToTips[q] in after.tipToPair
      && TipEpoch(after, q) < TipEpoch(before, q) == 2
  {
    NewerServedIsGood(leaf);
    LeafIsLookedUp(leaf);
    ServeOfOk(leaf, 1);
    HoldingOk(leaf, 1);
    LookupMovesBackExactly(CONFIG, Sealed2(leaf), map[EpochMethod(2, Evm) := ServeOf(leaf, 2)], NewerServed(leaf),
                           Holding(leaf, 1), Evm, ServeOf(leaf, 1), LeafMethod(leaf, Evm));
  }
}
