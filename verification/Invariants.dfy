/**
 * What every durable state of a run satisfies, and that each of the three
 * batches keeps it.
 *
 * Each part is a predicate of just the partitions it speaks about, so a batch
 * that leaves them alone keeps it for free.
 */
module Invariants {
  import opened Base
  import opened Witness
  import opened SelfCheck
  import opened Storage
  import opened Sealer
  import Accumulation

  /** What an epoch was sealed with. */
  datatype SealedEpoch = SealedEpoch(entries: seq<LeafEntry>, methods: seq<Method>, root: Root)

  type History = map<nat, SealedEpoch>

  type Ledger = map<EpochMethod, Serve>

  ghost predicate SealedOk(se: SealedEpoch) {
    && DistinctLeaves(se.entries)
    && |se.entries| <= Accumulation.MAX_LEAVES_PER_EPOCH
    && NoDup(se.methods)
    && (se.entries == [] ==> se.methods == [] && se.root == EmptyRoot)
    && (se.entries != [] ==> se.root.BatchRoot? && se.root.leaves == LeavesOf(se.entries))
  }

  /** Records agree with what was sealed. */
  ghost predicate EpochsInv(h: History, epochs: map<nat, EpochRecord>) {
    && epochs.Keys == h.Keys
    && (forall e :: e in h ==>
          && SealedOk(h[e])
          && epochs[e].id == e && epochs[e].merkleRoot == h[e].root && epochs[e].leafCount == |h[e].entries|)
  }

  /** No two batches share a root. */
  ghost predicate RootsInv(h: History) {
    forall e1, e2 :: e1 in h && e2 in h && e1 != e2 && h[e1].root == h[e2].root ==> h[e1].root == EmptyRoot
  }

  /** The per-epoch leaf index holds exactly the sealed leaves, each with its submitter. */
  ghost predicate LeavesInv(h: History, epochLeaves: map<EpochLeaf, Did>) {
    && (forall k :: k in epochLeaves <==> k.epoch in h && k.leaf in LeafSet(h[k.epoch].entries))
    && (forall e, i :: e in h && 0 <= i < |h[e].entries| ==>
          && EpochLeaf(e, h[e].entries[i].leaf) in epochLeaves
          && epochLeaves[EpochLeaf(e, h[e].entries[i].leaf)] == h[e].entries[i].did)
  }

  /** No epoch after `e` holds the leaf. */
  ghost predicate NoneLater(h: History, e: nat, leaf: Leaf) {
    forall q :: q in h && leaf in LeafSet(h[q].entries) ==> q <= e
  }

  /** Exactly the sealed leaves have an owner: the submitter in the newest epoch that holds the leaf. */
  ghost predicate OwnersInv(h: History, owners: map<Leaf, Did>) {
    && (forall e, l :: e in h && l in LeafSet(h[e].entries) ==> l in owners)
    && (forall l :: l in owners ==> exists e :: e in h && l in LeafSet(h[e].entries))
    && (forall e, i :: e in h && 0 <= i < |h[e].entries| && NoneLater(h, e, h[e].entries[i].leaf) ==>
          h[e].entries[i].leaf in owners && owners[h[e].entries[i].leaf] == h[e].entries[i].did)
  }

  /** Faults never pass the cap; an anchor is held only below it, only while its method is pending. */
  ghost predicate SlotOk(cap: nat, p: PendingRecord, m: Method) {
    && p.FaultCount(m) <= cap
    && (p.Anchor(m).Some? ==>
          && p.FaultCount(m) < cap
          && m in p.methods
          && p.Anchor(m).value.firstSeen.Some?)
  }

  /** A pending record keeps its epoch's leaves and root, and a part of its methods. */
  ghost predicate RecordOk(cap: nat, e: nat, se: SealedEpoch, p: PendingRecord) {
    && p.epochId == e
    && p.leaves == StoredLeaves(se.entries) && p.root == se.root && se.entries != []
    && p.methods != [] && NoDup(p.methods) && (forall m :: m in p.methods ==> m in se.methods)
    && (forall m :: SlotOk(cap, p, m))
  }

  ghost predicate PendingInv(cap: nat, h: History, anchors: map<nat, PendingRecord>) {
    forall e :: e in anchors ==> e in h && RecordOk(cap, e, h[e], anchors[e])
  }

  ghost predicate Pends(anchors: map<nat, PendingRecord>, e: nat, m: Method) {
    e in anchors && m in anchors[e].methods
  }

  /** A served set was minted from an anchor of a durable record, over the sealed leaves and root, and all Verified. */
  ghost predicate ServeOk(cfg: Config, k: EpochMethod, se: SealedEpoch, s: Serve) {
    && s.record.Some? && RecordOk(cfg.maxFaults, k.epoch, se, s.record.value)
    && s.record.value.Anchor(k.via).Some?
    && s.mint.Signed? && s.check.Judged?
    && s.witnesses == MintSet(Batch(k.epoch, se.root, se.entries), k.via, s.record.value.Anchor(k.via).value.value,
                              cfg.serviceDid, s.mint.salts)
    && AllVerified(VerifyMintedBatch(s.witnesses, cfg.serviceDid, s.check.hosts))
  }

  /** Every method an epoch was sealed with is either pending or served, never both. */
  ghost predicate PhaseInv(h: History, served: Ledger, anchors: map<nat, PendingRecord>) {
    && (forall e, m :: e in h && m in h[e].methods ==> (EpochMethod(e, m) in served <==> !Pends(anchors, e, m)))
    && (forall k :: k in served ==> k.epoch in h && k.via in h[k.epoch].methods)
  }

  ghost predicate SetsInv(cfg: Config, h: History, served: Ledger) {
    forall k :: k in served ==> k.epoch in h && ServeOk(cfg, k, h[k.epoch], served[k])
  }

  /**
   * A pending lookup names an epoch that still lists the method and holds the
   * leaf, and the newest such epoch; a leaf of a pending (epoch, method) has a
   * tip or a lookup.
   */
  ghost predicate LookupInv(h: History, anchors: map<nat, PendingRecord>, lookups: map<LeafMethod, nat>,
                            tips: map<LeafMethod, Hash>) {
    && (forall k :: k in lookups ==>
          Pends(anchors, lookups[k], k.via) && lookups[k] in h && k.leaf in LeafSet(h[lookups[k]].entries))
    && (forall e, k: LeafMethod :: e in h && Pends(anchors, e, k.via) && k.leaf in LeafSet(h[e].entries) ==>
          k in tips || (k in lookups && e <= lookups[k]))
  }

  ghost predicate TipStored(w: MintedWitness, pairs: map<Hash, TipPair>) {
    w.signatureHash in pairs && pairs[w.signatureHash] == PairOf(w)
  }

  ghost predicate TipServed(served: Ledger, k: EpochMethod, t: Hash) {
    k in served && TipIn(served[k].witnesses, t)
  }

  /** Tips, pairs, markers and lookups are exactly those of the served sets. */
  ghost predicate TipInv(served: Ledger, pairs: map<Hash, TipPair>, checked: set<Hash>) {
    && checked == pairs.Keys
    && (forall k, i :: k in served && 0 <= i < |served[k].witnesses| ==> TipStored(served[k].witnesses[i], pairs))
    && (forall t :: t in pairs ==> TipServed(served, EpochMethod(pairs[t].epochId, pairs[t].via), t))
  }

  /** A leaf lookup leads to a pair of that leaf and method; every served leaf has one. */
  ghost predicate LeafTipInv(h: History, served: Ledger, tips: map<LeafMethod, Hash>, pairs: map<Hash, TipPair>) {
    && (forall k :: k in tips ==> tips[k] in pairs && pairs[tips[k]].leaf == k.leaf && pairs[tips[k]].via == k.via)
    && (forall s, l :: s in served && s.epoch in h && l in LeafSet(h[s.epoch].entries) ==> LeafMethod(l, s.via) in tips)
  }

  /** Stored revisions hash to their keys, and both revisions of every pair are stored. */
  ghost predicate RevisionInv(pairs: map<Hash, TipPair>, revisions: map<Hash, Revision>) {
    && (forall g :: g in revisions ==> revisions[g] == g.preimage)
    && (forall t :: t in pairs ==> pairs[t].signatureHash == t && t in revisions && pairs[t].objectHash in revisions)
  }

  /** The parts of the durable invariant. */
  datatype Part = Records | Leaves | Owners | Pendings | Phases | Sets | Lookups | Tips | LeafTips | Revisions

  ghost predicate Holds(part: Part, cfg: Config, h: History, served: Ledger, d: Disk) {
    match part
    case Records => EpochsInv(h, d.epochs) && RootsInv(h)
    case Leaves => LeavesInv(h, d.epochLeaves)
    case Owners => OwnersInv(h, d.leafOwner)
    case Pendings => PendingInv(cfg.maxFaults, h, d.pendingAnchors)
    case Phases => PhaseInv(h, served, d.pendingAnchors)
    case Sets => SetsInv(cfg, h, served)
    case Lookups => LookupInv(h, d.pendingAnchors, d.pendingLeaves, d.leafToTips)
    case Tips => TipInv(served, d.tipToPair, d.selfChecked)
    case LeafTips => LeafTipInv(h, served, d.leafToTips, d.tipToPair)
    case Revisions => RevisionInv(d.tipToPair, d.revisions)
  }

  /** The invariant of every durable state. */
  ghost predicate DiskInv(cfg: Config, h: History, served: Ledger, d: Disk) {
    forall part :: Holds(part, cfg, h, served, d)
  }

  /** The invariant, part by part. */
  lemma Parts(cfg: Config, h: History, served: Ledger, d: Disk)
    requires DiskInv(cfg, h, served, d)
    ensures EpochsInv(h, d.epochs) && RootsInv(h)
    ensures LeavesInv(h, d.epochLeaves) && OwnersInv(h, d.leafOwner)
    ensures PendingInv(cfg.maxFaults, h, d.pendingAnchors)
    ensures PhaseInv(h, served, d.pendingAnchors) && SetsInv(cfg, h, served)
    ensures LookupInv(h, d.pendingAnchors, d.pendingLeaves, d.leafToTips)
    ensures TipInv(served, d.tipToPair, d.selfChecked) && LeafTipInv(h, served, d.leafToTips, d.tipToPair)
    ensures RevisionInv(d.tipToPair, d.revisions)
  {
    assert Holds(Records, cfg, h, served, d) && Holds(Leaves, cfg, h, served, d) && Holds(Owners, cfg, h, served, d);
    assert Holds(Pendings, cfg, h, served, d) && Holds(Phases, cfg, h, served, d) && Holds(Sets, cfg, h, served, d);
    assert Holds(Lookups, cfg, h, served, d) && Holds(Tips, cfg, h, served, d);
    assert Holds(LeafTips, cfg, h, served, d) && Holds(Revisions, cfg, h, served, d);
  }

  lemma PendingPart(cfg: Config, h: History, served: Ledger, d: Disk)
    requires DiskInv(cfg, h, served, d)
    ensures PendingInv(cfg.maxFaults, h, d.pendingAnchors)
  {
    assert Holds(Pendings, cfg, h, served, d);
  }

  lemma EmptyDiskInv(cfg: Config)
    ensures DiskInv(cfg, map[], map[], EMPTY_DISK)
  {
  }

  // ---- save_pending ----

  lemma SaveKeepsPending(cap: nat, h: History, anchors: map<nat, PendingRecord>, p: PendingRecord)
    requires PendingInv(cap, h, anchors) && p.epochId in h && RecordOk(cap, p.epochId, h[p.epochId], p)
    ensures PendingInv(cap, h, anchors[p.epochId := p])
  {
  }

  lemma SaveKeepsPhase(h: History, served: Ledger, anchors: map<nat, PendingRecord>, p: PendingRecord)
    requires PhaseInv(h, served, anchors)
    requires p.epochId in anchors && p.methods == anchors[p.epochId].methods
    ensures PhaseInv(h, served, anchors[p.epochId := p])
  {
  }

  lemma SaveKeepsLookups(h: History, anchors: map<nat, PendingRecord>, lookups: map<LeafMethod, nat>,
                         tips: map<LeafMethod, Hash>, p: PendingRecord)
    requires LookupInv(h, anchors, lookups, tips)
    requires p.epochId in anchors && p.methods == anchors[p.epochId].methods
    ensures LookupInv(h, anchors[p.epochId := p], lookups, tips)
  {
  }

  /** Overwriting a pending record with one of the same epoch and methods keeps the invariant. */
  lemma SaveKeepsInv(cfg: Config, h: History, served: Ledger, d: Disk, p: PendingRecord)
    requires DiskInv(cfg, h, served, d)
    requires p.epochId in d.pendingAnchors && p.methods == d.pendingAnchors[p.epochId].methods
    requires p.epochId in h && RecordOk(cfg.maxFaults, p.epochId, h[p.epochId], p)
    ensures DiskInv(cfg, h, served, SavedDisk(d, p))
  {
    var d' := SavedDisk(d, p);
    Parts(cfg, h, served, d);
    forall part
      ensures Holds(part, cfg, h, served, d')
    {
      match part
      case Pendings => SaveKeepsPending(cfg.maxFaults, h, d.pendingAnchors, p);
      case Phases => SaveKeepsPhase(h, served, d.pendingAnchors, p);
      case Lookups => SaveKeepsLookups(h, d.pendingAnchors, d.pendingLeaves, d.leafToTips, p);
      case _ =>
    }
  }

  // ---- persist_pending_minted ----

  /** Shape of a served set: one witness per sealed leaf, in order. */
  lemma ServedWitness(cfg: Config, k: EpochMethod, se: SealedEpoch, s: Serve)
    requires ServeOk(cfg, k, se, s)
    ensures |s.witnesses| == |se.entries|
    ensures forall i :: 0 <= i < |se.entries| ==>
      s.witnesses[i] == MintOne(Batch(k.epoch, se.root, se.entries), i, k.via,
                                FromValue(k.via, s.record.value.Anchor(k.via).value.value), cfg.serviceDid,
                                s.mint.salts(i, k.via))
  {
    MintSetShape(Batch(k.epoch, se.root, se.entries), k.via, s.record.value.Anchor(k.via).value.value, cfg.serviceDid,
                 s.mint.salts);
  }

  /** Two served sets share a tip only if they are the same set at the same position. */
  lemma SharedTip(cfg: Config, h: History, k1: EpochMethod, s1: Serve, i1: nat, k2: EpochMethod, s2: Serve, i2: nat)
    requires k1.epoch in h && k2.epoch in h
    requires SealedOk(h[k1.epoch]) && SealedOk(h[k2.epoch])
    requires ServeOk(cfg, k1, h[k1.epoch], s1) && ServeOk(cfg, k2, h[k2.epoch], s2)
    requires k1.epoch != k2.epoch && h[k1.epoch].root == h[k2.epoch].root ==> h[k1.epoch].root == EmptyRoot
    requires i1 < |s1.witnesses| && i2 < |s2.witnesses|
    requires s1.witnesses[i1].signatureHash == s2.witnesses[i2].signatureHash
    ensures k1 == k2 && i1 == i2
  {
    var se1, se2 := h[k1.epoch], h[k2.epoch];
    ServedWitness(cfg, k1, se1, s1);
    ServedWitness(cfg, k2, se2, s2);
    var r1, r2 := s1.record.value, s2.record.value;
    TipDetermines(Batch(k1.epoch, se1.root, se1.entries), i1, k1.via, r1.Anchor(k1.via).value.value,
                  Batch(k2.epoch, se2.root, se2.entries), i2, k2.via, r2.Anchor(k2.via).value.value,
                  cfg.serviceDid, s1.mint.salts(i1, k1.via), cfg.serviceDid, s2.mint.salts(i2, k2.via));
  }

  /** What the store relies on in a set it writes. */
  lemma ServedShape(cfg: Config, k: EpochMethod, se: SealedEpoch, s: Serve)
    requires ServeOk(cfg, k, se, s) && SealedOk(se)
    ensures |s.witnesses| == |se.entries|
    ensures forall i :: 0 <= i < |s.witnesses| ==>
      && s.witnesses[i].leaf == se.entries[i].leaf && s.witnesses[i].did == se.entries[i].did
      && s.witnesses[i].via == k.via && s.witnesses[i].epochId == k.epoch
    ensures DistinctCovers(s.witnesses)
  {
    ServedWitness(cfg, k, se, s);
  }

  lemma ServedHashes(cfg: Config, k: EpochMethod, se: SealedEpoch, s: Serve)
    requires ServeOk(cfg, k, se, s)
    ensures forall i :: 0 <= i < |s.witnesses| ==>
      && s.witnesses[i].objectHash == Sha3(s.witnesses[i].objectRevision)
      && s.witnesses[i].signatureHash == Sha3(s.witnesses[i].signatureRevision)
  {
    ServedWitness(cfg, k, se, s);
  }

  lemma ServedTipsDistinct(cfg: Config, h: History, k: EpochMethod, s: Serve)
    requires k.epoch in h && SealedOk(h[k.epoch]) && ServeOk(cfg, k, h[k.epoch], s)
    ensures DistinctTips(s.witnesses)
  {
    forall i, j | 0 <= i < j < |s.witnesses|
      ensures s.witnesses[i].signatureHash != s.witnesses[j].signatureHash
    {
      if s.witnesses[i].signatureHash == s.witnesses[j].signatureHash {
        SharedTip(cfg, h, k, s, i, k, s, j);
      }
    }
  }

  /** No tip of a new set is a tip of a set served before. */
  lemma NewTipIsNew(cfg: Config, h: History, epochs: map<nat, EpochRecord>, served: Ledger, k: EpochMethod, s: Serve,
                    prior: EpochMethod, t: Hash)
    requires EpochsInv(h, epochs) && RootsInv(h)
    requires k.epoch in h && k !in served && ServeOk(cfg, k, h[k.epoch], s)
    requires prior in served && prior.epoch in h && ServeOk(cfg, prior, h[prior.epoch], served[prior])
    requires TipIn(served[prior].witnesses, t)
    ensures !TipIn(s.witnesses, t)
  {
    if TipIn(s.witnesses, t) {
      var i :| 0 <= i < |s.witnesses| && s.witnesses[i].signatureHash == t;
      var j :| 0 <= j < |served[prior].witnesses| && served[prior].witnesses[j].signatureHash == t;
      ServedWitness(cfg, k, h[k.epoch], s);
      SharedTip(cfg, h, k, s, i, prior, served[prior], j);
    }
  }

  /** A new tip is not in the store yet. */
  lemma NewTipNotStored(cfg: Config, h: History, served: Ledger, d: Disk, k: EpochMethod, s: Serve, t: Hash)
    requires EpochsInv(h, d.epochs) && RootsInv(h) && SetsInv(cfg, h, served)
    requires TipInv(served, d.tipToPair, d.selfChecked)
    requires k.epoch in h && k !in served && ServeOk(cfg, k, h[k.epoch], s)
    requires TipIn(s.witnesses, t)
    ensures t !in d.tipToPair
  {
    if t in d.tipToPair {
      var source := EpochMethod(d.tipToPair[t].epochId, d.tipToPair[t].via);
      assert TipServed(served, source, t);
      NewTipIsNew(cfg, h, d.epochs, served, k, s, source, t);
    }
  }

  ghost predicate FreshTips(pairs: map<Hash, TipPair>, ws: seq<MintedWitness>) {
    forall t :: TipIn(ws, t) ==> t !in pairs
  }

  /** A set of one (epoch, method), with a tip and a lookup of its own for each witness. */
  ghost predicate SetOf(k: EpochMethod, ws: seq<MintedWitness>) {
    && (forall i :: 0 <= i < |ws| ==> ws[i].via == k.via && ws[i].epochId == k.epoch)
    && DistinctTips(ws) && DistinctCovers(ws)
  }

  lemma ServedSetIsFresh(cfg: Config, h: History, served: Ledger, d: Disk, k: EpochMethod, s: Serve)
    requires EpochsInv(h, d.epochs) && RootsInv(h) && SetsInv(cfg, h, served)
    requires TipInv(served, d.tipToPair, d.selfChecked)
    requires k.epoch in h && k !in served && ServeOk(cfg, k, h[k.epoch], s)
    ensures FreshTips(d.tipToPair, s.witnesses)
  {
    forall t | TipIn(s.witnesses, t)
      ensures t !in d.tipToPair
    {
      NewTipNotStored(cfg, h, served, d, k, s, t);
    }
  }

  lemma NewTipWritten(x: Index, k: EpochMethod, ws: seq<MintedWitness>, t: Hash)
    requires SetOf(k, ws) && TipIn(ws, t)
    ensures
      var pairs := PutWitnesses(x, ws).tipToPair;
      t in pairs && pairs[t].epochId == k.epoch && pairs[t].via == k.via
  {
  }

  lemma ServeKeepsTips(served: Ledger, x: Index, checked: set<Hash>, k: EpochMethod, s: Serve)
    requires TipInv(served, x.tipToPair, checked)
    requires k !in served && SetOf(k, s.witnesses) && FreshTips(x.tipToPair, s.witnesses)
    ensures TipInv(served[k := s], PutWitnesses(x, s.witnesses).tipToPair, PutChecked(checked, s.witnesses))
  {
    var ws := s.witnesses;
    var pairs := PutWitnesses(x, ws).tipToPair;
    var served' := served[k := s];
    forall t
      ensures t in PutChecked(checked, ws) <==> t in pairs
    {
      TipKeys(x, ws, t);
      PutCheckedAt(checked, ws, t);
    }
    forall q, i | q in served' && 0 <= i < |served'[q].witnesses|
      ensures TipStored(served'[q].witnesses[i], pairs)
    {
      if q == k {
        PutWitnessesValue(x, ws, i);
      } else {
        assert TipStored(served[q].witnesses[i], x.tipToPair);
        TipKeys(x, ws, served[q].witnesses[i].signatureHash);
      }
    }
    forall t | t in pairs
      ensures TipServed(served', EpochMethod(pairs[t].epochId, pairs[t].via), t)
    {
      TipKeys(x, ws, t);
      if TipIn(ws, t) {
        NewTipWritten(x, k, ws, t);
      } else {
        assert TipServed(served, EpochMethod(x.tipToPair[t].epochId, x.tipToPair[t].via), t);
      }
    }
  }

  lemma ServeKeepsLeafTips(h: History, served: Ledger, x: Index, k: EpochMethod, s: Serve)
    requires LeafTipInv(h, served, x.leafToTips, x.tipToPair)
    requires SetOf(k, s.witnesses) && FreshTips(x.tipToPair, s.witnesses)
    requires k.epoch in h && forall l :: l in LeafSet(h[k.epoch].entries) ==>
      CoversIn(s.witnesses, LeafMethod(l, k.via))
    ensures
      var y := PutWitnesses(x, s.witnesses);
      LeafTipInv(h, served[k := s], y.leafToTips, y.tipToPair)
  {
    var ws := s.witnesses;
    var y := PutWitnesses(x, ws);
    forall q | q in y.leafToTips
      ensures y.leafToTips[q] in y.tipToPair
      ensures y.tipToPair[y.leafToTips[q]].leaf == q.leaf && y.tipToPair[y.leafToTips[q]].via == q.via
    {
      TipOfLeafKeys(x, ws, q);
      if CoversIn(ws, q) {
        var i :| 0 <= i < |ws| && LeafMethod(ws[i].leaf, ws[i].via) == q;
        PutWitnessesValue(x, ws, i);
      } else {
        TipKeys(x, ws, x.leafToTips[q]);
      }
    }
    forall r, l | r in served[k := s] && r.epoch in h && l in LeafSet(h[r.epoch].entries)
      ensures LeafMethod(l, r.via) in y.leafToTips
    {
      TipOfLeafKeys(x, ws, LeafMethod(l, r.via));
    }
  }

  lemma ServeKeepsRevisions(x: Index, k: EpochMethod, ws: seq<MintedWitness>)
    requires RevisionInv(x.tipToPair, x.revisions)
    requires SetOf(k, ws)
    requires forall i :: 0 <= i < |ws| ==>
      ws[i].objectHash == Sha3(ws[i].objectRevision) && ws[i].signatureHash == Sha3(ws[i].signatureRevision)
    ensures
      var y := PutWitnesses(x, ws);
      RevisionInv(y.tipToPair, y.revisions)
  {
  }

  lemma {:induction false} LeavesOfMembers(entries: seq<LeafEntry>)
    ensures forall l :: l in LeavesOf(entries) <==> l in LeafSet(entries)
  {
    if entries != [] {
      var n := |entries| - 1;
      LeavesOfMembers(entries[..n]);
    }
  }

  /** The pending records once `m` is served from `p`. */
  ghost function AnchorsWithout(anchors: map<nat, PendingRecord>, p: PendingRecord,
                                m: Method): map<nat, PendingRecord> {
    var remaining := p.Without(m);
    if remaining.methods == [] then anchors - {p.epochId} else anchors[p.epochId := remaining]
  }

  /** `p` is the volatile copy of a pending record: same epoch and methods as the store's. */
  ghost predicate Current(cap: nat, h: History, anchors: map<nat, PendingRecord>, p: PendingRecord) {
    && p.epochId in anchors && p.methods == anchors[p.epochId].methods
    && p.epochId in h && RecordOk(cap, p.epochId, h[p.epochId], p)
  }

  lemma PendsWithout(anchors: map<nat, PendingRecord>, p: PendingRecord, m: Method)
    requires p.epochId in anchors && p.methods == anchors[p.epochId].methods
    ensures forall e, k :: Pends(AnchorsWithout(anchors, p, m), e, k) <==>
      Pends(anchors, e, k) && !(e == p.epochId && k == m)
  {
  }

  lemma ServeKeepsPending(cap: nat, h: History, anchors: map<nat, PendingRecord>, p: PendingRecord, m: Method)
    requires PendingInv(cap, h, anchors) && Current(cap, h, anchors, p) && m in p.methods
    ensures PendingInv(cap, h, AnchorsWithout(anchors, p, m))
  {
    var remaining := p.Without(m);
    if remaining.methods != [] {
      forall k
        ensures SlotOk(cap, remaining, k)
      {
        assert SlotOk(cap, p, k);
      }
      assert RecordOk(cap, p.epochId, h[p.epochId], remaining);
    }
  }

  lemma ServeKeepsPhase(cap: nat, h: History, served: Ledger, anchors: map<nat, PendingRecord>, p: PendingRecord,
                        m: Method, s: Serve)
    requires PhaseInv(h, served, anchors) && Current(cap, h, anchors, p) && m in p.methods
    ensures PhaseInv(h, served[EpochMethod(p.epochId, m) := s], AnchorsWithout(anchors, p, m))
    ensures EpochMethod(p.epochId, m) !in served
  {
  }

  lemma ServeKeepsSets(cfg: Config, h: History, served: Ledger, k: EpochMethod, s: Serve)
    requires SetsInv(cfg, h, served)
    requires k.epoch in h && ServeOk(cfg, k, h[k.epoch], s)
    ensures SetsInv(cfg, h, served[k := s])
  {
  }

  lemma ServeKeepsLookups(cap: nat, h: History, anchors: map<nat, PendingRecord>, lookups: map<LeafMethod, nat>,
                          tips: map<LeafMethod, Hash>,
                          p: PendingRecord, m: Method, tips': map<LeafMethod, Hash>)
    requires LookupInv(h, anchors, lookups, tips) && Current(cap, h, anchors, p)
    requires forall k :: k in tips ==> k in tips'
    requires forall l :: l in LeafSet(h[p.epochId].entries) ==> LeafMethod(l, m) in tips'
    ensures LookupInv(h, AnchorsWithout(anchors, p, m),
                      DropLookups(lookups, lookups, LeavesOf(h[p.epochId].entries), m, p.epochId), tips')
  {
    var leaves := LeavesOf(h[p.epochId].entries);
    var lookups' := DropLookups(lookups, lookups, leaves, m, p.epochId);
    LeavesOfMembers(h[p.epochId].entries);
    PendsWithout(anchors, p, m);
    forall k | k in lookups'
      ensures Pends(AnchorsWithout(anchors, p, m), lookups'[k], k.via)
      ensures lookups'[k] in h && k.leaf in LeafSet(h[lookups'[k]].entries)
    {
      DropLookupsAt(lookups, lookups, leaves, m, p.epochId, k);
    }
    var anchors' := AnchorsWithout(anchors, p, m);
    forall e, k: LeafMethod | e in h && Pends(anchors', e, k.via) && k.leaf in LeafSet(h[e].entries)
      ensures k in tips' || (k in lookups' && e <= lookups'[k])
    {
      DropLookupsAt(lookups, lookups, leaves, m, p.epochId, k);
      assert Pends(anchors, e, k.via);
    }
  }

  /** What a served set brings, in the store's terms. */
  lemma ServedSet(cfg: Config, h: History, k: EpochMethod, s: Serve)
    requires k.epoch in h && SealedOk(h[k.epoch]) && ServeOk(cfg, k, h[k.epoch], s)
    ensures SetOf(k, s.witnesses)
    ensures forall l :: l in LeafSet(h[k.epoch].entries) ==> CoversIn(s.witnesses, LeafMethod(l, k.via))
  {
    ServedShape(cfg, k, h[k.epoch], s);
    ServedTipsDistinct(cfg, h, k, s);
    LeafSetMembers(h[k.epoch].entries);
    forall l | l in LeafSet(h[k.epoch].entries)
      ensures CoversIn(s.witnesses, LeafMethod(l, k.via))
    {
      var i :| 0 <= i < |h[k.epoch].entries| && h[k.epoch].entries[i].leaf == l;
      assert LeafMethod(s.witnesses[i].leaf, s.witnesses[i].via) == LeafMethod(l, k.via);
    }
  }

  /** The disk after the serve batch. */
  ghost function AfterServe(d: Disk, p: PendingRecord, m: Method, entries: seq<LeafEntry>,
                            ws: seq<MintedWitness>): Disk {
    var y := PutWitnesses(WitnessIndex(d), ws);
    Disk(d.epochs, d.epochLeaves, d.leafOwner, AnchorsWithout(d.pendingAnchors, p, m),
         DropLookups(d.pendingLeaves, d.pendingLeaves, LeavesOf(entries), m, p.epochId),
         y.leafToTips, y.tipToPair, y.revisions, PutChecked(d.selfChecked, ws))
  }

  lemma MintedDiskIs(d: Disk, p: PendingRecord, m: Method, entries: seq<LeafEntry>, ws: seq<MintedWitness>)
    requires p.leaves == StoredLeaves(entries)
    ensures MintedDisk(d, p.Without(m), m, ws) == Ok(AfterServe(d, p, m, entries, ws))
  {
    RestoreInvertsStore(p, entries);
    assert p.Without(m).leaves == p.leaves;
  }

  /** Serving a pending (epoch, method) from a current record keeps the invariant. */
  lemma ServeKeepsInv(cfg: Config, h: History, served: Ledger, d: Disk, p: PendingRecord, m: Method, s: Serve)
    requires DiskInv(cfg, h, served, d)
    requires Current(cfg.maxFaults, h, d.pendingAnchors, p) && m in p.methods
    requires ServeOk(cfg, EpochMethod(p.epochId, m), h[p.epochId], s)
    ensures DiskInv(cfg, h, served[EpochMethod(p.epochId, m) := s],
                    AfterServe(d, p, m, h[p.epochId].entries, s.witnesses))
    ensures EpochMethod(p.epochId, m) !in served
  {
    var k, x, ws := EpochMethod(p.epochId, m), WitnessIndex(d), s.witnesses;
    var d' := AfterServe(d, p, m, h[p.epochId].entries, ws);
    Parts(cfg, h, served, d);
    ServeKeepsPhase(cfg.maxFaults, h, served, d.pendingAnchors, p, m, s);
    ServedSet(cfg, h, k, s);
    ServedSetIsFresh(cfg, h, served, d, k, s);
    var served' := served[k := s];
    forall part
      ensures Holds(part, cfg, h, served', d')
    {
      match part
      case Pendings => ServeKeepsPending(cfg.maxFaults, h, d.pendingAnchors, p, m);
      case Sets => ServeKeepsSets(cfg, h, served, k, s);
      case Lookups =>
        TipsGrow(x, ws);
        ServeKeepsLookups(cfg.maxFaults, h, d.pendingAnchors, d.pendingLeaves, d.leafToTips, p, m, d'.leafToTips);
      case Tips => ServeKeepsTips(served, x, d.selfChecked, k, s);
      case LeafTips => ServeKeepsLeafTips(h, served, x, k, s);
      case Revisions =>
        ServedHashes(cfg, k, h[p.epochId], s);
        ServeKeepsRevisions(x, k, ws);
      case _ =>
    }
  }

  lemma TipsGrow(x: Index, ws: seq<MintedWitness>)
    ensures forall q :: q in x.leafToTips || CoversIn(ws, q) ==> q in PutWitnesses(x, ws).leafToTips
  {
  }

  // ---- persist_sealed_epoch_with_pending ----

  /** Epoch `e` is new: above every sealed one, and its batch root is not taken. */
  ghost predicate NewEpoch(h: History, e: nat, se: SealedEpoch) {
    && SealedOk(se)
    && (forall q :: q in h ==> q < e)
    && (forall q :: q in h && h[q].root == se.root ==> se.root == EmptyRoot)
  }

  lemma SealKeepsEpochs(h: History, epochs: map<nat, EpochRecord>, r: EpochRecord, se: SealedEpoch)
    requires EpochsInv(h, epochs) && SealedOk(se)
    requires r.merkleRoot == se.root && r.leafCount == |se.entries|
    ensures EpochsInv(h[r.id := se], epochs[r.id := r])
  {
  }

  lemma SealKeepsRoots(h: History, e: nat, se: SealedEpoch)
    requires RootsInv(h) && (forall q :: q in h && h[q].root == se.root ==> se.root == EmptyRoot)
    ensures RootsInv(h[e := se])
  {
  }

  lemma SealKeepsLeaves(h: History, epochLeaves: map<EpochLeaf, Did>, e: nat, se: SealedEpoch)
    requires LeavesInv(h, epochLeaves) && e !in h && DistinctLeaves(se.entries)
    ensures LeavesInv(h[e := se], PutLeaves(epochLeaves, e, se.entries))
  {
    var h' := h[e := se];
    var leaves' := PutLeaves(epochLeaves, e, se.entries);
    forall k
      ensures k in leaves' <==> k.epoch in h' && k.leaf in LeafSet(h'[k.epoch].entries)
    {
      PutLeavesAt(epochLeaves, e, se.entries, k);
    }
    forall q, i | q in h' && 0 <= i < |h'[q].entries|
      ensures EpochLeaf(q, h'[q].entries[i].leaf) in leaves'
      ensures leaves'[EpochLeaf(q, h'[q].entries[i].leaf)] == h'[q].entries[i].did
    {
      if q == e {
        PutLeavesValue(epochLeaves, e, se.entries, i);
      } else {
        PutLeavesAt(epochLeaves, e, se.entries, EpochLeaf(q, h[q].entries[i].leaf));
      }
    }
  }

  lemma SealKeepsOwners(h: History, owners: map<Leaf, Did>, e: nat, se: SealedEpoch)
    requires OwnersInv(h, owners) && (forall q :: q in h ==> q < e) && DistinctLeaves(se.entries)
    ensures OwnersInv(h[e := se], PutOwners(owners, se.entries))
  {
    var h' := h[e := se];
    var owners' := PutOwners(owners, se.entries);
    forall q, l | q in h' && l in LeafSet(h'[q].entries)
      ensures l in owners'
    {
      PutOwnersAt(owners, se.entries, l);
    }
    forall l | l in owners'
      ensures exists q :: q in h' && l in LeafSet(h'[q].entries)
    {
      PutOwnersAt(owners, se.entries, l);
      if l in LeafSet(se.entries) {
        assert l in LeafSet(h'[e].entries);
      } else {
        var q :| q in h && l in LeafSet(h[q].entries);
        assert l in LeafSet(h'[q].entries);
      }
    }
    forall q, i | q in h' && 0 <= i < |h'[q].entries| && NoneLater(h', q, h'[q].entries[i].leaf)
      ensures h'[q].entries[i].leaf in owners' && owners'[h'[q].entries[i].leaf] == h'[q].entries[i].did
    {
      SealedOwner(h, owners, e, se, q, i);
    }
  }

  /** The newest holder of a leaf after the seal: the new epoch, or the one it was. */
  lemma SealedOwner(h: History, owners: map<Leaf, Did>, e: nat, se: SealedEpoch, q: nat, i: nat)
    requires OwnersInv(h, owners) && (forall q :: q in h ==> q < e) && DistinctLeaves(se.entries)
    requires q in h[e := se] && i < |h[e := se][q].entries|
    requires NoneLater(h[e := se], q, h[e := se][q].entries[i].leaf)
    ensures
      var owners', entry := PutOwners(owners, se.entries), h[e := se][q].entries[i];
      entry.leaf in owners' && owners'[entry.leaf] == entry.did
  {
    var h' := h[e := se];
    var entry := h'[q].entries[i];
    if q == e {
      PutOwnersValue(owners, se.entries, i);
    } else {
      assert entry.leaf !in LeafSet(h'[e].entries);
      forall p | p in h && entry.leaf in LeafSet(h[p].entries)
        ensures p <= q
      {
        assert entry.leaf in LeafSet(h'[p].entries);
      }
      assert NoneLater(h, q, h[q].entries[i].leaf);
      PutOwnersAt(owners, se.entries, entry.leaf);
    }
  }

  /** The pending records once epoch `e` is sealed: with its record, if it has methods to anchor. */
  ghost predicate SealedAnchors(h: History, anchors: map<nat, PendingRecord>, anchors': map<nat, PendingRecord>,
                                e: nat, se: SealedEpoch) {
    && (forall q :: q in anchors' <==> q in anchors || (q == e && se.methods != []))
    && (forall q :: q in anchors && q != e ==> anchors'[q] == anchors[q])
    && (se.methods != [] ==> anchors'[e].methods == se.methods)
  }

  lemma SealKeepsPhase(h: History, served: Ledger, anchors: map<nat, PendingRecord>,
                       anchors': map<nat, PendingRecord>, e: nat, se: SealedEpoch)
    requires PhaseInv(h, served, anchors) && e !in h && e !in anchors
    requires SealedAnchors(h, anchors, anchors', e, se)
    ensures PhaseInv(h[e := se], served, anchors')
  {
  }

  lemma SealKeepsLookups(h: History, anchors: map<nat, PendingRecord>, anchors': map<nat, PendingRecord>,
                         lookups: map<LeafMethod, nat>, tips: map<LeafMethod, Hash>, e: nat, se: SealedEpoch)
    requires LookupInv(h, anchors, lookups, tips) && e !in anchors && (forall q :: q in h ==> q < e)
    requires SealedAnchors(h, anchors, anchors', e, se)
    ensures LookupInv(h[e := se], anchors', PutAllLookups(lookups, LeavesOf(se.entries), se.methods, e), tips)
  {
    var h' := h[e := se];
    var lookups' := PutAllLookups(lookups, LeavesOf(se.entries), se.methods, e);
    forall k | k in lookups'
      ensures Pends(anchors', lookups'[k], k.via) && lookups'[k] in h' && k.leaf in LeafSet(h'[lookups'[k]].entries)
    {
      LookupAfterSeal(lookups, e, se, k);
    }
    forall q, k: LeafMethod | q in h' && Pends(anchors', q, k.via) && k.leaf in LeafSet(h'[q].entries)
      ensures k in tips || (k in lookups' && q <= lookups'[k])
    {
      LookupAfterSeal(lookups, e, se, k);
      assert q != e ==> Pends(anchors, q, k.via);
    }
  }

  lemma LookupAfterSeal(lookups: map<LeafMethod, nat>, e: nat, se: SealedEpoch, k: LeafMethod)
    ensures
      var lookups' := PutAllLookups(lookups, LeavesOf(se.entries), se.methods, e);
      var sealed := k.leaf in LeafSet(se.entries) && k.via in se.methods;
      && (k in lookups' <==> k in lookups || sealed)
      && (k in lookups' ==> lookups'[k] == if sealed then e else lookups[k])
  {
    LeavesOfMembers(se.entries);
    PutAllLookupsAt(lookups, LeavesOf(se.entries), se.methods, e, k);
  }

  lemma SealKeepsLeafTips(cfg: Config, h: History, served: Ledger, tips: map<LeafMethod, Hash>,
                          pairs: map<Hash, TipPair>, e: nat, se: SealedEpoch)
    requires LeafTipInv(h, served, tips, pairs) && SetsInv(cfg, h, served) && e !in h
    ensures LeafTipInv(h[e := se], served, tips, pairs) && SetsInv(cfg, h[e := se], served)
  {
  }

  /** What `persist_sealed_epoch_with_pending` is given for a closed epoch. */
  ghost function PendingFor(e: nat, openedAt: nat, closedAt: nat, se: SealedEpoch): Option<PendingRecord> {
    if se.methods == [] then None
    else Some(NewPending(e, openedAt, closedAt, se.entries, se.root, se.methods))
  }

  /** The disk after the seal batch. */
  ghost function AfterSeal(d: Disk, r: EpochRecord, se: SealedEpoch): Disk {
    var p := PendingFor(r.id, r.openedAt, r.closedAt, se);
    d.(epochs := d.epochs[r.id := r],
       epochLeaves := PutLeaves(d.epochLeaves, r.id, se.entries),
       leafOwner := PutOwners(d.leafOwner, se.entries),
       pendingAnchors := if p.None? then d.pendingAnchors else d.pendingAnchors[r.id := p.value],
       pendingLeaves := PutAllLookups(d.pendingLeaves, LeavesOf(se.entries), se.methods, r.id))
  }

  lemma SealedDiskIs(d: Disk, r: EpochRecord, se: SealedEpoch)
    ensures SealedDisk(d, r, se.entries, [], PendingFor(r.id, r.openedAt, r.closedAt, se)) == Ok(AfterSeal(d, r, se))
  {
    var p := PendingFor(r.id, r.openedAt, r.closedAt, se);
    if p.Some? {
      RestoreInvertsStore(p.value, se.entries);
    } else {
      NoMethodsNoLookups(d.pendingLeaves, LeavesOf(se.entries), r.id);
    }
  }

  lemma {:induction false} NoMethodsNoLookups(m: map<LeafMethod, nat>, leaves: seq<Leaf>, e: nat)
    ensures PutAllLookups(m, leaves, [], e) == m
  {
    if leaves != [] {
      NoMethodsNoLookups(m, leaves[..|leaves| - 1], e);
    }
  }

  /** Sealing a new epoch keeps the invariant. */
  lemma SealKeepsInv(cfg: Config, h: History, served: Ledger, d: Disk, r: EpochRecord, se: SealedEpoch)
    requires DiskInv(cfg, h, served, d) && NewEpoch(h, r.id, se)
    requires r.merkleRoot == se.root && r.leafCount == |se.entries|
    ensures DiskInv(cfg, h[r.id := se], served, AfterSeal(d, r, se))
  {
    Parts(cfg, h, served, d);
    assert r.id !in h && r.id !in d.pendingAnchors;
    SealKeepsServing(cfg.maxFaults, h, served, d, r, se);
    var h', d' := h[r.id := se], AfterSeal(d, r, se);
    forall part
      ensures Holds(part, cfg, h', served, d')
    {
      match part
      case Records =>
        SealKeepsEpochs(h, d.epochs, r, se);
        SealKeepsRoots(h, r.id, se);
      case Leaves => SealKeepsLeaves(h, d.epochLeaves, r.id, se);
      case Owners => SealKeepsOwners(h, d.leafOwner, r.id, se);
      case Sets => SealKeepsLeafTips(cfg, h, served, d.leafToTips, d.tipToPair, r.id, se);
      case LeafTips => SealKeepsLeafTips(cfg, h, served, d.leafToTips, d.tipToPair, r.id, se);
      case _ =>
    }
  }

  lemma SealKeepsServing(cap: nat, h: History, served: Ledger, d: Disk, r: EpochRecord, se: SealedEpoch)
    requires PendingInv(cap, h, d.pendingAnchors) && PhaseInv(h, served, d.pendingAnchors)
    requires LookupInv(h, d.pendingAnchors, d.pendingLeaves, d.leafToTips)
    requires SealedOk(se) && r.id !in h && r.id !in d.pendingAnchors && (forall q :: q in h ==> q < r.id)
    ensures
      var d' := AfterSeal(d, r, se);
      var h' := h[r.id := se];
      && PendingInv(cap, h', d'.pendingAnchors) && PhaseInv(h', served, d'.pendingAnchors)
      && LookupInv(h', d'.pendingAnchors, d'.pendingLeaves, d'.leafToTips)
  {
    var anchors' := AfterSeal(d, r, se).pendingAnchors;
    NewAnchors(h, d, r, se);
    SealKeepsPending(cap, h, d.pendingAnchors, r, se);
    SealKeepsPhase(h, served, d.pendingAnchors, anchors', r.id, se);
    SealKeepsLookups(h, d.pendingAnchors, anchors', d.pendingLeaves, d.leafToTips, r.id, se);
  }

  lemma NewAnchors(h: History, d: Disk, r: EpochRecord, se: SealedEpoch)
    requires r.id !in d.pendingAnchors
    ensures SealedAnchors(h, d.pendingAnchors, AfterSeal(d, r, se).pendingAnchors, r.id, se)
  {
  }

  lemma SealKeepsPending(cap: nat, h: History, anchors: map<nat, PendingRecord>, r: EpochRecord, se: SealedEpoch)
    requires PendingInv(cap, h, anchors) && SealedOk(se) && r.id !in anchors && r.id !in h
    ensures
      var p := PendingFor(r.id, r.openedAt, r.closedAt, se);
      PendingInv(cap, h[r.id := se], if p.None? then anchors else anchors[r.id := p.value])
  {
  }
}
