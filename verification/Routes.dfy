/**
 * The answers a client gets: the read side of the store, and what each status
 * means in terms of what was sealed and served.
 */
module Routes {
  import opened Base
  import opened Merkle
  import opened Witness
  import opened SelfCheck
  import opened Storage
  import opened Sealer
  import opened Invariants
  import opened Settle
  import opened Backlog
  import opened Progress
  import opened Verdicts

  datatype Tree = Tree(revisions: map<Hash, Revision>, fileIndex: map<Hash, FileName>)

  datatype NotFoundReason = UnknownLeaf | UnknownTip | NoWitnessYet | EpochNotSealed

  datatype Fault = PairMissing | ObjectRevisionMissing | SignatureRevisionMissing

  datatype BadInput = MissingMethod | UnknownMethod | BadLeaf(error: LeafParseError)

  /** 200, 202, 503, 410, 404, 403 and 400; an internal fault is answered as a bad request, 400. */
  datatype Answer =
    | Found(tree: Tree)
    | StillPending(via: Method, epoch: nat, leaf: Option<Leaf>)
    | AnchorStalled(via: Method, epoch: nat, leaf: Option<Leaf>)
    | NotVerifiable(via: Method, epoch: nat, leaf: Option<Leaf>)
    | NoSuch(reason: NotFoundReason)
    | Forbidden
    | BadRequest(input: BadInput)
    | Internal(fault: Fault)

  function ParseMethod(s: string): Option<Method> {
    if s == "evm" then Some(Evm) else if s == "qtsa" then Some(Qtsa) else None
  }

  /** Some listed pending record is this epoch's, without an anchor of `m` and at the fault cap. */
  ghost predicate IsStalled(d: Disk, cap: nat, m: Method, e: nat) {
    exists i :: 0 <= i < |PendingEpochs(d)| && StalledRecord(PendingEpochs(d)[i], cap, m, e)
  }

  predicate StalledRecord(p: PendingRecord, cap: nat, m: Method, e: nat) {
    p.epochId == e && p.Anchor(m).None? && p.FaultCount(m) >= cap
  }

  ghost function PendingAnswer(d: Disk, cap: nat, m: Method, e: nat, leaf: Option<Leaf>): Answer {
    if IsStalled(d, cap, m, e) then AnchorStalled(m, e, leaf) else StillPending(m, e, leaf)
  }

  /** The two revisions and file names of a pair, added to a tree. */
  function LoadPair(d: Disk, idx: TipPair, t: Tree): Result<Tree, Fault> {
    if idx.objectHash !in d.revisions then Err(ObjectRevisionMissing)
    else if idx.signatureHash !in d.revisions then Err(SignatureRevisionMissing)
    else Ok(Tree(
      t.revisions[idx.objectHash := d.revisions[idx.objectHash]][idx.signatureHash := d.revisions[idx.signatureHash]],
      t.fileIndex[idx.objectHash := idx.objectFile][idx.signatureHash := idx.signatureFile]))
  }

  function PairBody(d: Disk, idx: TipPair): Answer {
    match LoadPair(d, idx, Tree(map[], map[]))
    case Err(f) => Internal(f)
    case Ok(t) => Found(t)
  }

  /** `GET /trees/by-leaf/{leaf}` once its inputs are parsed. */
  ghost function ByLeaf(d: Disk, cap: nat, caller: Did, leaf: Leaf, m: Method): Answer {
    var k := LeafMethod(leaf, m);
    if leaf !in d.leafOwner then NoSuch(UnknownLeaf)
    else if d.leafOwner[leaf] != caller then Forbidden
    else if k !in d.leafToTips then
      if k in d.pendingLeaves then PendingAnswer(d, cap, m, d.pendingLeaves[k], Some(leaf)) else NoSuch(NoWitnessYet)
    else
      var tip := d.leafToTips[k];
      if tip !in d.tipToPair then Internal(PairMissing)
      else if tip !in d.selfChecked then
        if k in d.pendingLeaves && d.pendingLeaves[k] > d.tipToPair[tip].epochId
        then PendingAnswer(d, cap, m, d.pendingLeaves[k], Some(leaf))
        else NotVerifiable(m, d.tipToPair[tip].epochId, Some(leaf))
      else PairBody(d, d.tipToPair[tip])
  }

  /** The whole request, inputs unparsed. */
  ghost function ByLeafRequest(d: Disk, cap: nat, caller: Did, leafHex: string, methodParam: Option<string>): Answer {
    if methodParam.None? then BadRequest(MissingMethod)
    else if ParseMethod(methodParam.value).None? then BadRequest(UnknownMethod)
    else match ParseLeafHex(leafHex)
      case Err(e) => BadRequest(BadLeaf(e))
      case Ok(leaf) => ByLeaf(d, cap, caller, leaf, ParseMethod(methodParam.value).value)
  }

  /** `GET /trees/{tip}` for a parsed tip. */
  function ByTip(d: Disk, caller: Did, tip: Hash): Answer {
    if tip !in d.tipToPair then NoSuch(UnknownTip)
    else if d.tipToPair[tip].did != caller then Forbidden
    else if tip !in d.selfChecked then
      NotVerifiable(d.tipToPair[tip].via, d.tipToPair[tip].epochId, Some(d.tipToPair[tip].leaf))
    else PairBody(d, d.tipToPair[tip])
  }

  // ---- What was sealed and served ----

  /** `leaf` was sealed in some epoch. */
  ghost predicate SealedLeaf(h: History, leaf: Leaf) {
    exists e :: e in h && leaf in LeafSet(h[e].entries)
  }

  /** `leaf` was sealed in epoch `e` with `m` enabled. */
  ghost predicate SealedWith(h: History, e: nat, leaf: Leaf, m: Method) {
    e in h && m in h[e].methods && leaf in LeafSet(h[e].entries)
  }

  /** Some epoch that sealed `leaf` with `m` has been served. */
  ghost predicate ServedLeaf(h: History, served: Ledger, leaf: Leaf, m: Method) {
    exists e: nat :: SealedWith(h, e, leaf, m) && EpochMethod(e, m) in served
  }

  /** `e` is the newest pending epoch that sealed `leaf` with `m`. */
  ghost predicate NewestPending(h: History, anchors: Anchors, e: nat, leaf: Leaf, m: Method) {
    && SealedWith(h, e, leaf, m) && Pends(anchors, e, m)
    && forall q: nat :: SealedWith(h, q, leaf, m) && Pends(anchors, q, m) ==> q <= e
  }

  /**
   * `t` is exactly the pair of a served witness of (leaf, m): a timestamp
   * object chained to the leaf and carrying the durable anchor over the sealed
   * root, and this service's signature over it.
   */
  ghost predicate GenuineTree(cfg: Config, h: History, served: Ledger, leaf: Leaf, m: Method, t: Tree) {
    exists e: nat, i: nat :: GenuinePair(cfg, h, served, EpochMethod(e, m), i, leaf, t)
  }

  ghost predicate GenuinePair(cfg: Config, h: History, served: Ledger, k: EpochMethod, i: nat, leaf: Leaf, t: Tree) {
    && k in served && k.epoch in h && ServeOk(cfg, k, h[k.epoch], served[k])
    && i < |h[k.epoch].entries| == |served[k].witnesses| && h[k.epoch].entries[i].leaf == leaf
    && EachHolds(served[k].witnesses, cfg.serviceDid, served[k].check.hosts)
    && var anchor := CarriedFields(k.via, served[k].record.value.Anchor(k.via).value.value, h[k.epoch].root);
       var stamp := TimestampObject(leaf, Payload(anchor, |h[k.epoch].entries|, i));
       var signature := Signature(Sha3(stamp), cfg.serviceDid, served[k].mint.salts(i, k.via));
       && t.revisions == map[Sha3(stamp) := stamp, Sha3(signature) := signature]
       && NamedPair(t.fileIndex, Sha3(stamp), Sha3(signature), k.via, leaf)
  }

  /** The file index of one pair: the object under its hash, the signature under its own, both named for the leaf. */
  ghost predicate NamedPair(fileIndex: map<Hash, FileName>, stamped: Hash, signed: Hash, m: Method, leaf: Leaf) {
    && fileIndex.Keys == {stamped, signed}
    && IsObjectFile(fileIndex[stamped], m, leaf) && IsSignatureFile(fileIndex[signed], m, leaf)
  }

  // ---- Lookup closure ----

  /** `w` has tip `t`, and the store holds its pair there. */
  ghost predicate IsWitnessOf(d: Disk, w: MintedWitness, t: Hash) {
    w.signatureHash == t && t in d.tipToPair && d.tipToPair[t] == PairOf(w)
  }

  /** The per-witness form of a served set's verdicts. */
  lemma EachServedHolds(cfg: Config, k: EpochMethod, se: SealedEpoch, s: Serve)
    requires ServeOk(cfg, k, se, s)
    ensures EachHolds(s.witnesses, cfg.serviceDid, s.check.hosts)
  {
    BatchPassesExactly(s.witnesses, cfg.serviceDid, s.check.hosts);
  }

  /**
   * Serve safety. Every self-checked tip is a witness of a served set: one
   * minted, in order, for every sealed leaf over the sealed root, from an anchor
   * that was in the epoch's durable record, all of it Verified one by one.
   */
  lemma SelfCheckedTipIsGenuine(cfg: Config, h: History, served: Ledger, d: Disk, t: Hash)
    requires DiskInv(cfg, h, served, d) && t in d.selfChecked
    ensures t in d.tipToPair
    ensures
      var k := EpochMethod(d.tipToPair[t].epochId, d.tipToPair[t].via);
      && k in served && k.epoch in h && ServeOk(cfg, k, h[k.epoch], served[k])
      && k.epoch in d.epochs && d.epochs[k.epoch].merkleRoot == h[k.epoch].root
      && EachHolds(served[k].witnesses, cfg.serviceDid, served[k].check.hosts)
      && exists i :: 0 <= i < |served[k].witnesses| && IsWitnessOf(d, served[k].witnesses[i], t)
  {
    Parts(cfg, h, served, d);
    var k := EpochMethod(d.tipToPair[t].epochId, d.tipToPair[t].via);
    assert TipServed(served, k, t);
    EachServedHolds(cfg, k, h[k.epoch], served[k]);
    var i :| 0 <= i < |served[k].witnesses| && served[k].witnesses[i].signatureHash == t;
    assert TipStored(served[k].witnesses[i], d.tipToPair);
  }

  /** A stored pair always loads, and loads exactly the genuine pair. */
  lemma PairBodyIsGenuine(cfg: Config, h: History, served: Ledger, d: Disk, t: Hash)
    requires DiskInv(cfg, h, served, d) && t in d.selfChecked
    ensures t in d.tipToPair && PairBody(d, d.tipToPair[t]).Found?
    ensures GenuineTree(cfg, h, served, d.tipToPair[t].leaf, d.tipToPair[t].via, PairBody(d, d.tipToPair[t]).tree)
  {
    SelfCheckedTipIsGenuine(cfg, h, served, d, t);
    var k := EpochMethod(d.tipToPair[t].epochId, d.tipToPair[t].via);
    var i :| 0 <= i < |served[k].witnesses| && IsWitnessOf(d, served[k].witnesses[i], t);
    MintedSetIs(Batch(k.epoch, h[k.epoch].root, h[k.epoch].entries), k.via,
                served[k].record.value.Anchor(k.via).value.value, cfg.serviceDid, served[k].mint.salts);
    assert RevisionInv(d.tipToPair, d.revisions) by {
      Parts(cfg, h, served, d);
    }
    PairBodyOfWitness(cfg, h, served, d, k, i, t);
  }

  lemma PairBodyOfWitness(cfg: Config, h: History, served: Ledger, d: Disk, k: EpochMethod, i: nat, t: Hash)
    requires k in served && k.epoch in h && ServeOk(cfg, k, h[k.epoch], served[k])
    requires i < |h[k.epoch].entries| == |served[k].witnesses|
    requires EachHolds(served[k].witnesses, cfg.serviceDid, served[k].check.hosts)
    requires RevisionInv(d.tipToPair, d.revisions) && t in d.tipToPair
    requires d.tipToPair[t] == PairOf(served[k].witnesses[i])
    requires IsWitness(served[k].witnesses[i], Batch(k.epoch, h[k.epoch].root, h[k.epoch].entries), i, k.via,
                       served[k].record.value.Anchor(k.via).value.value, cfg.serviceDid, served[k].mint.salts(i, k.via))
    ensures PairBody(d, d.tipToPair[t]).Found?
    ensures GenuinePair(cfg, h, served, k, i, d.tipToPair[t].leaf, PairBody(d, d.tipToPair[t]).tree)
  {
  }

  // ---- Pending or stalled ----

  /** The scan of pending records finds `e` stalled exactly when its own record is. */
  lemma StalledIsOfTheRecord(d: Disk, cap: nat, m: Method, e: nat)
    requires forall q :: q in d.pendingAnchors ==> d.pendingAnchors[q].epochId == q
    ensures IsStalled(d, cap, m, e) <==> e in d.pendingAnchors && StalledRecord(d.pendingAnchors[e], cap, m, e)
  {
    if e in d.pendingAnchors {
      ListedMember(d, e);
    }
    if IsStalled(d, cap, m, e) {
      var i :| 0 <= i < |PendingEpochs(d)| && StalledRecord(PendingEpochs(d)[i], cap, m, e);
      PendingEpochsAreBacklog(d);
    }
  }

  lemma PendingAnswerIs(cfg: Config, h: History, served: Ledger, d: Disk, m: Method, e: nat, leaf: Option<Leaf>)
    requires DiskInv(cfg, h, served, d) && Pends(d.pendingAnchors, e, m)
    ensures PendingAnswer(d, cfg.maxFaults, m, e, leaf) ==
      if Stalled(cfg, d.pendingAnchors, e, m) then AnchorStalled(m, e, leaf) else StillPending(m, e, leaf)
  {
    RecordsNameTheirEpoch(cfg, h, served, d);
    StalledIsOfTheRecord(d, cfg.maxFaults, m, e);
  }

  // ---- The answer by leaf, exactly ----

  lemma OwnedIsSealed(cfg: Config, h: History, served: Ledger, d: Disk, leaf: Leaf)
    requires DiskInv(cfg, h, served, d)
    ensures leaf in d.leafOwner <==> SealedLeaf(h, leaf)
  {
    Parts(cfg, h, served, d);
  }

  /** A leaf has a tip exactly when some epoch that sealed it has been served. */
  lemma TipIffServed(cfg: Config, h: History, served: Ledger, d: Disk, leaf: Leaf, m: Method)
    requires DiskInv(cfg, h, served, d)
    ensures LeafMethod(leaf, m) in d.leafToTips <==> ServedLeaf(h, served, leaf, m)
    ensures LeafMethod(leaf, m) in d.leafToTips ==>
      var t := d.leafToTips[LeafMethod(leaf, m)];
      t in d.selfChecked && t in d.tipToPair && d.tipToPair[t].leaf == leaf && d.tipToPair[t].via == m
  {
    Parts(cfg, h, served, d);
    var k := LeafMethod(leaf, m);
    if k in d.leafToTips {
      TipComesFromServed(cfg, h, served, d, d.leafToTips[k]);
    }
    if ServedLeaf(h, served, leaf, m) {
      var e :| SealedWith(h, e, leaf, m) && EpochMethod(e, m) in served;
    }
  }

  lemma TipComesFromServed(cfg: Config, h: History, served: Ledger, d: Disk, t: Hash)
    requires DiskInv(cfg, h, served, d) && t in d.selfChecked && t in d.tipToPair
    requires PhaseInv(h, served, d.pendingAnchors)
    ensures ServedLeaf(h, served, d.tipToPair[t].leaf, d.tipToPair[t].via)
  {
    SelfCheckedTipIsGenuine(cfg, h, served, d, t);
    var s := EpochMethod(d.tipToPair[t].epochId, d.tipToPair[t].via);
    var i :| 0 <= i < |served[s].witnesses| && IsWitnessOf(d, served[s].witnesses[i], t);
    ServedLeafAt(cfg, h, s, served[s], i);
    assert SealedWith(h, s.epoch, d.tipToPair[t].leaf, s.via);
  }

  lemma ServedLeafAt(cfg: Config, h: History, k: EpochMethod, s: Serve, i: nat)
    requires k.epoch in h && ServeOk(cfg, k, h[k.epoch], s) && i < |s.witnesses|
    ensures |s.witnesses| == |h[k.epoch].entries|
    ensures PairOf(s.witnesses[i]).leaf == h[k.epoch].entries[i].leaf
    ensures PairOf(s.witnesses[i]).leaf in LeafSet(h[k.epoch].entries)
    ensures PairOf(s.witnesses[i]).did == h[k.epoch].entries[i].did
    ensures PairOf(s.witnesses[i]).via == k.via && PairOf(s.witnesses[i]).epochId == k.epoch
  {
    ServedWitness(cfg, k, h[k.epoch], s);
    LeafSetMember(h[k.epoch].entries, h[k.epoch].entries[i].leaf);
  }

  /** Without a tip, no epoch that sealed the leaf was served: all are pending and looked up. */
  lemma UntippedIsLookedUp(h: History, served: Ledger, d: Disk, e: nat, leaf: Leaf, m: Method)
    requires LookupInv(h, d.pendingAnchors, d.pendingLeaves, d.leafToTips) && PhaseInv(h, served, d.pendingAnchors)
    requires LeafTipInv(h, served, d.leafToTips, d.tipToPair)
    requires LeafMethod(leaf, m) !in d.leafToTips && SealedWith(h, e, leaf, m)
    ensures Pends(d.pendingAnchors, e, m)
    ensures LeafMethod(leaf, m) in d.pendingLeaves && e <= d.pendingLeaves[LeafMethod(leaf, m)]
  {
  }

  /** With no tip, the lookup is the newest pending epoch of the leaf; with no lookup, there is none. */
  lemma LookupIsNewestPending(cfg: Config, h: History, served: Ledger, d: Disk, leaf: Leaf, m: Method)
    requires DiskInv(cfg, h, served, d) && LeafMethod(leaf, m) !in d.leafToTips
    ensures LeafMethod(leaf, m) in d.pendingLeaves ==>
      NewestPending(h, d.pendingAnchors, d.pendingLeaves[LeafMethod(leaf, m)], leaf, m)
    ensures LeafMethod(leaf, m) !in d.pendingLeaves ==> forall e :: !SealedWith(h, e, leaf, m)
  {
    Parts(cfg, h, served, d);
    var k := LeafMethod(leaf, m);
    if k in d.pendingLeaves {
      LookupIsSealed(cfg.maxFaults, h, d, k);
    }
    forall e | SealedWith(h, e, leaf, m)
      ensures k in d.pendingLeaves && e <= d.pendingLeaves[k]
    {
      UntippedIsLookedUp(h, served, d, e, leaf, m);
    }
  }

  lemma LookupIsSealed(cap: nat, h: History, d: Disk, k: LeafMethod)
    requires LookupInv(h, d.pendingAnchors, d.pendingLeaves, d.leafToTips) && PendingInv(cap, h, d.pendingAnchors)
    requires k in d.pendingLeaves
    ensures SealedWith(h, d.pendingLeaves[k], k.leaf, k.via) && Pends(d.pendingAnchors, d.pendingLeaves[k], k.via)
  {
  }

  /** What an owner is told about a sealed leaf. */
  ghost predicate OwnerAnswer(cfg: Config, h: History, served: Ledger, anchors: Anchors, leaf: Leaf, m: Method,
                              a: Answer) {
    && (ServedLeaf(h, served, leaf, m) <==> a.Found?)
    && (a.Found? ==> GenuineTree(cfg, h, served, leaf, m, a.tree))
    && (a == NoSuch(NoWitnessYet) <==> forall e :: !SealedWith(h, e, leaf, m))
    && (a.StillPending? || a.AnchorStalled? ==>
          && a.via == m && a.leaf == Some(leaf) && NewestPending(h, anchors, a.epoch, leaf, m)
          && (a.AnchorStalled? <==> Stalled(cfg, anchors, a.epoch, m)))
    && (a.Found? || a.StillPending? || a.AnchorStalled? || a == NoSuch(NoWitnessYet))
  }

  lemma OwnerIsAnsweredExactly(cfg: Config, h: History, served: Ledger, d: Disk, caller: Did, leaf: Leaf, m: Method)
    requires DiskInv(cfg, h, served, d) && leaf in d.leafOwner && d.leafOwner[leaf] == caller
    ensures OwnerAnswer(cfg, h, served, d.pendingAnchors, leaf, m, ByLeaf(d, cfg.maxFaults, caller, leaf, m))
  {
    var k := LeafMethod(leaf, m);
    TipIffServed(cfg, h, served, d, leaf, m);
    if k in d.leafToTips {
      PairBodyIsGenuine(cfg, h, served, d, d.leafToTips[k]);
    } else {
      LookupIsNewestPending(cfg, h, served, d, leaf, m);
      if k in d.pendingLeaves {
        PendingAnswerIs(cfg, h, served, d, m, d.pendingLeaves[k], Some(leaf));
      }
    }
  }

  /** `did` submitted the leaf to the newest epoch that holds it. */
  ghost predicate NewestSubmitter(h: History, leaf: Leaf, did: Did) {
    exists e, i :: e in h && 0 <= i < |h[e].entries| && h[e].entries[i] == LeafEntry(leaf, did) && NoneLater(h, e, leaf)
  }

  /** The newest epoch that holds a sealed leaf. */
  lemma {:induction false} NewestHolder(h: History, ids: seq<nat>, leaf: Leaf) returns (e: nat)
    requires Ascending(ids) && (forall q :: q in h && leaf in LeafSet(h[q].entries) ==> q in ids)
    requires SealedLeaf(h, leaf)
    ensures e in h && leaf in LeafSet(h[e].entries) && NoneLater(h, e, leaf)
    decreases |ids|
  {
    var q :| q in h && leaf in LeafSet(h[q].entries);
    var n := |ids| - 1;
    if ids[n] in h && leaf in LeafSet(h[ids[n]].entries) {
      e := ids[n];
    } else {
      assert ids == ids[..n] + [ids[n]];
      e := NewestHolder(h, ids[..n], leaf);
    }
  }

  /** The store's owner of a leaf is its newest submitter. */
  lemma OwnerIsNewestSubmitter(cfg: Config, h: History, served: Ledger, d: Disk, leaf: Leaf, did: Did)
    requires DiskInv(cfg, h, served, d) && SealedLeaf(h, leaf)
    ensures leaf in d.leafOwner && (d.leafOwner[leaf] == did <==> NewestSubmitter(h, leaf, did))
  {
    Parts(cfg, h, served, d);
    var e := NewestHolder(h, InOrder(h.Keys), leaf);
    LeafSetMember(h[e].entries, leaf);
    var i :| 0 <= i < |h[e].entries| && h[e].entries[i].leaf == leaf;
    assert h[e].entries[i] == LeafEntry(leaf, d.leafOwner[leaf]);
  }

  /**
   * The answer by leaf over every good store: 404 exactly for a leaf never
   * sealed (or, to its owner, never sealed with the method), 403 exactly for a
   * leaf whose newest submitter is another DID, 200 exactly for a served one,
   * 202 and 503 for the newest pending epoch; never 410 and never an internal
   * error.
   */
  lemma ByLeafIsExact(cfg: Config, h: History, served: Ledger, d: Disk, caller: Did, leaf: Leaf, m: Method)
    requires DiskInv(cfg, h, served, d)
    ensures
      var a := ByLeaf(d, cfg.maxFaults, caller, leaf, m);
      && (a == NoSuch(UnknownLeaf) <==> !SealedLeaf(h, leaf))
      && (a == Forbidden <==> SealedLeaf(h, leaf) && !NewestSubmitter(h, leaf, caller))
      && (NewestSubmitter(h, leaf, caller) ==> OwnerAnswer(cfg, h, served, d.pendingAnchors, leaf, m, a))
      && !a.NotVerifiable? && !a.Internal?
  {
    OwnedIsSealed(cfg, h, served, d, leaf);
    if NewestSubmitter(h, leaf, caller) {
      SubmittedIsSealed(h, leaf, caller);
    }
    if leaf in d.leafOwner {
      OwnerIsNewestSubmitter(cfg, h, served, d, leaf, caller);
      if d.leafOwner[leaf] == caller {
        OwnerIsAnsweredExactly(cfg, h, served, d, caller, leaf, m);
      }
    }
  }

  lemma SubmittedIsSealed(h: History, leaf: Leaf, did: Did)
    requires NewestSubmitter(h, leaf, did)
    ensures SealedLeaf(h, leaf)
  {
    var e, i :| e in h && 0 <= i < |h[e].entries| && h[e].entries[i] == LeafEntry(leaf, did) && NoneLater(h, e, leaf);
    LeafSetMember(h[e].entries, leaf);
    assert HasLeaf(h[e].entries, h[e].entries[i].leaf);
  }

  /**
   * A request is refused as malformed exactly for a method other than `evm` and
   * `qtsa`, or none, or a leaf in no accepted spelling; every spelling gets the
   * leaf's answer under the method asked for.
   */
  lemma RequestsAreParsedExactly(d: Disk, cap: nat, caller: Did, leafHex: string, methodParam: Option<string>)
    ensures
      var a := ByLeafRequest(d, cap, caller, leafHex, methodParam);
      && (a.BadRequest? <==>
           || (methodParam != Some("evm") && methodParam != Some("qtsa"))
           || forall leaf :: !IsSpelling(leafHex, leaf))
      && (a == BadRequest(MissingMethod) <==> methodParam == None)
      && (a == BadRequest(UnknownMethod) <==>
           methodParam != None && methodParam != Some("evm") && methodParam != Some("qtsa"))
      && (forall leaf :: IsSpelling(leafHex, leaf) ==>
           && (methodParam == Some("evm") ==> a == ByLeaf(d, cap, caller, leaf, Evm))
           && (methodParam == Some("qtsa") ==> a == ByLeaf(d, cap, caller, leaf, Qtsa)))
  {
    forall leaf
      ensures IsSpelling(leafHex, leaf) <==> ParseLeafHex(leafHex) == Ok(leaf)
    {
      ParsesExactlySpellings(leafHex, leaf);
    }
    if ParseLeafHex(leafHex).Ok? {
      assert IsSpelling(leafHex, ParseLeafHex(leafHex).value);
    }
    MethodsParse();
  }

  lemma MethodsParse()
    ensures ParseMethod("evm") == Some(Evm) && ParseMethod("qtsa") == Some(Qtsa)
  {
    assert "evm" != "qtsa" by {
      assert |"evm"| != |"qtsa"|;
    }
  }

  /**
   * By tip: 404 exactly for an unknown tip, 403 exactly for another DID's, else
   * 200 with the genuine pair; never 410 and never an internal error.
   */
  lemma ByTipIsExact(cfg: Config, h: History, served: Ledger, d: Disk, caller: Did, tip: Hash)
    requires DiskInv(cfg, h, served, d)
    ensures
      var a := ByTip(d, caller, tip);
      && (a == NoSuch(UnknownTip) <==> tip !in d.tipToPair)
      && (a == Forbidden <==> tip in d.tipToPair && d.tipToPair[tip].did != caller)
      && (a.Found? <==> tip in d.tipToPair && d.tipToPair[tip].did == caller)
      && (a.Found? ==> GenuineTree(cfg, h, served, d.tipToPair[tip].leaf, d.tipToPair[tip].via, a.tree))
      && (a.Found? || a == NoSuch(UnknownTip) || a == Forbidden)
  {
    Parts(cfg, h, served, d);
    if tip in d.tipToPair {
      PairBodyIsGenuine(cfg, h, served, d, tip);
    }
  }

  lemma TipIsOfAnEntry(cfg: Config, h: History, served: Ledger, d: Disk, tip: Hash)
    requires DiskInv(cfg, h, served, d) && tip in d.selfChecked
    ensures tip in d.tipToPair
    ensures
      var p := d.tipToPair[tip];
      var k := EpochMethod(p.epochId, p.via);
      && k in served && p.epochId in h
      && (exists i :: 0 <= i < |served[k].witnesses| && served[k].witnesses[i].signatureHash == tip)
      && exists i :: 0 <= i < |h[p.epochId].entries| && h[p.epochId].entries[i] == LeafEntry(p.leaf, p.did)
  {
    SelfCheckedTipIsGenuine(cfg, h, served, d, tip);
    var k := EpochMethod(d.tipToPair[tip].epochId, d.tipToPair[tip].via);
    var i :| 0 <= i < |served[k].witnesses| && IsWitnessOf(d, served[k].witnesses[i], tip);
    ServedLeafAt(cfg, h, k, served[k], i);
    assert h[k.epoch].entries[i] == LeafEntry(d.tipToPair[tip].leaf, d.tipToPair[tip].did);
  }

  /** The stored tips are the witnesses of the served sets, each with its leaf, method, epoch and submitter. */
  lemma TipsAreServedWitnesses(cfg: Config, h: History, served: Ledger, d: Disk, tip: Hash)
    requires DiskInv(cfg, h, served, d)
    ensures tip in d.tipToPair <==>
      exists k, i :: k in served && 0 <= i < |served[k].witnesses| && served[k].witnesses[i].signatureHash == tip
    ensures tip in d.tipToPair ==>
      var p := d.tipToPair[tip];
      && EpochMethod(p.epochId, p.via) in served && p.epochId in h
      && exists i :: 0 <= i < |h[p.epochId].entries| && h[p.epochId].entries[i] == LeafEntry(p.leaf, p.did)
  {
    Parts(cfg, h, served, d);
    if tip in d.tipToPair {
      TipIsOfAnEntry(cfg, h, served, d, tip);
    }
    if exists k, i :: k in served && 0 <= i < |served[k].witnesses| && served[k].witnesses[i].signatureHash == tip {
      var k, i :| k in served && 0 <= i < |served[k].witnesses| && served[k].witnesses[i].signatureHash == tip;
      assert TipStored(served[k].witnesses[i], d.tipToPair);
    }
  }
}
