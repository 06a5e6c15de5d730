/**
 * What settling one (epoch, method) does, case by case: what it leaves in the
 * store, in terms of the record there and of what the environment answered.
 */
module Outcomes {
  import opened Base
  import opened Witness
  import opened SelfCheck
  import opened Storage
  import opened Sealer
  import opened Invariants
  import opened Settle
  import opened Verdicts

  /** The write reached the store. */
  ghost predicate Landed(o: WriteOutcome) {
    o in {Written, Unsynced, CrashAfter}
  }

  ghost predicate Crashes(o: WriteOutcome) {
    o in {CrashBefore, CrashAfter}
  }

  ghost predicate Errs(o: WriteOutcome) {
    o in {Refused, Unsynced}
  }

  /** `p'` has the epoch, times, methods, leaves and root of `p`, and every other method's anchor and faults. */
  ghost predicate SameBut(p: PendingRecord, p': PendingRecord, m: Method) {
    && p'.epochId == p.epochId && p'.openedAt == p.openedAt && p'.closedAt == p.closedAt
    && p'.leaves == p.leaves && p'.root == p.root
    && forall k :: k != m ==> p'.Anchor(k) == p.Anchor(k) && p'.FaultCount(k) == p.FaultCount(k)
  }

  /** The store holds `p` as its epoch's record, and is otherwise as it was. */
  ghost predicate Recorded(d: Disk, d': Disk, p: PendingRecord) {
    d' == d.(pendingAnchors := d.pendingAnchors[p.epochId := p])
  }

  /** Nothing was served or returned. */
  ghost predicate NothingServed(w: Work, w': Work) {
    w'.served == w.served && w'.out == w.out
  }

  // ---- With an anchor ----

  /** Signing and the check ran, and the first leaf is included in the batch. */
  ghost predicate Checked(se: SealedEpoch, m: Method, v: TimestampValue, env: SettleEnv) {
    && env.mint.Signed? && env.check.Judged? && se.entries != []
    && FirstIncluded(se, m, v, env.check.hosts)
  }

  /** A host refuted the anchor. */
  ghost predicate Refuted(se: SealedEpoch, m: Method, v: TimestampValue, env: SettleEnv) {
    Checked(se, m, v, env) && AnchorRefuted(m, CarriedFields(m, v, se.root), env.check.hosts)
  }

  /** The node does not know the anchor's transaction. */
  ghost predicate Unknown(se: SealedEpoch, m: Method, v: TimestampValue, env: SettleEnv) {
    Checked(se, m, v, env) && AnchorUnknown(m, CarriedFields(m, v, se.root), env.check.hosts)
  }

  /** Every witness minted from the anchor holds. */
  ghost predicate AllHold(cfg: Config, e: nat, se: SealedEpoch, m: Method, v: TimestampValue, env: SettleEnv) {
    && env.mint.Signed? && env.check.Judged?
    && EachHolds(MintSet(Batch(e, se.root, se.entries), m, v, cfg.serviceDid, env.mint.salts), cfg.serviceDid,
                 env.check.hosts)
  }

  /** The anchor has been unknown for the whole timeout. */
  ghost predicate TimedOut(cfg: Config, a: StoredAnchor, now: nat) {
    a.firstSeen.Some? && (cfg.notFoundTimeout == 0 || now >= a.firstSeen.value + cfg.notFoundTimeout)
  }

  /** A settle with an anchor in the record. */
  ghost predicate Settled(cfg: Config, h: History, w: Work, m: Method, rest: set<Method>) {
    && Settling(cfg, h, w, rest + {m}) && m in cfg.methods && !w.crashed && w.pending.Anchor(m).Some?
    && w.pending.epochId in h && SealedOk(h[w.pending.epochId])
  }

  /** The decision, in terms of what the hosts answered. */
  lemma DecidedBy(cfg: Config, h: History, w: Work, m: Method, now: nat, env: SettleEnv, rest: set<Method>)
    requires Settled(cfg, h, w, m, rest)
    ensures
      var se, v := h[w.pending.epochId], w.pending.Anchor(m).value.value;
      var d := Decide(w.pending, m, v, cfg.serviceDid, env.mint, env.check);
      && SettleMethod(cfg, w, m, now, env) == Judge(cfg, w, m, v, now, env)
      && (d == FaultyAnchor <==> Refuted(se, m, v, env))
      && (d == NotFoundYet <==> Unknown(se, m, v, env))
      && (d.Serving? <==> AllHold(cfg, w.pending.epochId, se, m, v, env))
      && (d.Serving? ==>
            d.witnesses
            == MintSet(Batch(w.pending.epochId, se.root, se.entries), m, v, cfg.serviceDid, env.mint.salts))
  {
    assert m in rest + {m};
    var v := w.pending.Anchor(m).value.value;
    DecisionIsAboutTheAnchor(cfg.maxFaults, h, w.pending, m, v, cfg.serviceDid, env.mint, env.check);
    ServesExactlyWhenEveryWitnessHolds(cfg.maxFaults, h, w.pending, m, v, cfg.serviceDid, env.mint, env.check);
  }

  /** The record without its anchor and with one fault more, in the copy; in the store exactly if its write landed. */
  ghost predicate Discarded(w: Work, w': Work, m: Method, note: WriteOutcome) {
    && SameBut(w.pending, w'.pending, m) && w'.pending.methods == w.pending.methods
    && w'.pending.Anchor(m).None? && w'.pending.FaultCount(m) == w.pending.FaultCount(m) + 1
    && (Landed(note) ==> Recorded(w.disk, w'.disk, w'.pending))
    && (!Landed(note) ==> w'.disk == w.disk)
    && w'.crashed == Crashes(note) && NothingServed(w, w')
  }

  lemma DiscardIs(w: Work, w0: Work, m: Method, note: WriteOutcome)
    requires w0.disk == w.disk && w0.pending == w.pending && NothingServed(w, w0)
    ensures Discarded(w, Discard(w0, m, note), m, note)
  {
  }

  /**
   * A refuted anchor is dropped and counted, and the record saved so: in the
   * store the record has no anchor of the method and one fault more, the other
   * methods as the copy has them. If the write does not land the store is as it
   * was. The method is down for the tick.
   */
  lemma RefutedIsDiscarded(cfg: Config, h: History, w: Work, m: Method, now: nat, env: SettleEnv, rest: set<Method>)
    requires Settled(cfg, h, w, m, rest)
    requires Refuted(h[w.pending.epochId], m, w.pending.Anchor(m).value.value, env)
    ensures
      var w' := SettleMethod(cfg, w, m, now, env);
      && Discarded(w, w', m, env.note) && w'.down == w.down + {m}
      && w'.log == w.log + [AtFault(w.pending.epochId, m, w.pending.Anchor(m).value.value)]
  {
    var v := w.pending.Anchor(m).value.value;
    DecidedBy(cfg, h, w, m, now, env, rest);
    DiscardIs(w, w.Down(m).Log(AtFault(w.pending.epochId, m, v)), m, env.note);
  }

  /** An anchor unknown for the whole timeout is dropped, counted and saved the same way; the method is not down. */
  lemma TimedOutIsDiscarded(cfg: Config, h: History, w: Work, m: Method, now: nat, env: SettleEnv, rest: set<Method>)
    requires Settled(cfg, h, w, m, rest)
    requires Unknown(h[w.pending.epochId], m, w.pending.Anchor(m).value.value, env)
    requires TimedOut(cfg, w.pending.Anchor(m).value, now)
    ensures
      var w', a := SettleMethod(cfg, w, m, now, env), w.pending.Anchor(m).value;
      && Discarded(w, w', m, env.note) && w'.down == w.down
      && w'.log == w.log + [Abandoned(w.pending.epochId, m, a.value, a.firstSeen.value, now)]
  {
    DecidedBy(cfg, h, w, m, now, env, rest);
    OldIsAbandoned(cfg, w, m, now, env);
    var a := w.pending.Anchor(m).value;
    DiscardIs(w, w.Log(Abandoned(w.pending.epochId, m, a.value, a.firstSeen.value, now)), m, env.note);
  }

  lemma OldIsAbandoned(cfg: Config, w: Work, m: Method, now: nat, env: SettleEnv)
    requires w.pending.Anchor(m).Some? && TimedOut(cfg, w.pending.Anchor(m).value, now)
    ensures
      var a := w.pending.Anchor(m).value;
      SettleMissing(cfg, w, m, now, env)
      == Discard(w.Log(Abandoned(w.pending.epochId, m, a.value, a.firstSeen.value, now)), m, env.note)
  {
    StampedIsSame(w.pending, m, now);
  }

  /**
   * Otherwise, unless the set is served, nothing happens at all: the anchor is
   * kept, and nothing is written.
   */
  lemma OtherwiseKept(cfg: Config, h: History, w: Work, m: Method, now: nat, env: SettleEnv, rest: set<Method>)
    requires Settled(cfg, h, w, m, rest)
    requires
      var e, a := w.pending.epochId, w.pending.Anchor(m).value;
      && !AllHold(cfg, e, h[e], m, a.value, env) && !Refuted(h[e], m, a.value, env)
      && (Unknown(h[e], m, a.value, env) ==> !TimedOut(cfg, a, now))
    ensures SettleMethod(cfg, w, m, now, env) == w
  {
    assert m in rest + {m} && SlotOk(cfg.maxFaults, w.pending, m);
    DecidedBy(cfg, h, w, m, now, env, rest);
    if !TimedOut(cfg, w.pending.Anchor(m).value, now) {
      YoungIsKept(cfg, w, m, now, env);
    }
  }

  lemma YoungIsKept(cfg: Config, w: Work, m: Method, now: nat, env: SettleEnv)
    requires w.pending.Anchor(m).Some? && w.pending.Anchor(m).value.firstSeen.Some?
    requires !TimedOut(cfg, w.pending.Anchor(m).value, now)
    ensures SettleMissing(cfg, w, m, now, env) == w
  {
    StampedIsSame(w.pending, m, now);
  }

  /** The record without the method, its anchor gone and its faults kept. */
  ghost predicate WithoutMethod(p: PendingRecord, p': PendingRecord, m: Method) {
    && SameBut(p, p', m) && p'.Anchor(m).None? && p'.FaultCount(m) == p.FaultCount(m)
    && (forall k :: k in p'.methods <==> k in p.methods && k != m) && NoDup(p'.methods)
  }

  /** The store after a served set: the record goes on without the method, or is gone with its last one. */
  ghost predicate ServedInStore(d: Disk, d': Disk, p: PendingRecord, m: Method) {
    && (forall q :: q != p.epochId ==> (q in d'.pendingAnchors <==> q in d.pendingAnchors))
    && (forall q :: q != p.epochId && q in d.pendingAnchors ==> d'.pendingAnchors[q] == d.pendingAnchors[q])
    && (p.epochId in d'.pendingAnchors <==> exists k :: k in p.methods && k != m)
    && (p.epochId in d'.pendingAnchors ==> WithoutMethod(p, d'.pendingAnchors[p.epochId], m))
    && d'.epochs == d.epochs && d'.epochLeaves == d.epochLeaves && d'.leafOwner == d.leafOwner
  }

  /** Every witness of the set is found by its tip, by its leaf, and with both its revisions; its tip is marked. */
  ghost predicate Findable(d: Disk, ws: seq<MintedWitness>) {
    forall i :: 0 <= i < |ws| ==> FoundInStore(d, ws[i])
  }

  ghost predicate FoundInStore(d: Disk, x: MintedWitness) {
    && x.signatureHash in d.tipToPair && x.signatureHash in d.selfChecked
    && IsPairOf(d.tipToPair[x.signatureHash], x)
    && LeafMethod(x.leaf, x.via) in d.leafToTips && d.leafToTips[LeafMethod(x.leaf, x.via)] == x.signatureHash
    && x.objectHash in d.revisions && d.revisions[x.objectHash] == x.objectRevision
    && x.signatureHash in d.revisions && d.revisions[x.signatureHash] == x.signatureRevision
  }

  /** What the store keeps of a witness beside its revisions. */
  ghost predicate IsPairOf(p: TipPair, x: MintedWitness) {
    && p.objectHash == x.objectHash && p.signatureHash == x.signatureHash
    && p.leaf == x.leaf && p.via == x.via && p.epochId == x.epochId && p.did == x.did
    && p.objectFile == x.objectFile && p.signatureFile == x.signatureFile
  }

  /**
   * When every witness holds, the set is written for serving, in one commit:
   * every witness is found, the method is gone from the record, and the set is
   * returned if the write reported no error. If the write does not land nothing
   * changes but for a crash.
   */
  lemma HoldingIsServed(cfg: Config, h: History, w: Work, m: Method, now: nat, env: SettleEnv, rest: set<Method>)
    requires Settled(cfg, h, w, m, rest) && m !in rest
    requires AllHold(cfg, w.pending.epochId, h[w.pending.epochId], m, w.pending.Anchor(m).value.value, env)
    ensures
      var w', e := SettleMethod(cfg, w, m, now, env), w.pending.epochId;
      var ws := MintSet(Batch(e, h[e].root, h[e].entries), m, w.pending.Anchor(m).value.value, cfg.serviceDid,
                        env.mint.salts);
      && w'.crashed == Crashes(env.serve) && w'.down == w.down
      && (Landed(env.serve) ==>
           && ServedInStore(w.disk, w'.disk, w.pending, m) && Findable(w'.disk, ws)
           && w'.out == (if env.serve == Unsynced then w.out else w.out + ws)
           && w'.log == w.log + [ServedAt(e, m)])
      && (!Landed(env.serve) ==> w' == w.(crashed := w'.crashed))
  {
    assert m in rest + {m};
    var e, v := w.pending.epochId, w.pending.Anchor(m).value.value;
    var ws := MintSet(Batch(e, h[e].root, h[e].entries), m, v, cfg.serviceDid, env.mint.salts);
    DecidedBy(cfg, h, w, m, now, env, rest);
    ServeIs(h, w, m, ws, env);
    if Landed(env.serve) {
      ServedStore(w.disk, w.pending, m, h[e].entries, ws);
      ServedFindable(cfg, h, w, m, env, ws);
    }
  }

  /** The serve write, by its outcome. */
  lemma ServeIs(h: History, w: Work, m: Method, ws: seq<MintedWitness>, env: SettleEnv)
    requires w.pending.epochId in h && w.pending.leaves == StoredLeaves(h[w.pending.epochId].entries) && !w.crashed
    ensures
      var w', e := ServeSet(w, m, ws, env), w.pending.epochId;
      && w'.crashed == Crashes(env.serve) && w'.down == w.down
      && (Landed(env.serve) ==>
            && w'.disk == AfterServe(w.disk, w.pending, m, h[e].entries, ws)
            && w'.out == (if env.serve == Unsynced then w.out else w.out + ws)
            && w'.log == w.log + [ServedAt(e, m)])
      && (!Landed(env.serve) ==> w' == w.(crashed := w'.crashed))
  {
    MintedDiskIs(w.disk, w.pending, m, h[w.pending.epochId].entries, ws);
  }

  lemma ServedStore(d: Disk, p: PendingRecord, m: Method, entries: seq<LeafEntry>, ws: seq<MintedWitness>)
    requires NoDup(p.methods)
    ensures ServedInStore(d, AfterServe(d, p, m, entries, ws), p, m)
  {
    var p' := p.Without(m);
    if p'.methods != [] {
      assert p'.methods[0] in p'.methods;
    }
  }

  lemma ServedFindable(cfg: Config, h: History, w: Work, m: Method, env: SettleEnv, ws: seq<MintedWitness>)
    requires DiskInv(cfg, h, w.served, w.disk) && w.pending.epochId in h && SealedOk(h[w.pending.epochId])
    requires Current(cfg.maxFaults, h, w.disk.pendingAnchors, w.pending) && m in w.pending.methods
    requires Synced(w.disk.pendingAnchors, w.pending, m) && MayServe(cfg, w.pending, m, ws, env)
    ensures Findable(AfterServe(w.disk, w.pending, m, h[w.pending.epochId].entries, ws), ws)
  {
    var s := Serve(Some(w.disk.pendingAnchors[w.pending.epochId]), ws, env.mint, env.check);
    assert PendingInv(cfg.maxFaults, h, w.disk.pendingAnchors) by {
      PendingPart(cfg, h, w.served, w.disk);
    }
    ServedIsOk(cfg, h, w.disk.pendingAnchors, w.pending, m, ws, env);
    ServedKeepsAndFinds(cfg, h, w.served, w.disk, w.pending, m, s);
  }

  lemma ServedKeepsAndFinds(cfg: Config, h: History, served: Ledger, d: Disk, p: PendingRecord, m: Method, s: Serve)
    requires DiskInv(cfg, h, served, d)
    requires Current(cfg.maxFaults, h, d.pendingAnchors, p) && m in p.methods && SealedOk(h[p.epochId])
    requires ServeOk(cfg, EpochMethod(p.epochId, m), h[p.epochId], s)
    ensures Findable(AfterServe(d, p, m, h[p.epochId].entries, s.witnesses), s.witnesses)
  {
    ServeKeepsInv(cfg, h, served, d, p, m, s);
    ServedSetIsFindable(cfg, h, served, d, p, m, s);
  }

  lemma ServedSetIsFindable(cfg: Config, h: History, served: Ledger, d: Disk, p: PendingRecord, m: Method, s: Serve)
    requires p.epochId in h && ServeOk(cfg, EpochMethod(p.epochId, m), h[p.epochId], s) && SealedOk(h[p.epochId])
    requires
      var d' := AfterServe(d, p, m, h[p.epochId].entries, s.witnesses);
      DiskInv(cfg, h, served[EpochMethod(p.epochId, m) := s], d')
    ensures Findable(AfterServe(d, p, m, h[p.epochId].entries, s.witnesses), s.witnesses)
  {
    var k, d' := EpochMethod(p.epochId, m), AfterServe(d, p, m, h[p.epochId].entries, s.witnesses);
    var served' := served[k := s];
    Parts(cfg, h, served', d');
    ServedShape(cfg, k, h[p.epochId], s);
    ServedHashes(cfg, k, h[p.epochId], s);
    ServedTipsDistinct(cfg, h, k, s);
    forall i | 0 <= i < |s.witnesses|
      ensures FoundInStore(d', s.witnesses[i])
    {
      assert TipStored(served'[k].witnesses[i], d'.tipToPair);
      PutWitnessesValue(WitnessIndex(d), s.witnesses, i);
    }
  }

  // ---- Without an anchor ----

  /** No anchor, and the method is down for the tick or at the fault cap: nothing happens. */
  lemma NoCallNoChange(cfg: Config, w: Work, m: Method, now: nat, env: SettleEnv)
    requires m in cfg.methods && w.pending.Anchor(m).None?
    requires m in w.down || w.pending.FaultCount(m) >= cfg.maxFaults
    ensures SettleMethod(cfg, w, m, now, env) == w
  {
  }

  /** A method that is no longer enabled is left alone. */
  lemma DisabledIsLeft(cfg: Config, w: Work, m: Method, now: nat, env: SettleEnv)
    requires m !in cfg.methods
    ensures SettleMethod(cfg, w, m, now, env) == w
  {
  }

  /** A call that fails puts the method down and changes nothing else. */
  lemma FailedCallPutsDown(cfg: Config, w: Work, m: Method, now: nat, env: SettleEnv)
    requires m in cfg.methods && w.pending.Anchor(m).None?
    requires m !in w.down && w.pending.FaultCount(m) < cfg.maxFaults && env.call.CallFailed?
    ensures SettleMethod(cfg, w, m, now, env)
      == w.(down := w.down + {m}, log := w.log + [CallFailedAt(w.pending.epochId, m)])
  {
  }

  /** The record with the returned anchor, seen now. */
  ghost predicate Anchored(p: PendingRecord, p': PendingRecord, m: Method, v: TimestampValue, now: nat) {
    && SameBut(p, p', m) && p'.methods == p.methods && p'.FaultCount(m) == p.FaultCount(m)
    && p'.Anchor(m) == Some(StoredAnchor(m, v, Some(now)))
  }

  /** The save after a call, and the second one after an error: whether either reached the store, and how they end. */
  ghost predicate EitherLanded(env: SettleEnv) {
    Landed(env.save1) || (Errs(env.save1) && Landed(env.save2))
  }

  ghost predicate Stored(env: SettleEnv) {
    env.save1 == Written || (Errs(env.save1) && env.save2 == Written)
  }

  ghost predicate NeverStored(env: SettleEnv) {
    Errs(env.save1) && Errs(env.save2)
  }

  lemma StoreOutcomeIs(env: SettleEnv)
    ensures Lands(StoreOutcome(env)) <==> EitherLanded(env)
    ensures ResultOf(StoreOutcome(env)) == Done <==> Stored(env)
    ensures ResultOf(StoreOutcome(env)) == StoreError <==> NeverStored(env)
  {
  }

  /** What a returned anchor and its saves leave of the settle. */
  ghost predicate AnchorSaved(w: Work, w0: Work, m: Method, now: nat, env: SettleEnv)
    requires env.call.Returned?
  {
    var called := w.log + [Event.Anchored(w.pending.epochId, m)];
    && Anchored(w.pending, w0.pending, m, env.call.value, now)
    && (if EitherLanded(env) then Recorded(w.disk, w0.disk, w0.pending) else w0.disk == w.disk)
    && w0.log == (if NeverStored(env) then called + [NotStored(w.pending.epochId, m)] else called)
    && w0.down == (if NeverStored(env) then w.down + {m} else w.down)
    && w0.crashed == (!Stored(env) && !NeverStored(env))
    && NothingServed(w, w0)
  }

  lemma SavedAnchorIs(w: Work, m: Method, now: nat, env: SettleEnv)
    requires env.call.Returned?
    ensures
      var e := w.pending.epochId;
      var saved := Save(w.Log(Event.Anchored(e, m)), w.pending.WithAnchor(m, env.call.value, now), StoreOutcome(env));
      AnchorSaved(w, if NeverStored(env) then saved.Down(m).Log(NotStored(e, m)) else saved, m, now, env)
  {
    StoreOutcomeIs(env);
  }

  /**
   * A call that returns an anchor: the record with it is saved, once more after
   * an error. Once a save is written, the settle goes on as with an anchor held
   * before. After two errors the method is down, after a crash the tick ends;
   * nothing is minted then. In the store is the record with the anchor exactly
   * when either save landed.
   */
  lemma ReturnedAnchorIsSaved(cfg: Config, w: Work, m: Method, now: nat, env: SettleEnv) returns (w0: Work)
    requires m in cfg.methods && w.pending.Anchor(m).None? && !w.crashed
    requires m !in w.down && w.pending.FaultCount(m) < cfg.maxFaults && env.call.Returned?
    ensures AnchorSaved(w, w0, m, now, env)
    ensures SettleMethod(cfg, w, m, now, env) == if Stored(env) then SettleMethod(cfg, w0, m, now, env) else w0
  {
    w0 := Acquire(cfg, w, m, now, env).work;
    SavedAnchorIs(w, m, now, env);
    StoreOutcomeIs(env);
  }

  // ---- One after the other ----

  /** The methods of an epoch are settled in the record's order, each on what the ones before left, until a crash. */
  lemma {:induction false} MethodsGoInOrder(cfg: Config, w: Work, first: seq<Method>, rest: seq<Method>, now: nat,
                                            envs: SettleEnvs)
    ensures SettleMethods(cfg, w, first + rest, now, envs)
      == SettleMethods(cfg, SettleMethods(cfg, w, first, now, envs), rest, now, envs)
    decreases |first|
  {
    if first == [] {
      assert first + rest == rest;
    } else if !w.crashed {
      assert (first + rest)[1..] == first[1..] + rest;
      MethodsGoInOrder(cfg, SettleMethod(cfg, w, first[0], now, envs(w.pending.epochId, first[0])), first[1..], rest,
                       now, envs);
    }
  }

  lemma OneMethod(cfg: Config, w: Work, m: Method, now: nat, envs: SettleEnvs)
    requires !w.crashed
    ensures SettleMethods(cfg, w, [m], now, envs) == SettleMethod(cfg, w, m, now, envs(w.pending.epochId, m))
  {
  }

  /** The records of the backlog are settled in order too. */
  lemma {:induction false} RecordsGoInOrder(cfg: Config, w: Work, first: seq<PendingRecord>, rest: seq<PendingRecord>,
                                            now: nat, envs: SettleEnvs)
    ensures Retry(cfg, w, first + rest, now, envs)
      == Retry(cfg, Retry(cfg, w, first, now, envs), rest, now, envs)
    decreases |first|
  {
    if first == [] {
      assert first + rest == rest;
    } else if !w.crashed {
      assert (first + rest)[1..] == first[1..] + rest;
      RecordsGoInOrder(cfg, SettleEpoch(cfg, w, first[0], now, envs), first[1..], rest, now, envs);
    }
  }

  /** A record is settled on a copy of its own, with all its methods; the copy is then dropped. */
  lemma OneRecord(cfg: Config, w: Work, p: PendingRecord, now: nat, envs: SettleEnvs)
    requires !w.crashed
    ensures Retry(cfg, w, [p], now, envs)
      == DropVolatile(SettleMethods(cfg, w.(pending := p), p.methods, now, envs))
  {
  }

  // ---- A crash ends the tick ----

  /** After a crash nothing more is settled. */
  lemma CrashEndsTheTick(cfg: Config, w: Work, ms: seq<Method>, ps: seq<PendingRecord>, now: nat, envs: SettleEnvs)
    requires w.crashed
    ensures SettleMethods(cfg, w, ms, now, envs) == w && Retry(cfg, w, ps, now, envs) == w
  {
  }
}
