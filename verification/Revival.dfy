/**
 * A serve write that lands but reports an error, in a tick of the service: the
 * copy it leaves behind still lists the served method, and the next save of the
 * copy makes that method pending again.
 */
module Revival {
  import opened Base
  import opened Accumulation
  import opened Witness
  import opened SelfCheck
  import opened Storage
  import opened Sealer
  import opened Invariants
  import opened Settle
  import opened Backlog
  import opened System
  import opened Runs
  import opened Liveness
  import opened Verdicts
  import Resubmission

  /** EVM and qTSA are enabled. */
  const BOTH: Config := Config([Evm, Qtsa], 1, 0, "did:service", {Evm, Qtsa}, {Evm, Qtsa})

  /**
   * Every call returns an anchor and every save is written. EVM's set is signed,
   * Verified, and served by a write that lands but reports an error; qTSA's is
   * not signed.
   */
  function Answers(): SettleEnvs {
    (_, m) =>
      if m == Evm then
        SettleEnv(Returned(Resubmission.ANCHOR), Written, Written, Signed(Resubmission.NoSalt()),
                  Judged(Resubmission.Willing()), Written, Unsynced)
      else
        SettleEnv(Returned(Resubmission.ANCHOR), Written, Written, MintFailed, Panicked, Written, Written)
  }

  /** The epoch's leaf arrives, is sealed with both methods, and settled so. */
  function StaleTick(leaf: Leaf): TickEnv {
    TickEnv(0, 1, true, true, Answers(), [Submit([leaf], "did:owner")], Prepared(0), Written, [], 0)
  }

  lemma WillingVerifies(e: nat, se: SealedEpoch)
    requires SealedOk(se) && se.entries != []
    ensures VerdictsGood(BOTH, e, se, Evm, Resubmission.ANCHOR, Answers()(e, Evm))
  {
    var batch := Batch(e, se.root, se.entries);
    var salts := Resubmission.NoSalt();
    Resubmission.WillingConfirms(batch, Evm, Resubmission.ANCHOR, BOTH.serviceDid, salts);
    MintedSetVerifies(batch, Evm, Resubmission.ANCHOR, BOTH.serviceDid, salts, Resubmission.Willing());
    BatchPassesExactly(MintSet(batch, Evm, Resubmission.ANCHOR, BOTH.serviceDid, salts), BOTH.serviceDid,
                       Resubmission.Willing());
  }

  lemma FirstAcquire(h: History, w: Work, now: nat)
    requires Settling(BOTH, h, w, {Qtsa} + {Evm}) && Up(w, Evm) && SlotOf(w.pending, Evm) == Slot(None, 0)
    ensures
      var a := Acquire(BOTH, w, Evm, now, Answers()(w.pending.epochId, Evm));
      && a.Holds? && a.value == Resubmission.ANCHOR && a.work.pending.epochId == w.pending.epochId
      && Current(BOTH.maxFaults, h, a.work.disk.pendingAnchors, a.work.pending) && Evm in a.work.pending.methods
  {
    var env := Answers()(w.pending.epochId, Evm);
    OwnAcquire(BOTH, w, Evm, now, env);
    AcquireSettles(BOTH, h, w, Evm, now, env, {Qtsa});
    assert Evm in {Qtsa} + {Evm};
  }

  /** The first settle: EVM is served, and the copy still lists it; qTSA is untouched. */
  lemma FirstSettle(h: History, w: Work, now: nat)
    requires Settling(BOTH, h, w, {Qtsa} + {Evm}) && Up(w, Evm) && w.pending.epochId in h
    requires SealedOk(h[w.pending.epochId]) && h[w.pending.epochId].entries != []
    requires SlotOf(w.pending, Evm) == Slot(None, 0)
    ensures
      var w1 := SettleMethod(BOTH, w, Evm, now, Answers()(w.pending.epochId, Evm));
      StaleAt(w1, Evm) && Untouched(w, w1, Qtsa)
  {
    var env := Answers()(w.pending.epochId, Evm);
    WillingVerifies(w.pending.epochId, h[w.pending.epochId]);
    FirstAcquire(h, w, now);
    FirstServe(h, Acquire(BOTH, w, Evm, now, env).work, now, env);
    OtherSettle(BOTH, w, Evm, now, env, Qtsa);
  }

  lemma FirstServe(h: History, w: Work, now: nat, env: SettleEnv)
    requires Current(BOTH.maxFaults, h, w.disk.pendingAnchors, w.pending) && Evm in w.pending.methods
    requires VerdictsGood(BOTH, w.pending.epochId, h[w.pending.epochId], Evm, Resubmission.ANCHOR, env)
    requires env.serve == Unsynced
    ensures StaleAt(Judge(BOTH, w, Evm, Resubmission.ANCHOR, now, env), Evm)
  {
    ServesExactlyWhenEveryWitnessHolds(BOTH.maxFaults, h, w.pending, Evm, Resubmission.ANCHOR, BOTH.serviceDid,
                                          env.mint, env.check);
    var ws := Decide(w.pending, Evm, Resubmission.ANCHOR, BOTH.serviceDid, env.mint, env.check).witnesses;
    ServeFields(BOTH, h, w, Evm, ws, env);
  }

  /** The second settle: qTSA's new anchor is saved with the copy, and EVM is pending again. */
  lemma SecondSettle(w: Work, now: nat)
    requires StaleAt(w, Evm) && SlotOf(w.pending, Qtsa) == Slot(None, 0) && Up(w, Qtsa)
    ensures
      var w' := SettleMethod(BOTH, w, Qtsa, now, Answers()(w.pending.epochId, Qtsa));
      Revived(w'.served, w'.disk.pendingAnchors, w.pending.epochId, Evm)
  {
    var env := Answers()(w.pending.epochId, Qtsa);
    AcquireRevives(BOTH, w, Qtsa, now, env, Evm);
    var a := Acquire(BOTH, w, Qtsa, now, env);
    if a.Holds? {
      JudgeRevives(BOTH, a.work, Qtsa, a.value, now, env, Evm);
    }
    SettleRevives(BOTH, w, Qtsa, now, env, Evm);
  }

  lemma StaleEpoch(h: History, w: Work, p: PendingRecord, now: nat)
    requires DiskInv(BOTH, h, w.served, w.disk) && !w.crashed && w.down == {}
    requires p.epochId in w.disk.pendingAnchors && w.disk.pendingAnchors[p.epochId] == p
    requires p.methods == [Evm, Qtsa] && SlotOf(p, Evm) == SlotOf(p, Qtsa) == Slot(None, 0)
    requires p.epochId in h && SealedOk(h[p.epochId]) && h[p.epochId].entries != []
    ensures
      var w' := SettleEpoch(BOTH, w, p, now, Answers());
      Revived(w'.served, w'.disk.pendingAnchors, p.epochId, Evm)
  {
    var begun := w.(pending := p);
    EpochBegins(BOTH, h, w, p);
    assert Elems(p.methods) == {Qtsa} + {Evm};
    FirstSettle(h, begun, now);
    var w1 := SettleMethod(BOTH, begun, Evm, now, Answers()(p.epochId, Evm));
    SecondSettle(w1, now);
    var w2 := SettleMethod(BOTH, w1, Qtsa, now, Answers()(p.epochId, Qtsa));
    assert p.methods[1..] == [Qtsa] && [Qtsa][1..] == [];
    assert SettleMethods(BOTH, w1, [Qtsa], now, Answers()) == w2;
    DropIsSameState(w2);
  }

  lemma BothIsValid()
    ensures Validate(BOTH).None? && NoDup(BOTH.methods)
  {
    ValidateIsExact(BOTH);
  }

  /** From any good state with nothing pending, such a tick leaves the epoch it seals both pending and served. */
  lemma StaleTickRevives(w: World, leaf: Leaf)
    requires WorldInv(BOTH, w) && Admissible(w, Tick(StaleTick(leaf))) && w.disk.pendingAnchors == map[]
    requires SubmitAll(w.open, StaleTick(leaf).before).leaves != []
    ensures
      var w' := Ticked(BOTH, w, StaleTick(leaf));
      Revived(w'.served, w'.disk.pendingAnchors, w.open.epochId, Evm)
  {
    var env := StaleTick(leaf);
    var w1 := BeforeClose(BOTH, w, env);
    BothIsValid();
    assert InOrder({}) == [];
    assert RetryPhase(BOTH, w, env) == WorkOf(w, {});
    BeforeCloseCore(BOTH, w, env);
    CloseSeals(BOTH, w1, env);
    StaleClose(w1, env);
  }

  lemma StaleClose(w: World, env: TickEnv)
    requires Closed(BOTH, w.open.leaves, env).Some? && w.open.leaves != [] && env.context && env.persist == Written
    requires env.settle == Answers()
    requires
      var s := Swapped(w.open, env.now, env.now, env.duration).0;
      WorldInv(BOTH, SealedWorld(SwapPhase(w, env), s, Closed(BOTH, s.leaves, env).value))
    ensures
      var w' := ClosePhase(BOTH, w, {}, env);
      Revived(w'.served, w'.disk.pendingAnchors, w.open.epochId, Evm)
  {
    var s := Swapped(w.open, env.now, env.now, env.duration).0;
    var se := Closed(BOTH, s.leaves, env).value;
    var w2 := SealedWorld(SwapPhase(w, env), s, se);
    SealedIsPending(SwapPhase(w, env), s, se);
    EpochsOfInv(w2);
    var p := PendingFor(s.epochId, s.openedAt, s.closedAt, se).value;
    StaleEpoch(w2.sealed, WorkOf(w2, {}), p, env.now);
  }

  /**
   * From an empty store, one tick: the leaf is sealed with both methods, EVM's
   * serve write lands but reports an error, qTSA's anchor is saved. EVM is then
   * pending and served at once.
   */
  lemma UnsyncedServeIsRevived(leaf: Leaf)
    ensures
      var w := System.Fresh(0, 1);
      var w' := Ticked(BOTH, w, StaleTick(leaf));
      && NoDup(BOTH.methods) && Admissible(w, Tick(StaleTick(leaf)))
      && Revived(w'.served, w'.disk.pendingAnchors, 1, Evm)
      && !WorldInv(BOTH, w') && !Harmless(BOTH, w, Tick(StaleTick(leaf)))
  {
    var w := System.Fresh(0, 1);
    var w' := Ticked(BOTH, w, StaleTick(leaf));
    BothIsValid();
    FreshIsGood(BOTH, 0, 1);
    FirstLeafIsAccepted(w.open, leaf);
    StaleTickRevives(w, leaf);
    RevivedIsBad(BOTH, w'.sealed, w'.served, w'.disk, 1, Evm);
    StepKeepsExactly(BOTH, w, Tick(StaleTick(leaf)));
  }

  lemma FirstLeafIsAccepted(o: OpenEpoch, leaf: Leaf)
    requires o.Valid() && o.leaves == [] && o.cap > 0
    ensures SubmitAll(o, [Submit([leaf], "did:owner")]).leaves != []
  {
    var did, submits := "did:owner", [Submit([leaf], "did:owner")];
    SubmissionAllOrNothing(o, [leaf], did);
    assert [leaf][..0] == [] && Novel([leaf], {}) == {leaf};
    assert submits[..0] == [] && SubmitAll(o, []) == o;
    assert SubmitAll(o, submits) == Submitted(o, [leaf], did).NextOr(o);
  }
}
