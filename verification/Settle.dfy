/**
 * Settling one (epoch, method) keeps the durable invariant, whatever the
 * environment answers and wherever it crashes; and what happens when the
 * volatile copy falls behind a serve that landed.
 */
module Settle {
  import opened Base
  import opened Witness
  import opened SelfCheck
  import opened Storage
  import opened Sealer
  import opened Invariants

  /** One method of a pending record: its stored anchor and its faults. */
  datatype Slot = Slot(held: Option<StoredAnchor>, faults: nat)

  ghost function SlotOf(p: PendingRecord, m: Method): Slot {
    Slot(p.Anchor(m), p.FaultCount(m))
  }

  /** The volatile record has a new anchor the store does not have. */
  ghost predicate UnsavedAnchor(durable: Slot, volatile: Slot) {
    durable.held.None? && volatile.held.Some? && volatile.faults == durable.faults
  }

  /** The volatile record has dropped and counted an anchor the store still has. */
  ghost predicate UnsavedDiscard(durable: Slot, volatile: Slot) {
    durable.held.Some? && volatile.held.None? && volatile.faults == durable.faults + 1
  }

  /** How far the volatile copy of a method may run ahead of the store: one unsaved step. */
  ghost predicate Ahead(durable: Slot, volatile: Slot) {
    durable == volatile || UnsavedAnchor(durable, volatile) || UnsavedDiscard(durable, volatile)
  }

  type Anchors = map<nat, PendingRecord>

  /** Store and volatile copy agree on `m`. */
  ghost predicate Synced(anchors: Anchors, p: PendingRecord, m: Method) {
    p.epochId in anchors && SlotOf(anchors[p.epochId], m) == SlotOf(p, m)
  }

  ghost predicate AheadOf(anchors: Anchors, p: PendingRecord, m: Method) {
    p.epochId in anchors && Ahead(SlotOf(anchors[p.epochId], m), SlotOf(p, m))
  }

  /**
   * `p` is a volatile copy of a record of `anchors`: the methods in `rest` are
   * still untouched this tick, the others at most one step ahead.
   */
  ghost predicate Copy(cap: nat, h: History, anchors: Anchors, p: PendingRecord, rest: set<Method>) {
    && (if p.methods == [] then p.epochId !in anchors else Current(cap, h, anchors, p))
    && (forall m :: m in rest ==> m in p.methods && Synced(anchors, p, m))
    && (forall m :: m in p.methods ==> AheadOf(anchors, p, m))
  }

  // ---- One save ----

  /** `p'` differs from the copy `p` in method `m` only, by at most one step from the store. */
  ghost predicate StepOf(cap: nat, h: History, anchors: Anchors, p: PendingRecord, m: Method, p': PendingRecord) {
    && p'.epochId == p.epochId && p'.methods == p.methods && p'.leaves == p.leaves && p'.root == p.root
    && SlotOk(cap, p', m)
    && (forall k :: k != m ==> SlotOf(p', k) == SlotOf(p, k))
    && AheadOf(anchors, p', m)
  }

  lemma StepIsCurrent(cap: nat, h: History, anchors: Anchors, p: PendingRecord, m: Method, p': PendingRecord)
    requires Current(cap, h, anchors, p) && StepOf(cap, h, anchors, p, m, p')
    ensures Current(cap, h, anchors, p')
  {
    forall k
      ensures SlotOk(cap, p', k)
    {
      if k != m {
        assert SlotOk(cap, p, k) && SlotOf(p', k) == SlotOf(p, k);
      }
    }
  }

  /** A step that is not saved: `m` is ahead, the other untouched methods still agree. */
  lemma UnsavedStep(cap: nat, h: History, anchors: Anchors, p: PendingRecord, m: Method, p': PendingRecord,
                    rest: set<Method>)
    requires Copy(cap, h, anchors, p, rest + {m}) && m !in rest && StepOf(cap, h, anchors, p, m, p')
    ensures Copy(cap, h, anchors, p', rest)
  {
    assert m in p.methods;
    StepIsCurrent(cap, h, anchors, p, m, p');
    forall k | k in rest
      ensures k in p'.methods && Synced(anchors, p', k)
    {
      assert k in rest + {m} && Synced(anchors, p, k);
      assert SlotOf(p', k) == SlotOf(p, k);
    }
    forall k | k in p'.methods
      ensures AheadOf(anchors, p', k)
    {
      if k != m {
        assert AheadOf(anchors, p, k) && SlotOf(p', k) == SlotOf(p, k);
      }
    }
  }

  /** A step that is saved brings the whole record in line, whatever was ahead before. */
  lemma SavedStep(cap: nat, h: History, anchors: Anchors, p: PendingRecord, m: Method, p': PendingRecord,
                  rest: set<Method>)
    requires Copy(cap, h, anchors, p, rest + {m}) && StepOf(cap, h, anchors, p, m, p')
    ensures Copy(cap, h, anchors[p'.epochId := p'], p', rest + {m})
  {
    assert m in rest + {m} && m in p.methods;
    StepIsCurrent(cap, h, anchors, p, m, p');
  }

  lemma FewerLeft(cap: nat, h: History, anchors: Anchors, p: PendingRecord, rest: set<Method>, fewer: set<Method>)
    requires Copy(cap, h, anchors, p, rest) && fewer <= rest
    ensures Copy(cap, h, anchors, p, fewer)
  {
  }

  // ---- The three steps a settle can take ----

  lemma NewAnchorIsStep(cap: nat, h: History, anchors: Anchors, p: PendingRecord, m: Method, v: TimestampValue,
                        now: nat)
    requires p.epochId in h && RecordOk(cap, p.epochId, h[p.epochId], p) && m in p.methods && Synced(anchors, p, m)
    requires p.Anchor(m).None? && p.FaultCount(m) < cap
    ensures StepOf(cap, h, anchors, p, m, p.WithAnchor(m, v, now))
    ensures SlotOf(p.WithAnchor(m, v, now), m) == Slot(Some(StoredAnchor(m, v, Some(now))), p.FaultCount(m))
  {
  }

  lemma DiscardIsStep(cap: nat, h: History, anchors: Anchors, p: PendingRecord, m: Method)
    requires p.epochId in h && RecordOk(cap, p.epochId, h[p.epochId], p) && m in p.methods
    requires Synced(anchors, p, m) && p.Anchor(m).Some?
    ensures StepOf(cap, h, anchors, p, m, p.WithFault(m).WithoutAnchor(m))
    ensures SlotOf(p.WithFault(m).WithoutAnchor(m), m) == Slot(None, p.FaultCount(m) + 1)
  {
    assert SlotOk(cap, p, m);
    var q := p.WithFault(m);
    var p' := q.WithoutAnchor(m);
    assert forall k :: q.Anchor(k) == p.Anchor(k);
    assert forall k :: p'.FaultCount(k) == q.FaultCount(k);
  }

  // ---- Serving ----

  lemma {:induction false} FirstBadVerified(n: nat, verdicts: seq<Verdict>)
    requires n == |verdicts|
    ensures FirstBad(n, verdicts) == Verified <==> AllVerified(verdicts)
  {
    if n > 0 && verdicts[0] == Verified {
      FirstBadVerified(n - 1, verdicts[1..]);
      assert verdicts == [verdicts[0]] + verdicts[1..];
      assert forall i :: 1 <= i < n ==> verdicts[i] == verdicts[1..][i - 1];
    }
  }

  /** A settle serves only when the check ran and found every witness Verified. */
  lemma VerifiedOutcome(ws: seq<MintedWitness>, did: Did, o: CheckOutcome)
    requires ws != []
    ensures Outcome(ws, did, o) == Verified <==> o.Judged? && AllVerified(VerifyMintedBatch(ws, did, o.hosts))
  {
    match o
    case Judged(hosts) =>
      BatchHasOneVerdictEach(ws, did, hosts);
      FirstBadVerified(|ws|, VerifyMintedBatch(ws, did, hosts));
    case Panicked =>
      SettledAt(CheckFailed(CheckPanicked), |ws|);
  }

  /** Minting from a record that fits its epoch: the sealed leaves, in order, over the sealed root. */
  lemma MintIsOfSealed(cap: nat, h: History, p: PendingRecord, m: Method, v: TimestampValue, did: Did, o: MintOutcome)
    requires p.epochId in h && RecordOk(cap, p.epochId, h[p.epochId], p)
    ensures o.MintFailed? ==> Mint(p, m, v, did, o).None?
    ensures o.Signed? ==>
      var ws := MintSet(Batch(p.epochId, h[p.epochId].root, h[p.epochId].entries), m, v, did, o.salts);
      Mint(p, m, v, did, o) == Some(ws) && |ws| == |h[p.epochId].entries| > 0
  {
    RestoreInvertsStore(p, h[p.epochId].entries);
    if o.Signed? {
      MintSetShape(Batch(p.epochId, p.root, h[p.epochId].entries), m, v, did, o.salts);
    }
  }

  /** `ws` was minted from `m`'s anchor and every check of it came out Verified. */
  ghost predicate MayServe(cfg: Config, p: PendingRecord, m: Method, ws: seq<MintedWitness>, env: SettleEnv) {
    p.Anchor(m).Some? && Decide(p, m, p.Anchor(m).value.value, cfg.serviceDid, env.mint, env.check) == Serving(ws)
  }

  lemma ServedIsOk(cfg: Config, h: History, anchors: Anchors, p: PendingRecord, m: Method, ws: seq<MintedWitness>,
                   env: SettleEnv)
    requires Current(cfg.maxFaults, h, anchors, p) && PendingInv(cfg.maxFaults, h, anchors) && Synced(anchors, p, m)
    requires MayServe(cfg, p, m, ws, env)
    ensures ServeOk(cfg, EpochMethod(p.epochId, m), h[p.epochId],
                    Serve(Some(anchors[p.epochId]), ws, env.mint, env.check))
  {
    MintIsOfSealed(cfg.maxFaults, h, p, m, p.Anchor(m).value.value, cfg.serviceDid, env.mint);
    VerifiedOutcome(ws, cfg.serviceDid, env.check);
    assert SlotOf(anchors[p.epochId], m) == SlotOf(p, m);
  }

  lemma CopyAfterServe(cap: nat, h: History, anchors: Anchors, p: PendingRecord, m: Method, rest: set<Method>)
    requires Copy(cap, h, anchors, p, rest + {m}) && m !in rest && PendingInv(cap, h, anchors)
    ensures Copy(cap, h, AnchorsWithout(anchors, p, m), p.Without(m), rest)
  {
    var p' := p.Without(m);
    assert m in rest + {m} && m in p.methods;
    if p'.methods != [] {
      ServeKeepsPending(cap, h, anchors, p, m);
      assert AnchorsWithout(anchors, p, m)[p.epochId] == p';
    } else {
      assert forall k :: k in p.methods ==> k == m;
      assert forall k :: k in rest ==> k in rest + {m};
    }
  }

  // ---- One settle ----

  /** The state while an epoch is being settled, the methods in `rest` still untouched. */
  ghost predicate Settling(cfg: Config, h: History, w: Work, rest: set<Method>) {
    && DiskInv(cfg, h, w.served, w.disk)
    && Copy(cfg.maxFaults, h, w.disk.pendingAnchors, w.pending, rest)
  }

  /** The copy lists `m`, which the store has served: the serve write landed but reported an error. */
  ghost predicate StaleAt(w: Work, m: Method) {
    m in w.pending.methods && EpochMethod(w.pending.epochId, m) in w.served
  }

  ghost predicate Stale(w: Work) {
    exists m :: StaleAt(w, m)
  }

  /**
   * The state once the copy lists a served method: the store is good, the other
   * methods are at most one step ahead of it, those in `rest` still untouched.
   */
  ghost predicate Lagging(cfg: Config, h: History, w: Work, rest: set<Method>) {
    && DiskInv(cfg, h, w.served, w.disk) && Stale(w)
    && w.pending.epochId in h && RecordOk(cfg.maxFaults, w.pending.epochId, h[w.pending.epochId], w.pending)
    && (forall k :: Pends(w.disk.pendingAnchors, w.pending.epochId, k) ==> k in w.pending.methods)
    && (forall k :: k in rest ==>
          k in w.pending.methods && !StaleAt(w, k) && Synced(w.disk.pendingAnchors, w.pending, k))
    && (forall k :: k in w.pending.methods ==> StaleAt(w, k) || AheadOf(w.disk.pendingAnchors, w.pending, k))
  }

  ghost predicate Settles(cfg: Config, h: History, w: Work, rest: set<Method>) {
    Settling(cfg, h, w, rest) || Lagging(cfg, h, w, rest)
  }

  lemma SaveSettles(cfg: Config, h: History, w: Work, m: Method, p': PendingRecord, o: WriteOutcome, rest: set<Method>)
    requires Settling(cfg, h, w, rest + {m}) && m !in rest
    requires StepOf(cfg.maxFaults, h, w.disk.pendingAnchors, w.pending, m, p')
    ensures Settling(cfg, h, Save(w, p', o), rest)
    ensures Lands(o) ==> Settling(cfg, h, Save(w, p', o), rest + {m})
  {
    var anchors := w.disk.pendingAnchors;
    assert m in rest + {m};
    if Lands(o) {
      StepIsCurrent(cfg.maxFaults, h, anchors, w.pending, m, p');
      SaveKeepsInv(cfg, h, w.served, w.disk, p');
      SavedStep(cfg.maxFaults, h, anchors, w.pending, m, p', rest);
      FewerLeft(cfg.maxFaults, h, anchors[p'.epochId := p'], p', rest + {m}, rest);
    } else {
      UnsavedStep(cfg.maxFaults, h, anchors, w.pending, m, p', rest);
    }
  }

  /** `w'` is `w` up to the log, the down set and the crash flag. */
  ghost predicate SameState(w: Work, w': Work) {
    w'.disk == w.disk && w'.pending == w.pending && w'.served == w.served
  }

  /** A settle calls the provider: no anchor, below the cap, not down, and the call returned. */
  ghost predicate CallsProvider(cfg: Config, w: Work, m: Method, env: SettleEnv) {
    w.pending.Anchor(m).None? && m !in w.down && w.pending.FaultCount(m) < cfg.maxFaults && env.call.Returned?
  }

  /** The two things acquiring does to the state: nothing, or one save of a new anchor. */
  lemma AcquireShape(cfg: Config, w: Work, m: Method, now: nat, env: SettleEnv)
    ensures
      var a := Acquire(cfg, w, m, now, env);
      && (!CallsProvider(cfg, w, m, env) ==> SameState(w, a.work))
      && (CallsProvider(cfg, w, m, env) ==>
           SameState(Save(w, w.pending.WithAnchor(m, env.call.value, now), StoreOutcome(env)), a.work))
      && (a.Holds? ==>
            && a.work.pending.Anchor(m).Some? && a.work.pending.Anchor(m).value.value == a.value
            && a.work.crashed == (w.crashed && w.pending.Anchor(m).Some?)
            && (CallsProvider(cfg, w, m, env) ==> StoreOutcome(env) == Written))
  {
  }

  lemma AcquireSettles(cfg: Config, h: History, w: Work, m: Method, now: nat, env: SettleEnv, rest: set<Method>)
    requires Settling(cfg, h, w, rest + {m}) && m !in rest
    ensures Settling(cfg, h, Acquire(cfg, w, m, now, env).work, rest)
    ensures Acquire(cfg, w, m, now, env).Holds? ==> Settling(cfg, h, Acquire(cfg, w, m, now, env).work, rest + {m})
  {
    AcquireShape(cfg, w, m, now, env);
    if CallsProvider(cfg, w, m, env) {
      assert m in rest + {m};
      NewAnchorIsStep(cfg.maxFaults, h, w.disk.pendingAnchors, w.pending, m, env.call.value, now);
      SaveSettles(cfg, h, w, m, w.pending.WithAnchor(m, env.call.value, now), StoreOutcome(env), rest);
    } else {
      FewerLeft(cfg.maxFaults, h, w.disk.pendingAnchors, w.pending, rest + {m}, rest);
    }
  }

  lemma DiscardSettles(cfg: Config, h: History, w: Work, m: Method, o: WriteOutcome, rest: set<Method>)
    requires Settling(cfg, h, w, rest + {m}) && m !in rest && w.pending.Anchor(m).Some?
    ensures Settling(cfg, h, Discard(w, m, o), rest)
  {
    assert m in rest + {m};
    DiscardIsStep(cfg.maxFaults, h, w.disk.pendingAnchors, w.pending, m);
    SaveSettles(cfg, h, w, m, w.pending.WithFault(m).WithoutAnchor(m), o, rest);
  }

  lemma MissingSettles(cfg: Config, h: History, w: Work, m: Method, now: nat, env: SettleEnv, rest: set<Method>)
    requires Settling(cfg, h, w, rest + {m}) && m !in rest && w.pending.Anchor(m).Some?
    ensures Settling(cfg, h, SettleMissing(cfg, w, m, now, env), rest)
  {
    assert m in rest + {m};
    var stamped := w.(pending := w.pending.WithFirstSeen(m, now));
    assert SlotOk(cfg.maxFaults, w.pending, m);
    StampedIsSame(w.pending, m, now);
    FewerLeft(cfg.maxFaults, h, w.disk.pendingAnchors, w.pending, rest + {m}, rest);
    DiscardSettles(cfg, h, stamped.Log(Abandoned(w.pending.epochId, m, w.pending.Anchor(m).value.value,
                                                 w.pending.Anchor(m).value.firstSeen.value, now)), m, env.note, rest);
  }

  /** An anchor with a first-seen time is not stamped again. */
  lemma StampedIsSame(p: PendingRecord, m: Method, now: nat)
    requires p.Anchor(m).Some? && p.Anchor(m).value.firstSeen.Some?
    ensures p.WithFirstSeen(m, now) == p
  {
    StampSettled(p.anchors, m, now);
  }

  lemma {:induction false} StampSettled(s: seq<StoredAnchor>, m: Method, now: nat)
    requires FindAnchor(s, m).Some? ==> FindAnchor(s, m).value.firstSeen.Some?
    ensures Stamp(s, m, now) == s
  {
    if s != [] {
      StampSettled(s[..|s| - 1], m, now);
    }
  }

  lemma ServeSettles(cfg: Config, h: History, w: Work, m: Method, ws: seq<MintedWitness>, env: SettleEnv,
                     rest: set<Method>)
    requires Settling(cfg, h, w, rest + {m}) && m !in rest
    requires MayServe(cfg, w.pending, m, ws, env)
    ensures Settles(cfg, h, ServeSet(w, m, ws, env), rest)
    ensures env.serve != Unsynced ==> Settling(cfg, h, ServeSet(w, m, ws, env), rest)
  {
    assert m in rest + {m};
    if env.serve == Unsynced {
      ServeLands(cfg, h, w, m, ws, env);
      LagStarts(cfg, h, w, ServeSet(w, m, ws, env), m, rest);
    } else if Lands(env.serve) {
      ServeLands(cfg, h, w, m, ws, env);
      PendingPart(cfg, h, w.served, w.disk);
      CopyAfterServe(cfg.maxFaults, h, w.disk.pendingAnchors, w.pending, m, rest);
    } else {
      FewerLeft(cfg.maxFaults, h, w.disk.pendingAnchors, w.pending, rest + {m}, rest);
    }
  }

  /** The serve batch lands: the store's new state, and the invariant over it. */
  lemma ServeLands(cfg: Config, h: History, w: Work, m: Method, ws: seq<MintedWitness>, env: SettleEnv)
    requires DiskInv(cfg, h, w.served, w.disk)
    requires Current(cfg.maxFaults, h, w.disk.pendingAnchors, w.pending) && m in w.pending.methods
    requires Synced(w.disk.pendingAnchors, w.pending, m)
    requires MayServe(cfg, w.pending, m, ws, env) && Lands(env.serve)
    ensures
      var w' := ServeSet(w, m, ws, env);
      && DiskInv(cfg, h, w'.served, w'.disk)
      && w'.disk.pendingAnchors == AnchorsWithout(w.disk.pendingAnchors, w.pending, m)
      && w'.pending == (if env.serve == Unsynced then w.pending else w.pending.Without(m))
      && EpochMethod(w.pending.epochId, m) in w'.served
      && (forall k: EpochMethod :: k.via != m ==> (k in w'.served <==> k in w.served))
  {
    var p := w.pending;
    var s := Serve(Some(w.disk.pendingAnchors[p.epochId]), ws, env.mint, env.check);
    PendingPart(cfg, h, w.served, w.disk);
    ServedIsOk(cfg, h, w.disk.pendingAnchors, p, m, ws, env);
    ServeKeepsInv(cfg, h, w.served, w.disk, p, m, s);
    MintedDiskIs(w.disk, p, m, h[p.epochId].entries, ws);
  }

  /** The fields a landed serve leaves. */
  lemma ServeFields(cfg: Config, h: History, w: Work, m: Method, ws: seq<MintedWitness>, env: SettleEnv)
    requires Current(cfg.maxFaults, h, w.disk.pendingAnchors, w.pending) && Lands(env.serve)
    ensures
      var w' := ServeSet(w, m, ws, env);
      var e := w.pending.epochId;
      && w'.log == w.log + [ServedAt(e, m)]
      && w'.pending == (if env.serve == Unsynced then w.pending else w.pending.Without(m))
      && w'.served == w.served[EpochMethod(e, m) := Serve(Some(w.disk.pendingAnchors[e]), ws, env.mint, env.check)]
      && w'.disk.pendingAnchors == AnchorsWithout(w.disk.pendingAnchors, w.pending, m)
  {
    MintedDiskIs(w.disk, w.pending, m, h[w.pending.epochId].entries, ws);
  }

  lemma FaultSettles(cfg: Config, h: History, w: Work, m: Method, v: TimestampValue, now: nat, env: SettleEnv,
                     rest: set<Method>)
    requires Settling(cfg, h, w, rest + {m}) && m !in rest && w.pending.Anchor(m).Some?
    requires Decide(w.pending, m, v, cfg.serviceDid, env.mint, env.check) == FaultyAnchor
    ensures Settling(cfg, h, Judge(cfg, w, m, v, now, env), rest)
  {
    DiscardSettles(cfg, h, w.Down(m).Log(AtFault(w.pending.epochId, m, v)), m, env.note, rest);
  }

  lemma JudgeSettles(cfg: Config, h: History, w: Work, m: Method, v: TimestampValue, now: nat, env: SettleEnv,
                     rest: set<Method>)
    requires Settling(cfg, h, w, rest + {m}) && m !in rest
    requires w.pending.Anchor(m).Some? && w.pending.Anchor(m).value.value == v
    ensures Settles(cfg, h, Judge(cfg, w, m, v, now, env), rest)
    ensures env.serve != Unsynced ==> Settling(cfg, h, Judge(cfg, w, m, v, now, env), rest)
  {
    match Decide(w.pending, m, v, cfg.serviceDid, env.mint, env.check)
    case Keep => FewerLeft(cfg.maxFaults, h, w.disk.pendingAnchors, w.pending, rest + {m}, rest);
    case Serving(ws) => ServeSettles(cfg, h, w, m, ws, env, rest);
    case NotFoundYet => MissingSettles(cfg, h, w, m, now, env, rest);
    case FaultyAnchor => FaultSettles(cfg, h, w, m, v, now, env, rest);
  }

  /** Settling one method keeps the durable invariant, whatever happens to it. */
  lemma SettleSettles(cfg: Config, h: History, w: Work, m: Method, now: nat, env: SettleEnv, rest: set<Method>)
    requires Settling(cfg, h, w, rest + {m}) && m !in rest
    ensures Settles(cfg, h, SettleMethod(cfg, w, m, now, env), rest)
    ensures env.serve != Unsynced ==> Settling(cfg, h, SettleMethod(cfg, w, m, now, env), rest)
  {
    FewerLeft(cfg.maxFaults, h, w.disk.pendingAnchors, w.pending, rest + {m}, rest);
    if m in cfg.methods {
      AcquireSettles(cfg, h, w, m, now, env, rest);
      AcquireShape(cfg, w, m, now, env);
      var a := Acquire(cfg, w, m, now, env);
      if a.Holds? {
        JudgeSettles(cfg, h, a.work, m, a.value, now, env, rest);
      }
    }
  }

  // ---- A copy that lists a served method ----

  lemma OthersKeptByServe(p: PendingRecord, m: Method, k: Method)
    requires k != m
    ensures SlotOf(p.Without(m), k) == SlotOf(p, k)
  {
  }

  /** Right after a serve write that landed but reported an error. */
  lemma LagStarts(cfg: Config, h: History, w: Work, w': Work, m: Method, rest: set<Method>)
    requires Settling(cfg, h, w, rest + {m}) && m !in rest && m in w.pending.methods
    requires DiskInv(cfg, h, w'.served, w'.disk) && w'.pending == w.pending
    requires w'.disk.pendingAnchors == AnchorsWithout(w.disk.pendingAnchors, w.pending, m)
    requires EpochMethod(w.pending.epochId, m) in w'.served
    requires forall k: EpochMethod :: k.via != m ==> (k in w'.served <==> k in w.served)
    ensures Lagging(cfg, h, w', rest)
  {
    var p := w.pending;
    assert StaleAt(w', m);
    forall k | k in p.methods && k != m
      ensures !StaleAt(w', k) && Synced(w'.disk.pendingAnchors, p, k)
    {
      InStepIsUnserved(cfg, h, w, rest + {m}, k);
      OthersKeptByServe(p, m, k);
      assert k in p.Without(m).methods;
    }
    assert forall k :: k in rest ==> k in rest + {m};
  }

  /** The methods of a copy that is in step are not served. */
  lemma InStepIsUnserved(cfg: Config, h: History, w: Work, rest: set<Method>, k: Method)
    requires Settling(cfg, h, w, rest) && k in w.pending.methods
    ensures EpochMethod(w.pending.epochId, k) !in w.served
  {
    Parts(cfg, h, w.served, w.disk);
    assert Pends(w.disk.pendingAnchors, w.pending.epochId, k);
  }

  /** A method pending and served at once breaks the invariant. */
  lemma RevivedIsBad(cfg: Config, h: History, served: Ledger, d: Disk, e: nat, m: Method)
    requires EpochMethod(e, m) in served && Pends(d.pendingAnchors, e, m)
    ensures !DiskInv(cfg, h, served, d)
  {
    if DiskInv(cfg, h, served, d) {
      Parts(cfg, h, served, d);
    }
  }

  /** `m` stays served and listed by the copy; the store is as it was, or has `m` pending again. */
  ghost predicate KeptOrRevived(w: Work, w': Work, m: Method) {
    && w'.pending.epochId == w.pending.epochId && StaleAt(w', m)
    && ((w'.disk == w.disk && w'.served == w.served && w'.out == w.out)
        || Pends(w'.disk.pendingAnchors, w.pending.epochId, m))
  }

  lemma SaveRevives(w: Work, w': Work, p: PendingRecord, o: WriteOutcome, m: Method)
    requires StaleAt(w, m) && p.epochId == w.pending.epochId && p.methods == w.pending.methods
    requires w'.disk == Save(w, p, o).disk && w'.pending == p && w'.served == w.served && w'.out == w.out
    ensures KeptOrRevived(w, w', m)
    ensures Lands(o) ==> Pends(w'.disk.pendingAnchors, w.pending.epochId, m)
  {
  }

  lemma ServeRevives(w: Work, k: Method, ws: seq<MintedWitness>, env: SettleEnv, m: Method)
    requires StaleAt(w, m) && k != m
    ensures KeptOrRevived(w, ServeSet(w, k, ws, env), m)
  {
    assert m in w.pending.Without(k).methods;
  }

  lemma MissingRevives(cfg: Config, w: Work, k: Method, now: nat, env: SettleEnv, m: Method)
    requires StaleAt(w, m)
    ensures KeptOrRevived(w, SettleMissing(cfg, w, k, now, env), m)
  {
    if w.pending.Anchor(k).Some? {
      var a := w.pending.Anchor(k).value;
      var first := if a.firstSeen.Some? then a.firstSeen.value else now;
      var p := w.pending.WithFirstSeen(k, now);
      var noted := w.(pending := p).Log(Abandoned(w.pending.epochId, k, a.value, first, now));
      SaveRevives(w, Save(w, p, env.note), p, env.note, m);
      SaveRevives(noted, Discard(noted, k, env.note), p.WithFault(k).WithoutAnchor(k), env.note, m);
    }
  }

  lemma JudgeRevives(cfg: Config, w: Work, k: Method, v: TimestampValue, now: nat, env: SettleEnv, m: Method)
    requires StaleAt(w, m) && k != m
    ensures KeptOrRevived(w, Judge(cfg, w, k, v, now, env), m)
  {
    match Decide(w.pending, k, v, cfg.serviceDid, env.mint, env.check)
    case Keep =>
    case Serving(ws) => ServeRevives(w, k, ws, env, m);
    case NotFoundYet => MissingRevives(cfg, w, k, now, env, m);
    case FaultyAnchor =>
      var p := w.pending.WithFault(k).WithoutAnchor(k);
      SaveRevives(w, Judge(cfg, w, k, v, now, env), p, env.note, m);
  }

  lemma AcquireRevives(cfg: Config, w: Work, k: Method, now: nat, env: SettleEnv, m: Method)
    requires StaleAt(w, m)
    ensures KeptOrRevived(w, Acquire(cfg, w, k, now, env).work, m)
    ensures CallsProvider(cfg, w, k, env) && Lands(StoreOutcome(env)) ==>
      Pends(Acquire(cfg, w, k, now, env).work.disk.pendingAnchors, w.pending.epochId, m)
  {
    if CallsProvider(cfg, w, k, env) {
      var p := w.pending.WithAnchor(k, env.call.value, now);
      SaveRevives(w, Acquire(cfg, w, k, now, env).work, p, StoreOutcome(env), m);
    }
  }

  /** Settling another method leaves the store as it was, or makes `m` pending in it again. */
  lemma SettleRevives(cfg: Config, w: Work, k: Method, now: nat, env: SettleEnv, m: Method)
    requires StaleAt(w, m) && k != m
    ensures KeptOrRevived(w, SettleMethod(cfg, w, k, now, env), m)
  {
    if k in cfg.methods {
      AcquireRevives(cfg, w, k, now, env, m);
      var a := Acquire(cfg, w, k, now, env);
      if a.Holds? {
        JudgeRevives(cfg, a.work, k, a.value, now, env, m);
      }
    }
  }

  lemma {:induction false} MethodsRevive(cfg: Config, w: Work, ms: seq<Method>, now: nat, envs: SettleEnvs, m: Method)
    requires StaleAt(w, m) && m !in ms
    ensures KeptOrRevived(w, SettleMethods(cfg, w, ms, now, envs), m)
    decreases |ms|
  {
    if ms != [] && !w.crashed {
      var w1 := SettleMethod(cfg, w, ms[0], now, envs(w.pending.epochId, ms[0]));
      SettleRevives(cfg, w, ms[0], now, envs(w.pending.epochId, ms[0]), m);
      MethodsRevive(cfg, w1, ms[1..], now, envs, m);
    }
  }

  /** A step of an untouched method that does not reach the store. */
  lemma LagStep(cfg: Config, h: History, w: Work, w': Work, m: Method, rest: set<Method>)
    requires Lagging(cfg, h, w, rest + {m}) && m !in rest
    requires StepOf(cfg.maxFaults, h, w.disk.pendingAnchors, w.pending, m, w'.pending)
    requires w'.disk == w.disk && w'.served == w.served
    ensures Lagging(cfg, h, w', rest)
  {
    var p, p', anchors := w.pending, w'.pending, w.disk.pendingAnchors;
    var s :| StaleAt(w, s);
    assert StaleAt(w', s);
    forall k
      ensures SlotOk(cfg.maxFaults, p', k)
    {
      if k != m {
        assert SlotOk(cfg.maxFaults, p, k) && SlotOf(p', k) == SlotOf(p, k);
      }
    }
    forall k | k in rest
      ensures k in p'.methods && !StaleAt(w', k) && Synced(anchors, p', k)
    {
      assert k in rest + {m} && SlotOf(p', k) == SlotOf(p, k);
    }
    forall k | k in p'.methods
      ensures StaleAt(w', k) || AheadOf(anchors, p', k)
    {
      if k != m {
        assert SlotOf(p', k) == SlotOf(p, k) && (StaleAt(w, k) || AheadOf(anchors, p, k));
      }
    }
  }

  lemma LagFewer(cfg: Config, h: History, w: Work, w': Work, rest: set<Method>, fewer: set<Method>)
    requires Lagging(cfg, h, w, rest) && fewer <= rest && SameState(w, w')
    ensures Lagging(cfg, h, w', fewer)
  {
    var s :| StaleAt(w, s);
    assert StaleAt(w', s);
    assert forall k :: StaleAt(w', k) <==> StaleAt(w, k);
  }

  lemma LagDiscards(cfg: Config, h: History, w: Work, m: Method, o: WriteOutcome, rest: set<Method>)
    requires Lagging(cfg, h, w, rest + {m}) && m !in rest && w.pending.Anchor(m).Some?
    requires Discard(w, m, o).disk == w.disk
    ensures Lagging(cfg, h, Discard(w, m, o), rest)
  {
    assert m in rest + {m};
    DiscardIsStep(cfg.maxFaults, h, w.disk.pendingAnchors, w.pending, m);
    LagStep(cfg, h, w, Discard(w, m, o), m, rest);
  }

  lemma LagMissing(cfg: Config, h: History, w: Work, m: Method, now: nat, env: SettleEnv, rest: set<Method>)
    requires Lagging(cfg, h, w, rest + {m}) && m !in rest && w.pending.Anchor(m).Some?
    requires SettleMissing(cfg, w, m, now, env).disk == w.disk
    ensures Lagging(cfg, h, SettleMissing(cfg, w, m, now, env), rest)
  {
    assert SlotOk(cfg.maxFaults, w.pending, m);
    StampedIsSame(w.pending, m, now);
    var a := w.pending.Anchor(m).value;
    var noted := w.Log(Abandoned(w.pending.epochId, m, a.value, a.firstSeen.value, now));
    if SatSub(now, a.firstSeen.value) < cfg.notFoundTimeout {
      LagFewer(cfg, h, w, w, rest + {m}, rest);
    } else {
      LagFewer(cfg, h, w, noted, rest + {m}, rest + {m});
      LagDiscards(cfg, h, noted, m, env.note, rest);
    }
  }

  lemma LagServes(cfg: Config, h: History, w: Work, m: Method, ws: seq<MintedWitness>, env: SettleEnv,
                  rest: set<Method>)
    requires Lagging(cfg, h, w, rest + {m}) && m !in rest && ServeSet(w, m, ws, env).disk == w.disk
    ensures Lagging(cfg, h, ServeSet(w, m, ws, env), rest)
    ensures ServeSet(w, m, ws, env) == w.(crashed := ServeSet(w, m, ws, env).crashed)
  {
    var s :| StaleAt(w, s);
    assert m in rest + {m};
    var w' := ServeSet(w, m, ws, env);
    ServeRevives(w, m, ws, env, s);
    if Pends(w.disk.pendingAnchors, w.pending.epochId, s) {
      RevivedIsBad(cfg, h, w.served, w.disk, w.pending.epochId, s);
    }
    UnlandedServe(w, m, ws, env);
    LagFewer(cfg, h, w, w', rest + {m}, rest);
  }

  /** A serve that leaves the ledger alone did not land. */
  lemma UnlandedServe(w: Work, m: Method, ws: seq<MintedWitness>, env: SettleEnv)
    requires ServeSet(w, m, ws, env).served == w.served && EpochMethod(w.pending.epochId, m) !in w.served
    ensures ServeSet(w, m, ws, env) == w.(crashed := ServeSet(w, m, ws, env).crashed)
  {
  }

  lemma LagJudges(cfg: Config, h: History, w: Work, m: Method, v: TimestampValue, now: nat, env: SettleEnv,
                  rest: set<Method>)
    requires Lagging(cfg, h, w, rest + {m}) && m !in rest
    requires w.pending.Anchor(m).Some? && w.pending.Anchor(m).value.value == v
    requires Judge(cfg, w, m, v, now, env).disk == w.disk
    ensures Lagging(cfg, h, Judge(cfg, w, m, v, now, env), rest)
  {
    match Decide(w.pending, m, v, cfg.serviceDid, env.mint, env.check)
    case Keep => LagFewer(cfg, h, w, w, rest + {m}, rest);
    case Serving(ws) => LagServes(cfg, h, w, m, ws, env, rest);
    case NotFoundYet => LagMissing(cfg, h, w, m, now, env, rest);
    case FaultyAnchor =>
      var noted := w.Down(m).Log(AtFault(w.pending.epochId, m, v));
      LagFewer(cfg, h, w, noted, rest + {m}, rest + {m});
      LagDiscards(cfg, h, noted, m, env.note, rest);
  }

  lemma LagAcquires(cfg: Config, h: History, w: Work, m: Method, now: nat, env: SettleEnv, rest: set<Method>)
    requires Lagging(cfg, h, w, rest + {m}) && m !in rest && Acquire(cfg, w, m, now, env).work.disk == w.disk
    ensures Lagging(cfg, h, Acquire(cfg, w, m, now, env).work, rest)
    ensures Acquire(cfg, w, m, now, env).Holds? ==> Lagging(cfg, h, Acquire(cfg, w, m, now, env).work, rest + {m})
  {
    var s :| StaleAt(w, s);
    assert m in rest + {m};
    var w1 := Acquire(cfg, w, m, now, env).work;
    AcquireShape(cfg, w, m, now, env);
    if CallsProvider(cfg, w, m, env) {
      AcquireRevives(cfg, w, m, now, env, s);
      if Lands(StoreOutcome(env)) {
        RevivedIsBad(cfg, h, w.served, w.disk, w.pending.epochId, s);
      }
      NewAnchorIsStep(cfg.maxFaults, h, w.disk.pendingAnchors, w.pending, m, env.call.value, now);
      LagStep(cfg, h, w, w1, m, rest);
    } else {
      LagFewer(cfg, h, w, w1, rest + {m}, rest);
      LagFewer(cfg, h, w, w1, rest + {m}, rest + {m});
    }
  }

  /** On a stale copy that is not written, the settle goes on only with an anchor it already held. */
  lemma LagHolds(cfg: Config, h: History, w: Work, m: Method, now: nat, env: SettleEnv, rest: set<Method>)
    requires Lagging(cfg, h, w, rest + {m}) && m !in rest && m in cfg.methods
    requires Acquire(cfg, w, m, now, env).Holds? && SettleMethod(cfg, w, m, now, env).disk == w.disk
    ensures
      var a := Acquire(cfg, w, m, now, env);
      Lagging(cfg, h, a.work, rest + {m}) && a.work.disk == w.disk
  {
    var s :| StaleAt(w, s);
    var a := Acquire(cfg, w, m, now, env);
    assert m in rest + {m};
    AcquireRevives(cfg, w, m, now, env, s);
    JudgeRevives(cfg, a.work, m, a.value, now, env, s);
    if a.work.disk != w.disk {
      RevivedIsBad(cfg, h, w.served, w.disk, w.pending.epochId, s);
    }
    LagAcquires(cfg, h, w, m, now, env, rest);
  }

  /**
   * Settling another method on a copy that lists a served one keeps the durable
   * invariant exactly when it leaves the store as it is.
   */
  lemma LagSettles(cfg: Config, h: History, w: Work, m: Method, now: nat, env: SettleEnv, rest: set<Method>)
    requires Lagging(cfg, h, w, rest + {m}) && m !in rest
    ensures
      var w' := SettleMethod(cfg, w, m, now, env);
      && (DiskInv(cfg, h, w'.served, w'.disk) <==> w'.disk == w.disk)
      && (w'.disk == w.disk ==> Lagging(cfg, h, w', rest) && w'.served == w.served && w'.out == w.out)
  {
    var s :| StaleAt(w, s);
    assert m in rest + {m};
    var w' := SettleMethod(cfg, w, m, now, env);
    SettleRevives(cfg, w, m, now, env, s);
    if Pends(w'.disk.pendingAnchors, w.pending.epochId, s) {
      RevivedIsBad(cfg, h, w'.served, w'.disk, w.pending.epochId, s);
      if w'.disk == w.disk {
        RevivedIsBad(cfg, h, w.served, w.disk, w.pending.epochId, s);
      }
    } else {
      LagUnwritten(cfg, h, w, m, now, env, rest);
    }
  }

  lemma LagUnwritten(cfg: Config, h: History, w: Work, m: Method, now: nat, env: SettleEnv, rest: set<Method>)
    requires Lagging(cfg, h, w, rest + {m}) && m !in rest
    requires SettleMethod(cfg, w, m, now, env).disk == w.disk
    ensures Lagging(cfg, h, SettleMethod(cfg, w, m, now, env), rest)
  {
    if m !in cfg.methods {
      LagFewer(cfg, h, w, w, rest + {m}, rest);
    } else {
      var a := Acquire(cfg, w, m, now, env);
      AcquireShape(cfg, w, m, now, env);
      if a.Holds? {
        LagHolds(cfg, h, w, m, now, env, rest);
        LagJudges(cfg, h, a.work, m, a.value, now, env, rest);
      } else {
        LagAcquires(cfg, h, w, m, now, env, rest);
      }
    }
  }
}
