/**
 * 202 is live: one tick in which a method's environment cooperates serves it
 * wherever it is pending, enabled and not stalled.
 */
module Liveness {
  import opened Base
  import opened Accumulation
  import opened Witness
  import opened SelfCheck
  import opened Storage
  import opened Sealer
  import opened Invariants
  import opened Settle
  import opened Backlog
  import opened System
  import opened Runs
  import opened Progress
  import opened Routes
  import opened Verdicts

  /** An anchor is held, or may still be bought. */
  ghost predicate Live(cap: nat, s: Slot) {
    s.held.Some? || s.faults < cap
  }

  /** The anchor a settle works with: the held one, or the one the provider returns. */
  ghost function AnchorValue(s: Slot, env: SettleEnv): TimestampValue
    requires s.held.None? ==> env.call.Returned?
  {
    if s.held.Some? then s.held.value.value else env.call.value
  }

  /** Every witness minted over the sealed leaves is Verified on its own. */
  ghost predicate VerdictsGood(cfg: Config, e: nat, se: SealedEpoch, m: Method, v: TimestampValue, env: SettleEnv) {
    && env.mint.Signed? && env.check.Judged?
    && EachHolds(MintSet(Batch(e, se.root, se.entries), m, v, cfg.serviceDid, env.mint.salts), cfg.serviceDid,
                    env.check.hosts)
  }

  /** A new anchor is returned and stored if one is needed, and the set is signed, Verified and written. */
  ghost predicate Cooperates(cfg: Config, e: nat, se: SealedEpoch, m: Method, s: Slot, env: SettleEnv) {
    && (s.held.None? ==> env.call.Returned? && StoreOutcome(env) == Written)
    && env.serve == Written
    && VerdictsGood(cfg, e, se, m, AnchorValue(s, env), env)
  }

  /** No write of the settle crashes; anything else may happen. */
  ghost predicate NoCrash(env: SettleEnv) {
    && ResultOf(env.save1) != Crash && ResultOf(env.save2) != Crash
    && ResultOf(env.note) != Crash && ResultOf(env.serve) != Crash
  }

  /** Up, and `m` may be called. */
  ghost predicate Up(w: Work, m: Method) {
    m !in w.down && !w.crashed
  }

  // ---- The method's own settle ----

  lemma ServeGoesOn(w: Work, m: Method, ws: seq<MintedWitness>, env: SettleEnv)
    requires Up(w, m) && env.serve == Written
    ensures Up(ServeSet(w, m, ws, env), m)
  {
  }

  /** With a held anchor and good verdicts, the set is served. */
  lemma OwnJudge(cfg: Config, h: History, w: Work, m: Method, now: nat, env: SettleEnv)
    requires Current(cfg.maxFaults, h, w.disk.pendingAnchors, w.pending) && w.pending.Anchor(m).Some? && Up(w, m)
    requires env.serve == Written
    requires VerdictsGood(cfg, w.pending.epochId, h[w.pending.epochId], m, w.pending.Anchor(m).value.value, env)
    ensures
      var w' := Judge(cfg, w, m, w.pending.Anchor(m).value.value, now, env);
      Up(w', m) && EpochMethod(w.pending.epochId, m) in w'.served && w'.pending.epochId == w.pending.epochId
  {
    var v := w.pending.Anchor(m).value.value;
    ServesExactlyWhenEveryWitnessHolds(cfg.maxFaults, h, w.pending, m, v, cfg.serviceDid, env.mint, env.check);
    var ws := Decide(w.pending, m, v, cfg.serviceDid, env.mint, env.check).witnesses;
    ServeFields(cfg, h, w, m, ws, env);
    ServeGoesOn(w, m, ws, env);
  }

  lemma OwnAcquire(cfg: Config, w: Work, m: Method, now: nat, env: SettleEnv)
    requires Up(w, m) && Live(cfg.maxFaults, SlotOf(w.pending, m))
    requires w.pending.Anchor(m).None? ==> env.call.Returned? && StoreOutcome(env) == Written
    ensures
      var a := Acquire(cfg, w, m, now, env);
      && a.Holds? && a.value == AnchorValue(SlotOf(w.pending, m), env) && Up(a.work, m)
      && a.work.pending.epochId == w.pending.epochId
  {
    AcquireShape(cfg, w, m, now, env);
  }

  /** A cooperating settle serves its method. */
  lemma OwnSettle(cfg: Config, h: History, w: Work, m: Method, now: nat, env: SettleEnv, rest: set<Method>)
    requires Settling(cfg, h, w, rest + {m}) && m !in rest && Up(w, m) && w.pending.epochId in h
    requires m in cfg.methods && Live(cfg.maxFaults, SlotOf(w.pending, m)) ==>
      Cooperates(cfg, w.pending.epochId, h[w.pending.epochId], m, SlotOf(w.pending, m), env)
    ensures
      var w' := SettleMethod(cfg, w, m, now, env);
      && Up(w', m) && w'.pending.epochId == w.pending.epochId
      && (m in cfg.methods && Live(cfg.maxFaults, SlotOf(w.pending, m)) ==>
           EpochMethod(w.pending.epochId, m) in w'.served)
  {
    if m in cfg.methods && Live(cfg.maxFaults, SlotOf(w.pending, m)) {
      OwnAcquire(cfg, w, m, now, env);
      AcquireSettles(cfg, h, w, m, now, env, rest);
      AcquireShape(cfg, w, m, now, env);
      assert m in rest + {m};
      OwnJudge(cfg, h, Acquire(cfg, w, m, now, env).work, m, now, env);
    }
  }

  /** A settle with nothing to work with does nothing. */
  lemma IdleSettle(cfg: Config, w: Work, m: Method, now: nat, env: SettleEnv)
    requires !(m in cfg.methods && Live(cfg.maxFaults, SlotOf(w.pending, m)))
    ensures SettleMethod(cfg, w, m, now, env) == w
  {
  }

  /** On a stale copy a cooperating settle writes. */
  lemma OwnSettleWrites(cfg: Config, h: History, w: Work, m: Method, now: nat, env: SettleEnv, rest: set<Method>)
    requires Lagging(cfg, h, w, rest + {m}) && m !in rest && Up(w, m)
    requires m in cfg.methods && Live(cfg.maxFaults, SlotOf(w.pending, m))
    requires Cooperates(cfg, w.pending.epochId, h[w.pending.epochId], m, SlotOf(w.pending, m), env)
    ensures SettleMethod(cfg, w, m, now, env).disk != w.disk
  {
    var a := Acquire(cfg, w, m, now, env);
    OwnAcquire(cfg, w, m, now, env);
    if SettleMethod(cfg, w, m, now, env).disk == w.disk {
      LagHolds(cfg, h, w, m, now, env, rest);
      LagJudgeWrites(cfg, h, a.work, m, a.value, now, env, rest);
    }
  }

  lemma LagJudgeWrites(cfg: Config, h: History, w: Work, m: Method, v: TimestampValue, now: nat, env: SettleEnv,
                       rest: set<Method>)
    requires Lagging(cfg, h, w, rest + {m}) && m !in rest && env.serve == Written
    requires VerdictsGood(cfg, w.pending.epochId, h[w.pending.epochId], m, v, env)
    ensures Judge(cfg, w, m, v, now, env).disk != w.disk
  {
    assert m in rest + {m};
    var p := w.pending;
    ServesExactlyWhenEveryWitnessHolds(cfg.maxFaults, h, p, m, v, cfg.serviceDid, env.mint, env.check);
    var ws := Decide(p, m, v, cfg.serviceDid, env.mint, env.check).witnesses;
    MintedDiskIs(w.disk, p, m, h[p.epochId].entries, ws);
    assert EpochMethod(p.epochId, m) in ServeSet(w, m, ws, env).served;
    if ServeSet(w, m, ws, env).disk == w.disk {
      LagServes(cfg, h, w, m, ws, env, rest);
    }
  }

  // ---- Another method's settle ----

  /** What settling another method leaves of `m`: its slot, and whether it is down. */
  ghost predicate Untouched(w: Work, w': Work, m: Method) {
    && SlotOf(w'.pending, m) == SlotOf(w.pending, m) && (m in w'.down <==> m in w.down)
    && w'.pending.epochId == w.pending.epochId && !w'.crashed
  }

  lemma OtherAcquire(cfg: Config, w: Work, k: Method, now: nat, env: SettleEnv, m: Method)
    requires k != m && NoCrash(env) && !w.crashed
    ensures Untouched(w, Acquire(cfg, w, k, now, env).work, m)
  {
    if CallsProvider(cfg, w, k, env) {
      var p := w.pending.WithAnchor(k, env.call.value, now);
      assert p.Anchor(m) == w.pending.Anchor(m);
      assert Untouched(w, Save(w.Log(Anchored(w.pending.epochId, k)), p, StoreOutcome(env)), m);
    }
  }

  lemma OtherDiscard(w: Work, k: Method, o: WriteOutcome, m: Method)
    requires k != m && ResultOf(o) != Crash
    ensures Untouched(w, Discard(w, k, o), m)
  {
    var q := w.pending.WithFault(k);
    assert q.Anchor(m) == w.pending.Anchor(m) && q.FaultCount(m) == w.pending.FaultCount(m);
    assert q.WithoutAnchor(k).Anchor(m) == q.Anchor(m) && q.WithoutAnchor(k).FaultCount(m) == q.FaultCount(m);
  }

  lemma OtherMissing(cfg: Config, w: Work, k: Method, now: nat, env: SettleEnv, m: Method)
    requires k != m && NoCrash(env) && !w.crashed
    ensures Untouched(w, SettleMissing(cfg, w, k, now, env), m)
  {
    if w.pending.Anchor(k).Some? {
      var a := w.pending.Anchor(k).value;
      var first := if a.firstSeen.Some? then a.firstSeen.value else now;
      var stamped := w.(pending := w.pending.WithFirstSeen(k, now));
      assert stamped.pending.Anchor(m) == w.pending.Anchor(m);
      OtherDiscard(stamped.Log(Abandoned(w.pending.epochId, k, a.value, first, now)), k, env.note, m);
    }
  }

  lemma OtherServe(w: Work, k: Method, ws: seq<MintedWitness>, env: SettleEnv, m: Method)
    requires k != m && NoCrash(env) && !w.crashed
    ensures Untouched(w, ServeSet(w, k, ws, env), m)
  {
    OthersKeptByServe(w.pending, k, m);
  }

  lemma OtherJudge(cfg: Config, w: Work, k: Method, v: TimestampValue, now: nat, env: SettleEnv, m: Method)
    requires k != m && NoCrash(env) && !w.crashed
    ensures Untouched(w, Judge(cfg, w, k, v, now, env), m)
  {
    match Decide(w.pending, k, v, cfg.serviceDid, env.mint, env.check)
    case Keep =>
    case Serving(ws) => OtherServe(w, k, ws, env, m);
    case NotFoundYet => OtherMissing(cfg, w, k, now, env, m);
    case FaultyAnchor => OtherDiscard(w.Down(k).Log(AtFault(w.pending.epochId, k, v)), k, env.note, m);
  }

  /** The methods are independent: whatever another one's provider and verdicts do, `m` is where it was. */
  lemma OtherSettle(cfg: Config, w: Work, k: Method, now: nat, env: SettleEnv, m: Method)
    requires k != m && NoCrash(env) && !w.crashed
    ensures Untouched(w, SettleMethod(cfg, w, k, now, env), m)
  {
    if k in cfg.methods {
      OtherAcquire(cfg, w, k, now, env, m);
      var a := Acquire(cfg, w, k, now, env);
      if a.Holds? {
        OtherJudge(cfg, a.work, k, a.value, now, env, m);
      }
    }
  }

  // ---- An epoch and the backlog ----

  /** Of the methods other than `m`, nothing is asked but that their writes do not crash. */
  ghost predicate OthersGoOn(envs: SettleEnvs, m: Method) {
    forall e, k :: k != m ==> NoCrash(envs(e, k))
  }

  /** `m` cooperates for epoch `e`, if it is enabled and live there. */
  ghost predicate CooperatesFor(cfg: Config, h: History, e: nat, s: Slot, m: Method, envs: SettleEnvs) {
    m in cfg.methods && Live(cfg.maxFaults, s) ==> e in h && Cooperates(cfg, e, h[e], m, s, envs(e, m))
  }

  /** One settle of an epoch in which `m` cooperates: `m`'s own, or another's. */
  lemma StepServes(cfg: Config, h: History, w: Work, ms: seq<Method>, now: nat, envs: SettleEnvs, m: Method)
    requires Settles(cfg, h, w, Elems(ms)) && NoDup(ms) && NoStaleWrite(cfg, w, ms, now, envs) && ms != []
    requires OthersGoOn(envs, m) && Up(w, m) && w.pending.epochId in h
    requires m in ms ==> CooperatesFor(cfg, h, w.pending.epochId, SlotOf(w.pending, m), m, envs)
    ensures
      var w' := SettleMethod(cfg, w, ms[0], now, envs(w.pending.epochId, ms[0]));
      && Up(w', m) && (ms[0] != m ==> SlotOf(w'.pending, m) == SlotOf(w.pending, m))
      && (ms[0] == m && m in cfg.methods && Live(cfg.maxFaults, SlotOf(w.pending, m)) ==>
           EpochMethod(w.pending.epochId, m) in w'.served)
  {
    var env := envs(w.pending.epochId, ms[0]);
    HarmlessStep(cfg, h, w, ms, now, envs);
    if ms[0] != m {
      OtherSettle(cfg, w, ms[0], now, env, m);
    } else if !(m in cfg.methods && Live(cfg.maxFaults, SlotOf(w.pending, m))) {
      IdleSettle(cfg, w, m, now, env);
    } else if Settling(cfg, h, w, Elems(ms)) {
      OwnSettle(cfg, h, w, m, now, env, Elems(ms[1..]));
    } else {
      OwnSettleWrites(cfg, h, w, m, now, env, Elems(ms[1..]));
      assert false;
    }
  }

  lemma {:induction false} MethodsServe(cfg: Config, h: History, w: Work, ms: seq<Method>, now: nat, envs: SettleEnvs,
                                        m: Method)
    requires Settles(cfg, h, w, Elems(ms)) && NoDup(ms) && NoStaleWrite(cfg, w, ms, now, envs)
    requires OthersGoOn(envs, m) && Up(w, m) && w.pending.epochId in h
    requires m in ms ==> CooperatesFor(cfg, h, w.pending.epochId, SlotOf(w.pending, m), m, envs)
    ensures
      var w' := SettleMethods(cfg, w, ms, now, envs);
      && Up(w', m)
      && (m in ms && m in cfg.methods && Live(cfg.maxFaults, SlotOf(w.pending, m)) ==>
           EpochMethod(w.pending.epochId, m) in w'.served)
    decreases |ms|
  {
    if ms != [] {
      var w1 := SettleMethod(cfg, w, ms[0], now, envs(w.pending.epochId, ms[0]));
      HarmlessStep(cfg, h, w, ms, now, envs);
      StepServes(cfg, h, w, ms, now, envs, m);
      MethodsServe(cfg, h, w1, ms[1..], now, envs, m);
      MethodsKeepServed(cfg, w1, ms[1..], now, envs);
    }
  }

  /** The record of an epoch whose live method `m` cooperates. */
  ghost predicate RecordCooperates(cfg: Config, h: History, p: PendingRecord, m: Method, envs: SettleEnvs) {
    m in p.methods ==> CooperatesFor(cfg, h, p.epochId, SlotOf(p, m), m, envs)
  }

  lemma EpochServes(cfg: Config, h: History, w: Work, p: PendingRecord, now: nat, envs: SettleEnvs, m: Method)
    requires DiskInv(cfg, h, w.served, w.disk) && EpochHarmless(cfg, w, p, now, envs)
    requires OthersGoOn(envs, m) && Up(w, m) && RecordCooperates(cfg, h, p, m, envs)
    requires p.epochId in w.disk.pendingAnchors && w.disk.pendingAnchors[p.epochId] == p
    ensures
      var w' := SettleEpoch(cfg, w, p, now, envs);
      && Up(w', m)
      && (m in p.methods && m in cfg.methods && Live(cfg.maxFaults, SlotOf(p, m)) ==>
           EpochMethod(p.epochId, m) in w'.served)
  {
    var begun := w.(pending := p);
    EpochBegins(cfg, h, w, p);
    MethodsServe(cfg, h, begun, p.methods, now, envs, m);
    DropIsSameState(SettleMethods(cfg, begun, p.methods, now, envs));
  }

  lemma {:induction false} RetryServes(cfg: Config, h: History, w: Work, ps: seq<PendingRecord>, now: nat,
                                       envs: SettleEnvs, i: nat, m: Method)
    requires DiskInv(cfg, h, w.served, w.disk) && Backlogged(w.disk.pendingAnchors, ps)
    requires BacklogHarmless(cfg, w, ps, now, envs) && OthersGoOn(envs, m) && Up(w, m)
    requires forall j :: 0 <= j < |ps| ==> RecordCooperates(cfg, h, ps[j], m, envs)
    ensures
      var w' := Retry(cfg, w, ps, now, envs);
      && Up(w', m) && ServedKept(w, w')
      && (i < |ps| && m in ps[i].methods && m in cfg.methods && Live(cfg.maxFaults, SlotOf(ps[i], m)) ==>
            EpochMethod(ps[i].epochId, m) in w'.served)
    decreases |ps|
  {
    if ps != [] {
      EpochSettles(cfg, h, w, ps[0], now, envs);
      EpochServes(cfg, h, w, ps[0], now, envs, m);
      EpochKeepsServed(cfg, w, ps[0], now, envs);
      var w1 := SettleEpoch(cfg, w, ps[0], now, envs);
      BacklogRest(w.disk, w1.disk, ps);
      RetryServes(cfg, h, w1, ps[1..], now, envs, if i == 0 then 0 else i - 1, m);
    }
  }

  // ---- Served sets stay ----

  /** What a world has sealed and served, a later one has too. */
  ghost predicate Grown(w: World, w': World) {
    && (forall k :: k in w.served ==> k in w'.served)
    && (forall e :: e in w.sealed ==> e in w'.sealed && w'.sealed[e] == w.sealed[e])
  }

  lemma CloseGrows(cfg: Config, w: World, down: set<Method>, env: TickEnv)
    requires w.open.epochId !in w.sealed
    ensures Grown(w, ClosePhase(cfg, w, down, env))
  {
    if Closed(cfg, w.open.leaves, env).Some? && Lands(env.persist) {
      var s := Swapped(w.open, env.now, env.now, env.duration).0;
      LandingGrows(cfg, SwapPhase(w, env), s, Closed(cfg, s.leaves, env).value, down, env);
    } else {
      UnsealedTickKeepsStore(cfg, w, down, env);
    }
  }

  lemma LandingGrows(cfg: Config, w: World, s: SealedSnapshot, se: SealedEpoch, down: set<Method>, env: TickEnv)
    requires s.epochId !in w.sealed
    ensures Grown(w, AfterLanding(cfg, w, s, se, down, env))
  {
    var p := PendingFor(s.epochId, s.openedAt, s.closedAt, se);
    if p.Some? {
      EpochKeepsServed(cfg, WorkOf(SealedWorld(w, s, se), down), p.value, env.now, env.settle);
    }
  }

  // ---- The theorem ----

  /** In this tick `m` cooperates for every pending epoch where it is live; the other methods only do not crash. */
  ghost predicate TickCooperates(cfg: Config, w: World, env: TickEnv, m: Method) {
    && env.context && env.listed && OthersGoOn(env.settle, m)
    && (forall e :: e in w.disk.pendingAnchors ==>
         RecordCooperates(cfg, w.sealed, w.disk.pendingAnchors[e], m, env.settle))
  }

  lemma BacklogCooperates(cfg: Config, w: World, env: TickEnv, m: Method, ps: seq<PendingRecord>)
    requires TickCooperates(cfg, w, env, m) && Backlogged(w.disk.pendingAnchors, ps)
    ensures forall j :: 0 <= j < |ps| ==> RecordCooperates(cfg, w.sealed, ps[j], m, env.settle)
  {
  }

  /** The backlog phase of a cooperating tick serves `m` wherever it is enabled, pending and not stalled. */
  lemma CooperatingTickServes(cfg: Config, w: World, env: TickEnv, e: nat, m: Method)
    requires WorldInv(cfg, w) && RetryHarmless(cfg, w, env) && TickCooperates(cfg, w, env, m)
    requires Pends(w.disk.pendingAnchors, e, m) && m in cfg.methods && !Stalled(cfg, w.disk.pendingAnchors, e, m)
    ensures !RetryPhase(cfg, w, env).crashed && EpochMethod(e, m) in RetryPhase(cfg, w, env).served
  {
    BacklogOf(cfg, w);
    var ps := PendingEpochs(w.disk);
    ListedMember(w.disk, e);
    var i :| 0 <= i < |ps| && ps[i] == w.disk.pendingAnchors[e];
    CoreParts(w);
    BacklogCooperates(cfg, w, env, m, ps);
    RetryServes(cfg, w.sealed, WorkOf(w, {}), ps, env.now, env.settle, i, m);
  }

  lemma TickKeepsServed(cfg: Config, w: World, env: TickEnv, e: nat, m: Method)
    requires CoreInv(w) && env.context && Validate(cfg).None?
    requires !RetryPhase(cfg, w, env).crashed && EpochMethod(e, m) in RetryPhase(cfg, w, env).served
    ensures EpochMethod(e, m) in Ticked(cfg, w, env).served
    ensures forall q :: q in w.sealed ==>
      q in Ticked(cfg, w, env).sealed && Ticked(cfg, w, env).sealed[q] == w.sealed[q]
  {
    BeforeCloseCore(cfg, w, env);
    CoreParts(w);
    CloseGrows(cfg, BeforeClose(cfg, w, env), RetryPhase(cfg, w, env).down, env);
  }

  /**
   * 202 is live. A leaf answered 202 for an enabled method is answered 200, to
   * its owner, after any one tick in which that method's provider, signer and
   * hosts and its backlog writes cooperate: every verdict of what is minted is
   * Verified. Whatever the other method's provider and verdicts do, and
   * whatever happens to the epoch that same tick seals.
   */
  lemma PendingBecomesServed(cfg: Config, w: World, env: TickEnv, caller: Did, leaf: Leaf, m: Method)
    requires WorldInv(cfg, w) && NoDup(cfg.methods) && Safe(cfg, w, Tick(env))
    requires Validate(cfg).None? && TickCooperates(cfg, w, env, m)
    requires m in cfg.methods && ByLeaf(w.disk, cfg.maxFaults, caller, leaf, m).StillPending?
    ensures
      var d := Ticked(cfg, w, env).disk;
      leaf in d.leafOwner && ByLeaf(d, cfg.maxFaults, d.leafOwner[leaf], leaf, m).Found?
  {
    ByLeafIsExact(cfg, w.sealed, w.served, w.disk, caller, leaf, m);
    var e := ByLeaf(w.disk, cfg.maxFaults, caller, leaf, m).epoch;
    CooperatingTickServes(cfg, w, env, e, m);
    TickKeepsServed(cfg, w, env, e, m);
    TickKeeps(cfg, w, env);
    ServedIsFound(cfg, Ticked(cfg, w, env), e, leaf, m);
  }

  lemma ServedIsFound(cfg: Config, w: World, e: nat, leaf: Leaf, m: Method)
    requires WorldInv(cfg, w) && EpochMethod(e, m) in w.served && SealedWith(w.sealed, e, leaf, m)
    ensures leaf in w.disk.leafOwner && ByLeaf(w.disk, cfg.maxFaults, w.disk.leafOwner[leaf], leaf, m).Found?
  {
    OwnedIsSealed(cfg, w.sealed, w.served, w.disk, leaf);
    OwnerIsAnsweredExactly(cfg, w.sealed, w.served, w.disk, w.disk.leafOwner[leaf], leaf, m);
  }
}
