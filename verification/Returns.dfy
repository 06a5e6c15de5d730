/**
 * What a tick returns: the witnesses of exactly the sets served in it, those of
 * earlier epochs first.
 */
module Returns {
  import opened Base
  import opened Accumulation
  import opened Witness
  import opened Storage
  import opened Sealer
  import opened Invariants
  import opened Settle
  import opened Backlog
  import opened System
  import opened Runs
  import Accounts

  /** The write that served `k` this tick did not report an error. */
  ghost predicate Reported(envs: SettleEnvs, k: EpochMethod) {
    envs(k.epoch, k.via).serve != Unsynced
  }

  /** `x` is a witness of a set served since `before` by a write that reported no error. */
  ghost predicate NewlyServed(before: Ledger, now: Ledger, envs: SettleEnvs, x: MintedWitness) {
    exists k :: k in now && k !in before && Reported(envs, k) && x in now[k].witnesses
  }

  /** The returned witnesses are those of the sets served since `before` and so reported, all of epochs in `ids`. */
  ghost predicate Returned(before: Ledger, ids: set<nat>, envs: SettleEnvs, w: Work) {
    && (forall k :: k in before ==> k in w.served && w.served[k] == before[k])
    && (forall k :: k in w.served && k !in before ==> k.epoch in ids)
    && (forall k, i :: k in w.served && k !in before && Reported(envs, k) && 0 <= i < |w.served[k].witnesses| ==>
         w.served[k].witnesses[i] in w.out)
    && (forall x :: x in w.out ==> NewlyServed(before, w.served, envs, x))
  }

  /** Nothing was served or returned. */
  ghost predicate SameReturns(w: Work, w': Work) {
    w'.served == w.served && w'.out == w.out && w'.pending.epochId == w.pending.epochId
  }

  lemma ReturnsOne(before: Ledger, ids: set<nat>, envs: SettleEnvs, w: Work, w': Work, k: EpochMethod, s: Serve)
    requires Returned(before, ids, envs, w) && k !in w.served && k.epoch in ids
    requires w'.served == w.served[k := s]
    requires w'.out == if Reported(envs, k) then w.out + s.witnesses else w.out
    ensures Returned(before, ids, envs, w')
  {
    forall x | x in w'.out
      ensures NewlyServed(before, w'.served, envs, x)
    {
      if x in w.out {
        var q :| q in w.served && q !in before && Reported(envs, q) && x in w.served[q].witnesses;
        assert w'.served[q] == w.served[q];
      } else {
        assert x in w'.served[k].witnesses;
      }
    }
  }

  lemma ServeReturns(before: Ledger, ids: set<nat>, envs: SettleEnvs, w: Work, m: Method, ws: seq<MintedWitness>)
    requires Returned(before, ids, envs, w)
    requires EpochMethod(w.pending.epochId, m) !in w.served && w.pending.epochId in ids
    ensures
      var w' := ServeSet(w, m, ws, envs(w.pending.epochId, m));
      Returned(before, ids, envs, w') && w'.pending.epochId == w.pending.epochId
  {
    var w' := ServeSet(w, m, ws, envs(w.pending.epochId, m));
    var k := EpochMethod(w.pending.epochId, m);
    if w'.served != w.served || w'.out != w.out {
      ReturnsOne(before, ids, envs, w, w', k, w'.served[k]);
    }
  }

  lemma MissingReturns(cfg: Config, w: Work, m: Method, now: nat, env: SettleEnv)
    ensures SameReturns(w, SettleMissing(cfg, w, m, now, env))
  {
  }

  lemma JudgeReturns(cfg: Config, before: Ledger, ids: set<nat>, envs: SettleEnvs, w: Work, m: Method,
                     v: TimestampValue, now: nat)
    requires Returned(before, ids, envs, w)
    requires EpochMethod(w.pending.epochId, m) !in w.served && w.pending.epochId in ids
    ensures
      var w' := Judge(cfg, w, m, v, now, envs(w.pending.epochId, m));
      Returned(before, ids, envs, w') && w'.pending.epochId == w.pending.epochId
  {
    var env := envs(w.pending.epochId, m);
    match Decide(w.pending, m, v, cfg.serviceDid, env.mint, env.check)
    case Keep =>
    case Serving(ws) => ServeReturns(before, ids, envs, w, m, ws);
    case NotFoundYet => MissingReturns(cfg, w, m, now, env);
    case FaultyAnchor =>
  }

  lemma AcquireReturns(cfg: Config, w: Work, m: Method, now: nat, env: SettleEnv)
    ensures SameReturns(w, Acquire(cfg, w, m, now, env).work)
  {
    if CallsProvider(cfg, w, m, env) {
      var called := w.Log(Anchored(w.pending.epochId, m));
      assert SameReturns(w, Save(called, w.pending.WithAnchor(m, env.call.value, now), StoreOutcome(env)));
    }
  }

  lemma SettleReturns(cfg: Config, before: Ledger, ids: set<nat>, envs: SettleEnvs, w: Work, m: Method, now: nat)
    requires Returned(before, ids, envs, w)
    requires EpochMethod(w.pending.epochId, m) !in w.served && w.pending.epochId in ids
    ensures Returned(before, ids, envs, SettleMethod(cfg, w, m, now, envs(w.pending.epochId, m)))
  {
    if m in cfg.methods {
      var env := envs(w.pending.epochId, m);
      var a := Acquire(cfg, w, m, now, env);
      AcquireReturns(cfg, w, m, now, env);
      if a.Holds? {
        JudgeReturns(cfg, before, ids, envs, a.work, m, a.value, now);
      }
    }
  }

  lemma {:induction false} MethodsReturn(cfg: Config, h: History, before: Ledger, ids: set<nat>, w: Work,
                                         ms: seq<Method>, now: nat, envs: SettleEnvs)
    requires Settles(cfg, h, w, Elems(ms)) && NoDup(ms) && NoStaleWrite(cfg, w, ms, now, envs)
    requires Returned(before, ids, envs, w) && w.pending.epochId in ids
    ensures Returned(before, ids, envs, SettleMethods(cfg, w, ms, now, envs))
    decreases |ms|
  {
    if ms != [] && !w.crashed {
      HarmlessStep(cfg, h, w, ms, now, envs);
      Accounts.PendingIsUnserved(cfg, h, w, ms[0], Elems(ms[1..]));
      SettleReturns(cfg, before, ids, envs, w, ms[0], now);
      var w1 := SettleMethod(cfg, w, ms[0], now, envs(w.pending.epochId, ms[0]));
      MethodsReturn(cfg, h, before, ids, w1, ms[1..], now, envs);
    }
  }

  lemma EpochReturns(cfg: Config, h: History, before: Ledger, ids: set<nat>, w: Work, p: PendingRecord, now: nat,
                     envs: SettleEnvs)
    requires DiskInv(cfg, h, w.served, w.disk) && EpochHarmless(cfg, w, p, now, envs)
    requires p.epochId in w.disk.pendingAnchors && w.disk.pendingAnchors[p.epochId] == p
    requires Returned(before, ids, envs, w) && p.epochId in ids
    ensures Returned(before, ids, envs, SettleEpoch(cfg, w, p, now, envs))
  {
    var begun := w.(pending := p);
    EpochBegins(cfg, h, w, p);
    MethodsReturn(cfg, h, before, ids, begun, p.methods, now, envs);
    DropIsSameState(SettleMethods(cfg, begun, p.methods, now, envs));
  }

  lemma {:induction false} RetryReturns(cfg: Config, h: History, before: Ledger, ids: set<nat>, w: Work,
                                        ps: seq<PendingRecord>, now: nat, envs: SettleEnvs)
    requires DiskInv(cfg, h, w.served, w.disk) && Backlogged(w.disk.pendingAnchors, ps)
    requires BacklogHarmless(cfg, w, ps, now, envs)
    requires Returned(before, ids, envs, w) && forall i :: 0 <= i < |ps| ==> ps[i].epochId in ids
    ensures Returned(before, ids, envs, Retry(cfg, w, ps, now, envs))
    decreases |ps|
  {
    if ps != [] && !w.crashed {
      EpochSettles(cfg, h, w, ps[0], now, envs);
      EpochReturns(cfg, h, before, ids, w, ps[0], now, envs);
      var w1 := SettleEpoch(cfg, w, ps[0], now, envs);
      BacklogRest(w.disk, w1.disk, ps);
      RetryReturns(cfg, h, before, ids, w1, ps[1..], now, envs);
    }
  }

  // ---- A tick ----

  lemma RetryPhaseReturns(cfg: Config, w: World, env: TickEnv)
    requires WorldInv(cfg, w) && RetryHarmless(cfg, w, env)
    ensures Returned(w.served, w.sealed.Keys, env.settle, RetryPhase(cfg, w, env))
  {
    if env.context && env.listed {
      BacklogOf(cfg, w);
      CoreParts(w);
      RetryReturns(cfg, w.sealed, w.served, w.sealed.Keys, WorkOf(w, {}), PendingEpochs(w.disk), env.now, env.settle);
    }
  }

  lemma SettlePhaseReturns(cfg: Config, w: World, s: SealedSnapshot, se: SealedEpoch, down: set<Method>, env: TickEnv)
    requires WorldInv(cfg, SealedWorld(w, s, se)) && SettleHarmless(cfg, SealedWorld(w, s, se), s, se, down, env)
    ensures Returned(w.served, {s.epochId}, env.settle, SettlePhase(cfg, SealedWorld(w, s, se), s, se, down, env))
  {
    var w2 := SealedWorld(w, s, se);
    var p := PendingFor(s.epochId, s.openedAt, s.closedAt, se);
    if p.Some? {
      SealedIsPending(w, s, se);
      EpochReturns(cfg, w2.sealed, w.served, {s.epochId}, WorkOf(w2, down), p.value, env.now, env.settle);
    }
  }

  /** Two batches of returned witnesses, one after the other. */
  lemma ReturnsCompose(first: Ledger, mid: Ledger, last: Ledger, envs: SettleEnvs, a: seq<MintedWitness>,
                       b: seq<MintedWitness>, x: MintedWitness)
    requires forall k :: k in first ==> k in mid && mid[k] == first[k]
    requires forall k :: k in mid ==> k in last && last[k] == mid[k]
    requires x in a <==> NewlyServed(first, mid, envs, x)
    requires x in b <==> NewlyServed(mid, last, envs, x)
    ensures x in a + b <==> NewlyServed(first, last, envs, x)
  {
    if NewlyServed(first, mid, envs, x) {
      var k :| k in mid && k !in first && Reported(envs, k) && x in mid[k].witnesses;
      assert last[k] == mid[k];
    }
    if NewlyServed(first, last, envs, x) {
      var k :| k in last && k !in first && Reported(envs, k) && x in last[k].witnesses;
      assert k in mid ==> x in mid[k].witnesses;
    }
  }

  lemma ReturnedIff(before: Ledger, ids: set<nat>, envs: SettleEnvs, w: Work, x: MintedWitness)
    requires Returned(before, ids, envs, w)
    ensures x in w.out <==> NewlyServed(before, w.served, envs, x)
  {
    if NewlyServed(before, w.served, envs, x) {
      var k :| k in w.served && k !in before && Reported(envs, k) && x in w.served[k].witnesses;
      var i :| 0 <= i < |w.served[k].witnesses| && w.served[k].witnesses[i] == x;
      assert w.served[k].witnesses[i] in w.out;
    }
  }

  /** A returned witness is of the epoch whose set it belongs to. */
  lemma ReturnedEpochs(cfg: Config, h: History, before: Ledger, ids: set<nat>, envs: SettleEnvs, w: Work,
                       x: MintedWitness)
    requires Returned(before, ids, envs, w) && SetsInv(cfg, h, w.served) && x in w.out
    requires forall e :: e in h ==> SealedOk(h[e])
    ensures x.epochId in ids
  {
    var k :| k in w.served && k !in before && Reported(envs, k) && x in w.served[k].witnesses;
    ServedShape(cfg, k, h[k.epoch], w.served[k]);
  }

  lemma ClosedAnswer(cfg: Config, w: World, down: set<Method>, env: TickEnv)
    requires CloseAnswer(cfg, w, down, env).Sealed?
    ensures
      var s := Swapped(w.open, env.now, env.now, env.duration).0;
      && Closed(cfg, s.leaves, env).Some? && env.persist == Written
      && var se := Closed(cfg, s.leaves, env).value;
         var own := SettlePhase(cfg, SealedWorld(SwapPhase(w, env), s, se), s, se, down, env);
         && CloseAnswer(cfg, w, down, env) == Sealed(RecordFor(s, se), own.out)
         && ClosePhase(cfg, w, down, env).served == own.served
  {
  }

  /** The tick sealed: what its phases are. */
  lemma TickAnswered(cfg: Config, w: World, env: TickEnv)
    requires TickAnswer(cfg, w, env).Sealed?
    ensures
      var work := RetryPhase(cfg, w, env);
      var w1 := Accept(WithWork(w, work), env.before);
      && CloseAnswer(cfg, w1, work.down, env).Sealed?
      && Ticked(cfg, w, env) == ClosePhase(cfg, w1, work.down, env)
      && TickAnswer(cfg, w, env) == CloseAnswer(cfg, w1, work.down, env).(
           witnesses := work.out + CloseAnswer(cfg, w1, work.down, env).witnesses)
  {
  }

  /** The witnesses of a tick that sealed: `late` of earlier epochs, the rest of the epoch it sealed. */
  ghost predicate ExactlyServed(w: World, w': World, envs: SettleEnvs, r: TickResult, late: seq<MintedWitness>) {
    && r.Sealed? && late <= r.witnesses
    && (forall x :: x in late ==> x.epochId < r.record.id)
    && (forall x :: x in r.witnesses[|late|..] ==> x.epochId == r.record.id)
    && (forall x :: x in r.witnesses <==> NewlyServed(w.served, w'.served, envs, x))
  }

  lemma PhasesReturnExactly(cfg: Config, w: World, work: Work, w1: World, s: SealedSnapshot, se: SealedEpoch,
                            down: set<Method>, env: TickEnv, x: MintedWitness)
    requires WorldInv(cfg, SealedWorld(w1, s, se)) && SettleHarmless(cfg, SealedWorld(w1, s, se), s, se, down, env)
    requires Returned(w.served, w.sealed.Keys, env.settle, work) && w1.served == work.served
    ensures
      var own := SettlePhase(cfg, SealedWorld(w1, s, se), s, se, down, env);
      x in work.out + own.out <==> NewlyServed(w.served, own.served, env.settle, x)
  {
    var own := SettlePhase(cfg, SealedWorld(w1, s, se), s, se, down, env);
    SettlePhaseReturns(cfg, w1, s, se, down, env);
    ReturnedIff(w.served, w.sealed.Keys, env.settle, work, x);
    ReturnedIff(w1.served, {s.epochId}, env.settle, own, x);
    ReturnsCompose(w.served, work.served, own.served, env.settle, work.out, own.out, x);
  }

  lemma LateAreEarlier(cfg: Config, w: World, env: TickEnv, x: MintedWitness)
    requires WorldInv(cfg, w) && RetryHarmless(cfg, w, env) && x in RetryPhase(cfg, w, env).out
    ensures x.epochId < w.open.epochId
  {
    var work := RetryPhase(cfg, w, env);
    RetryPhaseReturns(cfg, w, env);
    BeforeCloseKeeps(cfg, w, env);
    SetsOfStore(cfg, w.sealed, work.served, work.disk);
    CoreParts(w);
    ReturnedEpochs(cfg, w.sealed, w.served, w.sealed.Keys, env.settle, work, x);
  }

  lemma SetsOfStore(cfg: Config, h: History, served: Ledger, d: Disk)
    requires DiskInv(cfg, h, served, d)
    ensures SetsInv(cfg, h, served) && forall e :: e in h ==> SealedOk(h[e])
  {
    Parts(cfg, h, served, d);
  }

  lemma OwnAreOfTheEpoch(cfg: Config, w: World, s: SealedSnapshot, se: SealedEpoch, down: set<Method>, env: TickEnv,
                         x: MintedWitness)
    requires WorldInv(cfg, SealedWorld(w, s, se)) && SettleHarmless(cfg, SealedWorld(w, s, se), s, se, down, env)
    requires x in SettlePhase(cfg, SealedWorld(w, s, se), s, se, down, env).out
    ensures x.epochId == s.epochId
  {
    var w2 := SealedWorld(w, s, se);
    var own := SettlePhase(cfg, w2, s, se, down, env);
    SettlePhaseReturns(cfg, w, s, se, down, env);
    SealedIsPending(w, s, se);
    SettlePhaseExactly(cfg, w2, s, se, down, env);
    SetsOfStore(cfg, w2.sealed, own.served, own.disk);
    ReturnedEpochs(cfg, w2.sealed, w.served, {s.epochId}, env.settle, own, x);
  }

  /**
   * A tick that seals returns its record and exactly the witnesses served in
   * it by writes that reported no error: first those of earlier epochs, then
   * those of the epoch it sealed.
   */
  lemma TickReturnsExactlyTheServed(cfg: Config, w: World, env: TickEnv)
    requires WorldInv(cfg, w) && NoDup(cfg.methods) && Safe(cfg, w, Tick(env))
    requires TickAnswer(cfg, w, env).Sealed?
    ensures ExactlyServed(w, Ticked(cfg, w, env), env.settle, TickAnswer(cfg, w, env), RetryPhase(cfg, w, env).out)
  {
    var work, w1 := RetryPhase(cfg, w, env), BeforeClose(cfg, w, env);
    TickAnswered(cfg, w, env);
    RetryPhaseReturns(cfg, w, env);
    BeforeCloseKeeps(cfg, w, env);
    BeforeCloseCore(cfg, w, env);
    ClosedReturns(cfg, w, work, w1, env);
  }

  /** The two batches and the record, as the answer has them. */
  lemma ClosedReturns(cfg: Config, w: World, work: Work, w1: World, env: TickEnv)
    requires WorldInv(cfg, w) && WorldInv(cfg, w1) && NoDup(cfg.methods) && Admissible(w1, Tick(env))
    requires RetryHarmless(cfg, w, env) && CloseHarmless(cfg, w1, work.down, env)
    requires work == RetryPhase(cfg, w, env) && w1 == BeforeClose(cfg, w, env)
    requires w1.open.epochId == w.open.epochId && Returned(w.served, w.sealed.Keys, env.settle, work)
    requires CloseAnswer(cfg, w1, work.down, env).Sealed?
    ensures
      var r := CloseAnswer(cfg, w1, work.down, env);
      ExactlyServed(w, ClosePhase(cfg, w1, work.down, env), env.settle, r.(witnesses := work.out + r.witnesses),
                    work.out)
  {
    ClosedAnswer(cfg, w1, work.down, env);
    var s := Swapped(w1.open, env.now, env.now, env.duration).0;
    var se := Closed(cfg, s.leaves, env).value;
    CloseSeals(cfg, w1, env);
    var w2 := SwapPhase(w1, env);
    var own := SettlePhase(cfg, SealedWorld(w2, s, se), s, se, work.down, env);
    assert (work.out + own.out)[|work.out|..] == own.out;
    forall x
      ensures x in work.out ==> x.epochId < s.epochId
      ensures x in own.out ==> x.epochId == s.epochId
      ensures x in work.out + own.out <==> NewlyServed(w.served, own.served, env.settle, x)
    {
      if x in work.out {
        LateAreEarlier(cfg, w, env, x);
      }
      if x in own.out {
        OwnAreOfTheEpoch(cfg, w2, s, se, work.down, env, x);
      }
      PhasesReturnExactly(cfg, w, work, w2, s, se, work.down, env, x);
    }
  }
}
