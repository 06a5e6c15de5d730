/**
 * Where every anchor goes. Each successful provider call of an (epoch, method)
 * ends as exactly one of: a counted fault, the anchor held, the anchor served,
 * or an anchor lost before it became durable.
 */
module Accounts {
  import opened Base
  import opened Accumulation
  import opened Witness
  import opened Storage
  import opened Sealer
  import opened Invariants
  import opened Settle
  import opened Backlog
  import opened System
  import opened Runs

  // ---- Counting ----

  ghost function CountOf(log: seq<Event>, e: Event): nat {
    if log == [] then 0 else
      var n := |log| - 1;
      CountOf(log[..n], e) + if log[n] == e then 1 else 0
  }

  lemma {:induction false} CountAbsent(log: seq<Event>, e: Event)
    requires forall i :: 0 <= i < |log| ==> log[i] != e
    ensures CountOf(log, e) == 0
  {
    if log != [] {
      CountAbsent(log[..|log| - 1], e);
    }
  }

  ghost function Calls(log: seq<Event>, e: nat, m: Method): nat {
    CountOf(log, Anchored(e, m))
  }

  ghost function Losses(log: seq<Event>, e: nat, m: Method): nat {
    CountOf(log, Lost(e, m))
  }

  /** Anchors a pending method accounts for: its faults, and the one held. */
  ghost function SlotSpent(s: Slot): nat {
    s.faults + if s.held.Some? then 1 else 0
  }

  /** Anchors the store accounts for; a served method keeps its faults and the anchor it was served from. */
  ghost function Spent(served: Ledger, anchors: Anchors, e: nat, m: Method): nat {
    var k := EpochMethod(e, m);
    if k in served then
      if served[k].record.Some? then served[k].record.value.FaultCount(m) + 1 else 0
    else if e in anchors then SlotSpent(SlotOf(anchors[e], m))
    else 0
  }

  /** The same, with the epoch being settled read from its volatile copy. */
  ghost function SpentNow(w: Work, e: nat, m: Method): nat {
    if EpochMethod(e, m) !in w.served && e == w.pending.epochId then SlotSpent(SlotOf(w.pending, m))
    else Spent(w.served, w.disk.pendingAnchors, e, m)
  }

  ghost predicate Balanced(log: seq<Event>, e: nat, m: Method, spent: nat) {
    Calls(log, e, m) == spent + Losses(log, e, m)
  }

  /** Every sealed (epoch, method) balances against the store. */
  ghost predicate AccountInv(h: History, log: seq<Event>, served: Ledger, anchors: Anchors) {
    forall e, m :: e in h && m in h[e].methods ==> Balanced(log, e, m, Spent(served, anchors, e, m))
  }

  /** Every sealed (epoch, method) balances while an epoch is being settled. */
  ghost predicate Tally(h: History, w: Work) {
    forall e, m :: e in h && m in h[e].methods ==> Balanced(w.log, e, m, SpentNow(w, e, m))
  }

  // ---- One settle ----

  /** Logging such an event, and a new volatile state that accounts for the same anchors. */
  lemma TallyKept(h: History, w: Work, w': Work)
    requires Tally(h, w)
    requires w'.log == w.log || exists x: Event :: w'.log == w.log + [x] && !x.Anchored? && !x.Lost?
    requires forall e, m :: e in h && m in h[e].methods ==> SpentNow(w', e, m) == SpentNow(w, e, m)
    ensures Tally(h, w')
  {
  }

  /** The volatile record of the same epoch accounts for the same anchors, whatever a save did. */
  lemma SaveTally(h: History, w: Work, p: PendingRecord, o: WriteOutcome)
    requires Tally(h, w) && p.epochId == w.pending.epochId
    requires forall k :: SlotSpent(SlotOf(p, k)) == SlotSpent(SlotOf(w.pending, k))
    ensures Tally(h, Save(w, p, o))
  {
  }

  lemma AnchorTally(h: History, w: Work, m: Method, v: TimestampValue, now: nat, o: WriteOutcome)
    requires Tally(h, w) && w.pending.Anchor(m).None? && EpochMethod(w.pending.epochId, m) !in w.served
    ensures Tally(h, Save(w.Log(Anchored(w.pending.epochId, m)), w.pending.WithAnchor(m, v, now), o))
  {
    var p := w.pending.WithAnchor(m, v, now);
    var w' := Save(w.Log(Anchored(w.pending.epochId, m)), p, o);
    forall e, k | e in h && k in h[e].methods
      ensures Balanced(w'.log, e, k, SpentNow(w', e, k))
    {
      assert Balanced(w.log, e, k, SpentNow(w, e, k));
      assert p.FaultCount(k) == w.pending.FaultCount(k);
      assert k != m ==> p.Anchor(k) == w.pending.Anchor(k);
    }
  }

  lemma DiscardTally(h: History, w: Work, m: Method, o: WriteOutcome)
    requires Tally(h, w) && w.pending.Anchor(m).Some?
    ensures Tally(h, Discard(w, m, o))
  {
  }

  /** A single event that is no anchor and no loss. */
  lemma LogTally(h: History, w: Work, w': Work, x: Event)
    requires Tally(h, w) && !x.Anchored? && !x.Lost?
    requires w'.log == w.log + [x] && w'.pending == w.pending && w'.served == w.served && w'.disk == w.disk
    ensures Tally(h, w')
  {
  }

  lemma CallTally(h: History, w: Work, m: Method, v: TimestampValue, now: nat, o: WriteOutcome)
    requires Tally(h, w) && w.pending.Anchor(m).None? && EpochMethod(w.pending.epochId, m) !in w.served
    ensures
      var e := w.pending.epochId;
      var saved := Save(w.Log(Anchored(e, m)), w.pending.WithAnchor(m, v, now), o);
      Tally(h, saved) && Tally(h, saved.Down(m).Log(NotStored(e, m)))
  {
    var e := w.pending.epochId;
    AnchorTally(h, w, m, v, now, o);
    var saved := Save(w.Log(Anchored(e, m)), w.pending.WithAnchor(m, v, now), o);
    LogTally(h, saved, saved.Down(m).Log(NotStored(e, m)), NotStored(e, m));
  }

  lemma AcquireTally(cfg: Config, h: History, w: Work, m: Method, now: nat, env: SettleEnv)
    requires Tally(h, w) && EpochMethod(w.pending.epochId, m) !in w.served
    ensures Tally(h, Acquire(cfg, w, m, now, env).work)
  {
    var e := w.pending.epochId;
    if CallsProvider(cfg, w, m, env) {
      CallTally(h, w, m, env.call.value, now, StoreOutcome(env));
    } else {
      LogTally(h, w, w.Down(m).Log(CallFailedAt(e, m)), CallFailedAt(e, m));
    }
  }

  lemma MissingTally(cfg: Config, h: History, w: Work, m: Method, now: nat, env: SettleEnv)
    requires Tally(h, w)
    ensures Tally(h, SettleMissing(cfg, w, m, now, env))
  {
    if w.pending.Anchor(m).Some? {
      var a := w.pending.Anchor(m).value;
      var p := w.pending.WithFirstSeen(m, now);
      var first := if a.firstSeen.Some? then a.firstSeen.value else now;
      forall k
        ensures SlotSpent(SlotOf(p, k)) == SlotSpent(SlotOf(w.pending, k))
      {
        assert p.Anchor(k) == Stamped(w.pending.Anchor(k), k == m, now) && p.FaultCount(k) == w.pending.FaultCount(k);
      }
      SaveTally(h, w, p, env.note);
      var stamped := w.(pending := p);
      SaveTally(h, w, p, WriteOutcome.Refused);
      assert Tally(h, stamped);
      var e := Abandoned(w.pending.epochId, m, a.value, first, now);
      LogTally(h, stamped, stamped.Log(e), e);
      assert p.Anchor(m).Some?;
      DiscardTally(h, stamped.Log(e), m, env.note);
    }
  }

  lemma ServeTally(cfg: Config, h: History, w: Work, m: Method, ws: seq<MintedWitness>, env: SettleEnv)
    requires Tally(h, w)
    requires Current(cfg.maxFaults, h, w.disk.pendingAnchors, w.pending) && m in w.pending.methods
    requires Synced(w.disk.pendingAnchors, w.pending, m) && w.pending.Anchor(m).Some?
    requires EpochMethod(w.pending.epochId, m) !in w.served
    ensures Tally(h, ServeSet(w, m, ws, env))
  {
    var w' := ServeSet(w, m, ws, env);
    var x := ServedAt(w.pending.epochId, m);
    if Lands(env.serve) {
      ServeFields(cfg, h, w, m, ws, env);
      forall e, k | e in h && k in h[e].methods
        ensures SpentNow(w', e, k) == SpentNow(w, e, k)
      {
        ServeSpent(w, w', m, Serve(Some(w.disk.pendingAnchors[w.pending.epochId]), ws, env.mint, env.check), e, k);
      }
      TallyKept(h, w, w');
    } else {
      TallyKept(h, w, w');
    }
  }

  /** A served anchor is accounted for by the set instead of the record. */
  lemma ServeSpent(w: Work, w': Work, m: Method, s: Serve, e: nat, k: Method)
    requires Synced(w.disk.pendingAnchors, w.pending, m) && w.pending.Anchor(m).Some?
    requires w'.pending == w.pending || w'.pending == w.pending.Without(m)
    requires w'.disk.pendingAnchors == AnchorsWithout(w.disk.pendingAnchors, w.pending, m)
    requires s.record == Some(w.disk.pendingAnchors[w.pending.epochId])
    requires EpochMethod(w.pending.epochId, m) !in w.served
    requires w'.served == w.served[EpochMethod(w.pending.epochId, m) := s]
    ensures SpentNow(w', e, k) == SpentNow(w, e, k)
  {
  }

  lemma FaultTally(h: History, w: Work, m: Method, e: Event, o: WriteOutcome)
    requires Tally(h, w) && w.pending.Anchor(m).Some? && e.AtFault?
    ensures Tally(h, Discard(w.Down(m).Log(e), m, o))
  {
  }

  lemma JudgeTally(cfg: Config, h: History, w: Work, m: Method, v: TimestampValue, now: nat, env: SettleEnv,
                   rest: set<Method>)
    requires Tally(h, w) && Settling(cfg, h, w, rest + {m})
    requires w.pending.Anchor(m).Some? && w.pending.Anchor(m).value.value == v
    ensures Tally(h, Judge(cfg, w, m, v, now, env))
  {
    assert m in rest + {m};
    PendingIsUnserved(cfg, h, w, m, rest);
    match Decide(w.pending, m, v, cfg.serviceDid, env.mint, env.check)
    case Keep =>
    case Serving(ws) => ServeTally(cfg, h, w, m, ws, env);
    case NotFoundYet => MissingTally(cfg, h, w, m, now, env);
    case FaultyAnchor => FaultTally(h, w, m, AtFault(w.pending.epochId, m, v), env.note);
  }

  lemma CrashTally(h: History, w: Work, crashed: bool)
    requires Tally(h, w)
    ensures Tally(h, w.(crashed := crashed))
  {
  }

  /** The same on a stale copy, when the store is left as it is. */
  lemma LagJudgeTally(cfg: Config, h: History, w: Work, m: Method, v: TimestampValue, now: nat, env: SettleEnv,
                      rest: set<Method>)
    requires Tally(h, w) && Lagging(cfg, h, w, rest + {m}) && m !in rest
    requires w.pending.Anchor(m).Some? && Judge(cfg, w, m, v, now, env).disk == w.disk
    ensures Tally(h, Judge(cfg, w, m, v, now, env))
  {
    match Decide(w.pending, m, v, cfg.serviceDid, env.mint, env.check)
    case Keep =>
    case Serving(ws) =>
      LagServes(cfg, h, w, m, ws, env, rest);
      CrashTally(h, w, ServeSet(w, m, ws, env).crashed);
    case NotFoundYet => MissingTally(cfg, h, w, m, now, env);
    case FaultyAnchor => FaultTally(h, w, m, AtFault(w.pending.epochId, m, v), env.note);
  }

  /** Settling one method keeps the books, also on a stale copy as long as the store is left as it is. */
  lemma SettleTally(cfg: Config, h: History, w: Work, m: Method, now: nat, env: SettleEnv, rest: set<Method>)
    requires Tally(h, w) && Settles(cfg, h, w, rest + {m}) && m !in rest
    requires Stale(w) ==> SettleMethod(cfg, w, m, now, env).disk == w.disk
    ensures Tally(h, SettleMethod(cfg, w, m, now, env))
  {
    if m in cfg.methods {
      PendingIsUnserved(cfg, h, w, m, rest);
      AcquireTally(cfg, h, w, m, now, env);
      AcquireShape(cfg, w, m, now, env);
      var a := Acquire(cfg, w, m, now, env);
      if a.Holds? && Settling(cfg, h, w, rest + {m}) {
        AcquireSettles(cfg, h, w, m, now, env, rest);
        JudgeTally(cfg, h, a.work, m, a.value, now, env, rest);
      } else if a.Holds? {
        LagHolds(cfg, h, w, m, now, env, rest);
        LagJudgeTally(cfg, h, a.work, m, a.value, now, env, rest);
      }
    }
  }

  lemma PendingIsUnserved(cfg: Config, h: History, w: Work, m: Method, rest: set<Method>)
    requires Settles(cfg, h, w, rest + {m})
    ensures EpochMethod(w.pending.epochId, m) !in w.served
  {
    assert m in rest + {m};
    if Settling(cfg, h, w, rest + {m}) {
      InStepIsUnserved(cfg, h, w, rest + {m}, m);
    }
  }

  lemma {:induction false} SettleMethodsTally(cfg: Config, h: History, w: Work, ms: seq<Method>, now: nat,
                                              envs: SettleEnvs)
    requires Tally(h, w) && Settles(cfg, h, w, Elems(ms)) && NoDup(ms) && NoStaleWrite(cfg, w, ms, now, envs)
    ensures Tally(h, SettleMethods(cfg, w, ms, now, envs))
    decreases |ms|
  {
    if ms != [] && !w.crashed {
      var env := envs(w.pending.epochId, ms[0]);
      HarmlessStep(cfg, h, w, ms, now, envs);
      SettleTally(cfg, h, w, ms[0], now, env, Elems(ms[1..]));
      SettleMethodsTally(cfg, h, SettleMethod(cfg, w, ms[0], now, env), ms[1..], now, envs);
    }
  }

  // ---- Dropping the volatile copy ----

  lemma NoteLostTally(w: Work, m: Method)
    ensures
      var w' := NoteLost(w, m);
      && SameState(w, w')
      && (forall e, k :: Calls(w'.log, e, k) == Calls(w.log, e, k))
      && (forall e, k ::
            Losses(w'.log, e, k) ==
            Losses(w.log, e, k) + if Unsaved(w, m) && e == w.pending.epochId && k == m then 1 else 0)
  {
  }

  lemma DropCounts(w: Work, e: nat, k: Method)
    ensures Calls(DropVolatile(w).log, e, k) == Calls(w.log, e, k)
    ensures Losses(DropVolatile(w).log, e, k) ==
      Losses(w.log, e, k) + if Unsaved(w, k) && e == w.pending.epochId then 1 else 0
  {
    NoteLostTally(w, Evm);
    NoteLostTally(NoteLost(w, Evm), Qtsa);
    assert Unsaved(NoteLost(w, Evm), Qtsa) <==> Unsaved(w, Qtsa);
  }

  /** What the volatile copy accounts for, the store does, but for an anchor held only there. */
  lemma SpentAfterDrop(cap: nat, h: History, w: Work, e: nat, k: Method)
    requires Copy(cap, h, w.disk.pendingAnchors, w.pending, {}) && PhaseInv(h, w.served, w.disk.pendingAnchors)
    requires PendingInv(cap, h, w.disk.pendingAnchors)
    requires e in h && k in h[e].methods
    ensures SpentNow(w, e, k) ==
      Spent(w.served, w.disk.pendingAnchors, e, k) + if Unsaved(w, k) && e == w.pending.epochId then 1 else 0
  {
  }

  /** The same for a copy that lists a served method. */
  lemma SpentAfterLag(cfg: Config, h: History, w: Work, e: nat, k: Method)
    requires Lagging(cfg, h, w, {}) && PhaseInv(h, w.served, w.disk.pendingAnchors)
    requires e in h && k in h[e].methods
    ensures SpentNow(w, e, k) ==
      Spent(w.served, w.disk.pendingAnchors, e, k) + if Unsaved(w, k) && e == w.pending.epochId then 1 else 0
  {
    if EpochMethod(e, k) !in w.served && e == w.pending.epochId {
      assert Pends(w.disk.pendingAnchors, e, k) && !StaleAt(w, k);
      assert AheadOf(w.disk.pendingAnchors, w.pending, k);
    }
  }

  // ---- An epoch, the backlog, a tick, a run ----

  lemma EpochTally(cfg: Config, h: History, w: Work, p: PendingRecord, now: nat, envs: SettleEnvs)
    requires DiskInv(cfg, h, w.served, w.disk) && EpochHarmless(cfg, w, p, now, envs)
    requires p.epochId in w.disk.pendingAnchors && w.disk.pendingAnchors[p.epochId] == p
    requires AccountInv(h, w.log, w.served, w.disk.pendingAnchors)
    ensures
      var w' := SettleEpoch(cfg, w, p, now, envs);
      AccountInv(h, w'.log, w'.served, w'.disk.pendingAnchors)
  {
    var begun := w.(pending := p);
    EpochBegins(cfg, h, w, p);
    TallyBegins(h, w, p);
    SettleMethodsExactly(cfg, h, begun, p.methods, now, envs);
    SettleMethodsTally(cfg, h, begun, p.methods, now, envs);
    DropTally(cfg, h, SettleMethods(cfg, begun, p.methods, now, envs));
  }

  lemma TallyBegins(h: History, w: Work, p: PendingRecord)
    requires p.epochId in w.disk.pendingAnchors && w.disk.pendingAnchors[p.epochId] == p
    requires AccountInv(h, w.log, w.served, w.disk.pendingAnchors)
    ensures Tally(h, w.(pending := p))
  {
  }

  lemma DropTally(cfg: Config, h: History, w: Work)
    requires Settles(cfg, h, w, {}) && Tally(h, w)
    ensures
      var w' := DropVolatile(w);
      AccountInv(h, w'.log, w'.served, w'.disk.pendingAnchors)
  {
    Parts(cfg, h, w.served, w.disk);
    DropIsSameState(w);
    forall e, m | e in h && m in h[e].methods
      ensures Balanced(DropVolatile(w).log, e, m, Spent(w.served, w.disk.pendingAnchors, e, m))
    {
      assert Balanced(w.log, e, m, SpentNow(w, e, m));
      if Settling(cfg, h, w, {}) {
        SpentAfterDrop(cfg.maxFaults, h, w, e, m);
      } else {
        SpentAfterLag(cfg, h, w, e, m);
      }
      DropCounts(w, e, m);
    }
  }

  lemma {:induction false} RetryTally(cfg: Config, h: History, w: Work, ps: seq<PendingRecord>, now: nat,
                                      envs: SettleEnvs)
    requires DiskInv(cfg, h, w.served, w.disk) && Backlogged(w.disk.pendingAnchors, ps)
    requires BacklogHarmless(cfg, w, ps, now, envs)
    requires AccountInv(h, w.log, w.served, w.disk.pendingAnchors)
    ensures
      var w' := Retry(cfg, w, ps, now, envs);
      AccountInv(h, w'.log, w'.served, w'.disk.pendingAnchors)
    decreases |ps|
  {
    if ps != [] && !w.crashed {
      EpochSettles(cfg, h, w, ps[0], now, envs);
      EpochTally(cfg, h, w, ps[0], now, envs);
      var w1 := SettleEpoch(cfg, w, ps[0], now, envs);
      BacklogRest(w.disk, w1.disk, ps);
      RetryTally(cfg, h, w1, ps[1..], now, envs);
    }
  }

  ghost predicate Accounted(w: World) {
    AccountInv(w.sealed, w.log, w.served, w.disk.pendingAnchors)
  }

  lemma UnloggedBalances(w: World, e: nat, m: Method)
    requires IdsFresh(w) && e !in w.sealed
    ensures Calls(w.log, e, m) == 0 && Losses(w.log, e, m) == 0
  {
    CountAbsent(w.log, Anchored(e, m));
    CountAbsent(w.log, Lost(e, m));
  }

  /** What the seal of `e` leaves to account for: nothing for `e`, the same for the others. */
  lemma SealSpends(served: Ledger, d: Disk, r: EpochRecord, se: SealedEpoch, e: nat, m: Method)
    requires forall k :: k in served ==> k.epoch != r.id
    requires m in se.methods || e != r.id
    ensures Spent(served, AfterSeal(d, r, se).pendingAnchors, e, m) ==
      if e == r.id then 0 else Spent(served, d.pendingAnchors, e, m)
  {
  }

  /** A new epoch starts with nothing spent and nothing logged. */
  lemma SealAccounts(cfg: Config, w: World, s: SealedSnapshot, se: SealedEpoch)
    requires Accounted(w) && Good(cfg, w) && IdsFresh(w) && s.epochId !in w.sealed
    ensures Accounted(SealedWorld(w, s, se))
  {
    Parts(cfg, w.sealed, w.served, w.disk);
    SealBalances(w, s, se);
  }

  lemma SealBalances(w: World, s: SealedSnapshot, se: SealedEpoch)
    requires Accounted(w) && IdsFresh(w) && s.epochId !in w.sealed
    requires forall k :: k in w.served ==> k.epoch in w.sealed
    ensures Accounted(SealedWorld(w, s, se))
  {
    var w2 := SealedWorld(w, s, se);
    forall e, m | e in w2.sealed && m in w2.sealed[e].methods
      ensures Balanced(w2.log, e, m, Spent(w2.served, w2.disk.pendingAnchors, e, m))
    {
      SealSpends(w.served, w.disk, RecordFor(s, se), se, e, m);
      if e == s.epochId {
        UnloggedBalances(w, e, m);
      } else {
        assert Balanced(w.log, e, m, Spent(w.served, w.disk.pendingAnchors, e, m));
      }
    }
  }

  lemma RetryAccounts(cfg: Config, w: World, env: TickEnv)
    requires WorldInv(cfg, w) && Accounted(w) && RetryHarmless(cfg, w, env)
    ensures Accounted(WithWork(w, RetryPhase(cfg, w, env)))
  {
    if env.context && env.listed {
      BacklogOf(cfg, w);
      RetryTally(cfg, w.sealed, WorkOf(w, {}), PendingEpochs(w.disk), env.now, env.settle);
    }
  }

  lemma LandingAccounts(cfg: Config, w: World, s: SealedSnapshot, se: SealedEpoch, down: set<Method>, env: TickEnv)
    requires WorldInv(cfg, SealedWorld(w, s, se)) && Accounted(SealedWorld(w, s, se))
    requires LandingHarmless(cfg, w, s, se, down, env)
    ensures Accounted(AfterLanding(cfg, w, s, se, down, env))
  {
    var w2 := SealedWorld(w, s, se);
    var p := PendingFor(s.epochId, s.openedAt, s.closedAt, se);
    if env.persist == Written && p.Some? {
      SealedIsPending(w, s, se);
      EpochTally(cfg, w2.sealed, WorkOf(w2, down), p.value, env.now, env.settle);
    }
  }

  lemma CloseLandsAccounts(cfg: Config, w: World, down: set<Method>, env: TickEnv)
    requires WorldInv(cfg, w) && Accounted(w) && NoDup(cfg.methods) && Admissible(w, Tick(env))
    requires Closed(cfg, w.open.leaves, env).Some? && CloseHarmless(cfg, w, down, env)
    ensures
      var s := Swapped(w.open, env.now, env.now, env.duration).0;
      Accounted(AfterLanding(cfg, SwapPhase(w, env), s, Closed(cfg, s.leaves, env).value, down, env))
  {
    var s := Swapped(w.open, env.now, env.now, env.duration).0;
    var w1 := SwapPhase(w, env);
    SwapKeeps(w, env);
    CloseSeals(cfg, w, env);
    SealAccounts(cfg, w1, s, Closed(cfg, s.leaves, env).value);
    LandingAccounts(cfg, w1, s, Closed(cfg, s.leaves, env).value, down, env);
  }

  lemma CloseAccounts(cfg: Config, w: World, down: set<Method>, env: TickEnv)
    requires WorldInv(cfg, w) && Accounted(w) && NoDup(cfg.methods) && Admissible(w, Tick(env))
    requires CloseHarmless(cfg, w, down, env)
    ensures Accounted(ClosePhase(cfg, w, down, env))
  {
    if Closed(cfg, w.open.leaves, env).Some? && Lands(env.persist) {
      CloseLandsAccounts(cfg, w, down, env);
    } else {
      UnsealedTickKeepsStore(cfg, w, down, env);
    }
  }

  lemma StepAccounts(cfg: Config, w: World, a: Action)
    requires WorldInv(cfg, w) && Accounted(w) && NoDup(cfg.methods) && Safe(cfg, w, a)
    ensures Accounted(Step(cfg, w, a))
  {
    if a.Tick? && !(a.env.context && Validate(cfg).Some?) {
      var work, w1 := RetryPhase(cfg, w, a.env), BeforeClose(cfg, w, a.env);
      RetryAccounts(cfg, w, a.env);
      BeforeCloseKeeps(cfg, w, a.env);
      BeforeCloseCore(cfg, w, a.env);
      if !work.crashed {
        CloseAccounts(cfg, w1, work.down, a.env);
      }
    }
  }

  lemma {:induction false} EveryRunBalances(cfg: Config, now: nat, duration: nat, actions: seq<Action>)
    requires NoDup(cfg.methods) && SafeRun(cfg, System.Fresh(now, duration), actions)
    ensures Accounted(Run(cfg, System.Fresh(now, duration), actions))
  {
    if actions != [] {
      var n := |actions| - 1;
      EveryRunBalances(cfg, now, duration, actions[..n]);
      EveryRunKeepsTheInvariant(cfg, now, duration, actions[..n]);
      StepAccounts(cfg, Run(cfg, System.Fresh(now, duration), actions[..n]), actions[n]);
    }
  }

  /** No record accounts for more anchors than the cap. */
  lemma SpentAtMostCap(cfg: Config, w: World, e: nat, m: Method)
    requires DiskInv(cfg, w.sealed, w.served, w.disk) && e in w.sealed
    ensures Spent(w.served, w.disk.pendingAnchors, e, m) <= cfg.maxFaults
  {
    Parts(cfg, w.sealed, w.served, w.disk);
    var k := EpochMethod(e, m);
    if k in w.served {
      assert ServeOk(cfg, k, w.sealed[e], w.served[k]);
      assert SlotOk(cfg.maxFaults, w.served[k].record.value, m);
    } else if e in w.disk.pendingAnchors {
      assert SlotOk(cfg.maxFaults, w.disk.pendingAnchors[e], m);
    }
  }

  // ---- What a loss comes from ----

  /** A call returned an anchor and neither of its saves landed. */
  ghost predicate Unstored(env: SettleEnv) {
    env.call.Returned? && !Lands(StoreOutcome(env))
  }

  lemma AcquireUnsaved(cfg: Config, w: Work, m: Method, now: nat, env: SettleEnv, k: Method)
    requires Unsaved(Acquire(cfg, w, m, now, env).work, k)
    ensures Unsaved(w, k) || (k == m && Unstored(env))
  {
    AcquireShape(cfg, w, m, now, env);
    if CallsProvider(cfg, w, m, env) {
      assert k != m ==> w.pending.WithAnchor(m, env.call.value, now).Anchor(k) == w.pending.Anchor(k);
    }
  }

  lemma DiscardUnsaved(w: Work, m: Method, o: WriteOutcome, k: Method)
    requires Unsaved(Discard(w, m, o), k)
    ensures Unsaved(w, k)
  {
    var q := w.pending.WithFault(m);
    assert q.Anchor(k) == w.pending.Anchor(k);
    assert q.WithoutAnchor(m).Anchor(k) == if k == m then None else q.Anchor(k);
  }

  lemma MissingUnsaved(cfg: Config, w: Work, m: Method, now: nat, env: SettleEnv, k: Method)
    requires Unsaved(SettleMissing(cfg, w, m, now, env), k)
    ensures Unsaved(w, k)
  {
    if w.pending.Anchor(m).Some? {
      var a := w.pending.Anchor(m).value;
      var first := if a.firstSeen.Some? then a.firstSeen.value else now;
      var stamped := w.(pending := w.pending.WithFirstSeen(m, now));
      assert stamped.pending.Anchor(k) == Stamped(w.pending.Anchor(k), k == m, now);
      if SatSub(now, first) >= cfg.notFoundTimeout {
        DiscardUnsaved(stamped.Log(Abandoned(w.pending.epochId, m, a.value, first, now)), m, env.note, k);
      }
    }
  }

  lemma ServeUnsaved(w: Work, m: Method, ws: seq<MintedWitness>, env: SettleEnv, k: Method)
    requires Unsaved(ServeSet(w, m, ws, env), k)
    ensures Unsaved(w, k)
  {
    if k != m {
      OthersKeptByServe(w.pending, m, k);
      assert k in w.pending.methods ==> k in w.pending.Without(m).methods;
    }
  }

  lemma JudgeUnsaved(cfg: Config, w: Work, m: Method, v: TimestampValue, now: nat, env: SettleEnv, k: Method)
    requires Unsaved(Judge(cfg, w, m, v, now, env), k)
    ensures Unsaved(w, k)
  {
    match Decide(w.pending, m, v, cfg.serviceDid, env.mint, env.check)
    case Keep =>
    case Serving(ws) => ServeUnsaved(w, m, ws, env, k);
    case NotFoundYet => MissingUnsaved(cfg, w, m, now, env, k);
    case FaultyAnchor => DiscardUnsaved(w.Down(m).Log(AtFault(w.pending.epochId, m, v)), m, env.note, k);
  }

  /** An anchor comes to be held by the copy alone only by a call neither of whose saves landed. */
  lemma SettleUnsaved(cfg: Config, w: Work, m: Method, now: nat, env: SettleEnv, k: Method)
    requires Unsaved(SettleMethod(cfg, w, m, now, env), k)
    ensures Unsaved(w, k) || (k == m && Unstored(env))
  {
    if m in cfg.methods {
      var a := Acquire(cfg, w, m, now, env);
      if a.Holds? {
        JudgeUnsaved(cfg, a.work, m, a.value, now, env, k);
      }
      AcquireUnsaved(cfg, w, m, now, env, k);
    }
  }

  lemma {:induction false} MethodsUnsaved(cfg: Config, w: Work, ms: seq<Method>, now: nat, envs: SettleEnvs, k: Method)
    requires Unsaved(SettleMethods(cfg, w, ms, now, envs), k)
    ensures Unsaved(w, k) || Unstored(envs(w.pending.epochId, k))
    decreases |ms|
  {
    if ms != [] && !w.crashed {
      var env := envs(w.pending.epochId, ms[0]);
      MethodsUnsaved(cfg, SettleMethod(cfg, w, ms[0], now, env), ms[1..], now, envs, k);
      SettleMoves(cfg, w, ms[0], now, env);
      if Unsaved(SettleMethod(cfg, w, ms[0], now, env), k) {
        SettleUnsaved(cfg, w, ms[0], now, env, k);
      }
    }
  }

  /** `w'` logs what `w` does and at most one event more, which is no loss. */
  ghost predicate LogsOne(w: Work, w': Work) {
    w'.log == w.log || (|w'.log| == |w.log| + 1 && w'.log[..|w.log|] == w.log && !w'.log[|w.log|].Lost?)
  }

  lemma LogsOneLosesNone(w: Work, w': Work, e: nat, k: Method)
    requires LogsOne(w, w')
    ensures Losses(w'.log, e, k) == Losses(w.log, e, k)
  {
  }

  lemma MissingLogsOne(cfg: Config, w: Work, m: Method, now: nat, env: SettleEnv)
    ensures LogsOne(w, SettleMissing(cfg, w, m, now, env))
  {
  }

  lemma JudgeLogsOne(cfg: Config, w: Work, m: Method, v: TimestampValue, now: nat, env: SettleEnv)
    ensures LogsOne(w, Judge(cfg, w, m, v, now, env))
  {
    match Decide(w.pending, m, v, cfg.serviceDid, env.mint, env.check)
    case Keep =>
    case Serving(ws) =>
    case NotFoundYet => MissingLogsOne(cfg, w, m, now, env);
    case FaultyAnchor =>
  }

  lemma AcquireNoLoss(cfg: Config, w: Work, m: Method, now: nat, env: SettleEnv, e: nat, k: Method)
    ensures Losses(Acquire(cfg, w, m, now, env).work.log, e, k) == Losses(w.log, e, k)
  {
    var called := w.Log(Anchored(w.pending.epochId, m));
    LogsOneLosesNone(w, called, e, k);
    if CallsProvider(cfg, w, m, env) {
      LogsOneLosesNone(called, Acquire(cfg, w, m, now, env).work, e, k);
    } else {
      LogsOneLosesNone(w, Acquire(cfg, w, m, now, env).work, e, k);
    }
  }

  /** A settle itself loses nothing: a call, and what became of its anchor. */
  lemma SettleNoLoss(cfg: Config, w: Work, m: Method, now: nat, env: SettleEnv, e: nat, k: Method)
    ensures Losses(SettleMethod(cfg, w, m, now, env).log, e, k) == Losses(w.log, e, k)
  {
    if m in cfg.methods {
      var a := Acquire(cfg, w, m, now, env);
      AcquireNoLoss(cfg, w, m, now, env, e, k);
      if a.Holds? {
        JudgeLogsOne(cfg, a.work, m, a.value, now, env);
        LogsOneLosesNone(a.work, Judge(cfg, a.work, m, a.value, now, env), e, k);
      }
    }
  }

  lemma {:induction false} MethodsNoLoss(cfg: Config, w: Work, ms: seq<Method>, now: nat, envs: SettleEnvs, e: nat,
                                         k: Method)
    ensures Losses(SettleMethods(cfg, w, ms, now, envs).log, e, k) == Losses(w.log, e, k)
    decreases |ms|
  {
    if ms != [] && !w.crashed {
      var env := envs(w.pending.epochId, ms[0]);
      SettleNoLoss(cfg, w, ms[0], now, env, e, k);
      MethodsNoLoss(cfg, SettleMethod(cfg, w, ms[0], now, env), ms[1..], now, envs, e, k);
    }
  }

  /** Settling an epoch loses an anchor of it only after a call neither of whose saves landed. */
  lemma EpochLosses(cfg: Config, w: Work, p: PendingRecord, now: nat, envs: SettleEnvs, e: nat, k: Method)
    requires p.epochId in w.disk.pendingAnchors && w.disk.pendingAnchors[p.epochId] == p
    ensures Losses(SettleEpoch(cfg, w, p, now, envs).log, e, k) <=
      Losses(w.log, e, k) + if e == p.epochId && Unstored(envs(e, k)) then 1 else 0
  {
    var begun := w.(pending := p);
    var settled := SettleMethods(cfg, begun, p.methods, now, envs);
    MethodsNoLoss(cfg, begun, p.methods, now, envs, e, k);
    SettleMethodsMoves(cfg, begun, p.methods, now, envs);
    DropCounts(settled, e, k);
    if Unsaved(settled, k) {
      MethodsUnsaved(cfg, begun, p.methods, now, envs, k);
    }
  }

  lemma {:induction false} RetryLosses(cfg: Config, w: Work, ps: seq<PendingRecord>, now: nat, envs: SettleEnvs, e: nat,
                                       k: Method)
    requires Backlogged(w.disk.pendingAnchors, ps)
    ensures
      var here := exists i :: 0 <= i < |ps| && ps[i].epochId == e;
      Losses(Retry(cfg, w, ps, now, envs).log, e, k) <=
        Losses(w.log, e, k) + if here && Unstored(envs(e, k)) then 1 else 0
    decreases |ps|
  {
    if ps != [] && !w.crashed {
      var w1 := SettleEpoch(cfg, w, ps[0], now, envs);
      EpochLosses(cfg, w, ps[0], now, envs, e, k);
      SettleMethodsMoves(cfg, w.(pending := ps[0]), ps[0].methods, now, envs);
      DropIsSameState(SettleMethods(cfg, w.(pending := ps[0]), ps[0].methods, now, envs));
      BacklogRest(w.disk, w1.disk, ps);
      RetryLosses(cfg, w1, ps[1..], now, envs, e, k);
      assert forall i :: 1 <= i < |ps| ==> ps[1..][i - 1] == ps[i];
    }
  }

  lemma RetryPhaseLosses(cfg: Config, w: World, env: TickEnv, e: nat, k: Method)
    requires CoreInv(w)
    ensures Losses(RetryPhase(cfg, w, env).log, e, k) <=
      Losses(w.log, e, k) + if e in w.sealed && Unstored(env.settle(e, k)) then 1 else 0
  {
    CoreParts(w);
    if env.context && env.listed {
      PendingEpochsAreBacklog(w.disk);
      RetryLosses(cfg, WorkOf(w, {}), PendingEpochs(w.disk), env.now, env.settle, e, k);
    }
  }

  lemma CloseLosses(cfg: Config, w: World, down: set<Method>, env: TickEnv, e: nat, k: Method)
    ensures Losses(ClosePhase(cfg, w, down, env).log, e, k) <=
      Losses(w.log, e, k) + if e == w.open.epochId && Unstored(env.settle(e, k)) then 1 else 0
  {
    if Closed(cfg, w.open.leaves, env).Some? && Lands(env.persist) {
      var s := Swapped(w.open, env.now, env.now, env.duration).0;
      LandingLosses(cfg, SwapPhase(w, env), s, Closed(cfg, s.leaves, env).value, down, env, e, k);
    } else {
      UnsealedTickKeepsStore(cfg, w, down, env);
    }
  }

  lemma LandingLosses(cfg: Config, w: World, s: SealedSnapshot, se: SealedEpoch, down: set<Method>, env: TickEnv,
                      e: nat, k: Method)
    ensures Losses(AfterLanding(cfg, w, s, se, down, env).log, e, k) <=
      Losses(w.log, e, k) + if e == s.epochId && Unstored(env.settle(e, k)) then 1 else 0
  {
    var w2 := SealedWorld(w, s, se);
    var p := PendingFor(s.epochId, s.openedAt, s.closedAt, se);
    if p.Some? {
      SealedIsPending(w, s, se);
      EpochLosses(cfg, WorkOf(w2, down), p.value, env.now, env.settle, e, k);
    }
  }

  /** A tick loses at most one anchor of an (epoch, method), and only after a call neither of whose saves landed. */
  lemma StepLosses(cfg: Config, w: World, a: Action, e: nat, k: Method)
    requires CoreInv(w)
    ensures Losses(Step(cfg, w, a).log, e, k) <=
      Losses(w.log, e, k) + if a.Tick? && Unstored(a.env.settle(e, k)) then 1 else 0
  {
    if a.Tick? && !(a.env.context && Validate(cfg).Some?) {
      var work, w1 := RetryPhase(cfg, w, a.env), BeforeClose(cfg, w, a.env);
      RetryPhaseLosses(cfg, w, a.env, e, k);
      BeforeCloseCore(cfg, w, a.env);
      CoreParts(w);
      if !work.crashed {
        CloseLosses(cfg, w1, work.down, a.env, e, k);
      }
    }
  }

  /** The ticks of a run in which a call returns an anchor and neither of its saves lands. */
  ghost function UnstoredTicks(actions: seq<Action>, e: nat, m: Method): nat {
    if actions == [] then 0 else
      var n := |actions| - 1;
      UnstoredTicks(actions[..n], e, m) +
      if actions[n].Tick? && Unstored(actions[n].env.settle(e, m)) then 1 else 0
  }

  /** Anchors are lost only by calls neither of whose saves landed, whatever else the writes do. */
  lemma {:induction false} LossesAreUnstored(cfg: Config, now: nat, duration: nat, actions: seq<Action>, e: nat,
                                             m: Method)
    requires NoDup(cfg.methods) && AdmissibleRun(cfg, System.Fresh(now, duration), actions)
    ensures Losses(Run(cfg, System.Fresh(now, duration), actions).log, e, m) <= UnstoredTicks(actions, e, m)
  {
    if actions != [] {
      var n := |actions| - 1;
      LossesAreUnstored(cfg, now, duration, actions[..n], e, m);
      EveryRunKeepsTheCore(cfg, now, duration, actions[..n]);
      StepLosses(cfg, Run(cfg, System.Fresh(now, duration), actions[..n]), actions[n], e, m);
    }
  }

  /**
   * Anchor spend is bounded. In every run, the anchors bought for an
   * (epoch, method) are the ones the store accounts for and the ones lost
   * before they became durable; the store accounts for at most the fault cap,
   * and at most one is lost in each tick that refuses both saves or crashes
   * before them.
   */
  lemma AnchorSpendIsBounded(cfg: Config, now: nat, duration: nat, actions: seq<Action>, e: nat, m: Method)
    requires NoDup(cfg.methods) && SafeRun(cfg, System.Fresh(now, duration), actions)
    requires
      var w := Run(cfg, System.Fresh(now, duration), actions);
      e in w.sealed && m in w.sealed[e].methods
    ensures
      var w := Run(cfg, System.Fresh(now, duration), actions);
      && Calls(w.log, e, m) == Spent(w.served, w.disk.pendingAnchors, e, m) + Losses(w.log, e, m)
      && Calls(w.log, e, m) <= cfg.maxFaults + UnstoredTicks(actions, e, m)
  {
    var w := Run(cfg, System.Fresh(now, duration), actions);
    EveryRunKeepsTheInvariant(cfg, now, duration, actions);
    EveryRunBalances(cfg, now, duration, actions);
    SafeIsAdmissible(cfg, System.Fresh(now, duration), actions);
    LossesAreUnstored(cfg, now, duration, actions, e, m);
    assert Balanced(w.log, e, m, Spent(w.served, w.disk.pendingAnchors, e, m));
    SpentAtMostCap(cfg, w, e, m);
  }
}
