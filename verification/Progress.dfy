/**
 * What happens to a pending (epoch, method) over time: a measure that falls at
 * every durable step, and why a durable anchor may leave its record.
 */
module Progress {
  import opened Base
  import opened Accumulation
  import opened Witness
  import opened Storage
  import opened Sealer
  import opened Invariants
  import opened Settle
  import opened Backlog
  import Trace
  import opened System
  import opened Runs

  /** The durable state of an (epoch, method) while it is pending. */
  ghost function DurableSlot(anchors: Anchors, e: nat, m: Method): Option<Slot> {
    if Pends(anchors, e, m) then Some(SlotOf(anchors[e], m)) else None
  }

  /** How many durable steps are left at most. */
  ghost function Measure(cap: nat, s: Option<Slot>): int {
    if s.None? then 0 else 2 * (cap - s.value.faults) - if s.value.held.Some? then 1 else 0
  }

  /** Nothing happened, or the measure fell. */
  ghost predicate Falls(cap: nat, s: Option<Slot>, s': Option<Slot>) {
    s' == s || Measure(cap, s') < Measure(cap, s)
  }

  /** An event that lets `m`'s anchor `a` leave the record of epoch `e`. */
  ghost predicate Departure(x: Event, e: nat, m: Method, a: StoredAnchor, timeout: nat) {
    || x == ServedAt(e, m)
    || x == AtFault(e, m, a.value)
    || (x.Abandoned? && x.epoch == e && x.via == m && x.value == a.value
        && a.firstSeen == Some(x.firstSeen) && SatSub(x.now, x.firstSeen) >= timeout)
  }

  ghost predicate Departed(log: seq<Event>, start: nat, e: nat, m: Method, a: StoredAnchor, timeout: nat) {
    exists i :: start <= i < |log| && Departure(log[i], e, m, a, timeout)
  }

  /** An anchor held in `s` is still held in `s'`, or an event since `start` let it go. */
  ghost predicate Explained(cfg: Config, s: Option<Slot>, s': Option<Slot>, log: seq<Event>, start: nat, e: nat,
                            m: Method) {
    s.Some? && s.value.held.Some? ==>
      || (s'.Some? && s'.value.held == s.value.held)
      || Departed(log, start, e, m, s.value.held.value, cfg.notFoundTimeout)
  }

  ghost predicate Follows(cfg: Config, s: Option<Slot>, s': Option<Slot>, log: seq<Event>, start: nat, e: nat,
                          m: Method) {
    Falls(cfg.maxFaults, s, s') && Explained(cfg, s, s', log, start, e, m)
  }

  /** A point of a run to compare with: the pending records, the log, the epochs sealed. */
  datatype Origin = Origin(anchors: Anchors, log: seq<Event>, ids: set<nat>)

  /** Every pending (epoch, method) of the origin follows from what it was. */
  ghost predicate Since(cfg: Config, o: Origin, anchors: Anchors, log: seq<Event>) {
    && o.log <= log
    && (forall e, m :: e in o.ids ==>
         Follows(cfg, DurableSlot(o.anchors, e, m), DurableSlot(anchors, e, m), log, |o.log|, e, m))
  }

  /** The volatile copy explains every anchor it no longer holds. */
  ghost predicate CopySince(cfg: Config, o: Origin, p: PendingRecord, log: seq<Event>) {
    forall m :: p.epochId in o.ids && m in p.methods ==>
      Explained(cfg, DurableSlot(o.anchors, p.epochId, m), Some(SlotOf(p, m)), log, |o.log|, p.epochId, m)
  }

  ghost predicate Tracked(cfg: Config, o: Origin, w: Work) {
    Since(cfg, o, w.disk.pendingAnchors, w.log) && CopySince(cfg, o, w.pending, w.log)
  }

  // ---- Longer logs ----

  lemma ExplainedLater(cfg: Config, s: Option<Slot>, s': Option<Slot>, log: seq<Event>, log': seq<Event>, start: nat,
                       e: nat, m: Method)
    requires Explained(cfg, s, s', log, start, e, m) && log <= log'
    ensures Explained(cfg, s, s', log', start, e, m)
  {
  }

  lemma SinceLater(cfg: Config, o: Origin, anchors: Anchors, log: seq<Event>, log': seq<Event>)
    requires Since(cfg, o, anchors, log) && log <= log'
    ensures Since(cfg, o, anchors, log')
  {
  }

  lemma CopySinceLater(cfg: Config, o: Origin, p: PendingRecord, log: seq<Event>, log': seq<Event>)
    requires CopySince(cfg, o, p, log) && log <= log'
    ensures CopySince(cfg, o, p, log')
  {
  }

  /** Logging, and moving the down set, explain no less. */
  lemma LogTracked(cfg: Config, o: Origin, w: Work, w': Work)
    requires Tracked(cfg, o, w) && w.log <= w'.log && w'.pending == w.pending
    requires w'.disk.pendingAnchors == w.disk.pendingAnchors
    ensures Tracked(cfg, o, w')
  {
  }

  // ---- One save ----

  /** One step ahead of the store is one step down the measure. */
  lemma AheadIsLower(cap: nat, durable: Slot, volatile: Slot)
    requires Ahead(durable, volatile)
    ensures Falls(cap, Some(durable), Some(volatile))
  {
  }

  /** The new record explains `m`, if `m` is one of its pending methods. */
  ghost predicate StepExplained(cfg: Config, o: Origin, p: PendingRecord, log: seq<Event>, m: Method) {
    p.epochId in o.ids ==>
      Explained(cfg, DurableSlot(o.anchors, p.epochId, m), Some(SlotOf(p, m)), log, |o.log|, p.epochId, m)
  }

  lemma StepTracked(cfg: Config, h: History, o: Origin, w: Work, m: Method, p': PendingRecord)
    requires CopySince(cfg, o, w.pending, w.log) && StepExplained(cfg, o, p', w.log, m)
    requires StepOf(cfg.maxFaults, h, w.disk.pendingAnchors, w.pending, m, p')
    ensures CopySince(cfg, o, p', w.log)
  {
  }

  /** A save that lands brings the store to the copy, at most a step down. */
  lemma SavedSince(cfg: Config, h: History, o: Origin, anchors: Anchors, p: PendingRecord, log: seq<Event>)
    requires Since(cfg, o, anchors, log) && CopySince(cfg, o, p, log)
    requires p.epochId in anchors && anchors[p.epochId].methods == p.methods
    requires forall k :: k in p.methods ==> AheadOf(anchors, p, k)
    ensures Since(cfg, o, anchors[p.epochId := p], log)
  {
  }

  lemma SaveTracked(cfg: Config, h: History, o: Origin, w: Work, m: Method, p': PendingRecord, out: WriteOutcome,
                    rest: set<Method>)
    requires Tracked(cfg, o, w) && Settling(cfg, h, w, rest + {m})
    requires StepOf(cfg.maxFaults, h, w.disk.pendingAnchors, w.pending, m, p') && StepExplained(cfg, o, p', w.log, m)
    ensures Tracked(cfg, o, Save(w, p', out))
  {
    assert m in rest + {m} && m in w.pending.methods;
    StepTracked(cfg, h, o, w, m, p');
    if Lands(out) {
      forall k | k in p'.methods
        ensures AheadOf(w.disk.pendingAnchors, p', k)
      {
        if k != m {
          assert AheadOf(w.disk.pendingAnchors, w.pending, k) && SlotOf(p', k) == SlotOf(w.pending, k);
        }
      }
      SavedSince(cfg, h, o, w.disk.pendingAnchors, p', w.log);
    }
  }

  // ---- One settle ----

  lemma AcquireTracked(cfg: Config, h: History, o: Origin, w: Work, m: Method, now: nat, env: SettleEnv,
                       rest: set<Method>)
    requires Tracked(cfg, o, w) && Settling(cfg, h, w, rest + {m})
    ensures Tracked(cfg, o, Acquire(cfg, w, m, now, env).work)
  {
    var e := w.pending.epochId;
    if CallsProvider(cfg, w, m, env) {
      var v, logged := env.call.value, w.Log(Anchored(e, m));
      assert m in rest + {m};
      LogTracked(cfg, o, w, logged);
      NewAnchorIsStep(cfg.maxFaults, h, w.disk.pendingAnchors, w.pending, m, v, now);
      NewAnchorExplained(cfg, o, logged, m, v, now);
      SaveTracked(cfg, h, o, logged, m, w.pending.WithAnchor(m, v, now), StoreOutcome(env), rest);
      var saved := Save(logged, w.pending.WithAnchor(m, v, now), StoreOutcome(env));
      LogTracked(cfg, o, saved, saved.Down(m).Log(NotStored(e, m)));
    } else {
      LogTracked(cfg, o, w, Acquire(cfg, w, m, now, env).work);
    }
  }

  /** With no anchor before the call, whatever the origin held is already explained. */
  lemma NewAnchorExplained(cfg: Config, o: Origin, w: Work, m: Method, v: TimestampValue, now: nat)
    requires CopySince(cfg, o, w.pending, w.log) && m in w.pending.methods && w.pending.Anchor(m).None?
    ensures StepExplained(cfg, o, w.pending.WithAnchor(m, v, now), w.log, m)
  {
  }

  /** Logging a departure of the held anchor explains it. */
  lemma DepartureExplains(cfg: Config, o: Origin, w: Work, m: Method, x: Event)
    requires CopySince(cfg, o, w.pending, w.log) && o.log <= w.log
    requires m in w.pending.methods && w.pending.Anchor(m).Some?
    requires Departure(x, w.pending.epochId, m, w.pending.Anchor(m).value, cfg.notFoundTimeout)
    ensures w.pending.epochId in o.ids ==> forall s' ::
      Explained(cfg, DurableSlot(o.anchors, w.pending.epochId, m), s', w.log + [x], |o.log|, w.pending.epochId, m)
  {
    var e, a := w.pending.epochId, w.pending.Anchor(m).value;
    if e in o.ids {
      var s := DurableSlot(o.anchors, e, m);
      assert Explained(cfg, s, Some(SlotOf(w.pending, m)), w.log, |o.log|, e, m);
      ExplainedLater(cfg, s, Some(SlotOf(w.pending, m)), w.log, w.log + [x], |o.log|, e, m);
      assert (w.log + [x])[|w.log|] == x;
      assert Departed(w.log + [x], |o.log|, e, m, a, cfg.notFoundTimeout);
    }
  }

  lemma DiscardTracked(cfg: Config, h: History, o: Origin, w: Work, w': Work, m: Method, x: Event, out: WriteOutcome,
                       rest: set<Method>)
    requires Tracked(cfg, o, w) && Settling(cfg, h, w, rest + {m}) && w.pending.Anchor(m).Some?
    requires Departure(x, w.pending.epochId, m, w.pending.Anchor(m).value, cfg.notFoundTimeout)
    requires w'.log == w.log + [x] && SameState(w, w')
    ensures Tracked(cfg, o, Discard(w', m, out))
  {
    assert m in rest + {m} && m in w.pending.methods;
    DepartureExplains(cfg, o, w, m, x);
    LogTracked(cfg, o, w, w');
    DiscardIsStep(cfg.maxFaults, h, w.disk.pendingAnchors, w.pending, m);
    SaveTracked(cfg, h, o, w', m, w.pending.WithFault(m).WithoutAnchor(m), out, rest);
  }

  lemma MissingTracked(cfg: Config, h: History, o: Origin, w: Work, m: Method, now: nat, env: SettleEnv,
                       rest: set<Method>)
    requires Tracked(cfg, o, w) && Settling(cfg, h, w, rest + {m}) && w.pending.Anchor(m).Some?
    ensures Tracked(cfg, o, SettleMissing(cfg, w, m, now, env))
  {
    assert m in rest + {m} && m in w.pending.methods;
    assert SlotOk(cfg.maxFaults, w.pending, m);
    StampedIsSame(w.pending, m, now);
    var a := w.pending.Anchor(m).value;
    var x := Abandoned(w.pending.epochId, m, a.value, a.firstSeen.value, now);
    if SatSub(now, a.firstSeen.value) >= cfg.notFoundTimeout {
      DiscardTracked(cfg, h, o, w, w.Log(x), m, x, env.note, rest);
    }
  }

  lemma ServeTracked(cfg: Config, h: History, o: Origin, w: Work, m: Method, ws: seq<MintedWitness>, env: SettleEnv,
                     rest: set<Method>)
    requires Tracked(cfg, o, w) && Settling(cfg, h, w, rest + {m}) && MayServe(cfg, w.pending, m, ws, env)
    ensures Tracked(cfg, o, ServeSet(w, m, ws, env))
  {
    if Lands(env.serve) {
      assert m in rest + {m};
      ServeFields(cfg, h, w, m, ws, env);
      ServedSince(cfg, h, o, w, m);
      CopySinceLater(cfg, o, w.pending, w.log, w.log + [ServedAt(w.pending.epochId, m)]);
    }
  }

  /** Serving drops `m` from the record and brings the others in line with the copy. */
  lemma ServedSince(cfg: Config, h: History, o: Origin, w: Work, m: Method)
    requires Tracked(cfg, o, w) && m in w.pending.methods && w.pending.Anchor(m).Some?
    requires Copy(cfg.maxFaults, h, w.disk.pendingAnchors, w.pending, {m})
    ensures
      var log' := w.log + [ServedAt(w.pending.epochId, m)];
      && Since(cfg, o, AnchorsWithout(w.disk.pendingAnchors, w.pending, m), log')
      && CopySince(cfg, o, w.pending.Without(m), log')
  {
    var e, x := w.pending.epochId, ServedAt(w.pending.epochId, m);
    var log' := w.log + [x];
    DepartureExplains(cfg, o, w, m, x);
    SinceLater(cfg, o, w.disk.pendingAnchors, w.log, log');
    CopySinceLater(cfg, o, w.pending, w.log, log');
    forall k | e in o.ids && k in w.pending.Without(m).methods
      ensures Explained(cfg, DurableSlot(o.anchors, e, k), Some(SlotOf(w.pending.Without(m), k)), log', |o.log|, e, k)
    {
      OthersKeptByServe(w.pending, m, k);
    }
    forall q, k | q in o.ids
      ensures Follows(cfg, DurableSlot(o.anchors, q, k),
                      DurableSlot(AnchorsWithout(w.disk.pendingAnchors, w.pending, m), q, k), log', |o.log|, q, k)
    {
      ServedSlot(cfg.maxFaults, h, w.disk.pendingAnchors, w.pending, m, q, k);
      assert Follows(cfg, DurableSlot(o.anchors, q, k), DurableSlot(w.disk.pendingAnchors, q, k), log', |o.log|, q, k);
    }
  }

  /** What serving `m` makes of each durable slot. */
  lemma ServedSlot(cap: nat, h: History, anchors: Anchors, p: PendingRecord, m: Method, q: nat, k: Method)
    requires Copy(cap, h, anchors, p, {m}) && m in p.methods && p.Anchor(m).Some?
    ensures
      var s, s' := DurableSlot(anchors, q, k), DurableSlot(AnchorsWithout(anchors, p, m), q, k);
      && Falls(cap, s, s')
      && (q != p.epochId || s.None? ==> s' == s)
      && (q == p.epochId && s.Some? ==> s' == if k == m then None else Some(SlotOf(p, k)))
  {
    PendsWithout(anchors, p, m);
    if q == p.epochId && Pends(anchors, q, k) {
      assert AheadOf(anchors, p, k);
      if k == m {
        assert Synced(anchors, p, m) && SlotOk(cap, p, m);
      } else {
        OthersKeptByServe(p, m, k);
        AheadIsLower(cap, SlotOf(anchors[q], k), SlotOf(p, k));
      }
    }
  }

  lemma JudgeTracked(cfg: Config, h: History, o: Origin, w: Work, m: Method, v: TimestampValue, now: nat,
                     env: SettleEnv, rest: set<Method>)
    requires Tracked(cfg, o, w) && Settling(cfg, h, w, rest + {m})
    requires w.pending.Anchor(m).Some? && w.pending.Anchor(m).value.value == v
    ensures Tracked(cfg, o, Judge(cfg, w, m, v, now, env))
  {
    match Decide(w.pending, m, v, cfg.serviceDid, env.mint, env.check)
    case Keep =>
    case Serving(ws) => ServeTracked(cfg, h, o, w, m, ws, env, rest);
    case NotFoundYet => MissingTracked(cfg, h, o, w, m, now, env, rest);
    case FaultyAnchor =>
      var x := AtFault(w.pending.epochId, m, v);
      DiscardTracked(cfg, h, o, w, w.Down(m).Log(x), m, x, env.note, rest);
  }

  lemma SettleTracked(cfg: Config, h: History, o: Origin, w: Work, m: Method, now: nat, env: SettleEnv,
                      rest: set<Method>)
    requires Tracked(cfg, o, w) && Settling(cfg, h, w, rest + {m}) && m !in rest
    ensures Tracked(cfg, o, SettleMethod(cfg, w, m, now, env))
  {
    if m in cfg.methods {
      AcquireTracked(cfg, h, o, w, m, now, env, rest);
      AcquireSettles(cfg, h, w, m, now, env, rest);
      AcquireShape(cfg, w, m, now, env);
      var a := Acquire(cfg, w, m, now, env);
      if a.Holds? {
        JudgeTracked(cfg, h, o, a.work, m, a.value, now, env, rest);
      }
    }
  }

  /** The copy explains what it no longer holds as long as it may still be saved. */
  ghost predicate TrackedInStep(cfg: Config, o: Origin, w: Work) {
    Since(cfg, o, w.disk.pendingAnchors, w.log) && (!Stale(w) ==> CopySince(cfg, o, w.pending, w.log))
  }

  /** One of several settles that write nothing on a stale copy. */
  lemma StepTrackedInStep(cfg: Config, h: History, o: Origin, w: Work, ms: seq<Method>, now: nat, envs: SettleEnvs)
    requires TrackedInStep(cfg, o, w) && Settles(cfg, h, w, Elems(ms)) && NoDup(ms)
    requires ms != [] && !w.crashed && NoStaleWrite(cfg, w, ms, now, envs)
    ensures TrackedInStep(cfg, o, SettleMethod(cfg, w, ms[0], now, envs(w.pending.epochId, ms[0])))
  {
    var m, rest := ms[0], ms[1..];
    var env := envs(w.pending.epochId, m);
    var w1 := SettleMethod(cfg, w, m, now, env);
    assert Elems(ms) == Elems(rest) + {m} && m !in Elems(rest);
    if Settling(cfg, h, w, Elems(ms)) {
      InStepIsNotStale(cfg, h, w, Elems(ms));
      SettleTracked(cfg, h, o, w, m, now, env, Elems(rest));
    } else {
      LagSettles(cfg, h, w, m, now, env, Elems(rest));
      Trace.SettleLogsItself(cfg, w, m, now, env);
      SinceLater(cfg, o, w.disk.pendingAnchors, w.log, w1.log);
    }
  }

  lemma {:induction false} SettleMethodsTracked(cfg: Config, h: History, o: Origin, w: Work, ms: seq<Method>,
                                                now: nat, envs: SettleEnvs)
    requires TrackedInStep(cfg, o, w) && Settles(cfg, h, w, Elems(ms)) && NoDup(ms)
    requires NoStaleWrite(cfg, w, ms, now, envs)
    ensures TrackedInStep(cfg, o, SettleMethods(cfg, w, ms, now, envs))
    decreases |ms|
  {
    if ms != [] && !w.crashed {
      StepTrackedInStep(cfg, h, o, w, ms, now, envs);
      HarmlessStep(cfg, h, w, ms, now, envs);
      var w1 := SettleMethod(cfg, w, ms[0], now, envs(w.pending.epochId, ms[0]));
      SettleMethodsTracked(cfg, h, o, w1, ms[1..], now, envs);
    }
  }

  // ---- An epoch and the backlog ----

  lemma CopyStarts(cfg: Config, o: Origin, w: Work, p: PendingRecord)
    requires Since(cfg, o, w.disk.pendingAnchors, w.log)
    requires p.epochId in w.disk.pendingAnchors && w.disk.pendingAnchors[p.epochId] == p
    ensures Tracked(cfg, o, w.(pending := p))
  {
  }

  lemma EpochTracked(cfg: Config, h: History, o: Origin, w: Work, p: PendingRecord, now: nat, envs: SettleEnvs)
    requires DiskInv(cfg, h, w.served, w.disk) && EpochHarmless(cfg, w, p, now, envs)
    requires p.epochId in w.disk.pendingAnchors && w.disk.pendingAnchors[p.epochId] == p
    requires Since(cfg, o, w.disk.pendingAnchors, w.log)
    ensures
      var w' := SettleEpoch(cfg, w, p, now, envs);
      Since(cfg, o, w'.disk.pendingAnchors, w'.log)
  {
    var begun := w.(pending := p);
    EpochBegins(cfg, h, w, p);
    CopyStarts(cfg, o, w, p);
    SettleMethodsTracked(cfg, h, o, begun, p.methods, now, envs);
    var settled := SettleMethods(cfg, begun, p.methods, now, envs);
    DropIsSameState(settled);
    SinceLater(cfg, o, settled.disk.pendingAnchors, settled.log, DropVolatile(settled).log);
  }

  lemma {:induction false} RetryTracked(cfg: Config, h: History, o: Origin, w: Work, ps: seq<PendingRecord>, now: nat,
                                        envs: SettleEnvs)
    requires DiskInv(cfg, h, w.served, w.disk) && Backlogged(w.disk.pendingAnchors, ps)
    requires BacklogHarmless(cfg, w, ps, now, envs)
    requires Since(cfg, o, w.disk.pendingAnchors, w.log)
    ensures
      var w' := Retry(cfg, w, ps, now, envs);
      Since(cfg, o, w'.disk.pendingAnchors, w'.log)
    decreases |ps|
  {
    if ps != [] && !w.crashed {
      EpochSettles(cfg, h, w, ps[0], now, envs);
      EpochTracked(cfg, h, o, w, ps[0], now, envs);
      var w1 := SettleEpoch(cfg, w, ps[0], now, envs);
      BacklogRest(w.disk, w1.disk, ps);
      RetryTracked(cfg, h, o, w1, ps[1..], now, envs);
    }
  }

  // ---- A tick and a run ----

  ghost function OriginOf(w: World): Origin {
    Origin(w.disk.pendingAnchors, w.log, w.sealed.Keys)
  }

  ghost predicate WorldSince(cfg: Config, o: Origin, w: World) {
    Since(cfg, o, w.disk.pendingAnchors, w.log) && o.ids <= w.sealed.Keys
  }

  lemma SinceItself(cfg: Config, w: World)
    ensures WorldSince(cfg, OriginOf(w), w)
  {
  }

  lemma SinceTransitive(cfg: Config, o: Origin, w: World, w': World)
    requires WorldSince(cfg, o, w) && WorldSince(cfg, OriginOf(w), w')
    ensures WorldSince(cfg, o, w')
  {
  }

  /** The seal of an epoch the origin does not know moves no slot of the origin. */
  lemma SealSince(cfg: Config, o: Origin, w: World, s: SealedSnapshot, se: SealedEpoch)
    requires WorldSince(cfg, o, w) && s.epochId !in o.ids
    ensures WorldSince(cfg, o, SealedWorld(w, s, se))
  {
  }

  lemma LandingSince(cfg: Config, o: Origin, w: World, s: SealedSnapshot, se: SealedEpoch, down: set<Method>,
                     env: TickEnv)
    requires WorldInv(cfg, SealedWorld(w, s, se)) && WorldSince(cfg, o, SealedWorld(w, s, se))
    requires LandingHarmless(cfg, w, s, se, down, env)
    ensures WorldSince(cfg, o, AfterLanding(cfg, w, s, se, down, env))
  {
    var w2 := SealedWorld(w, s, se);
    var p := PendingFor(s.epochId, s.openedAt, s.closedAt, se);
    if env.persist == Written && p.Some? {
      SealedIsPending(w, s, se);
      EpochTracked(cfg, w2.sealed, o, WorkOf(w2, down), p.value, env.now, env.settle);
    }
  }

  lemma CloseSince(cfg: Config, o: Origin, w: World, down: set<Method>, env: TickEnv)
    requires WorldInv(cfg, w) && NoDup(cfg.methods) && Admissible(w, Tick(env)) && WorldSince(cfg, o, w)
    requires w.open.epochId !in o.ids && CloseHarmless(cfg, w, down, env)
    ensures WorldSince(cfg, o, ClosePhase(cfg, w, down, env))
  {
    if Closed(cfg, w.open.leaves, env).Some? && Lands(env.persist) {
      CloseLandsSince(cfg, o, w, down, env);
    } else {
      UnsealedTickKeepsStore(cfg, w, down, env);
    }
  }

  lemma CloseLandsSince(cfg: Config, o: Origin, w: World, down: set<Method>, env: TickEnv)
    requires WorldInv(cfg, w) && NoDup(cfg.methods) && Admissible(w, Tick(env)) && WorldSince(cfg, o, w)
    requires w.open.epochId !in o.ids && Closed(cfg, w.open.leaves, env).Some? && CloseHarmless(cfg, w, down, env)
    ensures
      var s := Swapped(w.open, env.now, env.now, env.duration).0;
      WorldSince(cfg, o, AfterLanding(cfg, SwapPhase(w, env), s, Closed(cfg, s.leaves, env).value, down, env))
  {
    var s := Swapped(w.open, env.now, env.now, env.duration).0;
    var w1 := SwapPhase(w, env);
    SwapKeeps(w, env);
    CloseSeals(cfg, w, env);
    SealSince(cfg, o, w1, s, Closed(cfg, s.leaves, env).value);
    LandingSince(cfg, o, w1, s, Closed(cfg, s.leaves, env).value, down, env);
  }

  lemma RetrySince(cfg: Config, w: World, env: TickEnv)
    requires WorldInv(cfg, w) && RetryHarmless(cfg, w, env)
    ensures WorldSince(cfg, OriginOf(w), WithWork(w, RetryPhase(cfg, w, env)))
  {
    SinceItself(cfg, w);
    if env.context && env.listed {
      BacklogOf(cfg, w);
      RetryTracked(cfg, w.sealed, OriginOf(w), WorkOf(w, {}), PendingEpochs(w.disk), env.now, env.settle);
    }
  }

  lemma StepSince(cfg: Config, w: World, a: Action)
    requires WorldInv(cfg, w) && NoDup(cfg.methods) && Safe(cfg, w, a)
    ensures WorldSince(cfg, OriginOf(w), Step(cfg, w, a))
  {
    SinceItself(cfg, w);
    if a.Tick? && !(a.env.context && Validate(cfg).Some?) {
      var work, w1 := RetryPhase(cfg, w, a.env), BeforeClose(cfg, w, a.env);
      RetrySince(cfg, w, a.env);
      BeforeCloseKeeps(cfg, w, a.env);
      BeforeCloseCore(cfg, w, a.env);
      CoreParts(w);
      if !work.crashed {
        CloseSince(cfg, OriginOf(w), w1, work.down, a.env);
      }
    }
  }

  /** From any good state, every later state follows from it. */
  lemma {:induction false} RunSince(cfg: Config, w: World, actions: seq<Action>)
    requires WorldInv(cfg, w) && NoDup(cfg.methods) && SafeRun(cfg, w, actions)
    ensures WorldInv(cfg, Run(cfg, w, actions))
    ensures WorldSince(cfg, OriginOf(w), Run(cfg, w, actions))
  {
    if actions == [] {
      SinceItself(cfg, w);
    } else {
      var n := |actions| - 1;
      RunSince(cfg, w, actions[..n]);
      var before := Run(cfg, w, actions[..n]);
      StepKeepsExactly(cfg, before, actions[n]);
      StepSince(cfg, before, actions[n]);
      SinceTransitive(cfg, OriginOf(w), before, Step(cfg, before, actions[n]));
    }
  }

  // ---- What it comes to ----

  /** `anchor_stalled`: pending, no anchor held, the fault cap reached. */
  ghost predicate Stalled(cfg: Config, anchors: Anchors, e: nat, m: Method) {
    Pends(anchors, e, m) && anchors[e].Anchor(m).None? && anchors[e].FaultCount(m) >= cfg.maxFaults
  }

  lemma SealedIfPending(cfg: Config, w: World, e: nat, m: Method)
    requires WorldInv(cfg, w) && Pends(w.disk.pendingAnchors, e, m)
    ensures e in w.sealed && SlotOk(cfg.maxFaults, w.disk.pendingAnchors[e], m)
  {
    WorldParts(cfg, w);
    PendingPart(cfg, w.sealed, w.served, w.disk);
  }

  lemma MeasureIsNat(cfg: Config, w: World, e: nat, m: Method)
    requires WorldInv(cfg, w)
    ensures 0 <= Measure(cfg.maxFaults, DurableSlot(w.disk.pendingAnchors, e, m)) <= 2 * cfg.maxFaults
  {
    if Pends(w.disk.pendingAnchors, e, m) {
      SealedIfPending(cfg, w, e, m);
    }
  }

  /** A stalled (epoch, method) stays exactly as it is through every later run. */
  lemma StalledForever(cfg: Config, w: World, actions: seq<Action>, e: nat, m: Method)
    requires WorldInv(cfg, w) && NoDup(cfg.methods) && SafeRun(cfg, w, actions)
    requires Stalled(cfg, w.disk.pendingAnchors, e, m)
    ensures
      var w' := Run(cfg, w, actions);
      && Stalled(cfg, w'.disk.pendingAnchors, e, m)
      && SlotOf(w'.disk.pendingAnchors[e], m) == SlotOf(w.disk.pendingAnchors[e], m)
  {
    var w' := Run(cfg, w, actions);
    SealedIfPending(cfg, w, e, m);
    RunSince(cfg, w, actions);
    MeasureIsNat(cfg, w', e, m);
    assert Follows(cfg, DurableSlot(w.disk.pendingAnchors, e, m), DurableSlot(w'.disk.pendingAnchors, e, m), w'.log,
                   |w.log|, e, m);
  }

  /** A method that is served, or was not enabled at the seal, never becomes pending again. */
  lemma SettledForever(cfg: Config, w: World, actions: seq<Action>, e: nat, m: Method)
    requires WorldInv(cfg, w) && NoDup(cfg.methods) && SafeRun(cfg, w, actions)
    requires e in w.sealed && !Pends(w.disk.pendingAnchors, e, m)
    ensures !Pends(Run(cfg, w, actions).disk.pendingAnchors, e, m)
  {
    var w' := Run(cfg, w, actions);
    RunSince(cfg, w, actions);
    MeasureIsNat(cfg, w', e, m);
    assert Follows(cfg, DurableSlot(w.disk.pendingAnchors, e, m), DurableSlot(w'.disk.pendingAnchors, e, m), w'.log,
                   |w.log|, e, m);
  }

  /**
   * A durable anchor leaves its record only by serving its method, by an
   * at-fault verdict on it, or by being missing for the whole timeout.
   */
  lemma AnchorLeavesOnlyByDeparture(cfg: Config, w: World, actions: seq<Action>, e: nat, m: Method)
    requires WorldInv(cfg, w) && NoDup(cfg.methods) && SafeRun(cfg, w, actions)
    requires Pends(w.disk.pendingAnchors, e, m) && w.disk.pendingAnchors[e].Anchor(m).Some?
    ensures
      var w' := Run(cfg, w, actions);
      var a := w.disk.pendingAnchors[e].Anchor(m);
      || (Pends(w'.disk.pendingAnchors, e, m) && w'.disk.pendingAnchors[e].Anchor(m) == a)
      || Departed(w'.log, |w.log|, e, m, a.value, cfg.notFoundTimeout)
  {
    var w' := Run(cfg, w, actions);
    SealedIfPending(cfg, w, e, m);
    RunSince(cfg, w, actions);
    assert Follows(cfg, DurableSlot(w.disk.pendingAnchors, e, m), DurableSlot(w'.disk.pendingAnchors, e, m), w'.log,
                   |w.log|, e, m);
  }

  /** How many steps of a run moved the durable state of an (epoch, method). */
  ghost function Moved(cfg: Config, w: World, actions: seq<Action>, e: nat, m: Method): nat {
    if actions == [] then 0 else
      var n := |actions| - 1;
      var before := Run(cfg, w, actions[..n]);
      var after := Step(cfg, before, actions[n]);
      var same := DurableSlot(after.disk.pendingAnchors, e, m) == DurableSlot(before.disk.pendingAnchors, e, m);
      Moved(cfg, w, actions[..n], e, m) + if same then 0 else 1
  }

  /**
   * Progress is finite: the measure pays for every step that moves a sealed
   * (epoch, method), so at most twice the fault cap of them do.
   */
  lemma {:induction false} MovesAreBounded(cfg: Config, w: World, actions: seq<Action>, e: nat, m: Method)
    requires WorldInv(cfg, w) && NoDup(cfg.methods) && SafeRun(cfg, w, actions) && e in w.sealed
    ensures Moved(cfg, w, actions, e, m)
      + Measure(cfg.maxFaults, DurableSlot(Run(cfg, w, actions).disk.pendingAnchors, e, m))
      <= Measure(cfg.maxFaults, DurableSlot(w.disk.pendingAnchors, e, m))
    ensures Moved(cfg, w, actions, e, m) <= 2 * cfg.maxFaults
  {
    if actions != [] {
      var n := |actions| - 1;
      var before := Run(cfg, w, actions[..n]);
      MovesAreBounded(cfg, w, actions[..n], e, m);
      RunSince(cfg, w, actions[..n]);
      StepSince(cfg, before, actions[n]);
      var after := Step(cfg, before, actions[n]);
      assert Follows(cfg, DurableSlot(before.disk.pendingAnchors, e, m), DurableSlot(after.disk.pendingAnchors, e, m),
                     after.log, |before.log|, e, m);
    }
    RunSince(cfg, w, actions);
    MeasureIsNat(cfg, w, e, m);
    MeasureIsNat(cfg, Run(cfg, w, actions), e, m);
  }
}
