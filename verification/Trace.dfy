/**
 * The event log of a tick: what it may mention, and the one-failing-call rule.
 */
module Trace {
  import opened Base
  import opened Witness
  import opened Storage
  import opened Sealer
  import opened Backlog

  /** The log speaks about epochs of `ids` only. */
  ghost predicate LogIn(log: seq<Event>, ids: set<nat>) {
    forall i :: 0 <= i < |log| ==> log[i].epoch in ids
  }

  /** An event after which a method must not be anchored again in the tick. */
  ghost predicate Bad(e: Event, m: Method) {
    e.via == m && (e.CallFailedAt? || e.NotStored? || e.AtFault?)
  }

  /** A provider call, whatever came of it. */
  ghost predicate Call(e: Event, m: Method) {
    e.via == m && (e.CallFailedAt? || e.Anchored?)
  }

  /**
   * From position `start` of the log: no call of a method follows a bad event
   * of it, and the methods with a bad event are down.
   */
  ghost predicate Quiet(log: seq<Event>, start: nat, down: set<Method>) {
    && (forall i, j, m :: start <= i < j < |log| && Bad(log[i], m) ==> !Call(log[j], m))
    && (forall i, m :: start <= i < |log| && Bad(log[i], m) ==> m in down)
  }

  ghost predicate TickLog(w: Work, start: nat, ids: set<nat>) {
    start <= |w.log| && LogIn(w.log, ids) && Quiet(w.log, start, w.down)
  }

  /** Logging one event, and possibly putting its method down. */
  lemma LogOne(w: Work, start: nat, ids: set<nat>, e: Event, down: bool)
    requires TickLog(w, start, ids) && e.epoch in ids
    requires Call(e, e.via) ==> e.via !in w.down
    requires Bad(e, e.via) ==> down
    ensures TickLog(if down then w.Down(e.via).Log(e) else w.Log(e), start, ids)
  {
  }

  lemma SameLog(w: Work, w': Work, start: nat, ids: set<nat>)
    requires TickLog(w, start, ids) && w'.log == w.log && w'.down == w.down
    ensures TickLog(w', start, ids)
  {
  }

  lemma AcquireLogs(cfg: Config, w: Work, m: Method, now: nat, env: SettleEnv, start: nat, ids: set<nat>)
    requires TickLog(w, start, ids) && w.pending.epochId in ids
    ensures TickLog(Acquire(cfg, w, m, now, env).work, start, ids)
    ensures Acquire(cfg, w, m, now, env).work.pending.epochId == w.pending.epochId
  {
    var e := w.pending.epochId;
    if w.pending.Anchor(m).None? && m !in w.down && w.pending.FaultCount(m) < cfg.maxFaults {
      match env.call
      case CallFailed => LogOne(w, start, ids, CallFailedAt(e, m), true);
      case Returned(v) =>
        var logged := w.Log(Anchored(e, m));
        LogOne(w, start, ids, Anchored(e, m), false);
        var saved := Save(logged, w.pending.WithAnchor(m, v, now), StoreOutcome(env));
        SameLog(logged, saved, start, ids);
        LogOne(saved, start, ids, NotStored(e, m), true);
    }
  }

  lemma MissingLogs(cfg: Config, w: Work, m: Method, now: nat, env: SettleEnv, start: nat, ids: set<nat>)
    requires TickLog(w, start, ids) && w.pending.epochId in ids
    ensures TickLog(SettleMissing(cfg, w, m, now, env), start, ids)
  {
  }

  lemma JudgeLogs(cfg: Config, w: Work, m: Method, v: TimestampValue, now: nat, env: SettleEnv, start: nat,
                  ids: set<nat>)
    requires TickLog(w, start, ids) && w.pending.epochId in ids
    ensures TickLog(Judge(cfg, w, m, v, now, env), start, ids)
  {
    var e := w.pending.epochId;
    match Decide(w.pending, m, v, cfg.serviceDid, env.mint, env.check)
    case Keep =>
    case Serving(ws) =>
      LogOne(w, start, ids, ServedAt(e, m), false);
      if ServeSet(w, m, ws, env).log != w.log {
        SameLog(w.Log(ServedAt(e, m)), ServeSet(w, m, ws, env), start, ids);
      } else {
        SameLog(w, ServeSet(w, m, ws, env), start, ids);
      }
    case NotFoundYet => MissingLogs(cfg, w, m, now, env, start, ids);
    case FaultyAnchor =>
      LogOne(w, start, ids, AtFault(e, m, v), true);
      var noted := w.Down(m).Log(AtFault(e, m, v));
      SameLog(noted, Discard(noted, m, env.note), start, ids);
  }

  lemma SettleLogs(cfg: Config, w: Work, m: Method, now: nat, env: SettleEnv, start: nat, ids: set<nat>)
    requires TickLog(w, start, ids) && w.pending.epochId in ids
    ensures TickLog(SettleMethod(cfg, w, m, now, env), start, ids)
  {
    if m in cfg.methods {
      AcquireLogs(cfg, w, m, now, env, start, ids);
      var a := Acquire(cfg, w, m, now, env);
      if a.Holds? {
        JudgeLogs(cfg, a.work, m, a.value, now, env, start, ids);
      }
    }
  }

  lemma {:induction false} SettleMethodsLogs(cfg: Config, w: Work, ms: seq<Method>, now: nat, envs: SettleEnvs,
                                             start: nat, ids: set<nat>)
    requires TickLog(w, start, ids) && w.pending.epochId in ids
    ensures TickLog(SettleMethods(cfg, w, ms, now, envs), start, ids)
    decreases |ms|
  {
    if ms != [] && !w.crashed {
      var env := envs(w.pending.epochId, ms[0]);
      SettleLogs(cfg, w, ms[0], now, env, start, ids);
      SettleMoves(cfg, w, ms[0], now, env);
      SettleMethodsLogs(cfg, SettleMethod(cfg, w, ms[0], now, env), ms[1..], now, envs, start, ids);
    }
  }

  lemma DropLogs(w: Work, start: nat, ids: set<nat>)
    requires TickLog(w, start, ids) && w.pending.epochId in ids
    ensures TickLog(DropVolatile(w), start, ids)
  {
  }

  lemma EpochLogs(cfg: Config, w: Work, p: PendingRecord, now: nat, envs: SettleEnvs, start: nat, ids: set<nat>)
    requires TickLog(w, start, ids) && p.epochId in ids
    ensures TickLog(SettleEpoch(cfg, w, p, now, envs), start, ids)
  {
    var begun := w.(pending := p);
    SameLog(w, begun, start, ids);
    SettleMethodsLogs(cfg, begun, p.methods, now, envs, start, ids);
    SettleMethodsMoves(cfg, begun, p.methods, now, envs);
    DropLogs(SettleMethods(cfg, begun, p.methods, now, envs), start, ids);
  }

  /**
   * Across the whole backlog no provider is called again in a tick after a
   * failed call, an anchor that could not be stored, or an anchor at fault.
   */
  lemma {:induction false} RetryLogs(cfg: Config, w: Work, ps: seq<PendingRecord>, now: nat, envs: SettleEnvs,
                                     start: nat, ids: set<nat>)
    requires TickLog(w, start, ids) && (forall i :: 0 <= i < |ps| ==> ps[i].epochId in ids)
    ensures TickLog(Retry(cfg, w, ps, now, envs), start, ids)
    decreases |ps|
  {
    if ps != [] && !w.crashed {
      EpochLogs(cfg, w, ps[0], now, envs, start, ids);
      RetryLogs(cfg, SettleEpoch(cfg, w, ps[0], now, envs), ps[1..], now, envs, start, ids);
    }
  }

  // ---- Oldest first ----

  /** `w'` goes on from the log of `w` with events of epoch `e` only. */
  ghost predicate LogsOnly(w: Work, w': Work, e: nat) {
    w.log <= w'.log && forall i :: |w.log| <= i < |w'.log| ==> w'.log[i].epoch == e
  }

  lemma LogsOnlyThen(w: Work, w1: Work, w2: Work, e: nat)
    requires LogsOnly(w, w1, e) && LogsOnly(w1, w2, e)
    ensures LogsOnly(w, w2, e)
  {
  }

  lemma MissingLogsItself(cfg: Config, w: Work, m: Method, now: nat, env: SettleEnv)
    ensures LogsOnly(w, SettleMissing(cfg, w, m, now, env), w.pending.epochId)
  {
  }

  lemma ServeLogsItself(w: Work, m: Method, ws: seq<MintedWitness>, env: SettleEnv)
    ensures LogsOnly(w, ServeSet(w, m, ws, env), w.pending.epochId)
  {
  }

  lemma JudgeLogsItself(cfg: Config, w: Work, m: Method, v: TimestampValue, now: nat, env: SettleEnv)
    ensures LogsOnly(w, Judge(cfg, w, m, v, now, env), w.pending.epochId)
  {
    match Decide(w.pending, m, v, cfg.serviceDid, env.mint, env.check)
    case Keep =>
    case Serving(ws) => ServeLogsItself(w, m, ws, env);
    case NotFoundYet => MissingLogsItself(cfg, w, m, now, env);
    case FaultyAnchor =>
  }

  lemma AcquireLogsItself(cfg: Config, w: Work, m: Method, now: nat, env: SettleEnv)
    ensures LogsOnly(w, Acquire(cfg, w, m, now, env).work, w.pending.epochId)
  {
    if w.pending.Anchor(m).None? && env.call.Returned? {
      var called := w.Log(Anchored(w.pending.epochId, m));
      var saved := Save(called, w.pending.WithAnchor(m, env.call.value, now), StoreOutcome(env));
      assert saved.log == called.log;
    }
  }

  /** A settle logs events of its own epoch only. */
  lemma SettleLogsItself(cfg: Config, w: Work, m: Method, now: nat, env: SettleEnv)
    ensures LogsOnly(w, SettleMethod(cfg, w, m, now, env), w.pending.epochId)
  {
    if m in cfg.methods {
      var a := Acquire(cfg, w, m, now, env);
      AcquireLogsItself(cfg, w, m, now, env);
      if a.Holds? {
        AcquireMoves(cfg, w, m, now, env);
        JudgeLogsItself(cfg, a.work, m, a.value, now, env);
        LogsOnlyThen(w, a.work, Judge(cfg, a.work, m, a.value, now, env), w.pending.epochId);
      }
    }
  }

  lemma {:induction false} MethodsLogThemselves(cfg: Config, w: Work, ms: seq<Method>, now: nat, envs: SettleEnvs)
    ensures LogsOnly(w, SettleMethods(cfg, w, ms, now, envs), w.pending.epochId)
    decreases |ms|
  {
    if ms != [] && !w.crashed {
      var env := envs(w.pending.epochId, ms[0]);
      var w1 := SettleMethod(cfg, w, ms[0], now, env);
      SettleLogsItself(cfg, w, ms[0], now, env);
      SettleMoves(cfg, w, ms[0], now, env);
      MethodsLogThemselves(cfg, w1, ms[1..], now, envs);
      LogsOnlyThen(w, w1, SettleMethods(cfg, w1, ms[1..], now, envs), w.pending.epochId);
    }
  }

  lemma DropLogsItself(w: Work)
    ensures LogsOnly(w, DropVolatile(w), w.pending.epochId)
  {
  }

  lemma EpochLogsItself(cfg: Config, w: Work, p: PendingRecord, now: nat, envs: SettleEnvs)
    ensures LogsOnly(w, SettleEpoch(cfg, w, p, now, envs), p.epochId)
  {
    var begun := w.(pending := p);
    var settled := SettleMethods(cfg, begun, p.methods, now, envs);
    MethodsLogThemselves(cfg, begun, p.methods, now, envs);
    SettleMethodsMoves(cfg, begun, p.methods, now, envs);
    DropLogsItself(settled);
    LogsOnlyThen(begun, settled, DropVolatile(settled), p.epochId);
  }

  /** From `start` on, the events are of epochs in order, none below `low`. */
  ghost predicate OldestFirst(log: seq<Event>, start: nat, low: nat) {
    && (forall i :: start <= i < |log| ==> log[i].epoch >= low)
    && (forall i, j :: start <= i < j < |log| ==> log[i].epoch <= log[j].epoch)
  }

  /** Records of ascending epochs, from `low` on. */
  ghost predicate AscendingFrom(ps: seq<PendingRecord>, low: nat) {
    && (forall i :: 0 <= i < |ps| ==> ps[i].epochId >= low)
    && (forall i, j :: 0 <= i < j < |ps| ==> ps[i].epochId < ps[j].epochId)
  }

  /** The backlog is worked through oldest epoch first. */
  lemma {:induction false} RetryGoesOldestFirst(cfg: Config, w: Work, ps: seq<PendingRecord>, now: nat,
                                                envs: SettleEnvs, low: nat)
    requires AscendingFrom(ps, low)
    ensures
      var w' := Retry(cfg, w, ps, now, envs);
      w.log <= w'.log && OldestFirst(w'.log, |w.log|, low)
      && forall i :: |w.log| <= i < |w'.log| ==> exists j :: 0 <= j < |ps| && w'.log[i].epoch == ps[j].epochId
    decreases |ps|
  {
    if ps != [] && !w.crashed {
      var w1 := SettleEpoch(cfg, w, ps[0], now, envs);
      var w' := Retry(cfg, w1, ps[1..], now, envs);
      EpochLogsItself(cfg, w, ps[0], now, envs);
      RetryGoesOldestFirst(cfg, w1, ps[1..], now, envs, ps[0].epochId + 1);
      forall i | |w.log| <= i < |w'.log|
        ensures exists j :: 0 <= j < |ps| && w'.log[i].epoch == ps[j].epochId
      {
        if i < |w1.log| {
          assert w'.log[i] == w1.log[i];
        } else {
          var j :| 0 <= j < |ps[1..]| && w'.log[i].epoch == ps[1..][j].epochId;
          assert ps[j + 1] == ps[1..][j];
        }
      }
    }
  }

  /** `w'` and `w` differ in their down sets only. */
  ghost predicate SameButDown(w: Work, w': Work) {
    && w'.disk == w.disk && w'.pending == w.pending && w'.crashed == w.crashed
    && w'.log == w.log && w'.served == w.served && w'.out == w.out
  }

  lemma MissingIgnoresDown(cfg: Config, w: Work, w': Work, m: Method, now: nat, env: SettleEnv)
    requires SameButDown(w, w') && w.pending.Anchor(m).Some?
    ensures SameButDown(SettleMissing(cfg, w, m, now, env), SettleMissing(cfg, w', m, now, env))
  {
  }

  lemma ServeIgnoresDown(w: Work, w': Work, m: Method, ws: seq<MintedWitness>, env: SettleEnv)
    requires SameButDown(w, w')
    ensures SameButDown(ServeSet(w, m, ws, env), ServeSet(w', m, ws, env))
  {
  }

  lemma FaultIgnoresDown(w: Work, w': Work, m: Method, e: Event, o: WriteOutcome)
    requires SameButDown(w, w')
    ensures SameButDown(Discard(w.Down(m).Log(e), m, o), Discard(w'.Down(m).Log(e), m, o))
  {
  }

  lemma JudgeIgnoresDown(cfg: Config, w: Work, w': Work, m: Method, v: TimestampValue, now: nat, env: SettleEnv)
    requires SameButDown(w, w') && w.pending.Anchor(m).Some?
    ensures SameButDown(Judge(cfg, w, m, v, now, env), Judge(cfg, w', m, v, now, env))
  {
    match Decide(w.pending, m, v, cfg.serviceDid, env.mint, env.check)
    case Keep =>
    case Serving(ws) => ServeIgnoresDown(w, w', m, ws, env);
    case NotFoundYet => MissingIgnoresDown(cfg, w, w', m, now, env);
    case FaultyAnchor => FaultIgnoresDown(w, w', m, AtFault(w.pending.epochId, m, v), env.note);
  }

  /** A stored anchor is minted and checked again even when its method is down. */
  lemma HeldAnchorIgnoresDown(cfg: Config, w: Work, m: Method, now: nat, env: SettleEnv, down: set<Method>)
    requires w.pending.Anchor(m).Some?
    ensures SameButDown(SettleMethod(cfg, w, m, now, env), SettleMethod(cfg, w.(down := down), m, now, env))
  {
    if m in cfg.methods {
      JudgeIgnoresDown(cfg, w, w.(down := down), m, w.pending.Anchor(m).value.value, now, env);
    }
  }
}
