/**
 * Settling an epoch and the whole backlog: exactly when the durable invariant
 * survives it, and what it leaves alone.
 */
module Backlog {
  import opened Base
  import opened Witness
  import opened Storage
  import opened Sealer
  import opened Invariants
  import opened Settle

  // ---- What a settle leaves alone ----

  /** What settling epoch `e` may touch: the record stored under `e`, and the witness index, which only grows. */
  ghost predicate Advances(d: Disk, d': Disk, e: nat) {
    && d'.epochs == d.epochs && d'.epochLeaves == d.epochLeaves && d'.leafOwner == d.leafOwner
    && (forall q :: q != e ==> (q in d'.pendingAnchors <==> q in d.pendingAnchors))
    && (forall q :: q != e && q in d.pendingAnchors ==> d'.pendingAnchors[q] == d.pendingAnchors[q])
    && (forall k :: k in d.leafToTips ==> k in d'.leafToTips)
    && (e in d'.pendingAnchors ==>
          || d'.pendingAnchors[e].epochId == e
          || (e in d.pendingAnchors && d'.pendingAnchors[e] == d.pendingAnchors[e]))
  }

  ghost predicate Moves(w: Work, w': Work) {
    w'.pending.epochId == w.pending.epochId && Advances(w.disk, w'.disk, w.pending.epochId)
  }

  lemma AcquireMoves(cfg: Config, w: Work, m: Method, now: nat, env: SettleEnv)
    ensures Moves(w, Acquire(cfg, w, m, now, env).work)
  {
    AcquireShape(cfg, w, m, now, env);
  }

  lemma ServeMoves(w: Work, m: Method, ws: seq<MintedWitness>, env: SettleEnv)
    ensures Moves(w, ServeSet(w, m, ws, env))
  {
    TipsGrow(WitnessIndex(w.disk), ws);
    var d := MintedDisk(w.disk, w.pending.Without(m), m, ws);
    if d.Ok? {
      assert Advances(w.disk, d.value, w.pending.epochId);
    }
  }

  lemma SaveMoves(w: Work, p: PendingRecord, o: WriteOutcome)
    requires p.epochId == w.pending.epochId
    ensures Moves(w, Save(w, p, o))
  {
  }

  lemma DiscardMoves(w: Work, m: Method, o: WriteOutcome)
    ensures Moves(w, Discard(w, m, o))
  {
    SaveMoves(w, w.pending.WithFault(m).WithoutAnchor(m), o);
  }

  lemma MissingMoves(cfg: Config, w: Work, m: Method, now: nat, env: SettleEnv)
    ensures Moves(w, SettleMissing(cfg, w, m, now, env))
  {
    if w.pending.Anchor(m).Some? {
      var a := w.pending.Anchor(m).value;
      var stamped := w.(pending := w.pending.WithFirstSeen(m, now));
      var first := if a.firstSeen.Some? then a.firstSeen.value else now;
      SaveMoves(w, stamped.pending, env.note);
      DiscardMoves(stamped.Log(Abandoned(w.pending.epochId, m, a.value, first, now)), m, env.note);
    }
  }

  lemma JudgeMoves(cfg: Config, w: Work, m: Method, v: TimestampValue, now: nat, env: SettleEnv)
    ensures Moves(w, Judge(cfg, w, m, v, now, env))
  {
    match Decide(w.pending, m, v, cfg.serviceDid, env.mint, env.check)
    case Keep =>
    case Serving(ws) => ServeMoves(w, m, ws, env);
    case NotFoundYet => MissingMoves(cfg, w, m, now, env);
    case FaultyAnchor => DiscardMoves(w.Down(m).Log(AtFault(w.pending.epochId, m, v)), m, env.note);
  }

  lemma SettleMoves(cfg: Config, w: Work, m: Method, now: nat, env: SettleEnv)
    ensures Moves(w, SettleMethod(cfg, w, m, now, env))
  {
    if m in cfg.methods {
      AcquireMoves(cfg, w, m, now, env);
      var a := Acquire(cfg, w, m, now, env);
      if a.Holds? {
        JudgeMoves(cfg, a.work, m, a.value, now, env);
      }
    }
  }

  lemma {:induction false} SettleMethodsMoves(cfg: Config, w: Work, ms: seq<Method>, now: nat, envs: SettleEnvs)
    ensures Moves(w, SettleMethods(cfg, w, ms, now, envs))
    decreases |ms|
  {
    if ms != [] && !w.crashed {
      SettleMoves(cfg, w, ms[0], now, envs(w.pending.epochId, ms[0]));
      SettleMethodsMoves(cfg, SettleMethod(cfg, w, ms[0], now, envs(w.pending.epochId, ms[0])), ms[1..], now, envs);
    }
  }

  // ---- An epoch, and the backlog ----

  ghost function Elems(ms: seq<Method>): set<Method> {
    set m | m in ms
  }

  /** Once the copy lists a served method, settling the rest of `ms` writes nothing. */
  ghost predicate NoStaleWrite(cfg: Config, w: Work, ms: seq<Method>, now: nat, envs: SettleEnvs)
    decreases |ms|
  {
    ms == [] || w.crashed ||
    var w' := SettleMethod(cfg, w, ms[0], now, envs(w.pending.epochId, ms[0]));
    (Stale(w) ==> w'.disk == w.disk) && NoStaleWrite(cfg, w', ms[1..], now, envs)
  }

  lemma SettlesFewer(cfg: Config, h: History, w: Work, rest: set<Method>, fewer: set<Method>)
    requires Settles(cfg, h, w, rest) && fewer <= rest
    ensures Settles(cfg, h, w, fewer)
  {
    if Settling(cfg, h, w, rest) {
      FewerLeft(cfg.maxFaults, h, w.disk.pendingAnchors, w.pending, rest, fewer);
    } else {
      LagFewer(cfg, h, w, w, rest, fewer);
    }
  }

  lemma InStepIsNotStale(cfg: Config, h: History, w: Work, rest: set<Method>)
    requires Settling(cfg, h, w, rest)
    ensures !Stale(w)
  {
    if Stale(w) {
      var s :| StaleAt(w, s);
      InStepIsUnserved(cfg, h, w, rest, s);
    }
  }

  /** Some method is pending in the store and served at once. */
  ghost predicate Revived(served: Ledger, anchors: Anchors, e: nat, m: Method) {
    EpochMethod(e, m) in served && Pends(anchors, e, m)
  }

  /** A write on a stale copy leaves some method pending and served. */
  lemma {:induction false} BrokenMethods(cfg: Config, h: History, w: Work, ms: seq<Method>, now: nat, envs: SettleEnvs)
      returns (s: Method)
    requires Settles(cfg, h, w, Elems(ms)) && NoDup(ms) && !NoStaleWrite(cfg, w, ms, now, envs)
    ensures
      var w' := SettleMethods(cfg, w, ms, now, envs);
      Revived(w'.served, w'.disk.pendingAnchors, w.pending.epochId, s)
    decreases |ms|
  {
    var m, rest := ms[0], ms[1..];
    var env := envs(w.pending.epochId, m);
    var w1 := SettleMethod(cfg, w, m, now, env);
    assert Elems(ms) == Elems(rest) + {m} && m !in Elems(rest);
    SettleMoves(cfg, w, m, now, env);
    if Settling(cfg, h, w, Elems(ms)) {
      InStepIsNotStale(cfg, h, w, Elems(ms));
      SettleSettles(cfg, h, w, m, now, env, Elems(rest));
      s := BrokenMethods(cfg, h, w1, rest, now, envs);
    } else {
      LagSettles(cfg, h, w, m, now, env, Elems(rest));
      if w1.disk == w.disk {
        s := BrokenMethods(cfg, h, w1, rest, now, envs);
      } else {
        s :| StaleAt(w, s);
        assert s !in Elems(ms);
        SettleRevives(cfg, w, m, now, env, s);
        MethodsRevive(cfg, w1, rest, now, envs, s);
      }
    }
  }

  /** The first of several settles that write nothing on a stale copy. */
  lemma HarmlessStep(cfg: Config, h: History, w: Work, ms: seq<Method>, now: nat, envs: SettleEnvs)
    requires Settles(cfg, h, w, Elems(ms)) && NoDup(ms) && NoStaleWrite(cfg, w, ms, now, envs)
    requires ms != [] && !w.crashed
    ensures
      var w' := SettleMethod(cfg, w, ms[0], now, envs(w.pending.epochId, ms[0]));
      && Elems(ms) == Elems(ms[1..]) + {ms[0]} && ms[0] !in Elems(ms[1..]) && NoDup(ms[1..])
      && Settles(cfg, h, w', Elems(ms[1..])) && NoStaleWrite(cfg, w', ms[1..], now, envs)
      && w'.pending.epochId == w.pending.epochId
      && (Lagging(cfg, h, w, Elems(ms)) ==> w'.disk == w.disk && w'.served == w.served && w'.out == w.out)
  {
    var m, rest := ms[0], ms[1..];
    var env := envs(w.pending.epochId, m);
    assert Elems(ms) == Elems(rest) + {m} && m !in Elems(rest);
    SettleMoves(cfg, w, m, now, env);
    if Settling(cfg, h, w, Elems(ms)) {
      SettleSettles(cfg, h, w, m, now, env, Elems(rest));
      InStepIsNotStale(cfg, h, w, Elems(ms));
    } else {
      LagSettles(cfg, h, w, m, now, env, Elems(rest));
    }
  }

  /**
   * Settling an epoch's methods keeps the durable invariant exactly when no
   * write follows a serve that landed but reported an error.
   */
  lemma {:induction false} SettleMethodsExactly(cfg: Config, h: History, w: Work, ms: seq<Method>, now: nat,
                                                envs: SettleEnvs)
    requires Settles(cfg, h, w, Elems(ms)) && NoDup(ms)
    ensures
      var w' := SettleMethods(cfg, w, ms, now, envs);
      && (DiskInv(cfg, h, w'.served, w'.disk) <==> NoStaleWrite(cfg, w, ms, now, envs))
      && (NoStaleWrite(cfg, w, ms, now, envs) ==> Settles(cfg, h, w', {}))
    decreases |ms|
  {
    if !NoStaleWrite(cfg, w, ms, now, envs) {
      var s := BrokenMethods(cfg, h, w, ms, now, envs);
      var w' := SettleMethods(cfg, w, ms, now, envs);
      RevivedIsBad(cfg, h, w'.served, w'.disk, w.pending.epochId, s);
    } else if ms == [] || w.crashed {
      SettlesFewer(cfg, h, w, Elems(ms), {});
    } else {
      HarmlessStep(cfg, h, w, ms, now, envs);
      var w1 := SettleMethod(cfg, w, ms[0], now, envs(w.pending.epochId, ms[0]));
      SettleMethodsExactly(cfg, h, w1, ms[1..], now, envs);
    }
  }

  /** When no serve write reports an error after landing, nothing is written on a stale copy. */
  lemma {:induction false} SyncedServesAreHarmless(cfg: Config, h: History, w: Work, ms: seq<Method>, now: nat,
                                                   envs: SettleEnvs)
    requires Settling(cfg, h, w, Elems(ms)) && NoDup(ms)
    requires forall m :: m in ms ==> envs(w.pending.epochId, m).serve != Unsynced
    ensures NoStaleWrite(cfg, w, ms, now, envs)
    decreases |ms|
  {
    if ms != [] && !w.crashed {
      var m, rest := ms[0], ms[1..];
      var env := envs(w.pending.epochId, m);
      assert Elems(ms) == Elems(rest) + {m} && m !in Elems(rest);
      InStepIsNotStale(cfg, h, w, Elems(ms));
      SettleSettles(cfg, h, w, m, now, env, Elems(rest));
      SettleMoves(cfg, w, m, now, env);
      SyncedServesAreHarmless(cfg, h, SettleMethod(cfg, w, m, now, env), rest, now, envs);
    }
  }

  lemma DropIsSameState(w: Work)
    ensures SameState(w, DropVolatile(w))
    ensures DropVolatile(w).crashed == w.crashed && DropVolatile(w).down == w.down && DropVolatile(w).out == w.out
  {
  }

  /** Settling the epoch of `p` writes nothing on a stale copy. */
  ghost predicate EpochHarmless(cfg: Config, w: Work, p: PendingRecord, now: nat, envs: SettleEnvs) {
    NoStaleWrite(cfg, w.(pending := p), p.methods, now, envs)
  }

  lemma EpochBegins(cfg: Config, h: History, w: Work, p: PendingRecord)
    requires DiskInv(cfg, h, w.served, w.disk)
    requires p.epochId in w.disk.pendingAnchors && w.disk.pendingAnchors[p.epochId] == p
    ensures Settling(cfg, h, w.(pending := p), Elems(p.methods)) && NoDup(p.methods)
  {
    PendingPart(cfg, h, w.served, w.disk);
    assert Copy(cfg.maxFaults, h, w.disk.pendingAnchors, p, Elems(p.methods));
  }

  /**
   * Settling a pending epoch keeps the durable invariant exactly when no write
   * follows a serve that landed but reported an error; it touches no other
   * epoch's record.
   */
  lemma EpochSettles(cfg: Config, h: History, w: Work, p: PendingRecord, now: nat, envs: SettleEnvs)
    requires DiskInv(cfg, h, w.served, w.disk)
    requires p.epochId in w.disk.pendingAnchors && w.disk.pendingAnchors[p.epochId] == p
    ensures
      var w' := SettleEpoch(cfg, w, p, now, envs);
      && (DiskInv(cfg, h, w'.served, w'.disk) <==> EpochHarmless(cfg, w, p, now, envs))
      && Advances(w.disk, w'.disk, p.epochId)
  {
    var begun := w.(pending := p);
    EpochBegins(cfg, h, w, p);
    SettleMethodsExactly(cfg, h, begun, p.methods, now, envs);
    SettleMethodsMoves(cfg, begun, p.methods, now, envs);
    DropIsSameState(SettleMethods(cfg, begun, p.methods, now, envs));
  }

  /** `ps` are the store's records of distinct epochs. */
  ghost predicate Backlogged(anchors: Anchors, ps: seq<PendingRecord>) {
    && (forall i :: 0 <= i < |ps| ==> ps[i].epochId in anchors && anchors[ps[i].epochId] == ps[i])
    && (forall i, j :: 0 <= i < j < |ps| ==> ps[i].epochId != ps[j].epochId)
  }

  lemma BacklogRest(d: Disk, d': Disk, ps: seq<PendingRecord>)
    requires Backlogged(d.pendingAnchors, ps) && ps != [] && Advances(d, d', ps[0].epochId)
    ensures Backlogged(d'.pendingAnchors, ps[1..])
  {
  }

  /** Settling the records `ps` one after the other writes nothing on a stale copy. */
  ghost predicate BacklogHarmless(cfg: Config, w: Work, ps: seq<PendingRecord>, now: nat, envs: SettleEnvs)
    decreases |ps|
  {
    ps == [] || w.crashed ||
    (EpochHarmless(cfg, w, ps[0], now, envs)
     && BacklogHarmless(cfg, SettleEpoch(cfg, w, ps[0], now, envs), ps[1..], now, envs))
  }

  /** The invariant fails after an epoch only because some method of it is pending and served. */
  lemma BrokenIsRevived(cfg: Config, h: History, w: Work, p: PendingRecord, now: nat, envs: SettleEnvs)
      returns (m: Method)
    requires DiskInv(cfg, h, w.served, w.disk) && !EpochHarmless(cfg, w, p, now, envs)
    requires p.epochId in w.disk.pendingAnchors && w.disk.pendingAnchors[p.epochId] == p
    ensures
      var w' := SettleEpoch(cfg, w, p, now, envs);
      Revived(w'.served, w'.disk.pendingAnchors, p.epochId, m)
  {
    var begun := w.(pending := p);
    EpochBegins(cfg, h, w, p);
    m := BrokenMethods(cfg, h, begun, p.methods, now, envs);
    DropIsSameState(SettleMethods(cfg, begun, p.methods, now, envs));
  }

  /** What was served stays served. */
  ghost predicate ServedKept(w: Work, w': Work) {
    forall k :: k in w.served ==> k in w'.served
  }

  lemma ServeKeepsServed(w: Work, m: Method, ws: seq<MintedWitness>, env: SettleEnv)
    ensures ServedKept(w, ServeSet(w, m, ws, env))
  {
  }

  lemma MissingKeepsServed(cfg: Config, w: Work, m: Method, now: nat, env: SettleEnv)
    ensures ServedKept(w, SettleMissing(cfg, w, m, now, env))
  {
  }

  lemma JudgeKeepsServed(cfg: Config, w: Work, m: Method, v: TimestampValue, now: nat, env: SettleEnv)
    ensures ServedKept(w, Judge(cfg, w, m, v, now, env))
  {
    match Decide(w.pending, m, v, cfg.serviceDid, env.mint, env.check)
    case Keep =>
    case Serving(ws) => ServeKeepsServed(w, m, ws, env);
    case NotFoundYet => MissingKeepsServed(cfg, w, m, now, env);
    case FaultyAnchor =>
  }

  lemma SettleKeepsServed(cfg: Config, w: Work, m: Method, now: nat, env: SettleEnv)
    ensures ServedKept(w, SettleMethod(cfg, w, m, now, env))
  {
    if m in cfg.methods {
      AcquireShape(cfg, w, m, now, env);
      var a := Acquire(cfg, w, m, now, env);
      if a.Holds? {
        JudgeKeepsServed(cfg, a.work, m, a.value, now, env);
      }
    }
  }

  lemma {:induction false} MethodsKeepServed(cfg: Config, w: Work, ms: seq<Method>, now: nat, envs: SettleEnvs)
    ensures ServedKept(w, SettleMethods(cfg, w, ms, now, envs))
    decreases |ms|
  {
    if ms != [] && !w.crashed {
      var env := envs(w.pending.epochId, ms[0]);
      SettleKeepsServed(cfg, w, ms[0], now, env);
      MethodsKeepServed(cfg, SettleMethod(cfg, w, ms[0], now, env), ms[1..], now, envs);
    }
  }

  lemma EpochKeepsServed(cfg: Config, w: Work, p: PendingRecord, now: nat, envs: SettleEnvs)
    ensures ServedKept(w, SettleEpoch(cfg, w, p, now, envs))
  {
    MethodsKeepServed(cfg, w.(pending := p), p.methods, now, envs);
    DropIsSameState(SettleMethods(cfg, w.(pending := p), p.methods, now, envs));
  }

  /** Settling other epochs does not mend it. */
  lemma EpochKeepsRevived(cfg: Config, w: Work, p: PendingRecord, now: nat, envs: SettleEnvs, e: nat, m: Method)
    requires Revived(w.served, w.disk.pendingAnchors, e, m) && e != p.epochId
    ensures
      var w' := SettleEpoch(cfg, w, p, now, envs);
      Revived(w'.served, w'.disk.pendingAnchors, e, m)
  {
    var begun := w.(pending := p);
    EpochKeepsServed(cfg, w, p, now, envs);
    SettleMethodsMoves(cfg, begun, p.methods, now, envs);
    DropIsSameState(SettleMethods(cfg, begun, p.methods, now, envs));
  }

  lemma {:induction false} RetryKeepsRevived(cfg: Config, w: Work, ps: seq<PendingRecord>, now: nat, envs: SettleEnvs,
                                             e: nat, m: Method)
    requires Revived(w.served, w.disk.pendingAnchors, e, m) && forall i :: 0 <= i < |ps| ==> ps[i].epochId != e
    ensures
      var w' := Retry(cfg, w, ps, now, envs);
      Revived(w'.served, w'.disk.pendingAnchors, e, m)
    decreases |ps|
  {
    if ps != [] && !w.crashed {
      EpochKeepsRevived(cfg, w, ps[0], now, envs, e, m);
      RetryKeepsRevived(cfg, SettleEpoch(cfg, w, ps[0], now, envs), ps[1..], now, envs, e, m);
    }
  }

  /** A write on a stale copy leaves some method of a pending epoch both pending and served after the backlog. */
  lemma {:induction false} BrokenBacklog(cfg: Config, h: History, w: Work, ps: seq<PendingRecord>, now: nat,
                                         envs: SettleEnvs) returns (e: nat, m: Method)
    requires DiskInv(cfg, h, w.served, w.disk) && Backlogged(w.disk.pendingAnchors, ps)
    requires !BacklogHarmless(cfg, w, ps, now, envs)
    ensures
      var w' := Retry(cfg, w, ps, now, envs);
      e in w.disk.pendingAnchors && Revived(w'.served, w'.disk.pendingAnchors, e, m)
    decreases |ps|
  {
    EpochSettles(cfg, h, w, ps[0], now, envs);
    var w1 := SettleEpoch(cfg, w, ps[0], now, envs);
    if EpochHarmless(cfg, w, ps[0], now, envs) {
      BacklogRest(w.disk, w1.disk, ps);
      e, m := BrokenBacklog(cfg, h, w1, ps[1..], now, envs);
      PendingPart(cfg, h, w.served, w.disk);
    } else {
      e := ps[0].epochId;
      m := BrokenIsRevived(cfg, h, w, ps[0], now, envs);
      RetryKeepsRevived(cfg, w1, ps[1..], now, envs, e, m);
    }
  }

  /**
   * Working through the backlog keeps the durable invariant, crashed or not,
   * exactly when in no epoch a write follows a serve that landed but reported
   * an error.
   */
  lemma {:induction false} RetrySettles(cfg: Config, h: History, w: Work, ps: seq<PendingRecord>, now: nat,
                                        envs: SettleEnvs)
    requires DiskInv(cfg, h, w.served, w.disk) && Backlogged(w.disk.pendingAnchors, ps)
    ensures
      var w' := Retry(cfg, w, ps, now, envs);
      DiskInv(cfg, h, w'.served, w'.disk) <==> BacklogHarmless(cfg, w, ps, now, envs)
    decreases |ps|
  {
    if !BacklogHarmless(cfg, w, ps, now, envs) {
      var e, m := BrokenBacklog(cfg, h, w, ps, now, envs);
      var w' := Retry(cfg, w, ps, now, envs);
      RevivedIsBad(cfg, h, w'.served, w'.disk, e, m);
    } else if ps != [] && !w.crashed {
      EpochSettles(cfg, h, w, ps[0], now, envs);
      var w1 := SettleEpoch(cfg, w, ps[0], now, envs);
      BacklogRest(w.disk, w1.disk, ps);
      RetrySettles(cfg, h, w1, ps[1..], now, envs);
    }
  }

  /** In a backlog whose serve writes never report an error after landing nothing is written on a stale copy. */
  lemma {:induction false} SyncedBacklogIsHarmless(cfg: Config, h: History, w: Work, ps: seq<PendingRecord>, now: nat,
                                                   envs: SettleEnvs)
    requires DiskInv(cfg, h, w.served, w.disk) && Backlogged(w.disk.pendingAnchors, ps)
    requires forall e, m :: envs(e, m).serve != Unsynced
    ensures BacklogHarmless(cfg, w, ps, now, envs)
    decreases |ps|
  {
    if ps != [] && !w.crashed {
      var w1 := SettleEpoch(cfg, w, ps[0], now, envs);
      EpochBegins(cfg, h, w, ps[0]);
      SyncedServesAreHarmless(cfg, h, w.(pending := ps[0]), ps[0].methods, now, envs);
      EpochSettles(cfg, h, w, ps[0], now, envs);
      BacklogRest(w.disk, w1.disk, ps);
      SyncedBacklogIsHarmless(cfg, h, w1, ps[1..], now, envs);
    }
  }

  lemma {:induction false} ListedAt(d: Disk, ids: seq<nat>)
    requires forall e :: e in ids ==> e in d.pendingAnchors
    ensures |Listed(d, ids)| == |ids|
    ensures forall i :: 0 <= i < |ids| ==> Listed(d, ids)[i] == d.pendingAnchors[ids[i]]
    decreases |ids|
  {
    if ids != [] {
      ListedAt(d, ids[1..]);
      assert forall i :: 1 <= i < |ids| ==>
        ids[i] == ids[1..][i - 1] && Listed(d, ids)[i] == Listed(d, ids[1..])[i - 1];
    }
  }

  lemma RecordsNameTheirEpoch(cfg: Config, h: History, served: Ledger, d: Disk)
    requires DiskInv(cfg, h, served, d)
    ensures forall e :: e in d.pendingAnchors ==> d.pendingAnchors[e].epochId == e
  {
    PendingPart(cfg, h, served, d);
  }

  lemma ListedMember(d: Disk, e: nat)
    requires e in d.pendingAnchors
    ensures exists i :: 0 <= i < |PendingEpochs(d)| && PendingEpochs(d)[i] == d.pendingAnchors[e]
  {
    var ids := InOrder(d.pendingAnchors.Keys);
    ListedAt(d, ids);
    assert e in ids;
    var i :| 0 <= i < |ids| && ids[i] == e;
    assert PendingEpochs(d)[i] == d.pendingAnchors[e];
  }

  /** The listing holds every pending record once, oldest first. */
  lemma PendingEpochsAreBacklog(d: Disk)
    requires forall e :: e in d.pendingAnchors ==> d.pendingAnchors[e].epochId == e
    ensures Backlogged(d.pendingAnchors, PendingEpochs(d))
    ensures forall e :: e in d.pendingAnchors ==>
      exists i :: 0 <= i < |PendingEpochs(d)| && PendingEpochs(d)[i] == d.pendingAnchors[e]
    ensures forall i, j :: 0 <= i < j < |PendingEpochs(d)| ==> PendingEpochs(d)[i].epochId < PendingEpochs(d)[j].epochId
  {
    var ids := InOrder(d.pendingAnchors.Keys);
    var ps := PendingEpochs(d);
    ListedAt(d, ids);
    forall i | 0 <= i < |ids|
      ensures ps[i].epochId == ids[i] && ids[i] in d.pendingAnchors && ps[i] == d.pendingAnchors[ids[i]]
    {
      assert ids[i] in ids;
    }
    forall e | e in d.pendingAnchors
      ensures exists i :: 0 <= i < |ps| && ps[i] == d.pendingAnchors[e]
    {
      ListedMember(d, e);
    }
  }
}
