/**
 * The sealer as the program runs it: a tick that updates the store, the
 * volatile pending record and the down set in place, proved equal, step by
 * step, to the functions of `Sealer`.
 */
module SealerMachine {
  import opened Base
  import opened Witness
  import opened SelfCheck
  import opened Storage
  import opened Sealer
  import opened Persistence

  class Ticking {
    const store: Store
    var pending: PendingEpoch
    var down: set<Method>
    var crashed: bool
    var out: seq<MintedWitness>
    ghost var log: seq<Event>
    ghost var served: map<EpochMethod, Serve>

    ghost function View(): Work
      reads this, store, pending
    {
      Work(store.View(), pending.View(), down, crashed, log, served, out)
    }

    constructor (store: Store, pending: PendingEpoch, down: set<Method>, ghost log: seq<Event>,
                 ghost served: map<EpochMethod, Serve>)
      ensures this.store == store && this.pending == pending
      ensures View() == Work(store.View(), pending.View(), down, false, log, served, [])
    {
      this.store, this.pending, this.down := store, pending, down;
      crashed, out := false, [];
      this.log, this.served := log, served;
    }

    method SavePending(o: WriteOutcome) returns (r: WriteResult)
      modifies this`crashed, store
      ensures View() == Save(old(View()), old(pending.View()), o)
      ensures r == ResultOf(o)
    {
      var record := pending.View();
      r := store.SavePending(record, o);
      crashed := r == Crash;
    }

    /** The record with its new anchor is saved, once more on failure. */
    method StoreAnchor(env: SettleEnv) returns (r: WriteResult)
      modifies this`crashed, store
      ensures View() == Save(old(View()), old(pending.View()), StoreOutcome(env))
      ensures r == ResultOf(StoreOutcome(env))
    {
      ghost var before := View();
      r := SavePending(env.save1);
      if r == StoreError {
        r := SavePending(env.save2);
        SavedTwice(before, before.pending, env);
      }
    }

    /** A just-returned anchor is put in the record and stored before it is used. */
    method TakeAnchor(m: Method, v: TimestampValue, now: nat, env: SettleEnv) returns (r: WriteResult)
      modifies this`crashed, this`log, store, pending
      ensures View() == Save(old(View()).Log(Anchored(old(pending.View()).epochId, m)),
                             old(pending.View()).WithAnchor(m, v, now), StoreOutcome(env))
      ensures r == ResultOf(StoreOutcome(env))
    {
      log := log + [Anchored(pending.epochId, m)];
      pending.SetAnchor(m, v, now);
      r := StoreAnchor(env);
    }

    /** Step 1: the stored anchor, or one provider call; `None` stops the settle. */
    method AcquireAnchor(cfg: Config, m: Method, now: nat, env: SettleEnv) returns (r: Option<TimestampValue>)
      requires !crashed
      modifies this`down, this`crashed, this`log, store, pending
      ensures View() == Acquire(cfg, old(View()), m, now, env).work
      ensures r.Some? == Acquire(cfg, old(View()), m, now, env).Holds?
      ensures r.Some? ==> r.value == Acquire(cfg, old(View()), m, now, env).value && !crashed
    {
      ghost var before := View();
      var held := pending.View().Anchor(m);
      if held.Some? {
        return Some(held.value.value);
      }
      if m in down || pending.View().FaultCount(m) >= cfg.maxFaults {
        return None;
      }
      var e := pending.epochId;
      if env.call.CallFailed? {
        down := down + {m};
        log := log + [CallFailedAt(e, m)];
        return None;
      }
      var stored := TakeAnchor(m, env.call.value, now, env);
      if stored == Done {
        return Some(env.call.value);
      }
      if stored == StoreError {
        down := down + {m};
        log := log + [NotStored(e, m)];
      }
      return None;
    }

    /** Step 2: the witnesses of `m`, when restoring and signing succeed. */
    method MintAll(m: Method, v: TimestampValue, did: Did, o: MintOutcome) returns (r: Option<seq<MintedWitness>>)
      ensures r == Mint(pending.View(), m, v, did, o)
    {
      var restored := Restore(pending.View());
      if restored.Err? || o.MintFailed? {
        return None;
      }
      var batch := restored.value;
      var outcomes := [(m, FromValue(m, v))];
      var signs := (_, _) => true;
      SignsRowsExactly(|batch.entries|, outcomes, signs);
      r := MintWitnessesForEpoch(batch, LeavesOf(batch.entries), outcomes, did, o.salts, _ => true, signs);
      SingleMethodRows(batch, |batch.entries|, m, FromValue(m, v), did, o.salts);
    }

    /** The anchor is counted as a fault and dropped, and the record saved without it. */
    method DiscardAnchor(m: Method, o: WriteOutcome)
      modifies this`crashed, store, pending
      ensures View() == Discard(old(View()), m, o)
    {
      var faults := pending.CountAnchorFault(m);
      pending.DropAnchor(m);
      var saved := SavePending(o);
    }

    method AbandonAnchor(m: Method, ghost x: Event, o: WriteOutcome)
      modifies this`crashed, this`log, store, pending
      ensures View() == Discard(old(View()).Log(x), m, o)
    {
      log := log + [x];
      DiscardAnchor(m, o);
    }

    /** An anchor nobody has seen yet: kept while young, abandoned past the timeout. */
    method HandleMissing(cfg: Config, m: Method, now: nat, env: SettleEnv)
      modifies this`crashed, this`log, store, pending
      ensures View() == SettleMissing(cfg, old(View()), m, now, env)
    {
      ghost var before := View();
      ghost var held := pending.View().Anchor(m);
      var seen := pending.AnchorFirstSeen(m, now);
      if seen.None? {
        MissingWithoutAnchor(cfg, before, m, now, env);
        assert View() == before;
        return;
      }
      var (first, changed) := seen.value;
      if SatSub(now, first) < cfg.notFoundTimeout {
        if changed {
          var saved := SavePending(env.note);
        }
        return;
      }
      AbandonAnchor(m, Abandoned(pending.epochId, m, held.value.value, first, now), env.note);
    }

    /** Step 4: the witnesses and the method's removal, in one commit. */
    method ServeWitnesses(m: Method, ws: seq<MintedWitness>, env: SettleEnv)
      requires !crashed
      modifies this`crashed, this`log, this`served, this`out, store, pending
      ensures View() == ServeSet(old(View()), m, ws, env)
    {
      ghost var before := View();
      var remaining := pending.View().Without(m);
      var r := store.PersistPendingMinted(remaining, m, ws, env.serve);
      ghost var anchors := before.disk.pendingAnchors;
      ghost var record := if pending.epochId in anchors then Some(anchors[pending.epochId]) else None;
      if MintedDisk(before.disk, remaining, m, ws).Ok? && Lands(env.serve) {
        served := served[EpochMethod(pending.epochId, m) := Serve(record, ws, env.mint, env.check)];
        log := log + [ServedAt(pending.epochId, m)];
      }
      if r == StoreError {
        return;
      }
      crashed := r == Crash;
      if Lands(env.serve) {
        out := out + ws;
        pending.Become(remaining);
      }
    }

    /** An anchor at fault: no further call of its method this tick, and it is discarded. */
    method BlameAnchor(m: Method, v: TimestampValue, o: WriteOutcome)
      modifies this`down, this`crashed, this`log, store, pending
      ensures View() == Discard(old(View()).Down(m).Log(AtFault(old(pending.View()).epochId, m, v)), m, o)
    {
      down := down + {m};
      log := log + [AtFault(pending.epochId, m, v)];
      DiscardAnchor(m, o);
    }

    /** Take one pending (epoch, method) as far as it goes this tick. */
    method Settle(cfg: Config, m: Method, now: nat, env: SettleEnv)
      requires !crashed
      modifies this`down, this`crashed, this`log, this`served, this`out, store, pending
      ensures View() == SettleMethod(cfg, old(View()), m, now, env)
    {
      if m !in cfg.methods {
        return;
      }
      var value := AcquireAnchor(cfg, m, now, env);
      if value.None? {
        return;
      }
      JudgeAndServe(cfg, m, value.value, now, env);
    }

    /** Steps 2 and 3: mint, check, and let the first verdict that is not Verified decide. */
    method MintAndCheck(cfg: Config, m: Method, v: TimestampValue, env: SettleEnv) returns (d: Decision)
      ensures d == Decide(pending.View(), m, v, cfg.serviceDid, env.mint, env.check)
    {
      var minted := MintAll(m, v, cfg.serviceDid, env.mint);
      if minted.None? {
        return Keep;
      }
      var verdict := FirstVerdict(minted.value, CheckAll(minted.value, cfg.serviceDid, env.check));
      match verdict
      case Verified => return Serving(minted.value);
      case NotYet(_) => return Keep;
      case Missing(_) => return NotFoundYet;
      case Failed(_, atFault) => return if atFault then FaultyAnchor else Keep;
    }

    /** Steps 2 to 4. */
    method JudgeAndServe(cfg: Config, m: Method, v: TimestampValue, now: nat, env: SettleEnv)
      requires !crashed
      modifies this`down, this`crashed, this`log, this`served, this`out, store, pending
      ensures View() == Judge(cfg, old(View()), m, v, now, env)
    {
      var decision := MintAndCheck(cfg, m, v, env);
      match decision
      case Keep =>
      case Serving(ws) => ServeWitnesses(m, ws, env);
      case NotFoundYet => HandleMissing(cfg, m, now, env);
      case FaultyAnchor => BlameAnchor(m, v, env.note);
    }

    /** Every method the record lists at the start, in order, until a crash. */
    method SettleAll(cfg: Config, now: nat, envs: SettleEnvs)
      requires !crashed
      modifies this`down, this`crashed, this`log, this`served, this`out, store, pending
      ensures View() == SettleMethods(cfg, old(View()), old(pending.methods), now, envs)
    {
      ghost var start := View();
      var ms := pending.methods;
      var i := 0;
      while i < |ms|
        invariant 0 <= i <= |ms| && !crashed
        invariant SettleMethods(cfg, start, ms, now, envs) == SettleMethods(cfg, View(), ms[i..], now, envs)
      {
        ghost var before := View();
        Settle(cfg, ms[i], now, envs(pending.epochId, ms[i]));
        assert ms[i..][1..] == ms[i + 1..];
        i := i + 1;
        if crashed {
          return;
        }
      }
    }

    /** One pending epoch, on a copy of its record that is dropped afterwards. */
    method SettleRecord(cfg: Config, p: PendingRecord, now: nat, envs: SettleEnvs)
      requires !crashed
      modifies this, store
      ensures View() == SettleEpoch(cfg, old(View()), p, now, envs)
      ensures fresh(pending)
    {
      pending := new PendingEpoch.FromRecord(p);
      SettleAll(cfg, now, envs);
      log := DropVolatile(View()).log;
    }

    /** The backlog, oldest epoch first, until a crash. */
    method RetryAll(cfg: Config, ps: seq<PendingRecord>, now: nat, envs: SettleEnvs)
      requires !crashed
      modifies this, store
      ensures View() == Retry(cfg, old(View()), ps, now, envs)
      ensures ps == [] ==> pending == old(pending)
      ensures fresh(pending) || pending == old(pending)
    {
      ghost var start := View();
      var i := 0;
      while i < |ps|
        invariant 0 <= i <= |ps| && !crashed
        invariant fresh(pending) || pending == old(pending)
        invariant i == 0 ==> pending == old(pending)
        invariant Retry(cfg, start, ps, now, envs) == Retry(cfg, View(), ps[i..], now, envs)
      {
        SettleRecord(cfg, ps[i], now, envs);
        assert ps[i..][1..] == ps[i + 1..];
        i := i + 1;
        if crashed {
          return;
        }
      }
    }
  }

  /** A second save after an error leaves what the outcome of both says. */
  lemma SavedTwice(w: Work, p: PendingRecord, env: SettleEnv)
    requires ResultOf(env.save1) == StoreError && w.pending == p
    ensures Save(Save(w, p, env.save1), p, env.save2) == Save(w, p, StoreOutcome(env))
    ensures ResultOf(env.save2) == ResultOf(StoreOutcome(env))
  {
  }

  lemma MissingWithoutAnchor(cfg: Config, w: Work, m: Method, now: nat, env: SettleEnv)
    requires w.pending.Anchor(m).None?
    ensures w.pending.WithFirstSeen(m, now) == w.pending && SettleMissing(cfg, w, m, now, env) == w
  {
  }

  /** The scan over witnesses zipped with verdicts, up to the first that is not Verified. */
  method FirstVerdict(ws: seq<MintedWitness>, verdicts: seq<Verdict>) returns (v: Verdict)
    ensures v == FirstBad(|ws|, verdicts)
  {
    for i := 0 to Min(|ws|, |verdicts|)
      invariant FirstBad(|ws|, verdicts) == FirstBad(|ws| - i, verdicts[i..])
    {
      if verdicts[i] != Verified {
        return verdicts[i];
      }
    }
    return Verified;
  }
}
