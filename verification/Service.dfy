/**
 * The running service: a store, the open epoch's accumulator, and the seal
 * tick over both, proved equal to the steps of `System`.
 */
module Service {
  import opened Base
  import opened Accumulation
  import opened Witness
  import opened Storage
  import opened Sealer
  import opened Invariants
  import opened System
  import opened Runs
  import opened Persistence
  import opened SealerMachine

  class Timestamper {
    const store: Store
    var acc: Accumulator
    ghost var sealed: History
    ghost var served: Ledger
    ghost var log: seq<Event>
    ghost var accepted: multiset<Ticket>
    ghost var lost: multiset<Ticket>

    ghost function View(): World
      reads this, store, acc
    {
      World(store.View(), acc.View(), sealed, served, log, accepted, lost)
    }

    /** The service over an empty store. */
    constructor (now: nat, duration: nat)
      ensures View() == System.Fresh(now, duration) && acc.Valid()
      ensures fresh(store) && fresh(acc)
    {
      store := new Store();
      acc := new Accumulator.WithLeafCap(1, now, duration, MAX_LEAVES_PER_EPOCH);
      sealed, served, log, accepted, lost := map[], map[], [], multiset{}, multiset{};
    }

    method Append(submits: seq<Submit>)
      requires acc.Valid() && Slices(submits)
      modifies this`accepted, acc
      ensures acc.Valid() && View() == Accept(old(View()), submits)
    {
      ghost var open := acc.View();
      SubmitEach(acc, submits);
      accepted := accepted + (OpenTickets(acc.View()) - OpenTickets(open));
    }

    /** The restart rule. */
    method NextId() returns (id: nat)
      ensures id == NextEpochId(store.View())
    {
      var last := store.LastSealedEpochId();
      LastIdIsNext(store.View(), last);
      return if last.Some? then SatAdd(last.value, 1) else 1;
    }

    /** The process starts again over its store. */
    method Restart(at: nat, duration: nat)
      modifies this
      ensures fresh(acc) && acc.Valid() && View() == Restarted(old(View()), at, duration)
    {
      var id := NextId();
      lost := lost + OpenTickets(acc.View());
      acc := new Accumulator.WithLeafCap(id, at, duration, MAX_LEAVES_PER_EPOCH);
    }

    /** Work through the backlog; the ticking state it leaves carries the down set and the witnesses. */
    method RetryPending(cfg: Config, env: TickEnv) returns (t: Ticking)
      modifies this`served, this`log, store
      ensures fresh(t) && t.store == store && t.View() == RetryPhase(cfg, old(View()), env)
      ensures served == t.served && log == t.log
    {
      var none := new PendingEpoch.FromRecord(NO_RECORD);
      t := new Ticking(store, none, {}, log, served);
      assert t.View() == WorkOf(View(), {});
      if env.context && env.listed {
        var ps := store.ListPendingEpochs();
        t.RetryAll(cfg, ps, env.now, env.settle);
      }
      served, log := t.served, t.log;
    }

    /** The backlog, with the submissions that arrive meanwhile. */
    method RetryThenAppend(cfg: Config, env: TickEnv)
        returns (crashed: bool, down: set<Method>, out: seq<MintedWitness>)
      requires acc.Valid() && Slices(env.before)
      modifies this`served, this`log, this`accepted, acc, store
      ensures acc.Valid()
      ensures
        var work := RetryPhase(cfg, old(View()), env);
        View() == Accept(WithWork(old(View()), work), env.before)
        && crashed == work.crashed && down == work.down && out == work.out
    {
      var t := RetryPending(cfg, env);
      assert View() == WithWork(old(View()), t.View());
      crashed, down, out := t.crashed, t.down, t.out;
      Append(env.before);
    }

    /** Settle the epoch just sealed. */
    method SettleSealed(cfg: Config, s: SealedSnapshot, ghost se: SealedEpoch, pending: Option<PendingRecord>,
                        down: set<Method>, env: TickEnv)
        returns (crashed: bool, out: seq<MintedWitness>)
      requires pending == PendingFor(s.epochId, s.openedAt, s.closedAt, se)
      modifies this`served, this`log, store
      ensures
        var work := SettlePhase(cfg, old(View()), s, se, down, env);
        View() == WithWork(old(View()), work) && crashed == work.crashed && out == work.out
    {
      var none := new PendingEpoch.FromRecord(NO_RECORD);
      var t := new Ticking(store, none, down, log, served);
      if pending.Some? {
        t.SettleRecord(cfg, pending.value, env.now, env.settle);
      }
      served, log := t.served, t.log;
      return t.crashed, t.out;
    }

    method SettleThenRestart(cfg: Config, s: SealedSnapshot, ghost se: SealedEpoch, pending: Option<PendingRecord>,
                             down: set<Method>, env: TickEnv)
        returns (crashed: bool, out: seq<MintedWitness>)
      requires acc.Valid() && pending == PendingFor(s.epochId, s.openedAt, s.closedAt, se)
      modifies this, store
      ensures acc.Valid() && (acc == old(acc) || fresh(acc))
      ensures View() == AfterSettle(cfg, old(View()), SettlePhase(cfg, old(View()), s, se, down, env), env)
      ensures crashed == SettlePhase(cfg, old(View()), s, se, down, env).crashed
      ensures out == SettlePhase(cfg, old(View()), s, se, down, env).out
    {
      crashed, out := SettleSealed(cfg, s, se, pending, down, env);
      if crashed {
        Restart(env.backAt, env.duration);
      }
    }

    /** The closed epoch and its outstanding methods, written before any anchor call. */
    method PersistClosed(record: EpochRecord, s: SealedSnapshot, ghost se: SealedEpoch,
                         pending: Option<PendingRecord>, o: WriteOutcome)
        returns (r: WriteResult)
      requires record == RecordFor(s, se) && se.entries == s.leaves
      requires pending == PendingFor(s.epochId, s.openedAt, s.closedAt, se)
      modifies this`sealed, this`lost, store
      ensures View() == if Lands(o) then SealedWorld(old(View()), s, se) else Dropped(old(View()), s)
      ensures r == ResultOf(o)
    {
      SealedDiskIs(store.View(), record, se);
      r := store.PersistSealedEpochWithPending(record, s.leaves, [], pending, o);
      if Lands(o) {
        sealed := sealed[s.epochId := se];
      } else {
        lost := lost + Tickets(s.epochId, s.leaves);
      }
    }

    /** The seal write did not return well: an error ends the tick, a crash restarts. */
    method GiveUp(env: TickEnv) returns (r: TickResult)
      requires acc.Valid() && env.persist != Written
      modifies this
      ensures acc.Valid() && (acc == old(acc) || fresh(acc)) && r == FailedAnswer(env)
      ensures View() == if ResultOf(env.persist) == Crash
                        then Restarted(old(View()), env.backAt, env.duration) else old(View())
    {
      if ResultOf(env.persist) == StoreError {
        return SealFailed(StoreFailed);
      }
      Restart(env.backAt, env.duration);
      return Crashed;
    }

    /** Persist the prepared epoch and settle it. */
    method PersistAndSettle(cfg: Config, s: SealedSnapshot, se: SealedEpoch, down: set<Method>, env: TickEnv)
        returns (r: TickResult)
      requires acc.Valid() && Closed(cfg, s.leaves, env) == Some(se)
      modifies this, store
      ensures acc.Valid() && (acc == old(acc) || fresh(acc))
      ensures env.persist != Written ==> View() == AfterFailedWrite(old(View()), s, se, env) && r == FailedAnswer(env)
      ensures env.persist == Written ==>
        var w := SealedWorld(old(View()), s, se);
        var work := SettlePhase(cfg, w, s, se, down, env);
        View() == AfterSettle(cfg, w, work, env) && r == SettleAnswer(s, se, work)
    {
      var pending := if env.context && s.leaves != [] && cfg.methods != []
        then Some(NewPending(s.epochId, s.openedAt, s.closedAt, s.leaves, se.root, cfg.methods)) else None;
      var written := PersistClosed(RecordFor(s, se), s, se, pending, env.persist);
      if written != Done {
        r := GiveUp(env);
        return;
      }
      var crashed, out := SettleThenRestart(cfg, s, se, pending, down, env);
      return if crashed then Crashed else Sealed(RecordFor(s, se), out);
    }

    method SwapOut(env: TickEnv) returns (s: SealedSnapshot)
      requires acc.Valid() && Slices(env.after)
      modifies this`accepted, acc
      ensures acc.Valid() && View() == SwapPhase(old(View()), env)
      ensures s == Swapped(old(acc.View()), env.now, env.now, env.duration).0
    {
      s := acc.SwapAndOpenNext(env.now, env.now, env.duration);
      Append(env.after);
    }

    /** Swap, prepare, persist, settle. */
    method CloseEpoch(cfg: Config, down: set<Method>, env: TickEnv) returns (r: TickResult)
      requires acc.Valid() && Slices(env.after)
      modifies this, acc, store
      ensures acc.Valid() && View() == ClosePhase(cfg, old(View()), down, env)
      ensures r == CloseAnswer(cfg, old(View()), down, env)
    {
      var s := SwapOut(env);
      if s.leaves != [] && !env.prepare.Prepared? {
        lost := lost + Tickets(s.epochId, s.leaves);
        UnpreparedClose(cfg, old(View()), down, env);
        return SealFailed(if env.prepare.RootUnreadable? then SealError.RootUnreadable else BatchFailed);
      }
      r := PersistAndSettle(cfg, s, Closed(cfg, s.leaves, env).value, down, env);
      CloseIs(cfg, old(View()), down, env, View(), r);
    }

    /** One seal tick: the backlog first, then the open epoch. A crash ends it with a restart. */
    method Tick(cfg: Config, env: TickEnv) returns (r: TickResult)
      requires acc.Valid() && Slices(env.before) && Slices(env.after)
      modifies this, acc, store
      ensures acc.Valid() && View() == Ticked(cfg, old(View()), env)
      ensures r == TickAnswer(cfg, old(View()), env)
    {
      if env.context {
        var refused := Validate(cfg);
        if refused.Some? {
          return SealFailed(refused.value);
        }
      }
      var crashed, down, late := RetryThenAppend(cfg, env);
      if crashed {
        Restart(env.backAt, env.duration);
        return Crashed;
      }
      r := CloseEpoch(cfg, down, env);
      if r.Sealed? {
        r := r.(witnesses := late + r.witnesses);
      }
    }
  }

  /** A closed epoch that cannot be prepared: its leaves are lost, and the error is answered. */
  lemma UnpreparedClose(cfg: Config, w: World, down: set<Method>, env: TickEnv)
    requires w.open.leaves != [] && !env.prepare.Prepared?
    ensures
      var s := Swapped(w.open, env.now, env.now, env.duration).0;
      ClosePhase(cfg, w, down, env) == Dropped(SwapPhase(w, env), s)
    ensures CloseAnswer(cfg, w, down, env) ==
      SealFailed(if env.prepare.RootUnreadable? then SealError.RootUnreadable else BatchFailed)
  {
  }

  /** What a tick makes of the world after the swap, and answers, from what it did with the closed epoch. */
  lemma CloseIs(cfg: Config, w: World, down: set<Method>, env: TickEnv, w': World, r: TickResult)
    requires Closed(cfg, w.open.leaves, env).Some?
    requires
      var s := Swapped(w.open, env.now, env.now, env.duration).0;
      var w1, se := SwapPhase(w, env), Closed(cfg, s.leaves, env).value;
      if env.persist != Written then w' == AfterFailedWrite(w1, s, se, env) && r == FailedAnswer(env)
      else
        var w2 := SealedWorld(w1, s, se);
        var work := SettlePhase(cfg, w2, s, se, down, env);
        w' == AfterSettle(cfg, w2, work, env) && r == SettleAnswer(s, se, work)
    ensures w' == ClosePhase(cfg, w, down, env) && r == CloseAnswer(cfg, w, down, env)
  {
  }

  /** Batches are slices, so their length fits the counters. */
  ghost predicate Slices(submits: seq<Submit>) {
    forall i :: 0 <= i < |submits| ==> |submits[i].batch| <= MAX_U64
  }

  /** Submissions, in the order they arrive. */
  method SubmitEach(acc: Accumulator, submits: seq<Submit>)
    requires acc.Valid() && Slices(submits)
    modifies acc
    ensures acc.Valid() && acc.View() == SubmitAll(old(acc.View()), submits)
  {
    for i := 0 to |submits|
      invariant acc.Valid() && acc.View() == SubmitAll(old(acc.View()), submits[..i])
    {
      assert submits[..i + 1][..i] == submits[..i];
      var answer := acc.AppendBatch(submits[i].batch, submits[i].did);
    }
    assert submits[..|submits|] == submits;
  }

  lemma LastIdIsNext(d: Disk, last: Option<nat>)
    requires last.None? <==> d.epochs == map[]
    requires last.Some? ==> last.value in d.epochs && forall e :: e in d.epochs ==> e <= last.value
    ensures NextEpochId(d) == if last.Some? then SatAdd(last.value, 1) else 1
  {
    if last.Some? {
      var greatest := NextAfterLast(d);
    }
  }
}
