/**
 * What every state of every run guarantees, said once each.
 */
module Guarantees {
  import opened Base
  import opened Accumulation
  import opened Witness
  import opened Storage
  import opened Sealer
  import opened Invariants
  import opened Settle
  import opened Backlog
  import opened Trace
  import opened System
  import opened Runs
  import opened Progress
  import opened Liveness
  import Routes
  import Listings
  import SelfCheck
  import Returns

  // ---- Lookups ----

  ghost predicate LookedUp(d: Disk, k: LeafMethod) {
    k in d.leafToTips || k in d.pendingLeaves
  }

  /** The pending record of epoch `e` lists `k`'s method and holds its leaf. */
  ghost predicate HeldBy(d: Disk, e: nat, k: LeafMethod) {
    && Pends(d.pendingAnchors, e, k.via)
    && LeafHashes(d.pendingAnchors[e].leaves).Ok? && k.leaf in LeafHashes(d.pendingAnchors[e].leaves).value
  }

  lemma SealedLeafIsLookedUp(cfg: Config, w: World, e: nat, leaf: Leaf, m: Method)
    requires WorldInv(cfg, w) && Routes.SealedWith(w.sealed, e, leaf, m)
    ensures LookedUp(w.disk, LeafMethod(leaf, m))
  {
    WorldParts(cfg, w);
    Parts(cfg, w.sealed, w.served, w.disk);
    if LeafMethod(leaf, m) !in w.disk.leafToTips {
      Routes.UntippedIsLookedUp(w.sealed, w.served, w.disk, e, leaf, m);
    }
  }

  lemma LookupIsHeld(cfg: Config, w: World, k: LeafMethod)
    requires WorldInv(cfg, w) && k in w.disk.pendingLeaves
    ensures HeldBy(w.disk, w.disk.pendingLeaves[k], k)
  {
    WorldParts(cfg, w);
    Parts(cfg, w.sealed, w.served, w.disk);
    var e := w.disk.pendingLeaves[k];
    RestoreInvertsStore(w.disk.pendingAnchors[e], w.sealed[e].entries);
    LeavesOfMembers(w.sealed[e].entries);
  }

  /**
   * In every state of every run, a leaf sealed with a method has a tip or a
   * pending lookup for it, and every pending lookup names an epoch whose record
   * still lists the method and holds the leaf; also when leaves are resubmitted
   * and epochs settle out of order.
   */
  lemma EveryRunLooksUpItsLeaves(cfg: Config, now: nat, duration: nat, actions: seq<Action>)
    requires NoDup(cfg.methods) && SafeRun(cfg, System.Fresh(now, duration), actions)
    ensures
      var w := Run(cfg, System.Fresh(now, duration), actions);
      && (forall e: nat, leaf, m :: Routes.SealedWith(w.sealed, e, leaf, m) ==> LookedUp(w.disk, LeafMethod(leaf, m)))
      && (forall k :: k in w.disk.pendingLeaves ==> HeldBy(w.disk, w.disk.pendingLeaves[k], k))
  {
    var w := Run(cfg, System.Fresh(now, duration), actions);
    EveryRunKeepsTheInvariant(cfg, now, duration, actions);
    forall e: nat, leaf, m | Routes.SealedWith(w.sealed, e, leaf, m)
      ensures LookedUp(w.disk, LeafMethod(leaf, m))
    {
      SealedLeafIsLookedUp(cfg, w, e, leaf, m);
    }
    forall k | k in w.disk.pendingLeaves
      ensures HeldBy(w.disk, w.disk.pendingLeaves[k], k)
    {
      LookupIsHeld(cfg, w, k);
    }
  }

  // ---- Answers ----

  /** Never 410, never an internal error; 404 by leaf means never sealed. */
  ghost predicate AnswersWell(cfg: Config, w: World, caller: Did, leaf: Leaf, m: Method, tip: Hash, e: nat,
                              listed: seq<TipPair>) {
    var byLeaf := Routes.ByLeaf(w.disk, cfg.maxFaults, caller, leaf, m);
    && !byLeaf.NotVerifiable? && !byLeaf.Internal?
    && (byLeaf == Routes.NoSuch(Routes.UnknownLeaf) <==> !Routes.SealedLeaf(w.sealed, leaf))
    && (var byTip := Routes.ByTip(w.disk, caller, tip); !byTip.NotVerifiable? && !byTip.Internal?)
    && Listings.UnionAnswer(w.disk, listed, e, m).Found?
  }

  lemma StateAnswersWell(cfg: Config, w: World, caller: Did, leaf: Leaf, m: Method, tip: Hash, e: nat,
                         listed: seq<TipPair>)
    requires WorldInv(cfg, w)
    requires Listings.Enumerates(w.disk.tipToPair, Listings.ListedTips(w.disk.tipToPair, caller, e, m), listed)
    ensures AnswersWell(cfg, w, caller, leaf, m, tip, e, listed)
  {
    WorldParts(cfg, w);
    Routes.ByLeafIsExact(cfg, w.sealed, w.served, w.disk, caller, leaf, m);
    Routes.ByTipIsExact(cfg, w.sealed, w.served, w.disk, caller, tip);
    Listings.UnionIsExact(cfg, w.sealed, w.served, w.disk, caller, e, m, listed);
  }

  /** In every state of every run the answers by leaf, by tip and by epoch are good ones. */
  lemma EveryRunAnswersWell(cfg: Config, now: nat, duration: nat, actions: seq<Action>, caller: Did, leaf: Leaf,
                            m: Method, tip: Hash, e: nat, listed: seq<TipPair>)
    requires NoDup(cfg.methods) && SafeRun(cfg, System.Fresh(now, duration), actions)
    requires
      var pairs := Run(cfg, System.Fresh(now, duration), actions).disk.tipToPair;
      Listings.Enumerates(pairs, Listings.ListedTips(pairs, caller, e, m), listed)
    ensures AnswersWell(cfg, Run(cfg, System.Fresh(now, duration), actions), caller, leaf, m, tip, e, listed)
  {
    EveryRunKeepsTheInvariant(cfg, now, duration, actions);
    StateAnswersWell(cfg, Run(cfg, System.Fresh(now, duration), actions), caller, leaf, m, tip, e, listed);
  }

  /** In every run, a self-checked tip belongs to a set whose every witness was Verified on its own. */
  lemma EveryRunServesOnlyVerified(cfg: Config, now: nat, duration: nat, actions: seq<Action>, t: Hash)
    requires NoDup(cfg.methods) && SafeRun(cfg, System.Fresh(now, duration), actions)
    requires t in Run(cfg, System.Fresh(now, duration), actions).disk.selfChecked
    ensures
      var w := Run(cfg, System.Fresh(now, duration), actions);
      && t in w.disk.tipToPair
      && var k := EpochMethod(w.disk.tipToPair[t].epochId, w.disk.tipToPair[t].via);
         && k in w.served && k.epoch in w.sealed && ServeOk(cfg, k, w.sealed[k.epoch], w.served[k])
         && SelfCheck.EachHolds(w.served[k].witnesses, cfg.serviceDid, w.served[k].check.hosts)
         && TipIn(w.served[k].witnesses, t)
  {
    var w := Run(cfg, System.Fresh(now, duration), actions);
    EveryRunKeepsTheInvariant(cfg, now, duration, actions);
    WorldParts(cfg, w);
    Routes.SelfCheckedTipIsGenuine(cfg, w.sealed, w.served, w.disk, t);
  }

  // ---- One failing call per tick ----

  /** From `start` on, no call of a method follows a failed call, an unstored anchor or an anchor at fault of it. */
  ghost predicate CallsStop(log: seq<Event>, start: nat) {
    start <= |log| && forall i, j, m :: start <= i < j < |log| && Bad(log[i], m) ==> !Call(log[j], m)
  }

  /** No two failed calls from `start` on are of the same method. */
  ghost predicate FailuresDiffer(log: seq<Event>, start: nat) {
    forall i, j :: start <= i < j < |log| && log[i].CallFailedAt? && log[j].CallFailedAt? ==> log[i].via != log[j].via
  }

  lemma LandingIsQuiet(cfg: Config, w: World, s: SealedSnapshot, se: SealedEpoch, down: set<Method>, env: TickEnv,
                       start: nat)
    requires CoreInv(SealedWorld(w, s, se))
    requires start <= |w.log| && Quiet(w.log, start, down)
    ensures CallsStop(AfterLanding(cfg, w, s, se, down, env).log, start)
  {
    SettlePhaseCore(cfg, SealedWorld(w, s, se), s, se, down, env, start);
  }

  lemma CloseIsQuiet(cfg: Config, w: World, down: set<Method>, env: TickEnv, start: nat)
    requires CoreInv(w) && NoDup(cfg.methods) && Admissible(w, Tick(env))
    requires start <= |w.log| && Quiet(w.log, start, down)
    ensures CallsStop(ClosePhase(cfg, w, down, env).log, start)
  {
    if Closed(cfg, w.open.leaves, env).Some? && Lands(env.persist) {
      var s := Swapped(w.open, env.now, env.now, env.duration).0;
      CloseSealsCore(cfg, w, env);
      SwapKeeps(w, env);
      LandingIsQuiet(cfg, SwapPhase(w, env), s, Closed(cfg, s.leaves, env).value, down, env, start);
    } else {
      QuietStops(w.log, start, down);
      UnsealedTickKeepsStore(cfg, w, down, env);
    }
  }

  lemma QuietStops(log: seq<Event>, start: nat, down: set<Method>)
    requires start <= |log| && Quiet(log, start, down)
    ensures CallsStop(log, start)
  {
  }

  /**
   * In a tick, across the whole backlog and the epoch it seals, a method is not
   * called again after a failed call, an anchor that could not be stored, or an
   * anchor at fault; so at most one call of a method fails.
   */
  lemma TickStopsCalling(cfg: Config, w: World, env: TickEnv)
    requires CoreInv(w) && NoDup(cfg.methods) && Admissible(w, Tick(env))
    ensures CallsStop(Ticked(cfg, w, env).log, |w.log|)
    ensures FailuresDiffer(Ticked(cfg, w, env).log, |w.log|)
  {
    if !(env.context && Validate(cfg).Some?) {
      var work, w1 := RetryPhase(cfg, w, env), BeforeClose(cfg, w, env);
      BeforeCloseCore(cfg, w, env);
      QuietStops(w1.log, |w.log|, work.down);
      if !work.crashed {
        CloseIsQuiet(cfg, w1, work.down, env, |w.log|);
      }
    }
    FailingCallsDiffer(Ticked(cfg, w, env).log, |w.log|);
  }

  lemma FailingCallsDiffer(log: seq<Event>, start: nat)
    requires CallsStop(log, start)
    ensures FailuresDiffer(log, start)
  {
    forall i, j | start <= i < j < |log| && log[i].CallFailedAt? && log[j].CallFailedAt?
      ensures log[i].via != log[j].via
    {
      assert Bad(log[i], log[i].via);
    }
  }

  // ---- Oldest first ----

  lemma RetryPhaseOldestFirst(cfg: Config, w: World, env: TickEnv)
    requires CoreInv(w)
    ensures
      var r := RetryPhase(cfg, w, env);
      w.log <= r.log && OldestFirst(r.log, |w.log|, 0)
      && forall i :: |w.log| <= i < |r.log| ==> r.log[i].epoch < w.open.epochId
  {
    CoreParts(w);
    if env.context && env.listed {
      var ps := PendingEpochs(w.disk);
      PendingEpochsAreBacklog(w.disk);
      RetryGoesOldestFirst(cfg, WorkOf(w, {}), ps, env.now, env.settle, 0);
      forall i | 0 <= i < |ps|
        ensures ps[i].epochId < w.open.epochId
      {
        assert ps[i].epochId in w.disk.pendingAnchors;
      }
    }
  }

  /** The events of closing an epoch are its own. */
  lemma CloseLogsItself(cfg: Config, w: World, down: set<Method>, env: TickEnv)
    ensures
      var log' := ClosePhase(cfg, w, down, env).log;
      w.log <= log' && forall i :: |w.log| <= i < |log'| ==> log'[i].epoch == w.open.epochId
  {
    if Closed(cfg, w.open.leaves, env).Some? && Lands(env.persist) {
      var s := Swapped(w.open, env.now, env.now, env.duration).0;
      LandingLogsItself(cfg, SwapPhase(w, env), s, Closed(cfg, s.leaves, env).value, down, env);
    } else {
      UnsealedTickKeepsStore(cfg, w, down, env);
    }
  }

  lemma LandingLogsItself(cfg: Config, w: World, s: SealedSnapshot, se: SealedEpoch, down: set<Method>, env: TickEnv)
    ensures
      var log' := AfterLanding(cfg, w, s, se, down, env).log;
      w.log <= log' && forall i :: |w.log| <= i < |log'| ==> log'[i].epoch == s.epochId
  {
    var p := PendingFor(s.epochId, s.openedAt, s.closedAt, se);
    if p.Some? {
      EpochLogsItself(cfg, WorkOf(SealedWorld(w, s, se), down), p.value, env.now, env.settle);
    }
  }

  /** In a tick the events are of ascending epochs: the backlog oldest first, the epoch just sealed last. */
  lemma TickGoesOldestFirst(cfg: Config, w: World, env: TickEnv)
    requires CoreInv(w)
    ensures w.log <= Ticked(cfg, w, env).log && OldestFirst(Ticked(cfg, w, env).log, |w.log|, 0)
  {
    if !(env.context && Validate(cfg).Some?) {
      var work, w1 := RetryPhase(cfg, w, env), BeforeClose(cfg, w, env);
      RetryPhaseOldestFirst(cfg, w, env);
      BeforeCloseCore(cfg, w, env);
      if !work.crashed {
        CloseLogsItself(cfg, w1, work.down, env);
      }
    }
  }

  // ---- What a tick seals and answers ----

  /** The batch root: over the leaves, in order, with the nonces of this preparation. */
  ghost predicate IsRootOf(root: Root, entries: seq<LeafEntry>, nonces: nat) {
    if entries == [] then root == EmptyRoot
    else
      && root.BatchRoot? && root.nonces == nonces && |root.leaves| == |entries|
      && forall i :: 0 <= i < |entries| ==> root.leaves[i] == entries[i].leaf
  }

  /** What was sealed: the open leaves, in order, with every enabled method if a witness context is wired. */
  ghost predicate SealedAs(cfg: Config, se: SealedEpoch, entries: seq<LeafEntry>, env: TickEnv) {
    && se.entries == entries
    && se.methods == (if env.context && entries != [] then cfg.methods else [])
    && IsRootOf(se.root, entries, if env.prepare.Prepared? then env.prepare.nonces else 0)
  }

  lemma {:induction false} LeavesAt(entries: seq<LeafEntry>)
    ensures |LeavesOf(entries)| == |entries|
    ensures forall i :: 0 <= i < |entries| ==> LeavesOf(entries)[i] == entries[i].leaf
  {
    if entries != [] {
      LeavesAt(entries[..|entries| - 1]);
    }
  }

  lemma ClosedIs(cfg: Config, leaves: seq<LeafEntry>, env: TickEnv)
    ensures Closed(cfg, leaves, env).None? <==> leaves != [] && !env.prepare.Prepared?
    ensures Closed(cfg, leaves, env).Some? ==> SealedAs(cfg, Closed(cfg, leaves, env).value, leaves, env)
  {
    LeavesAt(leaves);
  }

  /** The record of the sealed epoch, as it is stored and returned. */
  ghost predicate IsRecordOf(r: EpochRecord, e: nat, openedAt: nat, closedAt: nat, se: SealedEpoch) {
    && r.id == e && r.openedAt == openedAt && r.closedAt == closedAt
    && r.merkleRoot == se.root && r.leafCount == |se.entries|
  }

  /** The sealed epoch pends with all its methods, no anchor and no fault; without methods it does not pend. */
  ghost predicate PendsFresh(anchors: Anchors, e: nat, openedAt: nat, closedAt: nat, se: SealedEpoch) {
    if se.methods == [] then e !in anchors
    else
      && e in anchors
      && anchors[e] == PendingRecord(epochId := e, openedAt := openedAt, closedAt := closedAt, methods := se.methods,
                                     leaves := StoredLeaves(se.entries), root := se.root, anchors := [], faults := [])
  }

  /** Right after the seal write. */
  lemma SealIs(w: World, s: SealedSnapshot, se: SealedEpoch)
    requires s.epochId !in w.disk.pendingAnchors && s.leaves == se.entries
    ensures
      var w' := SealedWorld(w, s, se);
      && w'.sealed == w.sealed[s.epochId := se]
      && s.epochId in w'.disk.epochs
      && IsRecordOf(w'.disk.epochs[s.epochId], s.epochId, s.openedAt, s.closedAt, se)
      && w'.disk.epochs == w.disk.epochs[s.epochId := w'.disk.epochs[s.epochId]]
      && PendsFresh(w'.disk.pendingAnchors, s.epochId, s.openedAt, s.closedAt, se)
  {
  }

  /** What a tick that sealed has done. */
  ghost predicate SealedByTick(cfg: Config, w: World, w': World, env: TickEnv, r: EpochRecord) {
    var e := w.open.epochId;
    && e in w'.sealed && w'.sealed == w.sealed[e := w'.sealed[e]]
    && SealedAs(cfg, w'.sealed[e], SubmitAll(w.open, env.before).leaves, env)
    && IsRecordOf(r, e, w.open.openedAt, env.now, w'.sealed[e])
    && w'.disk.epochs == w.disk.epochs[e := r]
    && w'.open.openedAt == env.now && ClosesAfter(w'.open.closesAt, env.now, env.duration)
    && w'.open.epochId == (if e < MAX_U64 then e + 1 else MAX_U64) && w'.open.cap == w.open.cap
  }

  lemma ClosedBySealing(cfg: Config, w: World, down: set<Method>, env: TickEnv)
    requires w.open.Valid() && CloseAnswer(cfg, w, down, env).Sealed?
    ensures
      var w', r := ClosePhase(cfg, w, down, env), CloseAnswer(cfg, w, down, env).record;
      var e := w.open.epochId;
      && e in w'.sealed && w'.sealed == w.sealed[e := w'.sealed[e]]
      && SealedAs(cfg, w'.sealed[e], w.open.leaves, env)
      && IsRecordOf(r, e, w.open.openedAt, env.now, w'.sealed[e])
      && w'.disk.epochs == w.disk.epochs[e := r]
      && w'.open == SwapPhase(w, env).open
  {
    var s := Swapped(w.open, env.now, env.now, env.duration).0;
    ClosedIs(cfg, s.leaves, env);
    Returns.ClosedAnswer(cfg, w, down, env);
    SealedCloseWrites(cfg, w, down, env);
    ClosedOpens(cfg, w, down, env);
  }

  lemma ClosedOpens(cfg: Config, w: World, down: set<Method>, env: TickEnv)
    requires CloseAnswer(cfg, w, down, env).Sealed?
    ensures
      var w' := ClosePhase(cfg, w, down, env);
      var s := Swapped(w.open, env.now, env.now, env.duration).0;
      && w'.open == SwapPhase(w, env).open && Closed(cfg, s.leaves, env).Some?
      && w'.sealed == w.sealed[s.epochId := Closed(cfg, s.leaves, env).value]
      && CloseAnswer(cfg, w, down, env).record == RecordFor(s, Closed(cfg, s.leaves, env).value)
  {
    assert SwapPhase(w, env).sealed == w.sealed;
  }

  /**
   * A tick that returns a sealed epoch has sealed the open epoch with every leaf
   * submitted before the swap, all enabled methods and a root over the leaves;
   * the record it stores and returns says so, and the next epoch is open.
   */
  lemma TickSealsTheOpenEpoch(cfg: Config, w: World, env: TickEnv)
    requires w.open.Valid() && TickAnswer(cfg, w, env).Sealed?
    ensures SealedByTick(cfg, w, Ticked(cfg, w, env), env, TickAnswer(cfg, w, env).record)
  {
    var work, w1 := RetryPhase(cfg, w, env), BeforeClose(cfg, w, env);
    Returns.TickAnswered(cfg, w, env);
    RetryFrame(cfg, WorkOf(w, {}), PendingEpochs(w.disk), env.now, env.settle);
    SubmitKeepsTimes(w.open, env.before);
    ClosedBySealing(cfg, w1, work.down, env);
    var next := Swapped(w1.open, env.now, env.now, env.duration).1;
    SubmitKeepsTimes(next, env.after);
    SwapIs(w1.open, env.now, env.now, env.duration);
  }

  /** Submissions change only the leaves of the open epoch. */
  lemma {:induction false} SubmitKeepsTimes(o: OpenEpoch, submits: seq<Submit>)
    requires o.Valid()
    ensures SubmitAll(o, submits).Valid() && SubmitAll(o, submits) == o.(leaves := SubmitAll(o, submits).leaves)
  {
    if submits != [] {
      var n := |submits| - 1;
      SubmitKeepsTimes(o, submits[..n]);
      SubmissionAllOrNothing(SubmitAll(o, submits[..n]), submits[n].batch, submits[n].did);
    }
  }

  /** A context that fails its checks: the first problem is answered, and nothing is touched. */
  lemma RefusedTickTouchesNothing(cfg: Config, w: World, env: TickEnv)
    requires env.context && Validate(cfg).Some?
    ensures Ticked(cfg, w, env) == w && TickAnswer(cfg, w, env) == SealFailed(Validate(cfg).value)
  {
  }

  /** Without a context, or when the backlog cannot be listed, no earlier epoch is settled. */
  lemma UnlistedBacklogIsLeft(cfg: Config, w: World, env: TickEnv)
    requires !env.context || !env.listed
    ensures
      var r := RetryPhase(cfg, w, env);
      r.disk == w.disk && r.served == w.served && r.log == w.log && r.down == {} && r.out == [] && !r.crashed
  {
  }

  /** The answer to closing an epoch of these leaves: by the batch, then the seal write, then its own settling. */
  ghost predicate AnsweredBy(r: TickResult, leaves: seq<LeafEntry>, env: TickEnv) {
    if leaves != [] && env.prepare.PrepareFailed? then r == SealFailed(BatchFailed)
    else if leaves != [] && env.prepare.RootUnreadable? then r == SealFailed(SealError.RootUnreadable)
    else match env.persist
      case Refused => r == SealFailed(StoreFailed)
      case Unsynced => r == SealFailed(StoreFailed)
      case CrashBefore => r == Crashed
      case CrashAfter => r == Crashed
      case Written => r.Sealed? || r == Crashed
  }

  lemma CloseAnswersBy(cfg: Config, w: World, down: set<Method>, env: TickEnv)
    ensures AnsweredBy(CloseAnswer(cfg, w, down, env), w.open.leaves, env)
  {
    ClosedIs(cfg, w.open.leaves, env);
  }

  /** How a tick whose context passes answers. */
  lemma TickAnswersBy(cfg: Config, w: World, env: TickEnv)
    requires !(env.context && Validate(cfg).Some?)
    ensures
      var r := TickAnswer(cfg, w, env);
      if RetryPhase(cfg, w, env).crashed then r == Crashed
      else AnsweredBy(r, SubmitAll(w.open, env.before).leaves, env)
  {
    var work := RetryPhase(cfg, w, env);
    var w1 := Accept(WithWork(w, work), env.before);
    assert w1.open == SubmitAll(w.open, env.before);
    CloseAnswersBy(cfg, w1, work.down, env);
  }

  // ---- Conservation ----

  lemma {:induction false} TicketsCount(e: nat, entries: seq<LeafEntry>)
    ensures |Tickets(e, entries)| == |entries|
  {
    if entries != [] {
      TicketsCount(e, entries[..|entries| - 1]);
    }
  }

  lemma {:induction false} DurableCount(leaves: map<EpochLeaf, Did>)
    ensures |DurableTickets(leaves)| == |leaves|
    decreases |leaves|
  {
    if leaves == map[] {
      assert DurableTickets(leaves) == {};
    } else {
      var k :| k in leaves;
      var rest := leaves - {k};
      assert leaves == rest[k := leaves[k]];
      assert leaves.Keys == rest.Keys + {k};
      DurableCount(rest);
      DurablePut(rest, k, leaves[k]);
    }
  }

  /**
   * In every run each acceptance of a leaf is in exactly one of the open epoch,
   * the sealed epochs and the lost ones, so the accepted leaves are as many as
   * the open ones, the store's total and the lost ones together.
   */
  lemma EveryRunConservesLeaves(cfg: Config, now: nat, duration: nat, actions: seq<Action>)
    requires NoDup(cfg.methods) && AdmissibleRun(cfg, System.Fresh(now, duration), actions)
    ensures
      var w := Run(cfg, System.Fresh(now, duration), actions);
      && w.accepted == OpenTickets(w.open) + SealedTickets(w.disk.epochLeaves) + w.lost
      && |w.accepted| == |w.open.leaves| + Listings.LeafCounts(w.disk.epochs, InOrder(w.disk.epochs.Keys)) + |w.lost|
  {
    var w := Run(cfg, System.Fresh(now, duration), actions);
    EveryRunKeepsTheCore(cfg, now, duration, actions);
    CoreParts(w);
    ConservedCounts(w);
  }

  lemma ConservedCounts(w: World)
    requires StoreInv(w.sealed, w.disk) && Conserved(w)
    ensures |w.accepted| == |w.open.leaves| + Listings.LeafCounts(w.disk.epochs, InOrder(w.disk.epochs.Keys)) + |w.lost|
  {
    TicketsCount(w.open.epochId, w.open.leaves);
    DurableCount(w.disk.epochLeaves);
    Listings.TotalsAreTheSealedLeaves(w.sealed, w.disk);
  }

  // ---- Losses ----

  /** What closing the open epoch loses: its leaves if it is not sealed, the next epoch's if the tick crashes. */
  ghost function CloseLoss(cfg: Config, w: World, down: set<Method>, env: TickEnv): multiset<Ticket> {
    (if w.open.epochId in ClosePhase(cfg, w, down, env).sealed then multiset{} else OpenTickets(w.open))
    + (if CloseAnswer(cfg, w, down, env).Crashed? then OpenTickets(SwapPhase(w, env).open) else multiset{})
  }

  lemma UnsealedLoss(cfg: Config, w: World, down: set<Method>, env: TickEnv)
    requires w.open.epochId !in w.sealed && (Closed(cfg, w.open.leaves, env).None? || !Lands(env.persist))
    ensures ClosePhase(cfg, w, down, env).lost == w.lost + CloseLoss(cfg, w, down, env)
  {
    var s, w1 := Swapped(w.open, env.now, env.now, env.duration).0, SwapPhase(w, env);
    var closed := Closed(cfg, s.leaves, env);
    assert w1.lost == w.lost && w1.sealed == w.sealed;
    if closed.Some? {
      UnwrittenLoss(w1, s, closed.value, env);
    }
  }

  lemma UnwrittenLoss(w: World, s: SealedSnapshot, se: SealedEpoch, env: TickEnv)
    requires !Lands(env.persist)
    ensures
      var w' := AfterFailedWrite(w, s, se, env);
      && w'.sealed == w.sealed
      && w'.lost == w.lost + Tickets(s.epochId, s.leaves)
           + if FailedAnswer(env).Crashed? then OpenTickets(w.open) else multiset{}
  {
  }

  lemma LandedLoss(cfg: Config, w: World, s: SealedSnapshot, se: SealedEpoch, down: set<Method>, env: TickEnv)
    requires Lands(env.persist)
    ensures
      var w' := AfterLanding(cfg, w, s, se, down, env);
      var crashed := if env.persist == Written
        then SettlePhase(cfg, SealedWorld(w, s, se), s, se, down, env).crashed else ResultOf(env.persist) == Crash;
      s.epochId in w'.sealed && w'.lost == w.lost + if crashed then OpenTickets(w.open) else multiset{}
  {
  }

  lemma SealedLoss(cfg: Config, w: World, down: set<Method>, env: TickEnv)
    requires Closed(cfg, w.open.leaves, env).Some? && Lands(env.persist)
    ensures ClosePhase(cfg, w, down, env).lost == w.lost + CloseLoss(cfg, w, down, env)
  {
    var s := Swapped(w.open, env.now, env.now, env.duration).0;
    LandedLoss(cfg, SwapPhase(w, env), s, Closed(cfg, s.leaves, env).value, down, env);
    assert SwapPhase(w, env).lost == w.lost;
  }

  /** What one step loses: the open epoch of a process that stops, and the leaves of an epoch closed but not sealed. */
  ghost function StepLoss(cfg: Config, w: World, a: Action): multiset<Ticket> {
    match a
    case Submission(_) => multiset{}
    case Restart(_, _) => OpenTickets(w.open)
    case Tick(env) =>
      if env.context && Validate(cfg).Some? then multiset{}
      else
        var work := RetryPhase(cfg, w, env);
        var w1 := Accept(WithWork(w, work), env.before);
        if work.crashed then OpenTickets(w1.open) else CloseLoss(cfg, w1, work.down, env)
  }

  /** Each step loses exactly that, so the lost acceptances only grow. */
  lemma StepLosesExactly(cfg: Config, w: World, a: Action)
    requires CoreInv(w)
    ensures Step(cfg, w, a).lost == w.lost + StepLoss(cfg, w, a)
  {
    CoreParts(w);
    if a.Tick? && !(a.env.context && Validate(cfg).Some?) {
      var env := a.env;
      var work := RetryPhase(cfg, w, env);
      var w1 := Accept(WithWork(w, work), env.before);
      SubmitAllGrows(w.open, env.before);
      if !work.crashed {
        if Closed(cfg, w1.open.leaves, env).Some? && Lands(env.persist) {
          SealedLoss(cfg, w1, work.down, env);
        } else {
          UnsealedLoss(cfg, w1, work.down, env);
        }
      }
    }
  }

  /** Over every run the lost acceptances only grow. */
  lemma {:induction false} LostOnlyGrows(cfg: Config, w: World, actions: seq<Action>)
    requires CoreInv(w) && NoDup(cfg.methods) && AdmissibleRun(cfg, w, actions)
    ensures w.lost <= Run(cfg, w, actions).lost
  {
    if actions != [] {
      var n := |actions| - 1;
      LostOnlyGrows(cfg, w, actions[..n]);
      RunCore(cfg, w, actions[..n]);
      StepLosesExactly(cfg, Run(cfg, w, actions[..n]), actions[n]);
    }
  }

  lemma SealedCloseLosesNothing(cfg: Config, w: World, down: set<Method>, env: TickEnv)
    requires CloseAnswer(cfg, w, down, env).Sealed?
    ensures ClosePhase(cfg, w, down, env).lost == w.lost
  {
    var s := Swapped(w.open, env.now, env.now, env.duration).0;
    LandedLoss(cfg, SwapPhase(w, env), s, Closed(cfg, s.leaves, env).value, down, env);
  }

  lemma SealedTickLosesNothing(cfg: Config, w: World, env: TickEnv)
    requires TickAnswer(cfg, w, env).Sealed?
    ensures Ticked(cfg, w, env).lost == w.lost
  {
    Returns.TickAnswered(cfg, w, env);
    var work := RetryPhase(cfg, w, env);
    SealedCloseLosesNothing(cfg, Accept(WithWork(w, work), env.before), work.down, env);
  }

  /** Leaves are lost only by a restart, or by a tick that went past its checks and did not return a sealed epoch. */
  lemma LossNeedsCrashOrError(cfg: Config, w: World, a: Action)
    requires Step(cfg, w, a).lost != w.lost
    ensures a.Restart? || a.Tick?
    ensures a.Tick? ==> !TickAnswer(cfg, w, a.env).Sealed? && !(a.env.context && Validate(cfg).Some?)
  {
    if a.Tick? && TickAnswer(cfg, w, a.env).Sealed? {
      SealedTickLosesNothing(cfg, w, a.env);
    }
  }

  /**
   * An error between the swap and the seal write loses exactly the snapshot, and
   * leaves the epochs in the store as they were.
   */
  lemma FailedSealLosesItsSnapshot(cfg: Config, w: World, env: TickEnv)
    requires w.open.Valid() && !(env.context && Validate(cfg).Some?) && !RetryPhase(cfg, w, env).crashed
    requires
      var open := SubmitAll(w.open, env.before);
      Closed(cfg, open.leaves, env).None? || env.persist == WriteOutcome.Refused
    ensures
      var open := SubmitAll(w.open, env.before);
      var w' := Ticked(cfg, w, env);
      && w'.lost == w.lost + Tickets(open.epochId, open.leaves)
      && w'.disk.epochs == w.disk.epochs && w'.disk.epochLeaves == w.disk.epochLeaves && w'.sealed == w.sealed
  {
    RetryFrame(cfg, WorkOf(w, {}), PendingEpochs(w.disk), env.now, env.settle);
    var w1 := Accept(WithWork(w, RetryPhase(cfg, w, env)), env.before);
    var work := RetryPhase(cfg, w, env);
    FailedCloseDrops(cfg, w1, work.down, env);
  }

  /** A seal write that landed but reported an error: an error is answered, the epoch is sealed, nothing is lost. */
  lemma UnsyncedSealIsSealed(cfg: Config, w: World, down: set<Method>, env: TickEnv)
    requires Closed(cfg, w.open.leaves, env).Some? && env.persist == Unsynced
    ensures CloseAnswer(cfg, w, down, env) == SealFailed(StoreFailed)
    ensures
      var w' := ClosePhase(cfg, w, down, env);
      w.open.epochId in w'.sealed && w.open.epochId in w'.disk.epochs && w'.lost == w.lost
  {
    var s := Swapped(w.open, env.now, env.now, env.duration).0;
    LandedLoss(cfg, SwapPhase(w, env), s, Closed(cfg, s.leaves, env).value, down, env);
  }

  lemma FailedCloseDrops(cfg: Config, w: World, down: set<Method>, env: TickEnv)
    requires Closed(cfg, w.open.leaves, env).None? || env.persist == WriteOutcome.Refused
    ensures
      var w' := ClosePhase(cfg, w, down, env);
      w'.lost == w.lost + Tickets(w.open.epochId, w.open.leaves) && w'.disk == w.disk && w'.sealed == w.sealed
  {
    assert SwapPhase(w, env).lost == w.lost;
  }

  // ---- Epoch ids and sealed epochs ----

  lemma ClosedKeepsSealed(cfg: Config, w: World, a: Action)
    requires CoreInv(w)
    ensures forall e :: e in w.sealed ==> e in Step(cfg, w, a).sealed && Step(cfg, w, a).sealed[e] == w.sealed[e]
  {
    CoreParts(w);
    if a.Tick? && !(a.env.context && Validate(cfg).Some?) {
      var work := RetryPhase(cfg, w, a.env);
      var w1 := Accept(WithWork(w, work), a.env.before);
      SubmitAllGrows(w.open, a.env.before);
      CloseGrows(cfg, w1, work.down, a.env);
    }
  }

  /** What an epoch was sealed with never changes. */
  lemma {:induction false} SealedForGood(cfg: Config, w: World, actions: seq<Action>, e: nat)
    requires CoreInv(w) && NoDup(cfg.methods) && AdmissibleRun(cfg, w, actions) && e in w.sealed
    ensures e in Run(cfg, w, actions).sealed && Run(cfg, w, actions).sealed[e] == w.sealed[e]
  {
    if actions != [] {
      var n := |actions| - 1;
      SealedForGood(cfg, w, actions[..n], e);
      RunCore(cfg, w, actions[..n]);
      ClosedKeepsSealed(cfg, Run(cfg, w, actions[..n]), actions[n]);
    }
  }

  /**
   * Ids are never reused: the epoch a tick seals has an id no record, leaf or
   * pending record of the store has.
   */
  lemma SealHitsFreshKeys(w: World)
    requires CoreInv(w)
    ensures w.open.epochId !in w.disk.epochs && w.open.epochId !in w.disk.pendingAnchors
    ensures forall k :: k in w.disk.epochLeaves ==> k.epoch < w.open.epochId
    ensures forall e :: e in w.disk.epochs ==> e < w.open.epochId
  {
    CoreParts(w);
  }

  /** A tick that seals writes the record of the open epoch over whatever was stored under its id. */
  lemma SealedTickWrites(cfg: Config, w: World, env: TickEnv)
    requires w.open.Valid() && TickAnswer(cfg, w, env).Sealed?
    ensures
      var w' := Ticked(cfg, w, env);
      var r := TickAnswer(cfg, w, env).record;
      && r.id == w.open.epochId && w'.disk.epochs == w.disk.epochs[r.id := r]
      && w'.open.Valid() && w'.open.epochId == SatAdd(r.id, 1)
  {
    var work, w1 := RetryPhase(cfg, w, env), BeforeClose(cfg, w, env);
    Returns.TickAnswered(cfg, w, env);
    RetryFrame(cfg, WorkOf(w, {}), PendingEpochs(w.disk), env.now, env.settle);
    SubmitAllGrows(w.open, env.before);
    SealedCloseWrites(cfg, w1, work.down, env);
  }

  lemma SealedCloseWrites(cfg: Config, w: World, down: set<Method>, env: TickEnv)
    requires w.open.Valid() && CloseAnswer(cfg, w, down, env).Sealed?
    ensures
      var w' := ClosePhase(cfg, w, down, env);
      var r := CloseAnswer(cfg, w, down, env).record;
      && r.id == w.open.epochId && w'.disk.epochs == w.disk.epochs[r.id := r]
      && w'.open.Valid() && w'.open.epochId == SatAdd(r.id, 1)
  {
    var s := Swapped(w.open, env.now, env.now, env.duration).0;
    var w1 := SwapPhase(w, env);
    var se := Closed(cfg, s.leaves, env).value;
    Returns.ClosedAnswer(cfg, w, down, env);
    SubmitAllGrows(Swapped(w.open, env.now, env.now, env.duration).1, env.after);
    var p := PendingFor(s.epochId, s.openedAt, s.closedAt, se);
    if p.Some? {
      EpochFrame(cfg, WorkOf(SealedWorld(w1, s, se), down), p.value, env.now, env.settle);
    }
  }

  /**
   * At the top id no restart is needed to reuse it: two ticks that seal in a row
   * seal the same id, and the second overwrites the record of the first.
   */
  lemma SecondSealAtTheTopOverwrites(cfg: Config, w: World, env1: TickEnv, env2: TickEnv)
    requires w.open.Valid() && w.open.epochId == MAX_U64
    requires TickAnswer(cfg, w, env1).Sealed? && TickAnswer(cfg, Ticked(cfg, w, env1), env2).Sealed?
    ensures
      var w1 := Ticked(cfg, w, env1);
      var w2 := Ticked(cfg, w1, env2);
      var r1, r2 := TickAnswer(cfg, w, env1).record, TickAnswer(cfg, w1, env2).record;
      && r1.id == r2.id == MAX_U64
      && w1.disk.epochs == w.disk.epochs[MAX_U64 := r1] && w2.disk.epochs == w.disk.epochs[MAX_U64 := r2]
  {
    SealedTickWrites(cfg, w, env1);
    SealedTickWrites(cfg, Ticked(cfg, w, env1), env2);
  }

  /** A pending record keeps its epoch's leaves and root through every later run, and its methods only shrink. */
  lemma PendingRecordOnlyShrinks(cfg: Config, w: World, actions: seq<Action>, e: nat)
    requires WorldInv(cfg, w) && NoDup(cfg.methods) && SafeRun(cfg, w, actions)
    requires e in w.sealed && e in Run(cfg, w, actions).disk.pendingAnchors
    ensures e in w.disk.pendingAnchors
    ensures
      var p, p' := w.disk.pendingAnchors[e], Run(cfg, w, actions).disk.pendingAnchors[e];
      && p'.leaves == p.leaves == StoredLeaves(w.sealed[e].entries) && p'.root == p.root == w.sealed[e].root
      && forall m :: m in p'.methods ==> m in p.methods
  {
    var w' := Run(cfg, w, actions);
    RunSince(cfg, w, actions);
    SafeIsAdmissible(cfg, w, actions);
    SealedForGood(cfg, w, actions, e);
    RecordIsOk(cfg, w', e);
    forall m | m in w'.disk.pendingAnchors[e].methods
      ensures Pends(w.disk.pendingAnchors, e, m)
    {
      if !Pends(w.disk.pendingAnchors, e, m) {
        SettledForever(cfg, w, actions, e, m);
      }
    }
    assert w'.disk.pendingAnchors[e].methods[0] in w'.disk.pendingAnchors[e].methods;
    RecordIsOk(cfg, w, e);
  }

  lemma RecordIsOk(cfg: Config, w: World, e: nat)
    requires WorldInv(cfg, w) && e in w.disk.pendingAnchors
    ensures e in w.sealed && RecordOk(cfg.maxFaults, e, w.sealed[e], w.disk.pendingAnchors[e])
  {
    WorldParts(cfg, w);
    PendingPart(cfg, w.sealed, w.served, w.disk);
  }
}
