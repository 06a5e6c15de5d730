/**
 * The invariant of every run: whatever the providers, verdicts, writes and
 * crashes do, and however submissions fall around the ticks.
 */
module Runs {
  import opened Base
  import opened Accumulation
  import opened Witness
  import opened Storage
  import opened Sealer
  import opened Invariants
  import opened Settle
  import opened Backlog
  import opened Trace
  import opened System

  // ---- Acceptances ----

  lemma Reassociate(a: multiset<Ticket>, b: multiset<Ticket>, c: multiset<Ticket>)
    ensures (a + b) + c == a + (b + c)
  {
  }

  lemma TicketsPush(e: nat, entries: seq<LeafEntry>, init: seq<LeafEntry>)
    requires entries != [] && init == entries[..|entries| - 1]
    ensures
      var last := entries[|entries| - 1];
      Tickets(e, entries) == Tickets(e, init) + multiset{Ticket(e, last.leaf, last.did)}
  {
  }

  lemma InitOfConcat(a: seq<LeafEntry>, b: seq<LeafEntry>)
    requires b != []
    ensures (a + b)[..|a + b| - 1] == a + b[..|b| - 1] && (a + b)[|a + b| - 1] == b[|b| - 1]
  {
  }

  lemma {:induction false} TicketsConcat(e: nat, a: seq<LeafEntry>, b: seq<LeafEntry>)
    ensures Tickets(e, a + b) == Tickets(e, a) + Tickets(e, b)
    decreases |b|
  {
    if b == [] {
      assert a + b == a;
    } else {
      var init, last := b[..|b| - 1], b[|b| - 1];
      InitOfConcat(a, b);
      TicketsConcat(e, a, init);
      TicketsPush(e, a + b, a + init);
      TicketsPush(e, b, init);
      Reassociate(Tickets(e, a), Tickets(e, init), multiset{Ticket(e, last.leaf, last.did)});
    }
  }

  lemma {:induction false} SubmitAllGrows(o: OpenEpoch, submits: seq<Submit>)
    requires o.Valid()
    ensures SubmitAll(o, submits).Valid()
    ensures SubmitAll(o, submits).epochId == o.epochId
    ensures o.leaves <= SubmitAll(o, submits).leaves
  {
    if submits != [] {
      var n := |submits| - 1;
      var before := SubmitAll(o, submits[..n]);
      SubmitAllGrows(o, submits[..n]);
      SubmissionAllOrNothing(before, submits[n].batch, submits[n].did);
    }
  }

  /** Submissions are taken in the order they arrive: one after the other, each on what the ones before left. */
  lemma {:induction false} SubmitsInOrder(o: OpenEpoch, first: seq<Submit>, rest: seq<Submit>)
    ensures SubmitAll(o, first + rest) == SubmitAll(SubmitAll(o, first), rest)
    ensures forall s :: SubmitAll(o, [s]) == Submitted(o, s.batch, s.did).NextOr(o)
  {
    if rest == [] {
      assert first + rest == first;
    } else {
      var n := |rest| - 1;
      assert (first + rest)[..|first + rest| - 1] == first + rest[..n];
      SubmitsInOrder(o, first, rest[..n]);
    }
    forall s
      ensures SubmitAll(o, [s]) == Submitted(o, s.batch, s.did).NextOr(o)
    {
      assert [s][..0] == [];
    }
  }

  /** A leaf accepted into an epoch is in the snapshot the next swap takes of it, whatever is submitted in between. */
  lemma AcceptedLeavesReachTheSnapshot(o: OpenEpoch, batch: seq<Leaf>, did: Did, later: seq<Submit>,
                                       closedAt: nat, nextOpenedAt: nat, duration: nat)
    requires o.Valid() && Submitted(o, batch, did).Accepted?
    ensures
      var accepted := Submitted(o, batch, did);
      var snapshot := Swapped(SubmitAll(accepted.next, later), closedAt, nextOpenedAt, duration).0;
      && snapshot.epochId == accepted.outcome.epochId && accepted.next.leaves <= snapshot.leaves
      && (forall l :: l in batch ==> HasLeaf(snapshot.leaves, l))
  {
    SubmissionAllOrNothing(o, batch, did);
    var next := Submitted(o, batch, did).next;
    SubmitAllGrows(next, later);
    forall l | l in batch
      ensures HasLeaf(SubmitAll(next, later).leaves, l)
    {
      LeafStays(next.leaves, SubmitAll(next, later).leaves, l);
    }
  }

  lemma LeafStays(before: seq<LeafEntry>, after: seq<LeafEntry>, l: Leaf)
    requires before <= after && l in LeafSet(before)
    ensures HasLeaf(after, l)
  {
    LeafSetMember(before, l);
    var i :| 0 <= i < |before| && before[i].leaf == l;
    assert after[i].leaf == l;
  }

  /** Conservation with `flight` out of the open epoch but not yet sealed or lost. */
  ghost predicate ConservedWith(w: World, flight: multiset<Ticket>) {
    w.accepted == OpenTickets(w.open) + SealedTickets(w.disk.epochLeaves) + w.lost + flight
  }

  lemma AcceptKeeps(w: World, submits: seq<Submit>, flight: multiset<Ticket>)
    requires w.open.Valid() && ConservedWith(w, flight)
    ensures
      var w' := Accept(w, submits);
      w'.open.Valid() && w'.open.epochId == w.open.epochId && ConservedWith(w', flight)
  {
    SubmitAllGrows(w.open, submits);
    var o := SubmitAll(w.open, submits);
    var added := o.leaves[|w.open.leaves|..];
    assert o.leaves == w.open.leaves + added;
    TicketsConcat(o.epochId, w.open.leaves, added);
    assert OpenTickets(o) - OpenTickets(w.open) == Tickets(o.epochId, added);
  }

  // ---- Restart ----

  /** `w'` has the store, the history and the log of `w`. */
  ghost predicate SameStore(w: World, w': World) {
    w'.disk == w.disk && w'.sealed == w.sealed && w'.served == w.served && w'.log == w.log
  }

  lemma LastInOrder(ids: set<nat>) returns (last: nat)
    requires ids != {}
    ensures InOrder(ids) != [] && last == InOrder(ids)[|InOrder(ids)| - 1]
    ensures last in ids && forall x :: x in ids ==> x <= last
  {
    var s := InOrder(ids);
    var x :| x in ids;
    assert x in s;
    last := s[|s| - 1];
    assert last in s;
    forall y | y in ids
      ensures y <= last
    {
      assert y in s;
      var i :| 0 <= i < |s| && s[i] == y;
    }
  }

  /** The restart rule, from the greatest persisted id. */
  lemma NextAfterLast(d: Disk) returns (last: nat)
    requires d.epochs != map[]
    ensures last in d.epochs && NextEpochId(d) == SatAdd(last, 1)
    ensures forall e :: e in d.epochs ==> e <= last
  {
    var e :| e in d.epochs;
    assert e in d.epochs.Keys;
    last := LastInOrder(d.epochs.Keys);
  }

  lemma NextEpochIdIsNew(d: Disk)
    requires forall e :: e in d.epochs ==> e < MAX_U64
    ensures forall e :: e in d.epochs ==> e < NextEpochId(d)
  {
    if d.epochs != map[] {
      var last := NextAfterLast(d);
    }
  }

  /**
   * The restart rule gives a fresh id exactly when the last persisted id is
   * below the top of the range; at the top it saturates and reuses it.
   */
  lemma NextEpochIdFreshIff(d: Disk)
    requires d.epochs != map[] && forall e :: e in d.epochs ==> e <= MAX_U64
    ensures NextEpochId(d) !in d.epochs <==> MAX_U64 !in d.epochs
  {
    var last := NextAfterLast(d);
    assert last == MAX_U64 <==> MAX_U64 in d.epochs;
  }

  lemma RestartKeepsIds(w: World, at: nat, duration: nat)
    requires IdsFresh(w) && w.disk.epochs.Keys == w.sealed.Keys
    ensures IdsFresh(Restarted(w, at, duration)) && Restarted(w, at, duration).open.Valid()
  {
    forall e | e in w.disk.epochs
      ensures e < MAX_U64
    {
      assert e in w.sealed;
    }
    NextEpochIdIsNew(w.disk);
    forall e | e in w.sealed
      ensures e < NextEpochId(w.disk)
    {
      assert e in w.disk.epochs;
    }
  }

  /**
   * A restart: the store and its history stay, the open leaves are lost, and an
   * empty epoch opens one past the greatest persisted id (1 over an empty
   * store), under the template's cap, for one duration.
   */
  lemma RestartIs(w: World, at: nat, duration: nat)
    ensures
      var w' := Restarted(w, at, duration);
      && SameStore(w, w') && w'.accepted == w.accepted && w'.lost == w.lost + OpenTickets(w.open)
      && w'.open.leaves == [] && w'.open.openedAt == at && ClosesAfter(w'.open.closesAt, at, duration)
      && w'.open.cap == 0x10_0000
      && (w.disk.epochs == map[] ==> w'.open.epochId == 1)
      && (forall e :: e in w.disk.epochs && (forall q :: q in w.disk.epochs ==> q <= e) ==>
            w'.open.epochId == if e < MAX_U64 then e + 1 else MAX_U64)
  {
    OpenedIs(NextEpochId(w.disk), at, duration, MAX_LEAVES_PER_EPOCH);
    if w.disk.epochs != map[] {
      var last := NextAfterLast(w.disk);
      forall e | e in w.disk.epochs && (forall q :: q in w.disk.epochs ==> q <= e)
        ensures e == last
      {
        assert last <= e && e <= last;
      }
    } else {
      assert w.disk.epochs.Keys == {};
    }
  }

  lemma RestartConserves(w: World, at: nat, duration: nat)
    requires ConservedWith(w, multiset{})
    ensures ConservedWith(Restarted(w, at, duration), multiset{})
  {
  }

  // ---- Sealing an epoch, in tickets ----

  lemma DurablePut(leaves: map<EpochLeaf, Did>, k: EpochLeaf, did: Did)
    requires k !in leaves
    ensures DurableTickets(leaves[k := did]) == DurableTickets(leaves) + {Ticket(k.epoch, k.leaf, did)}
    ensures Ticket(k.epoch, k.leaf, did) !in DurableTickets(leaves)
  {
  }

  lemma SealedTicketsPut(leaves: map<EpochLeaf, Did>, k: EpochLeaf, did: Did)
    requires k !in leaves
    ensures SealedTickets(leaves[k := did]) == SealedTickets(leaves) + multiset{Ticket(k.epoch, k.leaf, did)}
  {
  }

  lemma {:induction false} SealedTicketsGrow(leaves: map<EpochLeaf, Did>, e: nat, entries: seq<LeafEntry>)
    requires DistinctLeaves(entries) && forall k :: k in leaves ==> k.epoch != e
    ensures SealedTickets(PutLeaves(leaves, e, entries)) == SealedTickets(leaves) + Tickets(e, entries)
  {
    if entries != [] {
      var n := |entries| - 1;
      var k := EpochLeaf(e, entries[n].leaf);
      SealedTicketsGrow(leaves, e, entries[..n]);
      PutLeavesAt(leaves, e, entries[..n], k);
      LeafSetMember(entries[..n], entries[n].leaf);
      SealedTicketsPut(PutLeaves(leaves, e, entries[..n]), k, entries[n].did);
    }
  }

  // ---- The phases of a tick ----

  lemma {:induction false} RetryFrame(cfg: Config, w: Work, ps: seq<PendingRecord>, now: nat, envs: SettleEnvs)
    ensures
      var w' := Retry(cfg, w, ps, now, envs);
      && w'.disk.epochs == w.disk.epochs && w'.disk.epochLeaves == w.disk.epochLeaves
      && w'.disk.leafOwner == w.disk.leafOwner
      && (forall k :: k in w.disk.leafToTips ==> k in w'.disk.leafToTips)
    decreases |ps|
  {
    if ps != [] && !w.crashed {
      EpochFrame(cfg, w, ps[0], now, envs);
      RetryFrame(cfg, SettleEpoch(cfg, w, ps[0], now, envs), ps[1..], now, envs);
    }
  }

  lemma EpochFrame(cfg: Config, w: Work, p: PendingRecord, now: nat, envs: SettleEnvs)
    ensures Advances(w.disk, SettleEpoch(cfg, w, p, now, envs).disk, p.epochId)
  {
    SettleMethodsMoves(cfg, w.(pending := p), p.methods, now, envs);
    DropIsSameState(SettleMethods(cfg, w.(pending := p), p.methods, now, envs));
  }

  lemma {:induction false} RetryNames(cfg: Config, h: History, w: Work, ps: seq<PendingRecord>, now: nat,
                                      envs: SettleEnvs)
    requires RecordsNamed(h, w.disk.pendingAnchors) && forall i :: 0 <= i < |ps| ==> ps[i].epochId in h
    ensures RecordsNamed(h, Retry(cfg, w, ps, now, envs).disk.pendingAnchors)
    decreases |ps|
  {
    if ps != [] && !w.crashed {
      EpochFrame(cfg, w, ps[0], now, envs);
      RetryNames(cfg, h, SettleEpoch(cfg, w, ps[0], now, envs), ps[1..], now, envs);
    }
  }

  /** What a tick's work leaves alone of the core. */
  lemma WorkCore(w: World, work: Work)
    requires CoreInv(w) && RecordsNamed(w.sealed, work.disk.pendingAnchors) && LogIn(work.log, w.sealed.Keys)
    requires work.disk.epochs == w.disk.epochs && work.disk.epochLeaves == w.disk.epochLeaves
    ensures CoreInv(WithWork(w, work))
  {
    CoreParts(w);
    CoreOf(WithWork(w, work));
  }

  /** The backlog keeps the core, whatever its writes do, and logs as a tick should. */
  lemma RetryPhaseCore(cfg: Config, w: World, env: TickEnv)
    requires CoreInv(w)
    ensures
      var r := RetryPhase(cfg, w, env);
      && CoreInv(WithWork(w, r))
      && TickLog(r, |w.log|, w.sealed.Keys)
  {
    CoreParts(w);
    if env.context && env.listed {
      var work, ps := WorkOf(w, {}), PendingEpochs(w.disk);
      PendingEpochsAreBacklog(w.disk);
      RetryFrame(cfg, work, ps, env.now, env.settle);
      RetryNames(cfg, w.sealed, work, ps, env.now, env.settle);
      RetryLogs(cfg, work, ps, env.now, env.settle, |w.log|, w.sealed.Keys);
    }
    WorkCore(w, RetryPhase(cfg, w, env));
  }

  /** So does settling an epoch. */
  lemma EpochCore(cfg: Config, w: World, p: PendingRecord, down: set<Method>, env: TickEnv, start: nat)
    requires CoreInv(w) && p.epochId in w.sealed && start <= |w.log| && Quiet(w.log, start, down)
    ensures
      var work := SettleEpoch(cfg, WorkOf(w, down), p, env.now, env.settle);
      CoreInv(WithWork(w, work)) && TickLog(work, start, w.sealed.Keys)
  {
    CoreParts(w);
    EpochFrame(cfg, WorkOf(w, down), p, env.now, env.settle);
    EpochLogs(cfg, WorkOf(w, down), p, env.now, env.settle, start, w.sealed.Keys);
    WorkCore(w, SettleEpoch(cfg, WorkOf(w, down), p, env.now, env.settle));
  }

  lemma SettlePhaseCore(cfg: Config, w: World, s: SealedSnapshot, se: SealedEpoch, down: set<Method>, env: TickEnv,
                        start: nat)
    requires CoreInv(w) && s.epochId in w.sealed
    requires start <= |w.log| && Quiet(w.log, start, down)
    ensures
      var work := SettlePhase(cfg, w, s, se, down, env);
      && CoreInv(WithWork(w, work))
      && TickLog(work, start, w.sealed.Keys)
  {
    var p := PendingFor(s.epochId, s.openedAt, s.closedAt, se);
    if p.Some? {
      EpochCore(cfg, w, p.value, down, env, start);
    } else {
      CoreParts(w);
    }
  }

  lemma EpochsOfInv(w: World)
    requires CoreInv(w)
    ensures w.disk.epochs.Keys == w.sealed.Keys
    ensures forall k :: k in w.disk.epochLeaves ==> k.epoch in w.sealed
    ensures forall e :: e in w.sealed ==> SealedOk(w.sealed[e])
  {
    CoreParts(w);
  }

  /** The swap takes the open leaves out; the next epoch opens above them. */
  lemma SwapKeeps(w: World, env: TickEnv)
    requires CoreInv(w) && w.open.epochId < MAX_U64
    ensures
      var w1 := SwapPhase(w, env);
      && w1.open.Valid() && w1.open.epochId == w.open.epochId + 1 && IdsFresh(w1)
      && ConservedWith(w1, Tickets(w.open.epochId, w.open.leaves))
      && SameStore(w, w1)
  {
    CoreParts(w);
    var next := Swapped(w.open, env.now, env.now, env.duration).1;
    AcceptKeeps(w.(open := next), env.after, Tickets(w.open.epochId, w.open.leaves));
  }

  lemma RestartCore(w: World, at: nat, duration: nat)
    requires CoreInv(w)
    ensures CoreInv(Restarted(w, at, duration))
  {
    CoreParts(w);
    EpochsOfInv(w);
    RestartKeepsIds(w, at, duration);
    RestartConserves(w, at, duration);
    CoreOf(Restarted(w, at, duration));
  }

  /** What a tick closes: the open epoch, with a record that fits. */
  lemma ClosedIsOk(cfg: Config, w: World, env: TickEnv)
    requires CoreInv(w) && NoDup(cfg.methods) && Closed(cfg, w.open.leaves, env).Some?
    ensures
      var s := Swapped(w.open, env.now, env.now, env.duration).0;
      var se := Closed(cfg, s.leaves, env).value;
      s.epochId == w.open.epochId && s.epochId !in w.sealed && se.entries == s.leaves && SealedOk(se)
  {
    CoreParts(w);
  }

  lemma SealedNames(h: History, d: Disk, r: EpochRecord, se: SealedEpoch)
    requires RecordsNamed(h, d.pendingAnchors)
    ensures RecordsNamed(h[r.id := se], AfterSeal(d, r, se).pendingAnchors)
  {
  }

  lemma SealedStore(h: History, d: Disk, r: EpochRecord, se: SealedEpoch)
    requires StoreInv(h, d) && SealedOk(se) && r.id !in h
    requires r.merkleRoot == se.root && r.leafCount == |se.entries|
    ensures StoreInv(h[r.id := se], AfterSeal(d, r, se))
  {
    var d' := AfterSeal(d, r, se);
    SealKeepsEpochs(h, d.epochs, r, se);
    SealKeepsLeaves(h, d.epochLeaves, r.id, se);
    SealedNames(h, d, r, se);
    assert d'.epochs == d.epochs[r.id := r] && d'.epochLeaves == PutLeaves(d.epochLeaves, r.id, se.entries);
  }

  lemma SealedWorldCore(w: World, s: SealedSnapshot, se: SealedEpoch)
    requires StoreInv(w.sealed, w.disk) && SealedOk(se) && se.entries == s.leaves && s.epochId !in w.sealed
    requires w.open.Valid() && IdsFresh(w) && s.epochId < w.open.epochId && s.epochId < MAX_U64
    requires ConservedWith(w, Tickets(s.epochId, s.leaves))
    ensures CoreInv(SealedWorld(w, s, se))
  {
    forall part
      ensures CoreHolds(part, SealedWorld(w, s, se))
    {
      match part
      case Indexed => SealedStore(w.sealed, w.disk, RecordFor(s, se), se);
      case Acceptances => SealedConserves(w, s, se);
      case _ =>
    }
  }

  lemma SealedConserves(w: World, s: SealedSnapshot, se: SealedEpoch)
    requires LeavesInv(w.sealed, w.disk.epochLeaves) && DistinctLeaves(se.entries) && se.entries == s.leaves
    requires s.epochId !in w.sealed && ConservedWith(w, Tickets(s.epochId, s.leaves))
    ensures Conserved(SealedWorld(w, s, se))
  {
    SealedTicketsGrow(w.disk.epochLeaves, s.epochId, se.entries);
    assert SealedWorld(w, s, se).disk.epochLeaves == PutLeaves(w.disk.epochLeaves, s.epochId, se.entries);
  }

  /** The state right after the seal write. */
  lemma CloseSealsCore(cfg: Config, w: World, env: TickEnv)
    requires CoreInv(w) && NoDup(cfg.methods) && Admissible(w, Tick(env))
    requires Closed(cfg, w.open.leaves, env).Some?
    ensures
      var s := Swapped(w.open, env.now, env.now, env.duration).0;
      var se := Closed(cfg, s.leaves, env).value;
      && s.epochId == w.open.epochId && s.epochId !in w.sealed
      && CoreInv(SealedWorld(SwapPhase(w, env), s, se))
  {
    var s := Swapped(w.open, env.now, env.now, env.duration).0;
    CoreParts(w);
    SwapKeeps(w, env);
    ClosedIsOk(cfg, w, env);
    SealedWorldCore(SwapPhase(w, env), s, Closed(cfg, s.leaves, env).value);
  }

  lemma LandingCore(cfg: Config, w: World, s: SealedSnapshot, se: SealedEpoch, down: set<Method>, env: TickEnv,
                    start: nat)
    requires CoreInv(SealedWorld(w, s, se))
    requires start <= |w.log| && Quiet(w.log, start, down)
    ensures CoreInv(AfterLanding(cfg, w, s, se, down, env))
  {
    var w2 := SealedWorld(w, s, se);
    SettlePhaseCore(cfg, w2, s, se, down, env, start);
    RestartCore(w2, env.backAt, env.duration);
    RestartCore(WithWork(w2, SettlePhase(cfg, w2, s, se, down, env)), env.backAt, env.duration);
  }

  lemma DroppedCore(w: World, s: SealedSnapshot)
    requires StoreInv(w.sealed, w.disk) && w.open.Valid() && IdsFresh(w)
    requires ConservedWith(w, Tickets(s.epochId, s.leaves))
    ensures CoreInv(Dropped(w, s))
  {
    CoreOf(Dropped(w, s));
  }

  /** No durable seal: the snapshot is lost, nothing else changes. */
  lemma CloseLosesCore(w: World, env: TickEnv)
    requires CoreInv(w) && w.open.epochId < MAX_U64
    ensures
      var s := Swapped(w.open, env.now, env.now, env.duration).0;
      var w1 := Dropped(SwapPhase(w, env), s);
      CoreInv(w1) && CoreInv(Restarted(w1, env.backAt, env.duration))
  {
    var s := Swapped(w.open, env.now, env.now, env.duration).0;
    CoreParts(w);
    SwapKeeps(w, env);
    DroppedCore(SwapPhase(w, env), s);
    RestartCore(Dropped(SwapPhase(w, env), s), env.backAt, env.duration);
  }

  lemma CloseCore(cfg: Config, w: World, down: set<Method>, env: TickEnv, start: nat)
    requires CoreInv(w) && NoDup(cfg.methods) && Admissible(w, Tick(env))
    requires start <= |w.log| && Quiet(w.log, start, down)
    ensures CoreInv(ClosePhase(cfg, w, down, env))
  {
    if Closed(cfg, w.open.leaves, env).Some? && Lands(env.persist) {
      var s := Swapped(w.open, env.now, env.now, env.duration).0;
      CloseSealsCore(cfg, w, env);
      SwapKeeps(w, env);
      LandingCore(cfg, SwapPhase(w, env), s, Closed(cfg, s.leaves, env).value, down, env, start);
    } else {
      CloseLosesCore(w, env);
    }
  }

  lemma UnsealedTickKeepsStore(cfg: Config, w: World, down: set<Method>, env: TickEnv)
    requires Closed(cfg, w.open.leaves, env).None? || !Lands(env.persist)
    ensures SameStore(w, ClosePhase(cfg, w, down, env))
  {
  }

  lemma AcceptCore(w: World, submits: seq<Submit>)
    requires CoreInv(w)
    ensures CoreInv(Accept(w, submits)) && Accept(w, submits).open.epochId == w.open.epochId
  {
    CoreParts(w);
    AcceptKeeps(w, submits, multiset{});
    CoreOf(Accept(w, submits));
  }

  /** The state in which a tick comes to close the open epoch. */
  ghost function BeforeClose(cfg: Config, w: World, env: TickEnv): World {
    Accept(WithWork(w, RetryPhase(cfg, w, env)), env.before)
  }

  lemma BeforeCloseCore(cfg: Config, w: World, env: TickEnv)
    requires CoreInv(w)
    ensures
      var r, w1 := RetryPhase(cfg, w, env), BeforeClose(cfg, w, env);
      && CoreInv(w1) && w1.open.epochId == w.open.epochId && w1.sealed == w.sealed && w1.served == r.served
      && w1.disk == r.disk && w1.log == r.log && |w.log| <= |w1.log| && Quiet(w1.log, |w.log|, r.down)
  {
    RetryPhaseCore(cfg, w, env);
    AcceptCore(WithWork(w, RetryPhase(cfg, w, env)), env.before);
  }

  lemma TickCore(cfg: Config, w: World, env: TickEnv)
    requires CoreInv(w) && NoDup(cfg.methods) && Admissible(w, Tick(env))
    ensures CoreInv(Ticked(cfg, w, env))
  {
    if !(env.context && Validate(cfg).Some?) {
      var work, w1 := RetryPhase(cfg, w, env), BeforeClose(cfg, w, env);
      BeforeCloseCore(cfg, w, env);
      RestartCore(w1, env.backAt, env.duration);
      if !work.crashed {
        CloseCore(cfg, w1, work.down, env, |w.log|);
      }
    }
  }

  /** Every step keeps the core: the epochs, their leaves, the ids and the acceptances. */
  lemma StepCore(cfg: Config, w: World, a: Action)
    requires CoreInv(w) && NoDup(cfg.methods) && Admissible(w, a)
    ensures CoreInv(Step(cfg, w, a))
  {
    match a
    case Submission(s) => AcceptCore(w, [s]);
    case Tick(env) => TickCore(cfg, w, env);
    case Restart(at, duration) => RestartCore(w, at, duration);
  }

  lemma FreshCore(now: nat, duration: nat)
    ensures CoreInv(System.Fresh(now, duration))
  {
    var w := System.Fresh(now, duration);
    assert SealedTickets(w.disk.epochLeaves) == multiset{};
    CoreOf(w);
  }

  lemma {:induction false} RunCore(cfg: Config, w: World, actions: seq<Action>)
    requires CoreInv(w) && NoDup(cfg.methods) && AdmissibleRun(cfg, w, actions)
    ensures CoreInv(Run(cfg, w, actions))
  {
    if actions != [] {
      var n := |actions| - 1;
      RunCore(cfg, w, actions[..n]);
      StepCore(cfg, Run(cfg, w, actions[..n]), actions[n]);
    }
  }

  /** Every run from an empty store keeps the core, whatever its writes do. */
  lemma EveryRunKeepsTheCore(cfg: Config, now: nat, duration: nat, actions: seq<Action>)
    requires NoDup(cfg.methods) && AdmissibleRun(cfg, System.Fresh(now, duration), actions)
    ensures CoreInv(Run(cfg, System.Fresh(now, duration), actions))
  {
    FreshCore(now, duration);
    RunCore(cfg, System.Fresh(now, duration), actions);
  }

  // ---- The durable invariant, exactly ----

  ghost predicate Good(cfg: Config, w: World) {
    DiskInv(cfg, w.sealed, w.served, w.disk)
  }

  lemma BacklogOf(cfg: Config, w: World)
    requires Good(cfg, w)
    ensures Backlogged(w.disk.pendingAnchors, PendingEpochs(w.disk))
  {
    RecordsNameTheirEpoch(cfg, w.sealed, w.served, w.disk);
    PendingEpochsAreBacklog(w.disk);
  }

  lemma RetryPhaseExactly(cfg: Config, w: World, env: TickEnv)
    requires Good(cfg, w)
    ensures Good(cfg, WithWork(w, RetryPhase(cfg, w, env))) <==> RetryHarmless(cfg, w, env)
  {
    if env.context && env.listed {
      BacklogOf(cfg, w);
      RetrySettles(cfg, w.sealed, WorkOf(w, {}), PendingEpochs(w.disk), env.now, env.settle);
    }
  }

  /** The epoch is sealed, and its methods are pending as the seal left them. */
  ghost predicate PendsAsSealed(w: World, s: SealedSnapshot, se: SealedEpoch) {
    && s.epochId in w.sealed
    && (se.methods != [] ==>
         s.epochId in w.disk.pendingAnchors
         && w.disk.pendingAnchors[s.epochId] == PendingFor(s.epochId, s.openedAt, s.closedAt, se).value)
  }

  lemma SealedIsPending(w: World, s: SealedSnapshot, se: SealedEpoch)
    ensures PendsAsSealed(SealedWorld(w, s, se), s, se)
  {
  }

  lemma SettlePhaseExactly(cfg: Config, w: World, s: SealedSnapshot, se: SealedEpoch, down: set<Method>, env: TickEnv)
    requires Good(cfg, w) && PendsAsSealed(w, s, se)
    ensures Good(cfg, WithWork(w, SettlePhase(cfg, w, s, se, down, env)))
      <==> SettleHarmless(cfg, w, s, se, down, env)
  {
    var p := PendingFor(s.epochId, s.openedAt, s.closedAt, se);
    if p.Some? {
      EpochSettles(cfg, w.sealed, WorkOf(w, down), p.value, env.now, env.settle);
    }
  }

  /** A closed epoch is a new one: its id is above all others and its root is not taken. */
  lemma ClosedIsNew(cfg: Config, w: World, s: SealedSnapshot, env: TickEnv)
    requires CoreInv(w) && NoDup(cfg.methods)
    requires s.epochId == w.open.epochId && s.leaves == w.open.leaves
    requires Admissible(w, Tick(env)) && Closed(cfg, s.leaves, env).Some?
    ensures NewEpoch(w.sealed, s.epochId, Closed(cfg, s.leaves, env).value)
    ensures Closed(cfg, s.leaves, env).value.entries == s.leaves
  {
    CoreParts(w);
    var se := Closed(cfg, s.leaves, env).value;
    EpochsOfInv(w);
    forall q | q in w.sealed && w.sealed[q].root == se.root
      ensures se.root == EmptyRoot
    {
      assert SealedOk(w.sealed[q]);
    }
  }

  /** What a tick seals is a new epoch, and the state right after the seal write is a good one. */
  lemma CloseSeals(cfg: Config, w: World, env: TickEnv)
    requires WorldInv(cfg, w) && NoDup(cfg.methods) && Admissible(w, Tick(env))
    requires Closed(cfg, w.open.leaves, env).Some?
    ensures
      var s := Swapped(w.open, env.now, env.now, env.duration).0;
      var se := Closed(cfg, s.leaves, env).value;
      && s.epochId == w.open.epochId && s.epochId !in w.sealed
      && WorldInv(cfg, SealedWorld(SwapPhase(w, env), s, se))
  {
    var s := Swapped(w.open, env.now, env.now, env.duration).0;
    var se := Closed(cfg, s.leaves, env).value;
    SwapKeeps(w, env);
    CloseSealsCore(cfg, w, env);
    ClosedIsNew(cfg, w, s, env);
    SealKeepsInv(cfg, w.sealed, w.served, w.disk, RecordFor(s, se), se);
  }

  lemma LandingExactly(cfg: Config, w: World, s: SealedSnapshot, se: SealedEpoch, down: set<Method>, env: TickEnv)
    requires Good(cfg, SealedWorld(w, s, se)) && Lands(env.persist)
    ensures Good(cfg, AfterLanding(cfg, w, s, se, down, env)) <==> LandingHarmless(cfg, w, s, se, down, env)
  {
    SealedIsPending(w, s, se);
    SettlePhaseExactly(cfg, SealedWorld(w, s, se), s, se, down, env);
  }

  lemma CloseExactly(cfg: Config, w: World, down: set<Method>, env: TickEnv)
    requires WorldInv(cfg, w) && NoDup(cfg.methods) && Admissible(w, Tick(env))
    ensures Good(cfg, ClosePhase(cfg, w, down, env)) <==> CloseHarmless(cfg, w, down, env)
  {
    if Closed(cfg, w.open.leaves, env).Some? && Lands(env.persist) {
      var s := Swapped(w.open, env.now, env.now, env.duration).0;
      CloseSeals(cfg, w, env);
      LandingExactly(cfg, SwapPhase(w, env), s, Closed(cfg, s.leaves, env).value, down, env);
    } else {
      UnsealedTickKeepsStore(cfg, w, down, env);
    }
  }

  /** Closing the open epoch does not mend an earlier one. */
  lemma CloseKeepsRevived(cfg: Config, w: World, down: set<Method>, env: TickEnv, e: nat, m: Method)
    requires Revived(w.served, w.disk.pendingAnchors, e, m) && e != w.open.epochId
    ensures
      var w' := ClosePhase(cfg, w, down, env);
      Revived(w'.served, w'.disk.pendingAnchors, e, m)
  {
    if Closed(cfg, w.open.leaves, env).Some? && Lands(env.persist) {
      var s := Swapped(w.open, env.now, env.now, env.duration).0;
      LandingKeepsRevived(cfg, SwapPhase(w, env), s, Closed(cfg, s.leaves, env).value, down, env, e, m);
    } else {
      UnsealedTickKeepsStore(cfg, w, down, env);
    }
  }

  lemma LandingKeepsRevived(cfg: Config, w: World, s: SealedSnapshot, se: SealedEpoch, down: set<Method>, env: TickEnv,
                            e: nat, m: Method)
    requires Revived(w.served, w.disk.pendingAnchors, e, m) && e != s.epochId
    ensures
      var w' := AfterLanding(cfg, w, s, se, down, env);
      Revived(w'.served, w'.disk.pendingAnchors, e, m)
  {
    var w2 := SealedWorld(w, s, se);
    var p := PendingFor(s.epochId, s.openedAt, s.closedAt, se);
    assert Revived(w2.served, w2.disk.pendingAnchors, e, m);
    if p.Some? {
      EpochKeepsRevived(cfg, WorkOf(w2, down), p.value, env.now, env.settle, e, m);
    }
  }

  /** A backlog that broke the invariant leaves it broken for the rest of the tick. */
  lemma BrokenTick(cfg: Config, w: World, env: TickEnv)
    requires WorldInv(cfg, w) && !RetryHarmless(cfg, w, env) && !(env.context && Validate(cfg).Some?)
    ensures !Good(cfg, Ticked(cfg, w, env))
  {
    var work, w1, w' := RetryPhase(cfg, w, env), BeforeClose(cfg, w, env), Ticked(cfg, w, env);
    BacklogOf(cfg, w);
    var e, m := BrokenBacklog(cfg, w.sealed, WorkOf(w, {}), PendingEpochs(w.disk), env.now, env.settle);
    CoreParts(w);
    BeforeCloseCore(cfg, w, env);
    assert Revived(w1.served, w1.disk.pendingAnchors, e, m);
    if !work.crashed {
      CloseKeepsRevived(cfg, w1, work.down, env, e, m);
    }
    RevivedIsBad(cfg, w'.sealed, w'.served, w'.disk, e, m);
  }

  lemma BeforeCloseKeeps(cfg: Config, w: World, env: TickEnv)
    requires WorldInv(cfg, w) && RetryHarmless(cfg, w, env)
    ensures WorldInv(cfg, BeforeClose(cfg, w, env)) && WorldInv(cfg, WithWork(w, RetryPhase(cfg, w, env)))
  {
    RetryPhaseExactly(cfg, w, env);
    RetryPhaseCore(cfg, w, env);
    BeforeCloseCore(cfg, w, env);
  }

  lemma TickExactly(cfg: Config, w: World, env: TickEnv)
    requires WorldInv(cfg, w) && NoDup(cfg.methods) && Admissible(w, Tick(env))
    ensures Good(cfg, Ticked(cfg, w, env)) <==> TickHarmless(cfg, w, env)
  {
    if !(env.context && Validate(cfg).Some?) {
      var work, w1 := RetryPhase(cfg, w, env), BeforeClose(cfg, w, env);
      if RetryHarmless(cfg, w, env) {
        BeforeCloseKeeps(cfg, w, env);
        BeforeCloseCore(cfg, w, env);
        if !work.crashed {
          CloseExactly(cfg, w1, work.down, env);
        }
      } else {
        BrokenTick(cfg, w, env);
      }
    }
  }

  /**
   * One step keeps the invariant exactly when in no epoch it settles a write
   * follows a serve that landed but reported an error.
   */
  lemma StepKeepsExactly(cfg: Config, w: World, a: Action)
    requires WorldInv(cfg, w) && NoDup(cfg.methods) && Admissible(w, a)
    ensures WorldInv(cfg, Step(cfg, w, a)) <==> Harmless(cfg, w, a)
  {
    StepCore(cfg, w, a);
    if a.Tick? {
      TickExactly(cfg, w, a.env);
    }
  }

  lemma SyncedCloseIsHarmless(cfg: Config, w: World, down: set<Method>, env: TickEnv)
    requires WorldInv(cfg, w) && NoDup(cfg.methods) && Admissible(w, Tick(env))
    requires forall e, m :: env.settle(e, m).serve != Unsynced
    ensures CloseHarmless(cfg, w, down, env)
  {
    var s := Swapped(w.open, env.now, env.now, env.duration).0;
    var closed := Closed(cfg, s.leaves, env);
    if closed.Some? && env.persist == Written {
      var p := PendingFor(s.epochId, s.openedAt, s.closedAt, closed.value);
      var w2 := SealedWorld(SwapPhase(w, env), s, closed.value);
      CloseSeals(cfg, w, env);
      SealedIsPending(SwapPhase(w, env), s, closed.value);
      if p.Some? {
        EpochBegins(cfg, w2.sealed, WorkOf(w2, down), p.value);
        SyncedServesAreHarmless(cfg, w2.sealed, WorkOf(w2, down).(pending := p.value), p.value.methods, env.now,
                                env.settle);
      }
    }
  }

  /** A tick none of whose serve writes reports an error after landing is harmless. */
  lemma SyncedTickIsHarmless(cfg: Config, w: World, env: TickEnv)
    requires WorldInv(cfg, w) && NoDup(cfg.methods) && Admissible(w, Tick(env))
    requires forall e, m :: env.settle(e, m).serve != Unsynced
    ensures Harmless(cfg, w, Tick(env))
  {
    BacklogOf(cfg, w);
    SyncedBacklogIsHarmless(cfg, w.sealed, WorkOf(w, {}), PendingEpochs(w.disk), env.now, env.settle);
    BeforeCloseKeeps(cfg, w, env);
    BeforeCloseCore(cfg, w, env);
    SyncedCloseIsHarmless(cfg, BeforeClose(cfg, w, env), RetryPhase(cfg, w, env).down, env);
  }

  lemma TickKeeps(cfg: Config, w: World, env: TickEnv)
    requires WorldInv(cfg, w) && NoDup(cfg.methods) && Safe(cfg, w, Tick(env))
    ensures WorldInv(cfg, Ticked(cfg, w, env))
  {
    StepKeepsExactly(cfg, w, Tick(env));
  }

  /** Every state of the run satisfies the invariant. */
  ghost predicate GoodThroughout(cfg: Config, w: World, actions: seq<Action>) {
    if actions == [] then WorldInv(cfg, w) else
      GoodThroughout(cfg, w, actions[..|actions| - 1]) && WorldInv(cfg, Run(cfg, w, actions))
  }

  /**
   * From a good state, all states of a run are good exactly when the run has no
   * write on a stale copy.
   */
  lemma {:induction false} RunKeepsExactly(cfg: Config, w: World, actions: seq<Action>)
    requires WorldInv(cfg, w) && NoDup(cfg.methods) && AdmissibleRun(cfg, w, actions)
    ensures GoodThroughout(cfg, w, actions) <==> SafeRun(cfg, w, actions)
    ensures SafeRun(cfg, w, actions) ==> WorldInv(cfg, Run(cfg, w, actions))
  {
    if actions != [] {
      var n := |actions| - 1;
      RunKeepsExactly(cfg, w, actions[..n]);
      if SafeRun(cfg, w, actions[..n]) {
        StepKeepsExactly(cfg, Run(cfg, w, actions[..n]), actions[n]);
      }
    }
  }

  lemma FreshIsGood(cfg: Config, now: nat, duration: nat)
    ensures WorldInv(cfg, System.Fresh(now, duration))
  {
    EmptyDiskInv(cfg);
    FreshCore(now, duration);
  }

  lemma {:induction false} SafeIsAdmissible(cfg: Config, w: World, actions: seq<Action>)
    requires SafeRun(cfg, w, actions)
    ensures AdmissibleRun(cfg, w, actions)
  {
    if actions != [] {
      SafeIsAdmissible(cfg, w, actions[..|actions| - 1]);
    }
  }

  /**
   * Over a run from an empty store every state satisfies the invariant exactly
   * when in no tick and no epoch a write follows a serve that landed but
   * reported an error.
   */
  lemma EveryRunIsGoodExactly(cfg: Config, now: nat, duration: nat, actions: seq<Action>)
    requires NoDup(cfg.methods) && AdmissibleRun(cfg, System.Fresh(now, duration), actions)
    ensures GoodThroughout(cfg, System.Fresh(now, duration), actions)
      <==> SafeRun(cfg, System.Fresh(now, duration), actions)
  {
    FreshIsGood(cfg, now, duration);
    RunKeepsExactly(cfg, System.Fresh(now, duration), actions);
  }

  /** Every state of every run without such a write satisfies the invariant. */
  lemma EveryRunKeepsTheInvariant(cfg: Config, now: nat, duration: nat, actions: seq<Action>)
    requires NoDup(cfg.methods) && SafeRun(cfg, System.Fresh(now, duration), actions)
    ensures WorldInv(cfg, Run(cfg, System.Fresh(now, duration), actions))
  {
    FreshIsGood(cfg, now, duration);
    SafeIsAdmissible(cfg, System.Fresh(now, duration), actions);
    RunKeepsExactly(cfg, System.Fresh(now, duration), actions);
  }
}
