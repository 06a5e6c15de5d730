/**
 * The whole pipeline as one state machine: submissions, ticks and restarts
 * over the durable store and the open epoch, and the invariant of every run.
 */
module System {
  import opened Base
  import opened Accumulation
  import opened Witness
  import opened Storage
  import opened Sealer
  import opened Invariants
  import opened Settle
  import opened Backlog

  datatype Submit = Submit(batch: seq<Leaf>, did: Did)

  /** One acceptance of a leaf into an epoch. */
  datatype Ticket = Ticket(epoch: nat, leaf: Leaf, did: Did)

  /**
   * The store and the open epoch, and (ghost) what was sealed and served, the
   * event log, and the acceptances made and lost.
   */
  datatype World = World(
    disk: Disk, open: OpenEpoch,
    sealed: History, served: Ledger, log: seq<Event>,
    accepted: multiset<Ticket>, lost: multiset<Ticket>)

  datatype PrepareOutcome = Prepared(nonces: nat) | PrepareFailed | RootUnreadable

  /**
   * One tick: the clock, whether a witness context is wired, whether the
   * backlog could be listed, every settle, the batch preparation, the seal
   * write, submissions arriving before and after the swap, and when the
   * process is back up after a crash.
   */
  datatype TickEnv = TickEnv(
    now: nat, duration: nat, context: bool, listed: bool, settle: SettleEnvs,
    before: seq<Submit>, prepare: PrepareOutcome, persist: WriteOutcome, after: seq<Submit>, backAt: nat)

  datatype Action = Submission(submit: Submit) | Tick(env: TickEnv) | Restart(at: nat, duration: nat)

  // ---- Acceptances ----

  function Tickets(e: nat, entries: seq<LeafEntry>): multiset<Ticket> {
    if entries == [] then multiset{} else
      var n := |entries| - 1;
      Tickets(e, entries[..n]) + multiset{Ticket(e, entries[n].leaf, entries[n].did)}
  }

  function OpenTickets(o: OpenEpoch): multiset<Ticket> {
    Tickets(o.epochId, o.leaves)
  }

  function SubmitAll(o: OpenEpoch, submits: seq<Submit>): OpenEpoch {
    if submits == [] then o else
      var n := |submits| - 1;
      var before := SubmitAll(o, submits[..n]);
      Submitted(before, submits[n].batch, submits[n].did).NextOr(before)
  }

  /** The world after submissions: the epoch they leave, and their acceptances. */
  ghost function Accept(w: World, submits: seq<Submit>): World {
    var o := SubmitAll(w.open, submits);
    w.(open := o, accepted := w.accepted + (OpenTickets(o) - OpenTickets(w.open)))
  }

  // ---- Restart ----

  /** The next epoch id after a restart: one past the last persisted id, or 1. */
  ghost function NextEpochId(d: Disk): nat {
    var ids := InOrder(d.epochs.Keys);
    if ids == [] then 1 else SatAdd(ids[|ids| - 1], 1)
  }

  /** The process comes back: the open epoch is gone, the store is as it was. */
  ghost function Restarted(w: World, at: nat, duration: nat): World {
    w.(open := Opened(NextEpochId(w.disk), at, duration, MAX_LEAVES_PER_EPOCH),
       lost := w.lost + OpenTickets(w.open))
  }

  // ---- A tick ----

  const NO_RECORD: PendingRecord := PendingRecord(0, 0, 0, [], [], EmptyRoot, [], [])

  ghost function WorkOf(w: World, down: set<Method>): Work {
    Work(w.disk, NO_RECORD, down, false, w.log, w.served, [])
  }

  ghost function WithWork(w: World, work: Work): World {
    w.(disk := work.disk, served := work.served, log := work.log)
  }

  ghost function RetryPhase(cfg: Config, w: World, env: TickEnv): Work {
    if env.context && env.listed
    then Retry(cfg, WorkOf(w, {}), PendingEpochs(w.disk), env.now, env.settle)
    else WorkOf(w, {})
  }

  /** What the closed epoch is sealed as: prepared and with a readable root, unless it is empty. */
  function Closed(cfg: Config, leaves: seq<LeafEntry>, env: TickEnv): Option<SealedEpoch> {
    if leaves == [] then Some(SealedEpoch([], [], EmptyRoot))
    else if env.prepare.Prepared?
    then
      var methods := if env.context then cfg.methods else [];
      Some(SealedEpoch(leaves, methods, BatchRoot(LeavesOf(leaves), env.prepare.nonces)))
    else None
  }

  function RecordFor(s: SealedSnapshot, se: SealedEpoch): EpochRecord {
    EpochRecord(s.epochId, s.openedAt, s.closedAt, se.root, |s.leaves|)
  }

  /** The snapshot's leaves are in memory only: an error or a crash here loses them. */
  ghost function Dropped(w: World, s: SealedSnapshot): World {
    w.(lost := w.lost + Tickets(s.epochId, s.leaves))
  }

  /** The seal write landed: the epoch is durable, with its pending record. */
  ghost function SealedWorld(w: World, s: SealedSnapshot, se: SealedEpoch): World {
    w.(disk := AfterSeal(w.disk, RecordFor(s, se), se), sealed := w.sealed[s.epochId := se])
  }

  /** Settling the epoch just sealed. */
  ghost function SettlePhase(cfg: Config, w: World, s: SealedSnapshot, se: SealedEpoch, down: set<Method>,
                             env: TickEnv): Work {
    var p := PendingFor(s.epochId, s.openedAt, s.closedAt, se);
    if p.None? then WorkOf(w, down) else SettleEpoch(cfg, WorkOf(w, down), p.value, env.now, env.settle)
  }

  /** The seal write landed: what follows in the tick. */
  ghost function AfterLanding(cfg: Config, w: World, s: SealedSnapshot, se: SealedEpoch, down: set<Method>,
                              env: TickEnv): World {
    var w2 := SealedWorld(w, s, se);
    if env.persist == Written then AfterSettle(cfg, w2, SettlePhase(cfg, w2, s, se, down, env), env)
    else if ResultOf(env.persist) == Crash then Restarted(w2, env.backAt, env.duration)
    else w2
  }

  /** The settled world, restarted if settling crashed. */
  ghost function AfterSettle(cfg: Config, w: World, work: Work, env: TickEnv): World {
    if work.crashed then Restarted(WithWork(w, work), env.backAt, env.duration) else WithWork(w, work)
  }

  /** The seal write errs or crashes: the epoch is sealed all the same if the write landed, lost otherwise. */
  ghost function AfterFailedWrite(w: World, s: SealedSnapshot, se: SealedEpoch, env: TickEnv): World {
    var w' := if Lands(env.persist) then SealedWorld(w, s, se) else Dropped(w, s);
    if ResultOf(env.persist) == Crash then Restarted(w', env.backAt, env.duration) else w'
  }

  /** The swap, with the submissions that arrive after it. */
  ghost function SwapPhase(w: World, env: TickEnv): World {
    Accept(w.(open := Swapped(w.open, env.now, env.now, env.duration).1), env.after)
  }

  ghost function ClosePhase(cfg: Config, w: World, down: set<Method>, env: TickEnv): World {
    var s := Swapped(w.open, env.now, env.now, env.duration).0;
    var w1 := SwapPhase(w, env);
    var closed := Closed(cfg, s.leaves, env);
    if closed.None? then Dropped(w1, s)
    else if !Lands(env.persist) then AfterFailedWrite(w1, s, closed.value, env)
    else AfterLanding(cfg, w1, s, closed.value, down, env)
  }

  ghost function Ticked(cfg: Config, w: World, env: TickEnv): World {
    if env.context && Validate(cfg).Some? then w
    else
      var work := RetryPhase(cfg, w, env);
      var w1 := Accept(WithWork(w, work), env.before);
      if work.crashed then Restarted(w1, env.backAt, env.duration) else ClosePhase(cfg, w1, work.down, env)
  }

  ghost function Step(cfg: Config, w: World, a: Action): World {
    match a
    case Submission(s) => Accept(w, [s])
    case Tick(env) => Ticked(cfg, w, env)
    case Restart(at, duration) => Restarted(w, at, duration)
  }

  // ---- What a tick returns ----

  datatype TickResult =
    | Sealed(record: EpochRecord, witnesses: seq<MintedWitness>)
    | SealFailed(error: SealError)
    | Crashed

  /** The seal write erred or crashed. */
  ghost function FailedAnswer(env: TickEnv): TickResult {
    if ResultOf(env.persist) == Crash then Crashed else SealFailed(StoreFailed)
  }

  ghost function SettleAnswer(s: SealedSnapshot, se: SealedEpoch, work: Work): TickResult {
    if work.crashed then Crashed else Sealed(RecordFor(s, se), work.out)
  }

  ghost function CloseAnswer(cfg: Config, w: World, down: set<Method>, env: TickEnv): TickResult {
    var s := Swapped(w.open, env.now, env.now, env.duration).0;
    var closed := Closed(cfg, s.leaves, env);
    if closed.None? then SealFailed(if env.prepare.RootUnreadable? then SealError.RootUnreadable else BatchFailed)
    else if env.persist != Written then FailedAnswer(env)
    else
      var w2 := SealedWorld(SwapPhase(w, env), s, closed.value);
      SettleAnswer(s, closed.value, SettlePhase(cfg, w2, s, closed.value, down, env))
  }

  /** The record of the epoch sealed, and the witnesses: late ones of earlier epochs first. */
  ghost function TickAnswer(cfg: Config, w: World, env: TickEnv): TickResult {
    if env.context && Validate(cfg).Some? then SealFailed(Validate(cfg).value)
    else
      var work := RetryPhase(cfg, w, env);
      if work.crashed then Crashed
      else
        var r := CloseAnswer(cfg, Accept(WithWork(w, work), env.before), work.down, env);
        if r.Sealed? then r.(witnesses := work.out + r.witnesses) else r
  }

  /** What is assumed of a step: shielding nonces are fresh, and epoch ids stay below the top of their range. */
  ghost predicate Admissible(w: World, a: Action) {
    match a
    case Tick(env) =>
      && w.open.epochId < MAX_U64
      && (env.prepare.Prepared? ==> forall e :: e in w.sealed && w.sealed[e].root.BatchRoot? ==>
           w.sealed[e].root.nonces != env.prepare.nonces)
    case _ => true
  }

  // ---- Steps without a write on a stale copy ----

  ghost predicate RetryHarmless(cfg: Config, w: World, env: TickEnv) {
    env.context && env.listed ==>
      BacklogHarmless(cfg, WorkOf(w, {}), PendingEpochs(w.disk), env.now, env.settle)
  }

  ghost predicate SettleHarmless(cfg: Config, w: World, s: SealedSnapshot, se: SealedEpoch, down: set<Method>,
                                 env: TickEnv) {
    var p := PendingFor(s.epochId, s.openedAt, s.closedAt, se);
    p.Some? ==> EpochHarmless(cfg, WorkOf(w, down), p.value, env.now, env.settle)
  }

  /** The epoch just sealed is settled only if its seal write returned well. */
  ghost predicate LandingHarmless(cfg: Config, w: World, s: SealedSnapshot, se: SealedEpoch, down: set<Method>,
                                  env: TickEnv) {
    env.persist == Written ==> SettleHarmless(cfg, SealedWorld(w, s, se), s, se, down, env)
  }

  ghost predicate CloseHarmless(cfg: Config, w: World, down: set<Method>, env: TickEnv) {
    var s := Swapped(w.open, env.now, env.now, env.duration).0;
    var closed := Closed(cfg, s.leaves, env);
    closed.Some? ==> LandingHarmless(cfg, SwapPhase(w, env), s, closed.value, down, env)
  }

  ghost predicate TickHarmless(cfg: Config, w: World, env: TickEnv) {
    || (env.context && Validate(cfg).Some?)
    || (RetryHarmless(cfg, w, env)
        && var work := RetryPhase(cfg, w, env);
           work.crashed || CloseHarmless(cfg, Accept(WithWork(w, work), env.before), work.down, env))
  }

  /**
   * In no epoch this step settles does a write follow a serve that landed but
   * reported an error.
   */
  ghost predicate Harmless(cfg: Config, w: World, a: Action) {
    a.Tick? ==> TickHarmless(cfg, w, a.env)
  }

  ghost predicate Safe(cfg: Config, w: World, a: Action) {
    Admissible(w, a) && Harmless(cfg, w, a)
  }

  ghost function Run(cfg: Config, w: World, actions: seq<Action>): World {
    if actions == [] then w else
      var n := |actions| - 1;
      Step(cfg, Run(cfg, w, actions[..n]), actions[n])
  }

  ghost predicate AdmissibleRun(cfg: Config, w: World, actions: seq<Action>) {
    if actions == [] then true else
      var n := |actions| - 1;
      AdmissibleRun(cfg, w, actions[..n]) && Admissible(Run(cfg, w, actions[..n]), actions[n])
  }

  ghost predicate SafeRun(cfg: Config, w: World, actions: seq<Action>) {
    if actions == [] then true else
      var n := |actions| - 1;
      SafeRun(cfg, w, actions[..n]) && Safe(cfg, Run(cfg, w, actions[..n]), actions[n])
  }

  function Fresh(now: nat, duration: nat): World {
    World(EMPTY_DISK, Opened(1, now, duration, MAX_LEAVES_PER_EPOCH), map[], map[], [], multiset{}, multiset{})
  }

  // ---- The invariant of a run ----

  /** The acceptances an epoch's durable leaf index stands for. */
  ghost function DurableTickets(leaves: map<EpochLeaf, Did>): set<Ticket> {
    set k | k in leaves :: Ticket(k.epoch, k.leaf, leaves[k])
  }

  ghost function SealedTickets(leaves: map<EpochLeaf, Did>): multiset<Ticket> {
    multiset(DurableTickets(leaves))
  }

  /** Every acceptance is in exactly one of the open epoch, a sealed epoch, and the lost ones. */
  ghost predicate Conserved(w: World) {
    w.accepted == OpenTickets(w.open) + SealedTickets(w.disk.epochLeaves) + w.lost
  }

  /** The open id is above every persisted id. */
  ghost predicate IdsFresh(w: World) {
    && (forall e :: e in w.sealed ==> e < w.open.epochId && e < MAX_U64)
    && (forall i :: 0 <= i < |w.log| ==> w.log[i].epoch in w.sealed)
  }

  /** A pending record is stored under its own epoch, which is sealed. */
  ghost predicate RecordsNamed(h: History, anchors: Anchors) {
    forall e :: e in anchors ==> e in h && anchors[e].epochId == e
  }

  /** The store agrees with what was sealed, whatever became of the anchors. */
  ghost predicate StoreInv(h: History, d: Disk) {
    EpochsInv(h, d.epochs) && LeavesInv(h, d.epochLeaves) && RecordsNamed(h, d.pendingAnchors)
  }

  datatype CorePart = Indexed | OpenOk | Ids | Acceptances

  ghost predicate CoreHolds(part: CorePart, w: World) {
    match part
    case Indexed => StoreInv(w.sealed, w.disk)
    case OpenOk => w.open.Valid()
    case Ids => IdsFresh(w)
    case Acceptances => Conserved(w)
  }

  /** What every step keeps, whatever its writes do: the epochs, their leaves, the ids and the acceptances. */
  ghost predicate CoreInv(w: World) {
    forall part :: CoreHolds(part, w)
  }

  lemma CoreParts(w: World)
    requires CoreInv(w)
    ensures StoreInv(w.sealed, w.disk)
    ensures w.open.Valid() && IdsFresh(w) && Conserved(w)
  {
    assert CoreHolds(Indexed, w) && CoreHolds(OpenOk, w) && CoreHolds(Ids, w) && CoreHolds(Acceptances, w);
  }

  lemma CoreOf(w: World)
    requires StoreInv(w.sealed, w.disk)
    requires w.open.Valid() && IdsFresh(w) && Conserved(w)
    ensures CoreInv(w)
  {
  }

  /** The invariant of every state of a run without a write on a stale copy. */
  ghost predicate WorldInv(cfg: Config, w: World) {
    DiskInv(cfg, w.sealed, w.served, w.disk) && CoreInv(w)
  }

  lemma WorldParts(cfg: Config, w: World)
    requires WorldInv(cfg, w)
    ensures DiskInv(cfg, w.sealed, w.served, w.disk) && w.open.Valid() && IdsFresh(w) && Conserved(w)
  {
    CoreParts(w);
  }
}
