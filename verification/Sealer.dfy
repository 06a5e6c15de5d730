/**
 * The sealer's tick, as functions of the store, the volatile pending record and
 * what the environment answers: provider calls, signatures, verdicts, and the
 * outcome of each write (including a crash on either side of it).
 *
 * `SealerMachine` proves the imperative sealer equal to these functions.
 */
module Sealer {
  import opened Base
  import opened Witness
  import opened SelfCheck
  import opened Storage

  datatype Config = Config(
    methods: seq<Method>, maxFaults: nat, notFoundTimeout: nat, serviceDid: Did,
    providers: set<Method>, checkHosts: set<Method>)

  datatype SealError =
    | MissingProvider(via: Method) | MissingSelfCheckHost(via: Method) | NoServiceDid
    | BatchFailed | RootUnreadable | StoreFailed

  function FirstOutside(ms: seq<Method>, known: set<Method>): Option<Method> {
    if ms == [] then None
    else if ms[0] !in known then Some(ms[0])
    else FirstOutside(ms[1..], known)
  }

  /** A context that fails this must not close an epoch. */
  function Validate(cfg: Config): Option<SealError> {
    var noProvider := FirstOutside(cfg.methods, cfg.providers);
    var noHost := FirstOutside(cfg.methods, cfg.checkHosts);
    if noProvider.Some? then Some(MissingProvider(noProvider.value))
    else if noHost.Some? then Some(MissingSelfCheckHost(noHost.value))
    else if cfg.serviceDid == "" then Some(NoServiceDid)
    else None
  }

  // ---- The environment of one settle ----

  datatype CallOutcome = Returned(value: TimestampValue) | CallFailed

  datatype MintOutcome = Signed(salts: Salts) | MintFailed

  datatype CheckOutcome = Judged(hosts: Hosts) | Panicked

  /** `save1`/`save2` store a new anchor, `note` saves a discard or a first-seen time, `serve` the witnesses. */
  datatype SettleEnv = SettleEnv(
    call: CallOutcome, save1: WriteOutcome, save2: WriteOutcome,
    mint: MintOutcome, check: CheckOutcome, note: WriteOutcome, serve: WriteOutcome)

  // ---- What a run leaves behind for the properties to speak about ----

  datatype EpochMethod = EpochMethod(epoch: nat, via: Method)

  datatype Event =
    | CallFailedAt(epoch: nat, via: Method)
    | Anchored(epoch: nat, via: Method)
    | NotStored(epoch: nat, via: Method)
    | AtFault(epoch: nat, via: Method, value: TimestampValue)
    | Abandoned(epoch: nat, via: Method, value: TimestampValue, firstSeen: nat, now: nat)
    | ServedAt(epoch: nat, via: Method)
    | Lost(epoch: nat, via: Method)

  /** A served set: the durable record it was served from, and how it was signed and judged. */
  datatype Serve = Serve(record: Option<PendingRecord>, witnesses: seq<MintedWitness>, mint: MintOutcome,
                         check: CheckOutcome)

  /**
   * The state of a tick: the store, the volatile copy of the epoch being
   * settled, the methods down for the tick, and (ghost) the event log, the
   * served sets and the witnesses returned.
   */
  datatype Work = Work(
    disk: Disk, pending: PendingRecord, down: set<Method>, crashed: bool,
    log: seq<Event>, served: map<EpochMethod, Serve>, out: seq<MintedWitness>)
  {
    function Log(e: Event): Work {
      this.(log := log + [e])
    }

    function Down(m: Method): Work {
      this.(down := down + {m})
    }
  }

  // ---- Settling one (epoch, method) ----

  /** `save_pending` of `p`, which becomes the volatile record either way. */
  ghost function Save(w: Work, p: PendingRecord, o: WriteOutcome): Work {
    w.(pending := p,
       disk := if Lands(o) then SavedDisk(w.disk, p) else w.disk,
       crashed := ResultOf(o) == Crash)
  }

  /** Storing an anchor: saved, once more on an error; it lands if either save does. */
  function StoreOutcome(env: SettleEnv): WriteOutcome {
    match env.save1
    case Refused => env.save2
    case Unsynced => OnceLanded(env.save2)
    case o => o
  }

  /** The outcome of a save repeating one that landed. */
  function OnceLanded(o: WriteOutcome): WriteOutcome {
    match o
    case Refused => Unsynced
    case CrashBefore => CrashAfter
    case _ => o
  }

  datatype Acquired = Stop(work: Work) | Holds(work: Work, value: TimestampValue)

  /** Step 1: the stored anchor, or one provider call whose anchor is stored before use. */
  ghost function Acquire(cfg: Config, w: Work, m: Method, now: nat, env: SettleEnv): Acquired {
    var e := w.pending.epochId;
    match w.pending.Anchor(m)
    case Some(a) => Holds(w, a.value)
    case None =>
      if m in w.down || w.pending.FaultCount(m) >= cfg.maxFaults then Stop(w)
      else match env.call
        case CallFailed => Stop(w.Down(m).Log(CallFailedAt(e, m)))
        case Returned(v) =>
          var o := StoreOutcome(env);
          var saved := Save(w.Log(Anchored(e, m)), w.pending.WithAnchor(m, v, now), o);
          match ResultOf(o)
          case Done => Holds(saved, v)
          case StoreError => Stop(saved.Down(m).Log(NotStored(e, m)))
          case Crash => Stop(saved)
  }

  /** Step 2: witnesses minted from the anchor, when restoring and signing succeed. */
  function Mint(p: PendingRecord, m: Method, v: TimestampValue, did: Did, o: MintOutcome): Option<seq<MintedWitness>> {
    match Restore(p)
    case Err(_) => None
    case Ok(batch) =>
      match o
      case MintFailed => None
      case Signed(salts) => Some(MintSet(batch, m, v, did, salts))
  }

  /** A panicked check counts as a failure of every witness. */
  function CheckAll(ws: seq<MintedWitness>, did: Did, o: CheckOutcome): seq<Verdict> {
    match o
    case Judged(hosts) => VerifyMintedBatch(ws, did, hosts)
    case Panicked => Settled(CheckFailed(CheckPanicked), |ws|)
  }

  /** The first verdict other than Verified in the zip of witnesses and verdicts. */
  function FirstBad(n: nat, verdicts: seq<Verdict>): Verdict {
    if n == 0 || verdicts == [] then Verified
    else if verdicts[0] != Verified then verdicts[0]
    else FirstBad(n - 1, verdicts[1..])
  }

  /** The anchor is counted as a fault, dropped, and the record saved without it. */
  ghost function Discard(w: Work, m: Method, o: WriteOutcome): Work {
    Save(w, w.pending.WithFault(m).WithoutAnchor(m), o)
  }

  ghost function SettleMissing(cfg: Config, w: Work, m: Method, now: nat, env: SettleEnv): Work {
    match w.pending.Anchor(m)
    case None => w
    case Some(a) =>
      var stamped := w.(pending := w.pending.WithFirstSeen(m, now));
      var first := if a.firstSeen.Some? then a.firstSeen.value else now;
      if SatSub(now, first) < cfg.notFoundTimeout then
        if a.firstSeen.None? then Save(w, stamped.pending, env.note) else stamped
      else
        Discard(stamped.Log(Abandoned(w.pending.epochId, m, a.value, first, now)), m, env.note)
  }

  /** Step 4: the witnesses and the method's removal, in one atomic batch. */
  ghost function ServeSet(w: Work, m: Method, ws: seq<MintedWitness>, env: SettleEnv): Work {
    var e := w.pending.epochId;
    var remaining := w.pending.Without(m);
    var record := if e in w.disk.pendingAnchors then Some(w.disk.pendingAnchors[e]) else None;
    match MintedDisk(w.disk, remaining, m, ws)
    case Err(_) => w
    case Ok(d) =>
      if Lands(env.serve) then
        w.(disk := d, crashed := ResultOf(env.serve) == Crash,
           pending := if env.serve == Unsynced then w.pending else remaining,
           served := w.served[EpochMethod(e, m) := Serve(record, ws, env.mint, env.check)],
           out := if env.serve == Unsynced then w.out else w.out + ws).Log(ServedAt(e, m))
      else
        w.(crashed := ResultOf(env.serve) == Crash)
  }

  /** The verdict a settle acts on. */
  function Outcome(ws: seq<MintedWitness>, did: Did, o: CheckOutcome): Verdict {
    FirstBad(|ws|, CheckAll(ws, did, o))
  }

  /** What the minted set and its verdicts call for. */
  datatype Decision = Keep | Serving(witnesses: seq<MintedWitness>) | NotFoundYet | FaultyAnchor

  function Decide(p: PendingRecord, m: Method, v: TimestampValue, did: Did, mint: MintOutcome,
                  check: CheckOutcome): Decision {
    match Mint(p, m, v, did, mint)
    case None => Keep
    case Some(ws) =>
      match Outcome(ws, did, check)
      case Verified => Serving(ws)
      case NotYet(_) => Keep
      case Missing(_) => NotFoundYet
      case Failed(_, atFault) => if atFault then FaultyAnchor else Keep
  }

  /** Steps 2 to 4. */
  ghost function Judge(cfg: Config, w: Work, m: Method, v: TimestampValue, now: nat, env: SettleEnv): Work {
    match Decide(w.pending, m, v, cfg.serviceDid, env.mint, env.check)
    case Keep => w
    case Serving(ws) => ServeSet(w, m, ws, env)
    case NotFoundYet => SettleMissing(cfg, w, m, now, env)
    case FaultyAnchor => Discard(w.Down(m).Log(AtFault(w.pending.epochId, m, v)), m, env.note)
  }

  ghost function SettleMethod(cfg: Config, w: Work, m: Method, now: nat, env: SettleEnv): Work {
    if m !in cfg.methods then w
    else match Acquire(cfg, w, m, now, env)
      case Stop(w') => w'
      case Holds(w', v) => Judge(cfg, w', m, v, now, env)
  }

  // ---- A tick over the backlog ----

  /** What the environment does when (epoch, method) is settled this tick. */
  type SettleEnvs = (nat, Method) -> SettleEnv

  ghost function SettleMethods(cfg: Config, w: Work, ms: seq<Method>, now: nat, envs: SettleEnvs): Work
    decreases |ms|
  {
    if ms == [] || w.crashed then w else
      SettleMethods(cfg, SettleMethod(cfg, w, ms[0], now, envs(w.pending.epochId, ms[0])), ms[1..], now, envs)
  }

  /** The volatile record holds an anchor of `m` that the store does not, nor was it served. */
  ghost predicate Unsaved(w: Work, m: Method) {
    && m in w.pending.methods && w.pending.Anchor(m).Some? && EpochMethod(w.pending.epochId, m) !in w.served
    && (w.pending.epochId in w.disk.pendingAnchors ==> w.disk.pendingAnchors[w.pending.epochId].Anchor(m).None?)
  }

  ghost function NoteLost(w: Work, m: Method): Work {
    if Unsaved(w, m) then w.Log(Lost(w.pending.epochId, m)) else w
  }

  /** The volatile copy goes out of scope; an anchor held only there is lost. */
  ghost function DropVolatile(w: Work): Work {
    NoteLost(NoteLost(w, Evm), Qtsa)
  }

  ghost function SettleEpoch(cfg: Config, w: Work, p: PendingRecord, now: nat, envs: SettleEnvs): Work {
    DropVolatile(SettleMethods(cfg, w.(pending := p), p.methods, now, envs))
  }

  ghost function Retry(cfg: Config, w: Work, ps: seq<PendingRecord>, now: nat, envs: SettleEnvs): Work
    decreases |ps|
  {
    if ps == [] || w.crashed then w else
      Retry(cfg, SettleEpoch(cfg, w, ps[0], now, envs), ps[1..], now, envs)
  }

  /** `list_pending_epochs`: oldest first. */
  ghost function Listed(d: Disk, ids: seq<nat>): seq<PendingRecord>
    requires forall e :: e in ids ==> e in d.pendingAnchors
  {
    if ids == [] then [] else [d.pendingAnchors[ids[0]]] + Listed(d, ids[1..])
  }

  ghost function PendingEpochs(d: Disk): seq<PendingRecord> {
    Listed(d, InOrder(d.pendingAnchors.Keys))
  }
}
