/**
 * Why a settle acts as it does: the decision it takes, in terms of the anchor
 * alone and of each witness alone.
 */
module Verdicts {
  import opened Base
  import opened Witness
  import opened SelfCheck
  import opened Storage
  import opened Sealer
  import opened Invariants
  import opened Settle

  lemma {:induction false} FirstBadIsOneOfThem(n: nat, verdicts: seq<Verdict>)
    requires n == |verdicts|
    ensures FirstBad(n, verdicts) == Verified || FirstBad(n, verdicts) in verdicts
  {
    if n > 0 && verdicts[0] == Verified {
      FirstBadIsOneOfThem(n - 1, verdicts[1..]);
    }
  }

  lemma FirstBadOfSettled(v: Verdict, n: nat)
    requires n > 0
    ensures FirstBad(n, Settled(v, n)) == v
  {
    SettledAt(v, n);
    if v == Verified {
      FirstBadVerified(n, Settled(v, n));
    }
  }

  /** Once the anchor is judged good, no later verdict of the batch blames it or misses it. */
  lemma GoodAnchorIsNeverBlamed(ws: seq<MintedWitness>, m: Method, judged: AnchorFields, did: Did, hosts: Hosts)
    ensures
      var v := FirstBad(|ws|, VerifyEach(ws, m, judged, did, hosts));
      v == Verified || (v.Failed? && !v.anchorAtFault)
  {
    VerifyEachAt(ws, m, judged, did, hosts);
    FirstBadIsOneOfThem(|ws|, VerifyEach(ws, m, judged, did, hosts));
  }

  /** The first leaf is included in the batch, as the payload of its witness claims. */
  ghost predicate FirstIncluded(se: SealedEpoch, m: Method, v: TimestampValue, hosts: Hosts)
    requires se.entries != []
  {
    hosts.included(Payload(CarriedFields(m, v, se.root), |se.entries|, 0), se.entries[0].leaf)
  }

  lemma OutcomeOfMinted(e: nat, se: SealedEpoch, m: Method, v: TimestampValue, did: Did, salts: Salts, hosts: Hosts)
    requires SealedOk(se) && se.entries != []
    ensures
      var out := Outcome(MintSet(Batch(e, se.root, se.entries), m, v, did, salts), did, Judged(hosts));
      var anchor := JudgeAnchor(m, CarriedFields(m, v, se.root), hosts);
      if !FirstIncluded(se, m, v, hosts) then out == CheckFailed(NotIncluded)
      else if anchor != Verified then out == anchor
      else out == Verified || (out.Failed? && !out.anchorAtFault)
  {
    var batch := Batch(e, se.root, se.entries);
    var ws := MintSet(batch, m, v, did, salts);
    MintedSetIs(batch, m, v, did, salts);
    assert IsWitness(ws[0], batch, 0, m, v, did, salts(0, m));
    var fields := CarriedFields(m, v, se.root);
    match ContentAndInclusion(ws[0], hosts)
    case Err(bad) => FirstBadOfSettled(bad, |ws|);
    case Ok(payload) =>
      var anchor := JudgeAnchor(m, fields, hosts);
      if anchor != Verified {
        FirstBadOfSettled(anchor, |ws|);
      } else {
        GoodAnchorIsNeverBlamed(ws, m, fields, did, hosts);
      }
  }

  /**
   * The decision of a settle, exactly, in terms of what the hosts answered: an
   * anchor is at fault, or not found, just when signing and the check ran, the
   * first leaf is included, and a host says so of the anchor.
   */
  lemma DecisionIsAboutTheAnchor(cap: nat, h: History, p: PendingRecord, m: Method, v: TimestampValue, did: Did,
                                 mint: MintOutcome, check: CheckOutcome)
    requires p.epochId in h && RecordOk(cap, p.epochId, h[p.epochId], p) && SealedOk(h[p.epochId])
    ensures
      var se := h[p.epochId];
      var f := CarriedFields(m, v, se.root);
      var ran := mint.Signed? && check.Judged?;
      var d := Decide(p, m, v, did, mint, check);
      && (d == FaultyAnchor <==>
            ran && FirstIncluded(se, m, v, check.hosts) && AnchorRefuted(m, f, check.hosts))
      && (d == NotFoundYet <==>
            ran && FirstIncluded(se, m, v, check.hosts) && AnchorUnknown(m, f, check.hosts))
  {
    MintIsOfSealed(cap, h, p, m, v, did, mint);
    if mint.Signed? {
      match check
      case Judged(hosts) =>
        OutcomeOfMinted(p.epochId, h[p.epochId], m, v, did, mint.salts, hosts);
        AnchorIsJudgedExactly(m, CarriedFields(m, v, h[p.epochId].root), hosts);
      case Panicked => FirstBadOfSettled(CheckFailed(CheckPanicked), |h[p.epochId].entries|);
    }
  }

  /**
   * The set is served, exactly: signing and the check ran, and every witness
   * holds: its object, its anchor, and this service's signature.
   */
  lemma ServesExactlyWhenEveryWitnessHolds(cap: nat, h: History, p: PendingRecord, m: Method, v: TimestampValue,
                                           did: Did, mint: MintOutcome, check: CheckOutcome)
    requires p.epochId in h && RecordOk(cap, p.epochId, h[p.epochId], p)
    ensures
      var se, d := h[p.epochId], Decide(p, m, v, did, mint, check);
      && (d.Serving? <==>
            && mint.Signed? && check.Judged?
            && EachHolds(MintSet(Batch(p.epochId, se.root, se.entries), m, v, did, mint.salts), did, check.hosts))
      && (d.Serving? ==> d.witnesses == MintSet(Batch(p.epochId, se.root, se.entries), m, v, did, mint.salts))
  {
    MintIsOfSealed(cap, h, p, m, v, did, mint);
    if mint.Signed? {
      var batch := Batch(p.epochId, h[p.epochId].root, h[p.epochId].entries);
      VerifiedOutcome(MintSet(batch, m, v, did, mint.salts), did, check);
      if check.Judged? {
        BatchPassesExactly(MintSet(batch, m, v, did, mint.salts), did, check.hosts);
        MintedSharesAnchor(batch, m, v, did, mint.salts);
      }
    }
  }

  // ---- What a settle does with an anchor ----

  /**
   * A returned anchor is used only once it is durable: it is held exactly when
   * one of its two saves was written, the second tried only after an error.
   */
  lemma AnchorIsHeldOnceStored(cfg: Config, w: Work, m: Method, now: nat, env: SettleEnv)
    requires CallsProvider(cfg, w, m, env)
    ensures
      var a := Acquire(cfg, w, m, now, env);
      && (a.Holds? <==> env.save1 == Written || (ResultOf(env.save1) == StoreError && env.save2 == Written))
      && (a.Holds? ==> a.work.pending.epochId in a.work.disk.pendingAnchors
                       && a.work.disk.pendingAnchors[a.work.pending.epochId].Anchor(m)
                            == Some(StoredAnchor(m, env.call.value, Some(now))))
      && (m in a.work.down <==> ResultOf(env.save1) == StoreError && ResultOf(env.save2) == StoreError)
  {
    assert w.pending.WithAnchor(m, env.call.value, now).Anchor(m) == Some(StoredAnchor(m, env.call.value, Some(now)));
  }

  /** The store after a write of the copy. */
  ghost predicate CopyWritten(w: Work, w': Work, o: WriteOutcome) {
    && w'.disk == (if o == Written || o == Unsynced || o == CrashAfter
                   then w.disk.(pendingAnchors := w.disk.pendingAnchors[w.pending.epochId := w'.pending]) else w.disk)
    && w'.crashed == (o == CrashBefore || o == CrashAfter)
  }

  /**
   * A missing anchor is kept exactly while it is younger than the timeout, its
   * first-seen time noted in the store if it was not; otherwise it is dropped
   * and counted as a fault, and the record without it is stored.
   */
  lemma MissingIsDecidedByAge(cfg: Config, w: Work, m: Method, now: nat, env: SettleEnv)
    requires w.pending.Anchor(m).Some?
    ensures
      var a := w.pending.Anchor(m).value;
      var first := if a.firstSeen.Some? then a.firstSeen.value else now;
      var w' := SettleMissing(cfg, w, m, now, env);
      if SatSub(now, first) < cfg.notFoundTimeout
      then
        && w'.pending.Anchor(m) == Some(a.(firstSeen := Some(first)))
        && w'.pending.FaultCount(m) == w.pending.FaultCount(m)
        && (if a.firstSeen.None? then CopyWritten(w, w', env.note) else w'.disk == w.disk && w'.crashed == w.crashed)
      else
        && w'.pending.Anchor(m).None? && w'.pending.FaultCount(m) == w.pending.FaultCount(m) + 1
        && CopyWritten(w, w', env.note)
  {
    var stamped := w.pending.WithFirstSeen(m, now);
    assert stamped.Anchor(m) == Stamped(w.pending.Anchor(m), true, now);
    assert stamped.FaultCount(m) == w.pending.FaultCount(m);
    var faulted := stamped.WithFault(m);
    assert faulted.FaultCount(m) == stamped.FaultCount(m) + 1;
    assert faulted.WithoutAnchor(m).Anchor(m).None? && faulted.WithoutAnchor(m).FaultCount(m) == faulted.FaultCount(m);
  }

  lemma {:induction false} FirstOutsideIsExact(ms: seq<Method>, known: set<Method>)
    ensures FirstOutside(ms, known).None? <==> forall m :: m in ms ==> m in known
    ensures FirstOutside(ms, known).Some? ==>
      FirstOutside(ms, known).value in ms && FirstOutside(ms, known).value !in known
    decreases |ms|
  {
    if ms != [] {
      FirstOutsideIsExact(ms[1..], known);
      assert ms == [ms[0]] + ms[1..];
    }
  }

  /** `m` is the first of `ms` that is not `known`. */
  ghost predicate FirstUnknown(ms: seq<Method>, known: set<Method>, m: Method) {
    exists i :: 0 <= i < |ms| && ms[i] == m && m !in known && forall j :: 0 <= j < i ==> ms[j] in known
  }

  lemma {:induction false} FirstOutsideIsFirst(ms: seq<Method>, known: set<Method>, m: Method)
    ensures FirstOutside(ms, known) == Some(m) <==> FirstUnknown(ms, known, m)
    decreases |ms|
  {
    if ms != [] && ms[0] in known {
      FirstOutsideIsFirst(ms[1..], known, m);
      if FirstUnknown(ms[1..], known, m) {
        var i :| 0 <= i < |ms[1..]| && ms[1..][i] == m && m !in known && forall j :: 0 <= j < i ==> ms[1..][j] in known;
        forall j | 0 <= j < i + 1
          ensures ms[j] in known
        {
          assert j > 0 ==> ms[j] == ms[1..][j - 1];
        }
        assert ms[i + 1] == m;
      }
      if FirstUnknown(ms, known, m) {
        var i :| 0 <= i < |ms| && ms[i] == m && m !in known && forall j :: 0 <= j < i ==> ms[j] in known;
        assert ms[1..][i - 1] == m;
        assert forall j :: 0 <= j < i - 1 ==> ms[1..][j] == ms[j + 1];
      }
    } else if ms != [] && ms[0] == m {
      assert FirstUnknown(ms, known, m);
    }
  }

  /**
   * What a refused context is told: the first enabled method without a provider;
   * else the first without a self-check host; else that the service has no DID.
   */
  lemma ValidateNamesTheFirst(cfg: Config, m: Method)
    ensures
      var provided := forall k :: k in cfg.methods ==> k in cfg.providers;
      var hosted := forall k :: k in cfg.methods ==> k in cfg.checkHosts;
      && (Validate(cfg) == Some(MissingProvider(m)) <==> FirstUnknown(cfg.methods, cfg.providers, m))
      && (Validate(cfg) == Some(MissingSelfCheckHost(m)) <==>
            provided && FirstUnknown(cfg.methods, cfg.checkHosts, m))
      && (Validate(cfg) == Some(NoServiceDid) <==> provided && hosted && cfg.serviceDid == "")
  {
    FirstOutsideIsExact(cfg.methods, cfg.providers);
    FirstOutsideIsExact(cfg.methods, cfg.checkHosts);
    FirstOutsideIsFirst(cfg.methods, cfg.providers, m);
    FirstOutsideIsFirst(cfg.methods, cfg.checkHosts, m);
  }

  /**
   * A context may close epochs exactly when every enabled method has a provider
   * and a self-check host, and the service has a DID.
   */
  lemma ValidateIsExact(cfg: Config)
    ensures Validate(cfg).None? <==>
      && (forall m :: m in cfg.methods ==> m in cfg.providers && m in cfg.checkHosts)
      && cfg.serviceDid != ""
  {
    FirstOutsideIsExact(cfg.methods, cfg.providers);
    FirstOutsideIsExact(cfg.methods, cfg.checkHosts);
  }
}
