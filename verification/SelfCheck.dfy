/**
 * The pre-serve self-check: one witness at a time, and a whole (epoch, method)
 * batch with the anchor judged once.
 */
module SelfCheck {
  import opened Base
  import opened Witness
  import Accumulation

  datatype Reason =
    | NotATimestampObject | ObjectHashMismatch | NotChainedToLeaf
    | BatchTooLarge | NotIncluded
    | NoTsaHost | TsaTokenRejected
    | NoChainHost | EvmInvalid(invalid: EvmInvalidReason) | EvmUnsettled(open: EvmOpenReason)
    | AnchorFieldsDiffer
    | NotASignature | SignatureRejected | SignsAnotherRevision | ForeignSigner
    | CheckPanicked

  datatype Verdict =
    | Verified
    | NotYet(reason: Reason)
    | Missing(reason: Reason)
    | Failed(reason: Reason, anchorAtFault: bool)

  function CheckFailed(reason: Reason): Verdict {
    Failed(reason, false)
  }

  function AnchorFailed(reason: Reason): Verdict {
    Failed(reason, true)
  }

  // ---- External judges ----

  datatype EvmInvalidReason = MalformedClaim | ContractMismatch | SenderMismatch | InputMismatch | Reverted

  datatype EvmOpenReason = UnsupportedNetwork | NetworkNotConfigured | NotFound | OtherNotEvaluable

  datatype EvmVerdict = EvmVerified | EvmRefuted(invalid: EvmInvalidReason) | EvmNotEvaluable(open: EvmOpenReason)

  datatype TsaLevel = QualifiedVerified | LevelVerified | OtherLevel | TokenError

  /**
   * What the SDK and the external hosts answer. The anchor judges see only the
   * anchor fields; `included` is the shielded inclusion proof and
   * `signatureVerifies` the signature predicate with its own content hash.
   */
  datatype Hosts = Hosts(
    chain: Option<AnchorFields -> EvmVerdict>,
    tsa: Option<(string, Root, nat) -> TsaLevel>,
    included: (Payload, Leaf) -> bool,
    signatureVerifies: (Revision, Hash) -> bool)

  // ---- The checks ----

  /** Content hash, chain to the leaf, and batch inclusion; the payload on success. */
  function ContentAndInclusion(w: MintedWitness, hosts: Hosts): Result<Payload, Verdict> {
    if !w.objectRevision.TimestampObject? then Err(CheckFailed(NotATimestampObject))
    else if Sha3(w.objectRevision) != w.objectHash then Err(CheckFailed(ObjectHashMismatch))
    else if w.objectRevision.previous != w.leaf then Err(CheckFailed(NotChainedToLeaf))
    else
      var payload := w.objectRevision.payload;
      if payload.batchTreeSize > Accumulation.MAX_LEAVES_PER_EPOCH then Err(CheckFailed(BatchTooLarge))
      else if !hosts.included(payload, w.leaf) then Err(CheckFailed(NotIncluded))
      else Ok(payload)
  }

  function CheckTsa(anchor: AnchorFields, hosts: Hosts): Verdict {
    match hosts.tsa
    case None => CheckFailed(NoTsaHost)
    case Some(verify) =>
      match verify(anchor.transactionHash, anchor.merkleRoot, anchor.timestamp)
      case QualifiedVerified => Verified
      case LevelVerified => Verified
      case OtherLevel => AnchorFailed(TsaTokenRejected)
      case TokenError => AnchorFailed(TsaTokenRejected)
  }

  function CheckEvm(anchor: AnchorFields, hosts: Hosts): Verdict {
    match hosts.chain
    case None => CheckFailed(NoChainHost)
    case Some(judge) =>
      match judge(anchor)
      case EvmVerified => Verified
      case EvmRefuted(MalformedClaim) => CheckFailed(EvmInvalid(MalformedClaim))
      case EvmRefuted(invalid) => AnchorFailed(EvmInvalid(invalid))
      case EvmNotEvaluable(UnsupportedNetwork) => CheckFailed(EvmUnsettled(UnsupportedNetwork))
      case EvmNotEvaluable(NetworkNotConfigured) => CheckFailed(EvmUnsettled(NetworkNotConfigured))
      case EvmNotEvaluable(NotFound) => Missing(EvmUnsettled(NotFound))
      case EvmNotEvaluable(OtherNotEvaluable) => NotYet(EvmUnsettled(OtherNotEvaluable))
  }

  function JudgeAnchor(m: Method, anchor: AnchorFields, hosts: Hosts): Verdict {
    match m
    case Qtsa => CheckTsa(anchor, hosts)
    case Evm => CheckEvm(anchor, hosts)
  }

  function ServiceSignature(w: MintedWitness, did: Did, hosts: Hosts): Verdict {
    if !w.signatureRevision.Signature? then CheckFailed(NotASignature)
    else if !hosts.signatureVerifies(w.signatureRevision, w.signatureHash) then CheckFailed(SignatureRejected)
    else if w.signatureRevision.signs != w.objectHash then CheckFailed(SignsAnotherRevision)
    else if w.signatureRevision.signer != did then CheckFailed(ForeignSigner)
    else Verified
  }

  function VerifyMintedWitness(w: MintedWitness, did: Did, hosts: Hosts): Verdict {
    match ContentAndInclusion(w, hosts)
    case Err(v) => v
    case Ok(payload) =>
      var anchor := JudgeAnchor(w.via, payload.anchor, hosts);
      if anchor != Verified then anchor else ServiceSignature(w, did, hosts)
  }

  /** One witness of a batch whose anchor `judged`, of method `m`, was found Verified. */
  function VerifyAgainst(w: MintedWitness, m: Method, judged: AnchorFields, did: Did, hosts: Hosts): Verdict {
    match ContentAndInclusion(w, hosts)
    case Err(v) => v
    case Ok(payload) =>
      if w.via != m || payload.anchor != judged then CheckFailed(AnchorFieldsDiffer)
      else ServiceSignature(w, did, hosts)
  }

  function Settled(v: Verdict, n: nat): seq<Verdict> {
    if n == 0 then [] else Settled(v, n - 1) + [v]
  }

  function VerifyEach(ws: seq<MintedWitness>, m: Method, judged: AnchorFields, did: Did, hosts: Hosts): seq<Verdict> {
    if ws == [] then [] else
      var n := |ws| - 1;
      VerifyEach(ws[..n], m, judged, did, hosts) + [VerifyAgainst(ws[n], m, judged, did, hosts)]
  }

  function VerifyMintedBatch(ws: seq<MintedWitness>, did: Did, hosts: Hosts): seq<Verdict> {
    if ws == [] then [] else
      match ContentAndInclusion(ws[0], hosts)
      case Err(v) => Settled(v, |ws|)
      case Ok(payload) =>
        var anchor := JudgeAnchor(ws[0].via, payload.anchor, hosts);
        if anchor != Verified then Settled(anchor, |ws|)
        else VerifyEach(ws, ws[0].via, payload.anchor, did, hosts)
  }

  // ---- Properties ----

  lemma {:induction false} SettledAt(v: Verdict, n: nat)
    ensures |Settled(v, n)| == n
    ensures forall i :: 0 <= i < n ==> Settled(v, n)[i] == v
  {
    if n > 0 {
      SettledAt(v, n - 1);
    }
  }

  lemma {:induction false} VerifyEachAt(ws: seq<MintedWitness>, m: Method, judged: AnchorFields, did: Did, hosts: Hosts)
    ensures |VerifyEach(ws, m, judged, did, hosts)| == |ws|
    ensures forall i :: 0 <= i < |ws| ==>
      VerifyEach(ws, m, judged, did, hosts)[i] == VerifyAgainst(ws[i], m, judged, did, hosts)
  {
    if ws != [] {
      VerifyEachAt(ws[..|ws| - 1], m, judged, did, hosts);
    }
  }

  ghost predicate AllVerified(verdicts: seq<Verdict>) {
    forall i :: 0 <= i < |verdicts| ==> verdicts[i] == Verified
  }

  /** Every witness carries the method and anchor fields of the first one. */
  ghost predicate SameAnchor(ws: seq<MintedWitness>) {
    forall i :: 0 <= i < |ws| ==>
      && ws[i].via == ws[0].via
      && ws[i].objectRevision.TimestampObject? && ws[0].objectRevision.TimestampObject?
      && ws[i].objectRevision.payload.anchor == ws[0].objectRevision.payload.anchor
  }

  /** Always one verdict per witness, so pairing them up drops nothing. */
  lemma BatchHasOneVerdictEach(ws: seq<MintedWitness>, did: Did, hosts: Hosts)
    ensures |VerifyMintedBatch(ws, did, hosts)| == |ws|
  {
    if ws != [] {
      match ContentAndInclusion(ws[0], hosts)
      case Err(v) => SettledAt(v, |ws|);
      case Ok(payload) =>
        SettledAt(JudgeAnchor(ws[0].via, payload.anchor, hosts), |ws|);
        VerifyEachAt(ws, ws[0].via, payload.anchor, did, hosts);
    }
  }

  /** A witness on the judged anchor gets the same answer from both checks. */
  lemma SharedAnchorSharesVerdict(w: MintedWitness, m: Method, judged: AnchorFields, did: Did, hosts: Hosts)
    requires JudgeAnchor(m, judged, hosts) == Verified
    ensures VerifyAgainst(w, m, judged, did, hosts) == Verified <==>
      && VerifyMintedWitness(w, did, hosts) == Verified
      && w.via == m && w.objectRevision.TimestampObject? && w.objectRevision.payload.anchor == judged
  {
  }

  /**
   * Judging the anchor once refines judging it per witness: the batch is all
   * Verified exactly when every witness is Verified on its own and all of them
   * share the first one's method and anchor fields.
   */
  lemma {:induction false} BatchRefinesPerWitness(ws: seq<MintedWitness>, did: Did, hosts: Hosts)
    ensures AllVerified(VerifyMintedBatch(ws, did, hosts)) <==>
      && SameAnchor(ws)
      && forall i :: 0 <= i < |ws| ==> VerifyMintedWitness(ws[i], did, hosts) == Verified
  {
    BatchHasOneVerdictEach(ws, did, hosts);
    if ws != [] {
      var verdicts := VerifyMintedBatch(ws, did, hosts);
      match ContentAndInclusion(ws[0], hosts)
      case Err(v) =>
        SettledAt(v, |ws|);
        assert verdicts[0] == v != Verified;
        assert VerifyMintedWitness(ws[0], did, hosts) == v;
      case Ok(payload) =>
        var anchor := JudgeAnchor(ws[0].via, payload.anchor, hosts);
        if anchor != Verified {
          SettledAt(anchor, |ws|);
          assert verdicts[0] == anchor;
          assert VerifyMintedWitness(ws[0], did, hosts) == anchor;
        } else {
          VerifyEachAt(ws, ws[0].via, payload.anchor, did, hosts);
          forall i | 0 <= i < |ws|
            ensures verdicts[i] == Verified <==>
              && VerifyMintedWitness(ws[i], did, hosts) == Verified
              && ws[i].via == ws[0].via && ws[i].objectRevision.TimestampObject?
              && ws[i].objectRevision.payload.anchor == payload.anchor
          {
            SharedAnchorSharesVerdict(ws[i], ws[0].via, payload.anchor, did, hosts);
          }
        }
    }
  }

  /** When the first witness does not pass up to its anchor, every verdict is that one answer. */
  lemma {:induction false} UnsettledAnchorSettlesBatch(ws: seq<MintedWitness>, did: Did, hosts: Hosts, i: nat)
    requires i < |ws|
    requires ContentAndInclusion(ws[0], hosts).Err?
      || JudgeAnchor(ws[0].via, ContentAndInclusion(ws[0], hosts).value.anchor, hosts) != Verified
    ensures |VerifyMintedBatch(ws, did, hosts)| == |ws|
    ensures VerifyMintedBatch(ws, did, hosts)[i] == VerifyMintedWitness(ws[0], did, hosts)
  {
    SettledAt(VerifyMintedWitness(ws[0], did, hosts), |ws|);
  }

  // ---- What the verdicts mean, in terms of what the hosts answered ----

  /** The witness's object: hashed, chained to the leaf, within the cap, and included in the batch. */
  ghost predicate ObjectHolds(w: MintedWitness, hosts: Hosts) {
    && w.objectRevision.TimestampObject? && w.objectHash == Sha3(w.objectRevision)
    && w.objectRevision.previous == w.leaf
    && w.objectRevision.payload.batchTreeSize <= 0x10_0000
    && hosts.included(w.objectRevision.payload, w.leaf)
  }

  /** The chain host's answer for an EVM anchor, when there is a host. */
  ghost predicate ChainSays(f: AnchorFields, hosts: Hosts, v: EvmVerdict) {
    hosts.chain.Some? && hosts.chain.value(f) == v
  }

  /** The TSA host's answer for a token over the root at its time. */
  ghost predicate TsaSays(f: AnchorFields, hosts: Hosts, level: TsaLevel) {
    hosts.tsa.Some? && hosts.tsa.value(f.transactionHash, f.merkleRoot, f.timestamp) == level
  }

  /** A host confirms the anchor. */
  ghost predicate AnchorHolds(m: Method, f: AnchorFields, hosts: Hosts) {
    match m
    case Evm => ChainSays(f, hosts, EvmVerified)
    case Qtsa => TsaSays(f, hosts, QualifiedVerified) || TsaSays(f, hosts, LevelVerified)
  }

  /** A host finds the anchor wrong: other contract, sender or input, a reverted transaction, a rejected token. */
  ghost predicate AnchorRefuted(m: Method, f: AnchorFields, hosts: Hosts) {
    match m
    case Evm =>
      || ChainSays(f, hosts, EvmRefuted(ContractMismatch)) || ChainSays(f, hosts, EvmRefuted(SenderMismatch))
      || ChainSays(f, hosts, EvmRefuted(InputMismatch)) || ChainSays(f, hosts, EvmRefuted(Reverted))
    case Qtsa => TsaSays(f, hosts, OtherLevel) || TsaSays(f, hosts, TokenError)
  }

  /** The node does not know the anchor's transaction. */
  ghost predicate AnchorUnknown(m: Method, f: AnchorFields, hosts: Hosts) {
    m == Evm && ChainSays(f, hosts, EvmNotEvaluable(NotFound))
  }

  /** The anchor's transaction is known but not settled. */
  ghost predicate AnchorOpen(m: Method, f: AnchorFields, hosts: Hosts) {
    m == Evm && ChainSays(f, hosts, EvmNotEvaluable(OtherNotEvaluable))
  }

  /** The service's signature over the object. */
  ghost predicate SignatureHolds(w: MintedWitness, did: Did, hosts: Hosts) {
    && w.signatureRevision.Signature? && hosts.signatureVerifies(w.signatureRevision, w.signatureHash)
    && w.signatureRevision.signs == w.objectHash && w.signatureRevision.signer == did
  }

  /** The witness holds: its object, its anchor, and the service's signature over it. */
  ghost predicate WitnessHolds(w: MintedWitness, did: Did, hosts: Hosts) {
    && ObjectHolds(w, hosts) && AnchorHolds(w.via, w.objectRevision.payload.anchor, hosts)
    && SignatureHolds(w, did, hosts)
  }

  lemma AnchorIsJudgedExactly(m: Method, f: AnchorFields, hosts: Hosts)
    ensures
      var v := JudgeAnchor(m, f, hosts);
      && (v == Verified <==> AnchorHolds(m, f, hosts))
      && (v.Failed? && v.anchorAtFault <==> AnchorRefuted(m, f, hosts))
      && (v.Missing? <==> AnchorUnknown(m, f, hosts))
      && (v.NotYet? <==> AnchorOpen(m, f, hosts))
  {
  }

  /**
   * The verdicts, exactly. Verified means the witness holds; Missing, NotYet and
   * an anchor at fault mean the object holds and a host said so of its anchor;
   * everything else is a failure that leaves the anchor alone.
   */
  lemma VerdictsAreExact(w: MintedWitness, did: Did, hosts: Hosts)
    ensures
      var v := VerifyMintedWitness(w, did, hosts);
      && (v == Verified <==> WitnessHolds(w, did, hosts))
      && (v.Missing? <==> ObjectHolds(w, hosts) && AnchorUnknown(w.via, w.objectRevision.payload.anchor, hosts))
      && (v.NotYet? <==> ObjectHolds(w, hosts) && AnchorOpen(w.via, w.objectRevision.payload.anchor, hosts))
      && (v.Failed? && v.anchorAtFault <==>
            ObjectHolds(w, hosts) && AnchorRefuted(w.via, w.objectRevision.payload.anchor, hosts))
  {
    if ObjectHolds(w, hosts) {
      AnchorIsJudgedExactly(w.via, w.objectRevision.payload.anchor, hosts);
    }
  }

  /** Every witness holds. */
  ghost predicate EachHolds(ws: seq<MintedWitness>, did: Did, hosts: Hosts) {
    forall i :: 0 <= i < |ws| ==> WitnessHolds(ws[i], did, hosts)
  }

  /** The batch check, which judges the anchor once, passes exactly when every witness holds and all share it. */
  lemma BatchPassesExactly(ws: seq<MintedWitness>, did: Did, hosts: Hosts)
    ensures AllVerified(VerifyMintedBatch(ws, did, hosts)) <==> SameAnchor(ws) && EachHolds(ws, did, hosts)
  {
    BatchRefinesPerWitness(ws, did, hosts);
    forall i | 0 <= i < |ws|
      ensures VerifyMintedWitness(ws[i], did, hosts) == Verified <==> WitnessHolds(ws[i], did, hosts)
    {
      VerdictsAreExact(ws[i], did, hosts);
    }
  }

  /** The hosts confirm these witnesses: their anchor, their inclusion and their signatures. */
  ghost predicate Confirming(hosts: Hosts, ws: seq<MintedWitness>) {
    forall i :: 0 <= i < |ws| ==>
      && ws[i].objectRevision.TimestampObject?
      && AnchorHolds(ws[i].via, ws[i].objectRevision.payload.anchor, hosts)
      && hosts.included(ws[i].objectRevision.payload, ws[i].leaf)
      && hosts.signatureVerifies(ws[i].signatureRevision, ws[i].signatureHash)
  }

  /** Witnesses minted together share their method and anchor fields. */
  lemma MintedSharesAnchor(batch: Batch, m: Method, v: TimestampValue, did: Did, salts: Salts)
    ensures SameAnchor(MintSet(batch, m, v, did, salts))
  {
    MintedSetIs(batch, m, v, did, salts);
    var ws := MintSet(batch, m, v, did, salts);
    forall i | 0 <= i < |ws|
      ensures ws[i].via == m && ws[i].objectRevision.TimestampObject?
      ensures ws[i].objectRevision.payload.anchor == CarriedFields(m, v, batch.root)
    {
      assert IsWitness(ws[i], batch, i, m, v, did, salts(i, m));
    }
  }

  /**
   * What the minter builds passes the self-check whenever the hosts confirm it
   * and the batch respects the leaf cap; over the cap it never passes.
   */
  lemma MintedSetVerifies(batch: Batch, m: Method, v: TimestampValue, did: Did, salts: Salts, hosts: Hosts)
    requires batch.entries != [] && Confirming(hosts, MintSet(batch, m, v, did, salts))
    ensures AllVerified(VerifyMintedBatch(MintSet(batch, m, v, did, salts), did, hosts))
         <==> |batch.entries| <= 0x10_0000
  {
    var ws := MintSet(batch, m, v, did, salts);
    MintedSetIs(batch, m, v, did, salts);
    MintedSharesAnchor(batch, m, v, did, salts);
    BatchPassesExactly(ws, did, hosts);
    forall i | 0 <= i < |ws|
      ensures WitnessHolds(ws[i], did, hosts) <==> |batch.entries| <= 0x10_0000
    {
      assert IsWitness(ws[i], batch, i, m, v, did, salts(i, m));
    }
    assert WitnessHolds(ws[0], did, hosts) <==> |batch.entries| <= 0x10_0000;
  }
}
