/**
 * Witness revisions, the minter, and the pending-epoch record.
 *
 * Revisions are symbolic: a hash is the free constructor `Sha3` over its
 * preimage, so equal hashes mean equal revisions. The SDK's batch root is the
 * free constructor `BatchRoot` over the batch's leaves and shielding nonces.
 */
module Witness {
  import opened Base
  import opened Merkle

  // ---- Anchors ----

  /** What a provider returns for an anchored root (the batch fields are ignored). */
  datatype TimestampValue = TimestampValue(
    sender: string, tsaProvider: string, transactionHash: string,
    contract: string, network: string, timestamp: nat)

  const QTSA_NETWORK_LABEL: string := "tsa"

  datatype Root = EmptyRoot | BatchRoot(leaves: seq<Leaf>, nonces: nat)

  datatype MethodAnchorOutcome = MethodAnchorOutcome(
    transactionHash: string, sender: string, contract: string,
    network: string, tsaProvider: string, timestamp: nat)

  function FromValue(m: Method, v: TimestampValue): MethodAnchorOutcome {
    match m
    case Evm => MethodAnchorOutcome(v.transactionHash, v.sender, v.contract, v.network, "", v.timestamp)
    case Qtsa =>
      var sender := if v.sender == "" then v.tsaProvider else v.sender;
      MethodAnchorOutcome(v.transactionHash, sender, v.contract, QTSA_NETWORK_LABEL, v.tsaProvider, v.timestamp)
  }

  function Ensure0x(address: string): string {
    if "0x" <= address || "0X" <= address then address else "0x" + address
  }

  /** The payload fields a witness takes from its anchor and the batch root. */
  datatype AnchorFields = AnchorFields(
    network: string, transactionHash: string, merkleRoot: Root, contract: Option<string>,
    sender: string, tsaProvider: string, timestamp: nat)

  function Facts(m: Method, outcome: MethodAnchorOutcome, root: Root): AnchorFields {
    match m
    case Evm =>
      AnchorFields(outcome.network, outcome.transactionHash, root, Some(outcome.contract),
                   Ensure0x(outcome.sender), outcome.tsaProvider, outcome.timestamp)
    case Qtsa =>
      AnchorFields(QTSA_NETWORK_LABEL, outcome.transactionHash, root, None,
                   outcome.sender, outcome.tsaProvider, outcome.timestamp)
  }

  // ---- Revisions and witnesses ----

  datatype Payload = Payload(anchor: AnchorFields, batchTreeSize: nat, batchLeafIndex: nat)

  datatype Revision =
    | TimestampObject(previous: Leaf, payload: Payload)
    | Signature(signs: Hash, signer: Did, salt: nat)

  datatype Hash = Sha3(preimage: Revision)

  /** `witness_<method>_<short>` and `witness_sig_<method>_<short>`, `short` being 8 hex digits of the leaf. */
  datatype FileName = ObjectFile(via: Method, short: string) | SignatureFile(via: Method, short: string)

  datatype MintedWitness = MintedWitness(
    objectHash: Hash, signatureHash: Hash, leaf: Leaf, via: Method, epochId: nat, did: Did,
    objectFile: FileName, signatureFile: FileName,
    objectRevision: Revision, signatureRevision: Revision)

  /** One epoch's batch as minting needs it. */
  datatype Batch = Batch(epochId: nat, root: Root, entries: seq<LeafEntry>)

  function ShortHex(leaf: Leaf): string {
    EncodedLength(leaf);
    HexEncode(leaf)[..8]
  }

  /** The witness of leaf `i` of `batch` under `m`, signed by `signer` with `salt`. */
  function MintOne(batch: Batch, i: nat, m: Method, outcome: MethodAnchorOutcome, signer: Did, salt: nat): MintedWitness
    requires i < |batch.entries|
  {
    var e := batch.entries[i];
    var stamp := TimestampObject(e.leaf, Payload(Facts(m, outcome, batch.root), |batch.entries|, i));
    var signature := Signature(Sha3(stamp), signer, salt);
    MintedWitness(Sha3(stamp), Sha3(signature), e.leaf, m, batch.epochId, e.did,
                  ObjectFile(m, ShortHex(e.leaf)), SignatureFile(m, ShortHex(e.leaf)),
                  stamp, signature)
  }

  type Outcomes = seq<(Method, MethodAnchorOutcome)>

  /** Signature salts the signer happens to use, per leaf index and method. */
  type Salts = (nat, Method) -> nat

  function MintRow(batch: Batch, i: nat, outcomes: Outcomes, signer: Did, salts: Salts): seq<MintedWitness>
    requires i < |batch.entries|
  {
    if outcomes == [] then [] else
      var (m, outcome) := outcomes[|outcomes| - 1];
      MintRow(batch, i, outcomes[..|outcomes| - 1], signer, salts)
      + [MintOne(batch, i, m, outcome, signer, salts(i, m))]
  }

  /** Leaves `0..n` in batch order, each with every method in the given order. */
  function MintRows(batch: Batch, n: nat, outcomes: Outcomes, signer: Did, salts: Salts): seq<MintedWitness>
    requires n <= |batch.entries|
  {
    if n == 0 then [] else
      MintRows(batch, n - 1, outcomes, signer, salts) + MintRow(batch, n - 1, outcomes, signer, salts)
  }

  /** The first `n` witnesses of a single method. */
  function MintPrefix(batch: Batch, n: nat, m: Method, o: MethodAnchorOutcome, signer: Did,
                      salts: Salts): seq<MintedWitness>
    requires n <= |batch.entries|
  {
    if n == 0 then [] else
      MintPrefix(batch, n - 1, m, o, signer, salts) + [MintOne(batch, n - 1, m, o, signer, salts(n - 1, m))]
  }

  /** The set a single method mints from an anchor value: what the sealer asks for. */
  function MintSet(batch: Batch, m: Method, v: TimestampValue, signer: Did, salts: Salts): seq<MintedWitness> {
    MintPrefix(batch, |batch.entries|, m, FromValue(m, v), signer, salts)
  }

  lemma MintRowSingle(batch: Batch, i: nat, m: Method, o: MethodAnchorOutcome, signer: Did, salts: Salts)
    requires i < |batch.entries|
    ensures MintRow(batch, i, [(m, o)], signer, salts) == [MintOne(batch, i, m, o, signer, salts(i, m))]
  {
  }

  /** Leaf `i`'s row is its one witness of `m`. */
  ghost predicate SingleRow(batch: Batch, i: nat, outcomes: Outcomes, m: Method, o: MethodAnchorOutcome, signer: Did,
                            salts: Salts)
    requires i < |batch.entries|
  {
    MintRow(batch, i, outcomes, signer, salts) == [MintOne(batch, i, m, o, signer, salts(i, m))]
  }

  /** Rows of one witness each, one after the other. */
  lemma {:induction false} RowsOfSingles(batch: Batch, n: nat, outcomes: Outcomes, m: Method, o: MethodAnchorOutcome,
                                         signer: Did, salts: Salts)
    requires n <= |batch.entries|
    requires forall i :: 0 <= i < |batch.entries| ==> SingleRow(batch, i, outcomes, m, o, signer, salts)
    ensures MintRows(batch, n, outcomes, signer, salts) == MintPrefix(batch, n, m, o, signer, salts)
  {
    if n > 0 {
      RowsOfSingles(batch, n - 1, outcomes, m, o, signer, salts);
      assert SingleRow(batch, n - 1, outcomes, m, o, signer, salts);
    }
  }

  lemma SingleMethodRows(batch: Batch, n: nat, m: Method, o: MethodAnchorOutcome, signer: Did, salts: Salts)
    requires n <= |batch.entries|
    ensures MintRows(batch, n, [(m, o)], signer, salts) == MintPrefix(batch, n, m, o, signer, salts)
  {
    forall i | 0 <= i < |batch.entries|
      ensures SingleRow(batch, i, [(m, o)], m, o, signer, salts)
    {
      MintRowSingle(batch, i, m, o, signer, salts);
    }
    RowsOfSingles(batch, n, [(m, o)], m, o, signer, salts);
  }

  lemma {:induction false} MintPrefixLength(batch: Batch, n: nat, m: Method, o: MethodAnchorOutcome, signer: Did,
                                            salts: Salts)
    requires n <= |batch.entries|
    ensures |MintPrefix(batch, n, m, o, signer, salts)| == n
  {
    if n > 0 {
      MintPrefixLength(batch, n - 1, m, o, signer, salts);
    }
  }

  lemma {:induction false} MintPrefixAt(batch: Batch, n: nat, m: Method, o: MethodAnchorOutcome, signer: Did,
                                        salts: Salts, i: nat)
    requires i < n <= |batch.entries|
    requires |MintPrefix(batch, n, m, o, signer, salts)| == n
    ensures MintPrefix(batch, n, m, o, signer, salts)[i] == MintOne(batch, i, m, o, signer, salts(i, m))
  {
    MintPrefixLength(batch, n - 1, m, o, signer, salts);
    if i < n - 1 {
      MintPrefixAt(batch, n - 1, m, o, signer, salts, i);
    }
  }

  /** One witness per leaf, in batch order. */
  lemma MintSetShape(batch: Batch, m: Method, v: TimestampValue, signer: Did, salts: Salts)
    ensures |MintSet(batch, m, v, signer, salts)| == |batch.entries|
    ensures forall i :: 0 <= i < |batch.entries| ==>
      MintSet(batch, m, v, signer, salts)[i] == MintOne(batch, i, m, FromValue(m, v), signer, salts(i, m))
  {
    var o, n := FromValue(m, v), |batch.entries|;
    MintPrefixLength(batch, n, m, o, signer, salts);
    forall i | 0 <= i < n
      ensures MintPrefix(batch, n, m, o, signer, salts)[i] == MintOne(batch, i, m, o, signer, salts(i, m))
    {
      MintPrefixAt(batch, n, m, o, signer, salts, i);
    }
  }

  // ---- What a witness carries ----

  ghost predicate Starts0x(address: string) {
    |address| >= 2 && address[0] == '0' && (address[1] == 'x' || address[1] == 'X')
  }

  /** The anchor fields of a witness, from what the provider returned and the batch root. */
  ghost function CarriedFields(m: Method, v: TimestampValue, root: Root): AnchorFields {
    match m
    case Evm =>
      AnchorFields(network := v.network, transactionHash := v.transactionHash, merkleRoot := root,
                   contract := Some(v.contract),
                   sender := if Starts0x(v.sender) then v.sender else "0x" + v.sender,
                   tsaProvider := "", timestamp := v.timestamp)
    case Qtsa =>
      AnchorFields(network := "tsa", transactionHash := v.transactionHash, merkleRoot := root,
                   contract := None,
                   sender := if v.sender == "" then v.tsaProvider else v.sender,
                   tsaProvider := v.tsaProvider, timestamp := v.timestamp)
  }

  lemma FieldsAreCarried(m: Method, v: TimestampValue, root: Root)
    ensures Facts(m, FromValue(m, v), root) == CarriedFields(m, v, root)
  {
  }

  /** The first 8 of the leaf's hex digits. */
  ghost predicate IsShort(short: string, leaf: Leaf) {
    |short| == 8 && forall i :: 0 <= i < 4 ==>
      && short[2 * i] == LOWER_DIGITS[leaf[i] as nat / 16]
      && short[2 * i + 1] == LOWER_DIGITS[leaf[i] as nat % 16]
  }

  ghost predicate IsObjectFile(f: FileName, m: Method, leaf: Leaf) {
    f.ObjectFile? && f.via == m && IsShort(f.short, leaf)
  }

  ghost predicate IsSignatureFile(f: FileName, m: Method, leaf: Leaf) {
    f.SignatureFile? && f.via == m && IsShort(f.short, leaf)
  }

  lemma ShortIs(leaf: Leaf)
    ensures IsShort(ShortHex(leaf), leaf)
  {
    EncodedLength(leaf);
    forall i | 0 <= i < 4
      ensures ShortHex(leaf)[2 * i] == LOWER_DIGITS[leaf[i] as nat / 16]
      ensures ShortHex(leaf)[2 * i + 1] == LOWER_DIGITS[leaf[i] as nat % 16]
    {
      EncodedAt(leaf, i);
    }
  }

  /** `w` is the witness of leaf `i` of the batch under `m`: its object, its signature and its names. */
  ghost predicate IsWitness(
    w: MintedWitness, batch: Batch, i: nat, m: Method, v: TimestampValue, signer: Did, salt: nat)
    requires i < |batch.entries|
  {
    var e := batch.entries[i];
    && w.leaf == e.leaf && w.did == e.did && w.via == m && w.epochId == batch.epochId
    && w.objectRevision == TimestampObject(e.leaf, Payload(CarriedFields(m, v, batch.root), |batch.entries|, i))
    && w.objectHash == Sha3(w.objectRevision)
    && w.signatureRevision == Signature(w.objectHash, signer, salt)
    && w.signatureHash == Sha3(w.signatureRevision)
    && IsObjectFile(w.objectFile, m, e.leaf) && IsSignatureFile(w.signatureFile, m, e.leaf)
  }

  /** The minted set, witness by witness: one per leaf, in batch order. */
  lemma MintedSetIs(batch: Batch, m: Method, v: TimestampValue, signer: Did, salts: Salts)
    ensures |MintSet(batch, m, v, signer, salts)| == |batch.entries|
    ensures forall i :: 0 <= i < |batch.entries| ==>
      IsWitness(MintSet(batch, m, v, signer, salts)[i], batch, i, m, v, signer, salts(i, m))
  {
    MintSetShape(batch, m, v, signer, salts);
    FieldsAreCarried(m, v, batch.root);
    forall i | 0 <= i < |batch.entries|
      ensures IsWitness(MintSet(batch, m, v, signer, salts)[i], batch, i, m, v, signer, salts(i, m))
    {
      ShortIs(batch.entries[i].leaf);
    }
  }

  lemma {:induction false} RowLength(batch: Batch, i: nat, outcomes: Outcomes, signer: Did, salts: Salts)
    requires i < |batch.entries|
    ensures |MintRow(batch, i, outcomes, signer, salts)| == |outcomes|
  {
    if outcomes != [] {
      RowLength(batch, i, outcomes[..|outcomes| - 1], signer, salts);
    }
  }

  lemma {:induction false} RowAt(batch: Batch, i: nat, outcomes: Outcomes, signer: Did, salts: Salts, j: nat)
    requires i < |batch.entries| && j < |outcomes| == |MintRow(batch, i, outcomes, signer, salts)|
    ensures MintRow(batch, i, outcomes, signer, salts)[j] ==
      MintOne(batch, i, outcomes[j].0, outcomes[j].1, signer, salts(i, outcomes[j].0))
  {
    var n := |outcomes| - 1;
    RowLength(batch, i, outcomes[..n], signer, salts);
    if j < n {
      RowAt(batch, i, outcomes[..n], signer, salts, j);
    }
  }

  /** A leaf's row, place by place: the `j`-th method's witness of the leaf. */
  lemma MintedRowIs(batch: Batch, i: nat, outcomes: Outcomes, values: Method -> TimestampValue, signer: Did,
                    salts: Salts, j: nat)
    requires i < |batch.entries| && j < |outcomes|
    requires outcomes[j].1 == FromValue(outcomes[j].0, values(outcomes[j].0))
    ensures
      var row, m := MintRow(batch, i, outcomes, signer, salts), outcomes[j].0;
      |row| == |outcomes| && IsWitness(row[j], batch, i, m, values(m), signer, salts(i, m))
  {
    var m := outcomes[j].0;
    RowLength(batch, i, outcomes, signer, salts);
    RowAt(batch, i, outcomes, signer, salts, j);
    FieldsAreCarried(m, values(m), batch.root);
    ShortIs(batch.entries[i].leaf);
  }

  /** Every method's batch can be finished, and every witness signed. */
  ghost predicate MintsAll(n: nat, outcomes: Outcomes, finishes: Method -> bool, signs: (nat, Method) -> bool) {
    && (forall j :: 0 <= j < |outcomes| ==> finishes(outcomes[j].0))
    && SignsRows(n, outcomes, signs)
  }

  /** Every witness of the first `n` leaves is signed. */
  ghost predicate SignsRows(n: nat, outcomes: Outcomes, signs: (nat, Method) -> bool) {
    n == 0 || (SignsRows(n - 1, outcomes, signs) && SignsRow(n - 1, outcomes, signs))
  }

  lemma {:induction false} SignsRowsExactly(n: nat, outcomes: Outcomes, signs: (nat, Method) -> bool)
    ensures SignsRows(n, outcomes, signs) <==> forall i :: 0 <= i < n ==> SignsRow(i, outcomes, signs)
  {
    if n > 0 {
      SignsRowsExactly(n - 1, outcomes, signs);
    }
  }

  ghost predicate SignsRow(i: nat, outcomes: Outcomes, signs: (nat, Method) -> bool) {
    forall j :: 0 <= j < |outcomes| ==> signs(i, outcomes[j].0)
  }

  /**
   * The minter. `batchLeaves` are the leaves the prepared batch holds; a batch
   * that does not hold the snapshot's leaves in order is refused, and so is one
   * the SDK cannot finish for some method or the signer cannot sign.
   */
  method MintWitnessesForEpoch(batch: Batch, batchLeaves: seq<Leaf>, outcomes: Outcomes, signer: Did, salts: Salts,
                               finishes: Method -> bool, signs: (nat, Method) -> bool)
      returns (r: Option<seq<MintedWitness>>)
    ensures r.Some? <==> batchLeaves == LeavesOf(batch.entries) && MintsAll(|batch.entries|, outcomes, finishes, signs)
    ensures r.Some? ==> r.value == MintRows(batch, |batch.entries|, outcomes, signer, salts)
  {
    if batchLeaves != LeavesOf(batch.entries) {
      return None;
    }
    var finished := FinishEach(outcomes, finishes);
    if !finished {
      return None;
    }
    r := MintEach(batch, outcomes, signer, salts, signs);
  }

  function AddRow(batch: Batch, i: nat, outcomes: Outcomes, signer: Did, salts: Salts, out: seq<MintedWitness>,
                  row: seq<MintedWitness>): (r: seq<MintedWitness>)
    requires i < |batch.entries| && out == MintRows(batch, i, outcomes, signer, salts)
    requires row == MintRow(batch, i, outcomes, signer, salts)
    ensures r == MintRows(batch, i + 1, outcomes, signer, salts)
  {
    out + row
  }

  /** The witnesses of every leaf, in batch order. */
  method MintEach(batch: Batch, outcomes: Outcomes, signer: Did, salts: Salts, signs: (nat, Method) -> bool)
      returns (r: Option<seq<MintedWitness>>)
    ensures r.Some? <==> SignsRows(|batch.entries|, outcomes, signs)
    ensures r.Some? ==> r.value == MintRows(batch, |batch.entries|, outcomes, signer, salts)
  {
    var out := [];
    for i := 0 to |batch.entries|
      invariant SignsRows(i, outcomes, signs)
      invariant out == MintRows(batch, i, outcomes, signer, salts)
    {
      var row := MintLeaf(batch, i, outcomes, signer, salts, signs);
      if row.None? {
        SignsRowsExactly(|batch.entries|, outcomes, signs);
        return None;
      }
      out := AddRow(batch, i, outcomes, signer, salts, out, row.value);
    }
    return Some(out);
  }

  /** One finish per method. */
  method FinishEach(outcomes: Outcomes, finishes: Method -> bool) returns (ok: bool)
    ensures ok <==> forall j :: 0 <= j < |outcomes| ==> finishes(outcomes[j].0)
  {
    for j := 0 to |outcomes|
      invariant forall k :: 0 <= k < j ==> finishes(outcomes[k].0)
    {
      if !finishes(outcomes[j].0) {
        return false;
      }
    }
    return true;
  }

  /** The witnesses of one leaf, method by method. */
  method MintLeaf(batch: Batch, i: nat, outcomes: Outcomes, signer: Did, salts: Salts, signs: (nat, Method) -> bool)
      returns (r: Option<seq<MintedWitness>>)
    requires i < |batch.entries|
    ensures r.Some? <==> SignsRow(i, outcomes, signs)
    ensures r.Some? ==> r.value == MintRow(batch, i, outcomes, signer, salts)
  {
    var row := [];
    for j := 0 to |outcomes|
      invariant forall k :: 0 <= k < j ==> signs(i, outcomes[k].0)
      invariant row == MintRow(batch, i, outcomes[..j], signer, salts)
    {
      assert outcomes[..j + 1][..j] == outcomes[..j];
      var (m, outcome) := outcomes[j];
      if !signs(i, m) {
        return None;
      }
      row := row + [MintOne(batch, i, m, outcome, signer, salts(i, m))];
    }
    assert outcomes[..|outcomes|] == outcomes;
    return Some(row);
  }

  // ---- The pending record ----

  datatype StoredAnchor = StoredAnchor(via: Method, value: TimestampValue, firstSeen: Option<nat>)

  datatype AnchorFaults = AnchorFaults(via: Method, count: nat)

  /** `leaf` is `0x` and 64 hex digits. */
  datatype PendingLeaf = PendingLeaf(leaf: string, did: Did)

  /** The first stored anchor of `m`. */
  function FindAnchor(s: seq<StoredAnchor>, m: Method): Option<StoredAnchor> {
    if s == [] then None else
      var n := |s| - 1;
      var earlier := FindAnchor(s[..n], m);
      if earlier.Some? then earlier else if s[n].via == m then Some(s[n]) else None
  }

  function Retain(s: seq<StoredAnchor>, m: Method): seq<StoredAnchor> {
    if s == [] then [] else
      var n := |s| - 1;
      Retain(s[..n], m) + if s[n].via == m then [] else [s[n]]
  }

  /** The first anchor of `m` gets the time it is judged at, when it has none. */
  function Stamp(s: seq<StoredAnchor>, m: Method, now: nat): seq<StoredAnchor> {
    if s == [] then [] else
      var n := |s| - 1;
      if FindAnchor(s[..n], m).Some? then Stamp(s[..n], m, now) + [s[n]]
      else if s[n].via == m && s[n].firstSeen.None? then s[..n] + [s[n].(firstSeen := Some(now))]
      else s
  }

  function FindFaults(s: seq<AnchorFaults>, m: Method): Option<nat> {
    if s == [] then None else
      var n := |s| - 1;
      var earlier := FindFaults(s[..n], m);
      if earlier.Some? then earlier else if s[n].via == m then Some(s[n].count) else None
  }

  /** The first counter of `m` goes up; a missing counter is pushed at one. */
  function Bump(s: seq<AnchorFaults>, m: Method): seq<AnchorFaults> {
    if s == [] then [AnchorFaults(m, 1)] else
      var n := |s| - 1;
      if FindFaults(s[..n], m).Some? then Bump(s[..n], m) + [s[n]]
      else if s[n].via == m then s[..n] + [s[n].(count := s[n].count + 1)]
      else s + [AnchorFaults(m, 1)]
  }

  function RetainMethods(s: seq<Method>, m: Method): seq<Method> {
    if s == [] then [] else
      var n := |s| - 1;
      RetainMethods(s[..n], m) + if s[n] == m then [] else [s[n]]
  }

  lemma {:induction false} FindRetain(s: seq<StoredAnchor>, m: Method, k: Method)
    ensures FindAnchor(Retain(s, m), k) == if k == m then None else FindAnchor(s, k)
  {
    if s != [] {
      var n := |s| - 1;
      FindRetain(s[..n], m, k);
      var kept := Retain(s[..n], m);
      assert (kept + [s[n]])[..|kept|] == kept;
      assert kept + [] == kept;
    }
  }

  lemma FindPush(s: seq<StoredAnchor>, a: StoredAnchor, k: Method)
    ensures FindAnchor(s + [a], k) ==
      if FindAnchor(s, k).Some? then FindAnchor(s, k) else if a.via == k then Some(a) else None
  {
  }

  lemma FaultsPush(s: seq<AnchorFaults>, x: AnchorFaults, k: Method)
    ensures FindFaults(s + [x], k) ==
      if FindFaults(s, k).Some? then FindFaults(s, k) else if x.via == k then Some(x.count) else None
  {
    assert (s + [x])[..|s|] == s;
  }

  lemma {:induction false} FindBump(s: seq<AnchorFaults>, m: Method, k: Method)
    ensures FindFaults(Bump(s, m), k) ==
      if k == m then Some(if FindFaults(s, m).Some? then FindFaults(s, m).value + 1 else 1)
      else FindFaults(s, k)
  {
    if s == [] {
      FaultsPush([], AnchorFaults(m, 1), k);
      assert [] + [AnchorFaults(m, 1)] == [AnchorFaults(m, 1)];
    } else {
      var n := |s| - 1;
      if FindFaults(s[..n], m).Some? {
        FindBump(s[..n], m, k);
        FaultsPush(Bump(s[..n], m), s[n], k);
      } else if s[n].via == m {
        FaultsPush(s[..n], s[n].(count := s[n].count + 1), k);
      } else {
        FaultsPush(s, AnchorFaults(m, 1), k);
      }
    }
  }

  lemma {:induction false} RetainMethodsMembers(s: seq<Method>, m: Method, k: Method)
    ensures k in RetainMethods(s, m) <==> k in s && k != m
  {
    if s != [] {
      var n := |s| - 1;
      RetainMethodsMembers(s[..n], m, k);
      assert s == s[..n] + [s[n]];
    }
  }

  lemma {:induction false} RetainMethodsNoDup(s: seq<Method>, m: Method)
    requires NoDup(s)
    ensures NoDup(RetainMethods(s, m))
  {
    if s != [] {
      var n := |s| - 1;
      RetainMethodsNoDup(s[..n], m);
      RetainMethodsMembers(s[..n], m, s[n]);
    }
  }

  // The same facts for every method at once, as the record's updates need them.

  lemma RetainEach(s: seq<StoredAnchor>, m: Method)
    ensures forall k :: FindAnchor(Retain(s, m), k) == if k == m then None else FindAnchor(s, k)
  {
    forall k ensures FindAnchor(Retain(s, m), k) == if k == m then None else FindAnchor(s, k) {
      FindRetain(s, m, k);
    }
  }

  lemma ReplaceEach(s: seq<StoredAnchor>, a: StoredAnchor)
    ensures forall k :: FindAnchor(Retain(s, a.via) + [a], k) == if k == a.via then Some(a) else FindAnchor(s, k)
  {
    forall k
      ensures FindAnchor(Retain(s, a.via) + [a], k) == if k == a.via then Some(a) else FindAnchor(s, k)
    {
      FindRetain(s, a.via, k);
      FindPush(Retain(s, a.via), a, k);
    }
  }

  lemma StampEach(s: seq<StoredAnchor>, m: Method, now: nat)
    ensures forall k :: FindAnchor(Stamp(s, m, now), k) == Stamped(FindAnchor(s, k), k == m, now)
  {
  }

  function Stamped(a: Option<StoredAnchor>, judged: bool, now: nat): Option<StoredAnchor> {
    if judged && a.Some? && a.value.firstSeen.None? then Some(a.value.(firstSeen := Some(now))) else a
  }

  function Faults(s: seq<AnchorFaults>, m: Method): nat {
    var found := FindFaults(s, m);
    if found.Some? then found.value else 0
  }

  lemma BumpEach(s: seq<AnchorFaults>, m: Method)
    ensures forall k :: Faults(Bump(s, m), k) == if k == m then Faults(s, m) + 1 else Faults(s, k)
  {
    forall k ensures Faults(Bump(s, m), k) == if k == m then Faults(s, m) + 1 else Faults(s, k) {
      FindBump(s, m, k);
    }
  }

  lemma RetainMethodsEach(s: seq<Method>, m: Method)
    ensures forall k :: k in RetainMethods(s, m) <==> k in s && k != m
    ensures NoDup(s) ==> NoDup(RetainMethods(s, m))
  {
    forall k ensures k in RetainMethods(s, m) <==> k in s && k != m {
      RetainMethodsMembers(s, m, k);
    }
    if NoDup(s) {
      RetainMethodsNoDup(s, m);
    }
  }

  /** The JSON of a `PendingEpoch`: what the store keeps. */
  datatype PendingRecord = PendingRecord(
    epochId: nat, openedAt: nat, closedAt: nat, methods: seq<Method>, leaves: seq<PendingLeaf>,
    root: Root, anchors: seq<StoredAnchor>, faults: seq<AnchorFaults>)
  {
    function Anchor(m: Method): Option<StoredAnchor> {
      FindAnchor(anchors, m)
    }

    function FaultCount(m: Method): nat {
      Faults(faults, m)
    }

    function WithoutAnchor(m: Method): (r: PendingRecord)
      ensures forall k :: r.Anchor(k) == if k == m then None else Anchor(k)
      ensures forall k :: r.FaultCount(k) == FaultCount(k)
    {
      RetainEach(anchors, m);
      this.(anchors := Retain(anchors, m))
    }

    function WithAnchor(m: Method, v: TimestampValue, now: nat): (r: PendingRecord)
      ensures forall k :: r.Anchor(k) == if k == m then Some(StoredAnchor(m, v, Some(now))) else Anchor(k)
      ensures forall k :: r.FaultCount(k) == FaultCount(k)
    {
      var a := StoredAnchor(m, v, Some(now));
      ReplaceEach(anchors, a);
      this.(anchors := Retain(anchors, m) + [a])
    }

    function WithFirstSeen(m: Method, now: nat): (r: PendingRecord)
      ensures forall k :: r.Anchor(k) == Stamped(Anchor(k), k == m, now)
      ensures forall k :: r.FaultCount(k) == FaultCount(k)
    {
      StampEach(anchors, m, now);
      this.(anchors := Stamp(anchors, m, now))
    }

    function WithFault(m: Method): (r: PendingRecord)
      ensures forall k :: r.FaultCount(k) == if k == m then FaultCount(m) + 1 else FaultCount(k)
      ensures forall k :: r.Anchor(k) == Anchor(k)
    {
      BumpEach(faults, m);
      this.(faults := Bump(faults, m))
    }

    /** The record once `m` is served: neither the method nor its anchor is left. */
    function Without(m: Method): (r: PendingRecord)
      ensures forall k :: k in r.methods <==> k in methods && k != m
      ensures NoDup(methods) ==> NoDup(r.methods)
      ensures forall k :: r.Anchor(k) == if k == m then None else Anchor(k)
      ensures forall k :: r.FaultCount(k) == FaultCount(k)
    {
      RetainMethodsEach(methods, m);
      RetainEach(anchors, m);
      this.(methods := RetainMethods(methods, m), anchors := Retain(anchors, m))
    }
  }

  // ---- Writing and reading back the leaves ----

  function StoredLeaves(entries: seq<LeafEntry>): seq<PendingLeaf> {
    if entries == [] then [] else
      var n := |entries| - 1;
      StoredLeaves(entries[..n]) + [PendingLeaf(HexLower(entries[n].leaf), entries[n].did)]
  }

  function LeafHashes(leaves: seq<PendingLeaf>): Result<seq<Hash32>, StoredLeafError> {
    if leaves == [] then Ok([]) else
      var n := |leaves| - 1;
      match LeafHashes(leaves[..n])
      case Err(e) => Err(e)
      case Ok(hashes) =>
        match DecodeStoredLeaf(leaves[n].leaf)
        case Err(e) => Err(e)
        case Ok(h) => Ok(hashes + [h])
  }

  /** The hashes zipped with the submitters of the stored leaves. */
  function Zipped(hashes: seq<Hash32>, leaves: seq<PendingLeaf>): seq<LeafEntry> {
    if hashes == [] || leaves == [] then [] else
      [LeafEntry(hashes[0], leaves[0].did)] + Zipped(hashes[1..], leaves[1..])
  }

  /** `PendingEpoch::restore`: the batch to mint from. */
  function Restore(r: PendingRecord): Result<Batch, StoredLeafError> {
    match LeafHashes(r.leaves)
    case Err(e) => Err(e)
    case Ok(hashes) => Ok(Batch(r.epochId, r.root, Zipped(hashes, r.leaves)))
  }

  function NewPending(epochId: nat, openedAt: nat, closedAt: nat, entries: seq<LeafEntry>, root: Root,
                      methods: seq<Method>): PendingRecord {
    PendingRecord(epochId, openedAt, closedAt, methods, StoredLeaves(entries), root, [], [])
  }

  lemma {:induction false} StoredLeavesAt(entries: seq<LeafEntry>)
    ensures |StoredLeaves(entries)| == |entries|
    ensures forall i :: 0 <= i < |entries| ==> StoredLeaves(entries)[i].did == entries[i].did
  {
    if entries != [] {
      StoredLeavesAt(entries[..|entries| - 1]);
    }
  }

  lemma {:induction false} StoredLeavesReadBack(entries: seq<LeafEntry>)
    ensures LeafHashes(StoredLeaves(entries)) == Ok(LeavesOf(entries))
  {
    if entries != [] {
      var n := |entries| - 1;
      var stored := StoredLeaves(entries);
      StoredLeavesReadBack(entries[..n]);
      StoredLeavesAt(entries[..n]);
      CanonicalRoundTrip(entries[n].leaf);
      assert stored[..n] == StoredLeaves(entries[..n]);
      assert stored[n].leaf == HexLower(entries[n].leaf);
    }
  }

  lemma {:induction false} ZippedAt(hashes: seq<Hash32>, leaves: seq<PendingLeaf>, entries: seq<LeafEntry>)
    requires |hashes| == |leaves| == |entries|
    requires forall i :: 0 <= i < |entries| ==> LeafEntry(hashes[i], leaves[i].did) == entries[i]
    ensures Zipped(hashes, leaves) == entries
  {
    if entries != [] {
      ZippedAt(hashes[1..], leaves[1..], entries[1..]);
      assert entries == [entries[0]] + entries[1..];
    }
  }

  /** What a pending record restores is the batch it was made from. */
  lemma {:induction false} RestoreInvertsStore(r: PendingRecord, entries: seq<LeafEntry>)
    requires r.leaves == StoredLeaves(entries)
    ensures LeafHashes(r.leaves) == Ok(LeavesOf(entries))
    ensures Restore(r) == Ok(Batch(r.epochId, r.root, entries))
  {
    StoredLeavesAt(entries);
    StoredLeavesReadBack(entries);
    LeavesOfAt(entries);
    ZippedAt(LeavesOf(entries), r.leaves, entries);
  }

  // ---- Tips are distinct ----

  /**
   * Two minted tips are equal only when they stand for the same leaf, method
   * and epoch root; a qTSA payload carries no contract address, an EVM one does.
   */
  lemma TipDetermines(b1: Batch, i1: nat, m1: Method, v1: TimestampValue, b2: Batch, i2: nat, m2: Method,
                      v2: TimestampValue,
                      signer1: Did, salt1: nat, signer2: Did, salt2: nat)
    requires i1 < |b1.entries| && i2 < |b2.entries|
    requires MintOne(b1, i1, m1, FromValue(m1, v1), signer1, salt1).signatureHash
          == MintOne(b2, i2, m2, FromValue(m2, v2), signer2, salt2).signatureHash
    ensures b1.entries[i1].leaf == b2.entries[i2].leaf && m1 == m2 && b1.root == b2.root
  {
    var o1 := MintOne(b1, i1, m1, FromValue(m1, v1), signer1, salt1).objectRevision;
    var o2 := MintOne(b2, i2, m2, FromValue(m2, v2), signer2, salt2).objectRevision;
    assert o1 == o2;
    assert o1.payload.anchor.contract == o2.payload.anchor.contract;
  }

  // ---- The component ----

  lemma {:induction false} BumpFirst(s: seq<AnchorFaults>, m: Method, i: nat)
    requires i < |s| && FindFaults(s[..i], m).None? && s[i].via == m
    ensures Bump(s, m) == s[i := s[i].(count := s[i].count + 1)]
    ensures FindFaults(s, m) == Some(s[i].count)
  {
    var n := |s| - 1;
    if i < n {
      assert s[..n][..i] == s[..i];
      BumpFirst(s[..n], m, i);
    }
  }

  lemma BumpMissing(s: seq<AnchorFaults>, m: Method)
    requires FindFaults(s, m).None?
    ensures Bump(s, m) == s + [AnchorFaults(m, 1)]
  {
  }

  lemma {:induction false} StampFirst(s: seq<StoredAnchor>, m: Method, now: nat, i: nat)
    requires i < |s| && FindAnchor(s[..i], m).None? && s[i].via == m
    ensures FindAnchor(s, m) == Some(s[i])
    ensures Stamp(s, m, now) == if s[i].firstSeen.None? then s[i := s[i].(firstSeen := Some(now))] else s
  {
    var n := |s| - 1;
    if i < n {
      assert s[..n][..i] == s[..i];
      StampFirst(s[..n], m, now, i);
      assert s == s[..n] + [s[n]];
    }
  }

  lemma {:induction false} StampMissing(s: seq<StoredAnchor>, m: Method, now: nat)
    requires FindAnchor(s, m).None?
    ensures Stamp(s, m, now) == s
  {
  }

  /** The volatile copy of a pending record that a tick works on. */
  class PendingEpoch {
    var epochId: nat
    var openedAt: nat
    var closedAt: nat
    var methods: seq<Method>
    var leaves: seq<PendingLeaf>
    var root: Root
    var anchors: seq<StoredAnchor>
    var anchorFaults: seq<AnchorFaults>

    function View(): PendingRecord
      reads this
    {
      PendingRecord(epochId, openedAt, closedAt, methods, leaves, root, anchors, anchorFaults)
    }

    constructor FromRecord(r: PendingRecord)
      ensures View() == r
    {
      epochId, openedAt, closedAt := r.epochId, r.openedAt, r.closedAt;
      methods, leaves, root := r.methods, r.leaves, r.root;
      anchors, anchorFaults := r.anchors, r.faults;
    }

    method DropAnchor(m: Method)
      modifies this`anchors
      ensures View() == old(View()).WithoutAnchor(m)
    {
      var kept := [];
      for i := 0 to |anchors|
        invariant kept == Retain(anchors[..i], m)
        invariant anchors == old(anchors)
      {
        assert anchors[..i + 1][..i] == anchors[..i];
        if anchors[i].via != m {
          kept := kept + [anchors[i]];
        }
      }
      assert anchors[..|anchors|] == anchors;
      anchors := kept;
    }

    method SetAnchor(m: Method, v: TimestampValue, now: nat)
      modifies this`anchors
      ensures View() == old(View()).WithAnchor(m, v, now)
    {
      DropAnchor(m);
      anchors := anchors + [StoredAnchor(m, v, Some(now))];
    }

    /** The first-seen time of `m`'s anchor, and whether it was filled in just now. */
    method AnchorFirstSeen(m: Method, now: nat) returns (r: Option<(nat, bool)>)
      modifies this`anchors
      ensures View() == old(View()).WithFirstSeen(m, now)
      ensures r == match old(View()).Anchor(m)
                   case None => None
                   case Some(a) => if a.firstSeen.Some? then Some((a.firstSeen.value, false)) else Some((now, true))
    {
      for i := 0 to |anchors|
        invariant FindAnchor(anchors[..i], m).None?
        invariant anchors == old(anchors)
      {
        assert anchors[..i + 1][..i] == anchors[..i];
        if anchors[i].via == m {
          StampFirst(anchors, m, now, i);
          match anchors[i].firstSeen {
            case Some(t) =>
              return Some((t, false));
            case None =>
              anchors := anchors[i := anchors[i].(firstSeen := Some(now))];
              return Some((now, true));
          }
        }
      }
      assert anchors[..|anchors|] == anchors;
      StampMissing(anchors, m, now);
      return None;
    }

    method CountAnchorFault(m: Method) returns (count: nat)
      modifies this`anchorFaults
      ensures View() == old(View()).WithFault(m)
      ensures count == View().FaultCount(m)
    {
      ghost var before := View();
      for i := 0 to |anchorFaults|
        invariant FindFaults(anchorFaults[..i], m).None?
        invariant anchorFaults == old(anchorFaults)
      {
        assert anchorFaults[..i + 1][..i] == anchorFaults[..i];
        if anchorFaults[i].via == m {
          BumpFirst(anchorFaults, m, i);
          count := anchorFaults[i].count + 1;
          anchorFaults := anchorFaults[i := AnchorFaults(m, count)];
          assert View() == before.WithFault(m);
          return;
        }
      }
      assert anchorFaults[..|anchorFaults|] == anchorFaults;
      BumpMissing(anchorFaults, m);
      anchorFaults := anchorFaults + [AnchorFaults(m, 1)];
      assert View() == before.WithFault(m);
      return 1;
    }

    /** `*pending = remaining`. */
    method Become(r: PendingRecord)
      modifies this
      ensures View() == r
    {
      epochId, openedAt, closedAt := r.epochId, r.openedAt, r.closedAt;
      methods, leaves, root := r.methods, r.leaves, r.root;
      anchors, anchorFaults := r.anchors, r.faults;
    }
  }
}
