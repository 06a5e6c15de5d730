/**
 * The block watcher: windows of blocks scanned for inbound transfers, the
 * contributors credited and the watermark advanced in one batch.
 */
module Watcher {
  import opened Base
  import opened Storage

  const MAX_U128: nat := 0xFFFF_FFFF_FFFF_FFFF_FFFF_FFFF_FFFF_FFFF

  type Address = a: seq<Byte> | |a| == 20 witness seq(20, _ => 0)

  datatype Transfer = Transfer(sender: Address, value: nat, blockNumber: nat, blockTimestamp: nat)

  datatype Tx = Tx(recipient: Option<Address>, signer: Address, value: nat)

  /** A block whose provider did not return full transactions yields no transfers. */
  datatype Block = Block(timestamp: nat, txs: Option<seq<Tx>>)

  type Chain = nat -> Block

  datatype Contributor = Contributor(did: Did, fuelWei: nat, fuelSat: nat, hashes: nat, lastActive: nat)

  type Contributors = map<Address, Contributor>

  function Sat128(n: nat): nat {
    Min(n, MAX_U128)
  }

  // ---- Scanning ----

  /** The inbound transfers of positive value, in block order. */
  function FilterTransfers(txs: seq<Tx>, wallet: Address, number: nat, timestamp: nat): seq<Transfer> {
    if txs == [] then [] else
      var n := |txs| - 1;
      FilterTransfers(txs[..n], wallet, number, timestamp) +
      if txs[n].recipient == Some(wallet) && txs[n].value > 0
      then [Transfer(txs[n].signer, txs[n].value, number, timestamp)] else []
  }

  function BlockTransfers(c: Chain, wallet: Address, n: nat): seq<Transfer> {
    match c(n).txs
    case None => []
    case Some(txs) => FilterTransfers(txs, wallet, n, c(n).timestamp)
  }

  /** The transfers of blocks `lo..hi`, `hi` not included. */
  function TransfersIn(c: Chain, wallet: Address, lo: nat, hi: nat): seq<Transfer>
    decreases hi
  {
    if hi <= lo then [] else TransfersIn(c, wallet, lo, hi - 1) + BlockTransfers(c, wallet, hi - 1)
  }

  lemma {:induction false} TransfersConcat(c: Chain, wallet: Address, a: nat, b: nat, d: nat)
    requires a <= b <= d
    ensures TransfersIn(c, wallet, a, d) == TransfersIn(c, wallet, a, b) + TransfersIn(c, wallet, b, d)
  {
    if b < d {
      TransfersConcat(c, wallet, a, b, d - 1);
    }
  }

  lemma {:induction false} FilteredArePositive(txs: seq<Tx>, wallet: Address, number: nat, timestamp: nat)
    ensures Positive(FilterTransfers(txs, wallet, number, timestamp))
  {
    if txs != [] {
      FilteredArePositive(txs[..|txs| - 1], wallet, number, timestamp);
    }
  }

  ghost predicate Positive(ts: seq<Transfer>) {
    forall i :: 0 <= i < |ts| ==> ts[i].value > 0
  }

  lemma {:induction false} ScannedArePositive(c: Chain, wallet: Address, lo: nat, hi: nat)
    ensures Positive(TransfersIn(c, wallet, lo, hi))
    decreases hi
  {
    if lo < hi {
      ScannedArePositive(c, wallet, lo, hi - 1);
      if c(hi - 1).txs.Some? {
        FilteredArePositive(c(hi - 1).txs.value, wallet, hi - 1, c(hi - 1).timestamp);
      }
    }
  }

  ghost predicate ValuesFit(txs: seq<Tx>) {
    forall i :: 0 <= i < |txs| ==> txs[i].value <= MAX_U128
  }

  ghost predicate Fits(ts: seq<Transfer>) {
    forall i :: 0 <= i < |ts| ==> ts[i].value <= MAX_U128
  }

  lemma {:induction false} FilteredFit(txs: seq<Tx>, wallet: Address, number: nat, timestamp: nat)
    requires ValuesFit(txs)
    ensures Fits(FilterTransfers(txs, wallet, number, timestamp))
  {
    if txs != [] {
      FilteredFit(txs[..|txs| - 1], wallet, number, timestamp);
    }
  }

  /** `scan_blocks`: at most a hundred blocks from `lo`; `None` when a fetch fails. */
  method ScanBlocks(c: Chain, wallet: Address, lo: nat, hi: nat, reachable: nat -> bool)
      returns (r: Option<seq<Transfer>>)
    ensures r.Some? <==> forall n :: lo <= n <= Min(hi, SatAdd(lo, 99)) ==> reachable(n)
    ensures r.Some? ==> r.value == TransfersIn(c, wallet, lo, Min(hi, SatAdd(lo, 99)) + 1)
  {
    var cap := Min(hi, SatAdd(lo, 99));
    if cap < lo {
      return Some([]);
    }
    var transfers := [];
    for n := lo to cap + 1
      invariant forall k :: lo <= k < n ==> reachable(k)
      invariant transfers == TransfersIn(c, wallet, lo, n)
    {
      if !reachable(n) {
        return None;
      }
      transfers := Extend(c, wallet, lo, n, transfers);
    }
    return Some(transfers);
  }

  function Extend(c: Chain, wallet: Address, lo: nat, n: nat, transfers: seq<Transfer>): (r: seq<Transfer>)
    requires lo <= n && transfers == TransfersIn(c, wallet, lo, n)
    ensures r == TransfersIn(c, wallet, lo, n + 1)
  {
    transfers + BlockTransfers(c, wallet, n)
  }

  // ---- The scan, in terms of the chain ----

  /** A transaction of the chain: its block and its position in it. */
  datatype Place = Place(block: nat, index: nat)

  ghost predicate Before(p: Place, q: Place) {
    p.block < q.block || (p.block == q.block && p.index < q.index)
  }

  /** The transaction at `p` sends the wallet a positive value. */
  ghost predicate Pays(c: Chain, wallet: Address, p: Place) {
    && c(p.block).txs.Some? && p.index < |c(p.block).txs.value|
    && c(p.block).txs.value[p.index].recipient == Some(wallet) && c(p.block).txs.value[p.index].value > 0
  }

  /** `t` is the transaction at `p`, with its signer, value, block and the block's time. */
  ghost predicate IsPayment(c: Chain, wallet: Address, p: Place, t: Transfer) {
    && Pays(c, wallet, p)
    && t == Transfer(c(p.block).txs.value[p.index].signer, c(p.block).txs.value[p.index].value, p.block,
                     c(p.block).timestamp)
  }

  /** The transfers `ts` are those of the places `at`, in chain order, all of blocks `lo..hi`. */
  ghost predicate Lists(c: Chain, wallet: Address, lo: nat, hi: nat, ts: seq<Transfer>, at: seq<Place>) {
    && |at| == |ts|
    && (forall i :: 0 <= i < |at| ==> lo <= at[i].block < hi && IsPayment(c, wallet, at[i], ts[i]))
    && (forall i, j :: 0 <= i < j < |at| ==> Before(at[i], at[j]))
  }

  /** No payment of blocks `lo..hi` is missing from `at`. */
  ghost predicate ListsAll(c: Chain, wallet: Address, lo: nat, hi: nat, at: seq<Place>) {
    forall p: Place :: lo <= p.block < hi && Pays(c, wallet, p) ==> p in at
  }

  /** The payments of the first `n` transactions of a block. */
  lemma {:induction false} BlockPlaces(c: Chain, wallet: Address, block: nat, txs: seq<Tx>, n: nat)
      returns (at: seq<Place>)
    requires c(block).txs == Some(txs) && n <= |txs|
    ensures Lists(c, wallet, block, block + 1, FilterTransfers(txs[..n], wallet, block, c(block).timestamp), at)
    ensures forall p :: p in at ==> p.index < n
    ensures forall p: Place :: p.block == block && p.index < n && Pays(c, wallet, p) ==> p in at
  {
    if n == 0 {
      at := [];
    } else {
      at := BlockPlaces(c, wallet, block, txs, n - 1);
      assert txs[..n][..n - 1] == txs[..n - 1] && txs[..n][n - 1] == txs[n - 1];
      var p := Place(block, n - 1);
      if Pays(c, wallet, p) {
        at := PushPlace(c, wallet, block, FilterTransfers(txs[..n - 1], wallet, block, c(block).timestamp), at, p);
      }
    }
  }

  lemma PushPlace(c: Chain, wallet: Address, block: nat, ts: seq<Transfer>, at: seq<Place>, p: Place)
      returns (at': seq<Place>)
    requires Lists(c, wallet, block, block + 1, ts, at) && (forall q :: q in at ==> q.index < p.index)
    requires p.block == block && Pays(c, wallet, p)
    ensures at' == at + [p]
    ensures
      var tx := c(block).txs.value[p.index];
      Lists(c, wallet, block, block + 1, ts + [Transfer(tx.signer, tx.value, block, c(block).timestamp)], at')
  {
    at' := at + [p];
    forall i | 0 <= i < |at|
      ensures Before(at[i], p)
    {
      assert at[i] in at;
    }
  }

  lemma ListsConcat(c: Chain, wallet: Address, lo: nat, mid: nat, hi: nat, s: seq<Transfer>, t: seq<Transfer>,
                    at: seq<Place>, last: seq<Place>)
    requires lo <= mid <= hi && Lists(c, wallet, lo, mid, s, at) && Lists(c, wallet, mid, hi, t, last)
    ensures Lists(c, wallet, lo, hi, s + t, at + last)
  {
    var all, ts := at + last, s + t;
    forall i | 0 <= i < |all|
      ensures lo <= all[i].block < hi && IsPayment(c, wallet, all[i], ts[i])
    {
      assert i < |at| ==> all[i] == at[i] && ts[i] == s[i];
      assert i >= |at| ==> all[i] == last[i - |at|] && ts[i] == t[i - |at|];
    }
    forall i, j | 0 <= i < j < |all|
      ensures Before(all[i], all[j])
    {
      assert i < |at| ==> all[i] == at[i];
      assert j >= |at| ==> all[j] == last[j - |at|];
    }
  }

  /** One block's payments. */
  lemma BlockListsThePayments(c: Chain, wallet: Address, n: nat) returns (at: seq<Place>)
    ensures Lists(c, wallet, n, n + 1, BlockTransfers(c, wallet, n), at) && ListsAll(c, wallet, n, n + 1, at)
  {
    at := [];
    if c(n).txs.Some? {
      var txs := c(n).txs.value;
      at := BlockPlaces(c, wallet, n, txs, |txs|);
      assert txs[..|txs|] == txs;
    }
  }

  /**
   * What a scan yields: exactly the transactions of its blocks that send the
   * wallet a positive value, each once, in block and index order.
   */
  lemma {:induction false} ScanListsThePayments(c: Chain, wallet: Address, lo: nat, hi: nat) returns (at: seq<Place>)
    ensures Lists(c, wallet, lo, hi, TransfersIn(c, wallet, lo, hi), at) && ListsAll(c, wallet, lo, hi, at)
    decreases hi
  {
    if hi <= lo {
      at := [];
    } else {
      var before := ScanListsThePayments(c, wallet, lo, hi - 1);
      var last := BlockListsThePayments(c, wallet, hi - 1);
      at := before + last;
      ListsConcat(c, wallet, lo, hi - 1, hi, TransfersIn(c, wallet, lo, hi - 1), BlockTransfers(c, wallet, hi - 1),
                  before, last);
      forall p: Place | lo <= p.block < hi && Pays(c, wallet, p)
        ensures p in at
      {
        assert p in before || p in last;
      }
    }
  }

  /** What `a` sends the wallet in a list of transactions. */
  ghost function TxSum(txs: seq<Tx>, wallet: Address, a: Address): nat {
    if txs == [] then 0 else
      var n := |txs| - 1;
      TxSum(txs[..n], wallet, a) + if txs[n].recipient == Some(wallet) && txs[n].signer == a then txs[n].value else 0
  }

  /** What `a` sends the wallet in a block whose transactions are known. */
  ghost function BlockSum(b: Block, wallet: Address, a: Address): nat {
    if b.txs.Some? then TxSum(b.txs.value, wallet, a) else 0
  }

  /** What `a` sends the wallet in blocks `lo..hi`. */
  ghost function ChainSum(c: Chain, wallet: Address, lo: nat, hi: nat, a: Address): nat
    decreases hi
  {
    if hi <= lo then 0 else ChainSum(c, wallet, lo, hi - 1, a) + BlockSum(c(hi - 1), wallet, a)
  }

  // ---- Crediting a window ----

  /** The entry of a sender after one transfer, from what the store holds. */
  function EntryAfter(existing: Option<Contributor>, did: Did, t: Transfer): Contributor {
    match existing
    case Some(e) =>
      e.(fuelWei := Sat128(e.fuelWei + t.value),
         lastActive := if t.blockTimestamp > e.lastActive then t.blockTimestamp else e.lastActive)
    case None => Contributor(did, t.value, 0, 0, t.blockTimestamp)
  }

  function Lookup(m: Contributors, a: Address): Option<Contributor> {
    if a in m then Some(m[a]) else None
  }

  /**
   * The contributors after a window: every entry is computed from the store as
   * it was before the window, and the last write of a sender stands.
   */
  function Credited(m: Contributors, ts: seq<Transfer>, didOf: Address -> Did): Contributors {
    if ts == [] then m else
      var n := |ts| - 1;
      Credited(m, ts[..n], didOf)[ts[n].sender := EntryAfter(Lookup(m, ts[n].sender), didOf(ts[n].sender), ts[n])]
  }

  function Fuel(m: Contributors, a: Address): nat {
    if a in m then m[a].fuelWei else 0
  }

  /** The value of the last transfer of `a`. */
  function LastValue(ts: seq<Transfer>, a: Address): nat {
    if ts == [] then 0 else
      var n := |ts| - 1;
      if ts[n].sender == a then ts[n].value else LastValue(ts[..n], a)
  }

  function SumValue(ts: seq<Transfer>, a: Address): nat {
    if ts == [] then 0 else
      var n := |ts| - 1;
      SumValue(ts[..n], a) + if ts[n].sender == a then ts[n].value else 0
  }

  function Occurrences(ts: seq<Transfer>, a: Address): nat {
    if ts == [] then 0 else
      var n := |ts| - 1;
      Occurrences(ts[..n], a) + if ts[n].sender == a then 1 else 0
  }

  /** The entry of a sender whose last transfer of the window is `t`. */
  ghost predicate IsCredited(before: Option<Contributor>, after: Contributor, did: Did, t: Transfer) {
    match before
    case None => after == Contributor(did := did, fuelWei := t.value, fuelSat := 0, hashes := 0,
                                      lastActive := t.blockTimestamp)
    case Some(e) =>
      && after.did == e.did && after.fuelSat == e.fuelSat && after.hashes == e.hashes
      && after.fuelWei == (if e.fuelWei + t.value <= MAX_U128 then e.fuelWei + t.value else MAX_U128)
      && after.lastActive == (if e.lastActive < t.blockTimestamp then t.blockTimestamp else e.lastActive)
  }

  /** A window leaves a contributor without a transfer in it alone. */
  lemma {:induction false} WindowLeavesOthers(m: Contributors, ts: seq<Transfer>, didOf: Address -> Did, a: Address)
    requires forall i :: 0 <= i < |ts| ==> ts[i].sender != a
    ensures Lookup(Credited(m, ts, didOf), a) == Lookup(m, a)
  {
    if ts != [] {
      WindowLeavesOthers(m, ts[..|ts| - 1], didOf, a);
    }
  }

  /** A window credits a sender from its entry before and its last transfer. */
  lemma {:induction false} WindowCredits(m: Contributors, ts: seq<Transfer>, didOf: Address -> Did, i: nat)
    requires i < |ts| && forall j :: i < j < |ts| ==> ts[j].sender != ts[i].sender
    ensures
      var a := ts[i].sender;
      && a in Credited(m, ts, didOf)
      && IsCredited(if a in m then Some(m[a]) else None, Credited(m, ts, didOf)[a], didOf(a), ts[i])
  {
    var n := |ts| - 1;
    if i < n {
      WindowCredits(m, ts[..n], didOf, i);
    }
  }

  /** A window credits each sender with its last transfer of the window. */
  lemma {:induction false} WindowCreditsLast(m: Contributors, ts: seq<Transfer>, didOf: Address -> Did, a: Address)
    requires Fits(ts) && Fuel(m, a) <= MAX_U128
    ensures Fuel(Credited(m, ts, didOf), a) == Sat128(Fuel(m, a) + LastValue(ts, a))
  {
    if ts != [] {
      WindowCreditsLast(m, ts[..|ts| - 1], didOf, a);
    }
  }

  /** Crediting the last transfer is crediting them all exactly when there is at most one. */
  lemma {:induction false} LastIsSumIffOnce(ts: seq<Transfer>, a: Address)
    requires Positive(ts)
    ensures LastValue(ts, a) <= SumValue(ts, a)
    ensures LastValue(ts, a) == SumValue(ts, a) <==> Occurrences(ts, a) <= 1
    ensures SumValue(ts, a) == 0 <==> Occurrences(ts, a) == 0
  {
    if ts != [] {
      LastIsSumIffOnce(ts[..|ts| - 1], a);
    }
  }

  // ---- The loop as a state machine ----

  /** What scanning blocks `lo..hi` yields. */
  type Scan = (nat, nat) -> seq<Transfer>

  ghost function ScanOf(c: Chain, wallet: Address): Scan {
    (lo: nat, hi: nat) => TransfersIn(c, wallet, lo, hi)
  }

  ghost predicate Splits(scan: Scan, a: nat, b: nat, d: nat) {
    a <= b <= d ==> scan(a, d) == scan(a, b) + scan(b, d)
  }

  /** Scanning two adjacent ranges is scanning their union; an empty range yields nothing. */
  ghost predicate Additive(scan: Scan) {
    && (forall a: nat, b: nat, d: nat :: Splits(scan, a, b, d))
    && (forall a: nat :: scan(a, a) == [])
  }

  lemma ScanConcat(scan: Scan, a: nat, b: nat, d: nat)
    requires Additive(scan) && a <= b <= d
    ensures scan(a, d) == scan(a, b) + scan(b, d)
  {
    assert Splits(scan, a, b, d);
  }

  lemma ChainScanIsAdditive(c: Chain, wallet: Address)
    ensures Additive(ScanOf(c, wallet))
  {
    forall a: nat, b: nat, d: nat
      ensures Splits(ScanOf(c, wallet), a, b, d)
    {
      if a <= b <= d {
        TransfersConcat(c, wallet, a, b, d);
      }
    }
  }

  /**
   * The durable contributors and watermark, the watermark in memory, and
   * (ghost) the block the very first start began after, the block the committed
   * windows began after, and those windows.
   */
  datatype Watch = Watch(
    contributors: Contributors, stored: Option<nat>,
    running: bool, watermark: nat,
    first: Option<nat>, base: nat, windows: seq<seq<Transfer>>)

  datatype PollEnv = PollEnv(latest: Option<nat>, scanned: bool, write: WriteOutcome)

  /** A start may fail to read the stored watermark, a poll to learn the latest block or to scan. */
  datatype WatchAction = Start(read: bool, latest: Option<nat>) | Poll(env: PollEnv)

  const IDLE: Watch := Watch(map[], None, false, 0, None, 0, [])

  /** The stored watermark, else the current block, else 0; 0 when the store cannot be read. */
  function StartBlock(s: Watch, read: bool, latest: Option<nat>): nat {
    if !read then 0
    else if s.stored.Some? then s.stored.value
    else if latest.Some? then latest.value else 0
  }

  /** The process starts; nothing is stored yet. */
  function Started(s: Watch, read: bool, latest: Option<nat>): Watch {
    var b := StartBlock(s, read, latest);
    s.(running := true, watermark := b, base := if s.stored.None? then b else s.base,
       first := if s.first.None? then Some(b) else s.first)
  }

  /** The window a poll scans: it starts after the watermark and ends within a hundred blocks. */
  function WindowEnd(w: nat, latest: nat): nat {
    Min(latest, SatAdd(w, 100))
  }

  /** What the write for a scanned window leaves; after an error the loop starts over without moving on. */
  ghost function AfterWindow(didOf: Address -> Did, s: Watch, ts: seq<Transfer>, end: nat, o: WriteOutcome): Watch {
    var crash := ResultOf(o) == Crash;
    if ts == [] then
      s.(stored := if Lands(o) then Some(end) else s.stored, watermark := end, running := !crash)
    else if Lands(o) then
      s.(contributors := Credited(s.contributors, ts, didOf), stored := Some(end),
         watermark := if o == Unsynced then s.watermark else end,
         running := !crash, windows := s.windows + [ts])
    else s.(running := !crash)
  }

  ghost function Polled(scan: Scan, didOf: Address -> Did, s: Watch, env: PollEnv): Watch {
    if !s.running || env.latest.None? || env.latest.value <= s.watermark || !env.scanned then s
    else
      var end := WindowEnd(s.watermark, env.latest.value);
      AfterWindow(didOf, s, scan(s.watermark + 1, end + 1), end, env.write)
  }

  ghost function WatchStep(scan: Scan, didOf: Address -> Did, s: Watch, a: WatchAction): Watch {
    match a
    case Start(read, latest) => Started(s, read, latest)
    case Poll(env) => Polled(scan, didOf, s, env)
  }

  ghost function WatchRun(scan: Scan, didOf: Address -> Did, actions: seq<WatchAction>): Watch {
    if actions == [] then IDLE else
      var n := |actions| - 1;
      WatchStep(scan, didOf, WatchRun(scan, didOf, actions[..n]), actions[n])
  }

  /** Block numbers fit their type. */
  ghost predicate WatchOk(a: WatchAction) {
    match a
    case Start(_, latest) => latest.Some? ==> latest.value <= MAX_U64
    case Poll(env) => env.latest.Some? ==> env.latest.value <= MAX_U64
  }

  /** A window is at most a hundred blocks, so the scan's own cap never cuts it. */
  lemma CapNeverCuts(w: nat, latest: nat)
    requires w < latest <= MAX_U64
    ensures
      var end := WindowEnd(w, latest);
      && end == (if latest <= w + 100 then latest else w + 100) && SatAdd(w, 1) == w + 1
      && Min(end, SatAdd(SatAdd(w, 1), 99)) == end
  {
  }

  function Flatten(windows: seq<seq<Transfer>>): seq<Transfer> {
    if windows == [] then [] else Flatten(windows[..|windows| - 1]) + windows[|windows| - 1]
  }

  lemma FlattenPush(windows: seq<seq<Transfer>>, w: seq<Transfer>)
    ensures Flatten(windows + [w]) == Flatten(windows) + w
  {
  }

  /** The last block whose transfers are durably accounted for. */
  function Done(s: Watch): nat {
    if s.stored.Some? then s.stored.value else s.base
  }

  /** The windows are the transfers of blocks `lo..hi`. */
  ghost predicate Covers(scan: Scan, windows: seq<seq<Transfer>>, lo: nat, hi: nat) {
    Flatten(windows) == scan(lo, hi)
  }

  /** The committed windows are all the transfers from the base to the durable watermark, in order, none twice. */
  ghost predicate Covered(scan: Scan, s: Watch) {
    && s.base <= Done(s)
    && Covers(scan, s.windows, s.base + 1, Done(s) + 1)
    && (s.stored.None? ==> s.windows == [])
  }

  /** The memory is not behind the store, and what it is ahead by holds no transfer. */
  ghost predicate InStep(scan: Scan, s: Watch) {
    s.running ==> Done(s) <= s.watermark && scan(Done(s) + 1, s.watermark + 1) == []
  }

  ghost predicate ExactlyOnce(scan: Scan, s: Watch) {
    Covered(scan, s) && InStep(scan, s)
  }

  /**
   * A start keeps what is covered; it brings the memory in step exactly when it
   * can read the store, or nothing past block 0 is stored.
   */
  lemma StartKeepsCovered(scan: Scan, s: Watch, read: bool, latest: Option<nat>)
    requires Additive(scan) && Covered(scan, s)
    ensures Covered(scan, Started(s, read, latest))
    ensures InStep(scan, Started(s, read, latest)) <==> read || Done(Started(s, read, latest)) == 0
  {
  }

  lemma Nothing(ts: seq<Transfer>)
    ensures [] + ts == ts && ts + [] == ts
  {
  }

  /** Nothing lies between the durable watermark and the one in memory. */
  lemma GapIsEmpty(scan: Scan, done: nat, w: nat, end: nat)
    requires Additive(scan) && done <= w <= end && scan(done, w) == []
    ensures scan(done, end) == scan(w, end)
  {
    ScanConcat(scan, done, w, end);
    Nothing(scan(w, end));
  }

  /** What a window adds: exactly the transfers since the durable watermark. */
  lemma WindowExtends(scan: Scan, lo: nat, done: nat, w: nat, end: nat)
    requires Additive(scan) && lo <= done <= w <= end && scan(done, w) == []
    ensures scan(lo, end) == scan(lo, done) + scan(w, end)
  {
    GapIsEmpty(scan, done, w, end);
    ScanConcat(scan, lo, done, end);
  }

  /** Two states of the watcher agree on what `ExactlyOnce` says at the durable block `end`. */
  lemma OnceAt(scan: Scan, s: Watch, end: nat)
    requires Additive(scan) && s.base <= end && Done(s) == end && (s.running ==> s.watermark == end)
    requires Covers(scan, s.windows, s.base + 1, end + 1)
    requires s.stored.None? ==> s.windows == []
    ensures ExactlyOnce(scan, s)
  {
  }

  lemma CoversPush(scan: Scan, windows: seq<seq<Transfer>>, lo: nat, done: nat, w: nat, end: nat)
    requires Additive(scan) && Covers(scan, windows, lo, done) && lo <= done <= w <= end && scan(done, w) == []
    ensures Covers(scan, windows + [scan(w, end)], lo, end)
  {
    WindowExtends(scan, lo, done, w, end);
    FlattenPush(windows, scan(w, end));
  }

  lemma CoversGap(scan: Scan, windows: seq<seq<Transfer>>, lo: nat, done: nat, end: nat)
    requires Additive(scan) && Covers(scan, windows, lo, done) && lo <= done <= end && scan(done, end) == []
    ensures Covers(scan, windows, lo, end)
  {
    ScanConcat(scan, lo, done, end);
    Nothing(Flatten(windows));
  }

  /** The windows up to the durable watermark, and those of `w..end` when there are none in between. */
  lemma CoversNext(scan: Scan, s: Watch, end: nat)
    requires Additive(scan) && ExactlyOnce(scan, s) && s.running && s.watermark < end
    ensures s.base <= end && Covers(scan, s.windows + [scan(s.watermark + 1, end + 1)], s.base + 1, end + 1)
  {
    CoversPush(scan, s.windows, s.base + 1, Done(s) + 1, s.watermark + 1, end + 1);
  }

  lemma GapNext(scan: Scan, s: Watch, end: nat)
    requires Additive(scan) && ExactlyOnce(scan, s) && s.running && s.watermark < end
    requires scan(s.watermark + 1, end + 1) == []
    ensures Done(s) <= end && scan(Done(s) + 1, end + 1) == []
  {
    GapIsEmpty(scan, Done(s) + 1, s.watermark + 1, end + 1);
  }

  lemma EmptyWindowSaved(scan: Scan, s: Watch, s': Watch, end: nat)
    requires Additive(scan) && ExactlyOnce(scan, s) && s.running && s.watermark < end
    requires scan(s.watermark + 1, end + 1) == []
    requires s' == s.(stored := Some(end), watermark := end, running := s'.running)
    ensures ExactlyOnce(scan, s')
  {
    GapNext(scan, s, end);
    CoversGap(scan, s.windows, s.base + 1, Done(s) + 1, end + 1);
    OnceAt(scan, s', end);
  }

  lemma EmptyWindowUnsaved(scan: Scan, s: Watch, s': Watch, end: nat)
    requires Additive(scan) && ExactlyOnce(scan, s) && s.running && s.watermark < end
    requires scan(s.watermark + 1, end + 1) == []
    requires s' == s.(watermark := end, running := s'.running)
    ensures ExactlyOnce(scan, s')
  {
    GapNext(scan, s, end);
  }

  lemma CreditedWindowKeepsOnce(scan: Scan, s: Watch, s': Watch, end: nat)
    requires Additive(scan) && ExactlyOnce(scan, s) && s.running && s.watermark < end
    requires s'.stored == Some(end) && s'.watermark == end && s'.base == s.base
    requires s'.windows == s.windows + [scan(s.watermark + 1, end + 1)]
    ensures ExactlyOnce(scan, s')
  {
    CoversNext(scan, s, end);
    OnceAt(scan, s', end);
  }

  /** A poll scans a window. */
  ghost predicate Scans(s: Watch, env: PollEnv) {
    s.running && env.latest.Some? && env.latest.value > s.watermark && env.scanned
  }

  /** What the poll finds in its window. */
  ghost function WindowOf(scan: Scan, s: Watch, env: PollEnv): seq<Transfer>
    requires Scans(s, env)
  {
    scan(s.watermark + 1, WindowEnd(s.watermark, env.latest.value) + 1)
  }

  lemma UnsyncedWindowIsCovered(scan: Scan, s: Watch, s': Watch, end: nat)
    requires Additive(scan) && ExactlyOnce(scan, s) && s.running && s.watermark < end
    requires s'.stored == Some(end) && s'.base == s.base
    requires s'.windows == s.windows + [scan(s.watermark + 1, end + 1)]
    ensures Covered(scan, s')
  {
    CoversNext(scan, s, end);
  }

  /**
   * A poll in step keeps everything covered; it stays in step exactly unless it
   * committed transfers and the sync then failed: the memory is then behind the
   * store.
   */
  lemma PollKeepsCovered(scan: Scan, didOf: Address -> Did, s: Watch, env: PollEnv)
    requires Additive(scan) && ExactlyOnce(scan, s) && WatchOk(Poll(env))
    ensures Covered(scan, Polled(scan, didOf, s, env))
    ensures InStep(scan, Polled(scan, didOf, s, env))
      <==> !(Scans(s, env) && WindowOf(scan, s, env) != [] && env.write == Unsynced)
  {
    if Scans(s, env) {
      var s' := Polled(scan, didOf, s, env);
      var end := WindowEnd(s.watermark, env.latest.value);
      CapNeverCuts(s.watermark, env.latest.value);
      if scan(s.watermark + 1, end + 1) == [] {
        if Lands(env.write) {
          EmptyWindowSaved(scan, s, s', end);
        } else {
          EmptyWindowUnsaved(scan, s, s', end);
        }
      } else if env.write == Unsynced {
        UnsyncedWindowIsCovered(scan, s, s', end);
      } else if Lands(env.write) {
        CreditedWindowKeepsOnce(scan, s, s', end);
      }
    }
  }

  /**
   * One turn of the loop: nothing without a new block and a complete scan; an
   * empty window moves the memory on whatever becomes of its write; transfers
   * and watermark land together, and the memory moves on only without an error.
   */
  lemma PollIs(scan: Scan, didOf: Address -> Did, s: Watch, env: PollEnv)
    ensures !Scans(s, env) ==> Polled(scan, didOf, s, env) == s
    ensures Scans(s, env) ==>
      var ts, end, s' := WindowOf(scan, s, env), WindowEnd(s.watermark, env.latest.value), Polled(scan, didOf, s, env);
      var landed := env.write == Written || env.write == Unsynced || env.write == CrashAfter;
      var crashed := env.write == CrashBefore || env.write == CrashAfter;
      && s'.running == !crashed && s'.base == s.base && s'.first == s.first
      && s'.stored == (if landed then Some(end) else s.stored)
      && s'.contributors == (if landed && ts != [] then Credited(s.contributors, ts, didOf) else s.contributors)
      && s'.windows == (if landed && ts != [] then s.windows + [ts] else s.windows)
      && (!crashed ==> s'.watermark == if ts == [] || env.write == Written then end else s.watermark)
  {
  }

  /** A start: from the stored watermark, else the current block, else 0; from 0 when the store cannot be read. */
  lemma StartIs(s: Watch, read: bool, latest: Option<nat>)
    ensures
      var s' := Started(s, read, latest);
      && s'.running && s'.stored == s.stored && s'.contributors == s.contributors && s'.windows == s.windows
      && (!read ==> s'.watermark == 0)
      && (read && s.stored.Some? ==> s'.watermark == s.stored.value)
      && (read && s.stored.None? && latest.Some? ==> s'.watermark == latest.value)
      && (read && s.stored.None? && latest.None? ==> s'.watermark == 0)
      && (s.stored.None? ==> s'.base == s'.watermark) && (s.stored.Some? ==> s'.base == s.base)
      && s'.first == (if s.first.None? then Some(s'.watermark) else s.first)
  {
  }

  lemma LongerIsNotCovered(scan: Scan, s: Watch, windows: seq<seq<Transfer>>, end: nat, ts: seq<Transfer>)
    requires Additive(scan) && Covered(scan, s) && windows == s.windows + [ts]
    requires |ts| > (if Done(s) <= end then |scan(Done(s) + 1, end + 1)| else 0) && s.base <= end
    ensures !Covers(scan, windows, s.base + 1, end + 1)
  {
    FlattenPush(s.windows, ts);
    if Done(s) <= end {
      ScanConcat(scan, s.base + 1, Done(s) + 1, end + 1);
    } else {
      ScanConcat(scan, s.base + 1, end + 1, Done(s) + 1);
    }
  }

  /**
   * A poll whose memory is behind the store by some transfer commits transfers
   * twice: whatever window it commits, the windows are no longer those of the
   * chain.
   */
  lemma StalePollCreditsTwice(scan: Scan, didOf: Address -> Did, s: Watch, env: PollEnv)
    requires Additive(scan) && Covered(scan, s) && WatchOk(Poll(env)) && Scans(s, env)
    requires s.watermark < Done(s) && scan(s.watermark + 1, Done(s) + 1) != []
    requires WindowOf(scan, s, env) != [] && Lands(env.write)
    ensures !Covered(scan, Polled(scan, didOf, s, env))
  {
    var s' := Polled(scan, didOf, s, env);
    var end := WindowEnd(s.watermark, env.latest.value);
    CapNeverCuts(s.watermark, env.latest.value);
    if Done(s) <= end {
      ScanConcat(scan, s.watermark + 1, Done(s) + 1, end + 1);
    }
    if s.base <= end {
      LongerIsNotCovered(scan, s, s'.windows, end, scan(s.watermark + 1, end + 1));
    }
  }

  // ---- From the first start ----

  /**
   * The very first start and the committed windows began after the same block, or
   * the later one skipped only empty blocks.
   */
  lemma FromTheFirstStart(scan: Scan, s: Watch)
    requires Additive(scan) && Covered(scan, s) && s.first.Some?
    ensures s.first.value <= s.base ==>
      (Flatten(s.windows) == scan(s.first.value + 1, Done(s) + 1) <==> scan(s.first.value + 1, s.base + 1) == [])
    ensures s.base <= s.first.value <= Done(s) ==>
      Flatten(s.windows) == scan(s.base + 1, s.first.value + 1) + scan(s.first.value + 1, Done(s) + 1)
  {
    if s.first.value <= s.base {
      ScanConcat(scan, s.first.value + 1, s.base + 1, Done(s) + 1);
      Nothing(scan(s.base + 1, Done(s) + 1));
    }
    if s.base <= s.first.value <= Done(s) {
      ScanConcat(scan, s.base + 1, s.first.value + 1, Done(s) + 1);
    }
  }

  /** Every restart finds a stored watermark. */
  ghost predicate StoredBeforeRestarts(scan: Scan, didOf: Address -> Did, actions: seq<WatchAction>) {
    forall i :: 0 <= i < |actions| && actions[i].Start? ==>
      var before := WatchRun(scan, didOf, actions[..i]);
      before.first.None? || before.stored.Some?
  }

  lemma StoredPrefix(scan: Scan, didOf: Address -> Did, actions: seq<WatchAction>)
    requires StoredBeforeRestarts(scan, didOf, actions) && actions != []
    ensures StoredBeforeRestarts(scan, didOf, actions[..|actions| - 1])
  {
    var init := actions[..|actions| - 1];
    forall i | 0 <= i < |init| && init[i].Start?
      ensures var before := WatchRun(scan, didOf, init[..i]); before.first.None? || before.stored.Some?
    {
      assert init[..i] == actions[..i];
    }
  }

  /** When every restart finds a stored watermark, the windows begin where the first start did. */
  lemma {:induction false} BaseIsFirst(scan: Scan, didOf: Address -> Did, actions: seq<WatchAction>)
    requires StoredBeforeRestarts(scan, didOf, actions)
    ensures
      var s := WatchRun(scan, didOf, actions);
      && (s.first.Some? ==> s.base == s.first.value)
      && (s.first.None? ==> s.stored.None? && !s.running)
  {
    if actions != [] {
      StoredPrefix(scan, didOf, actions);
      BaseIsFirst(scan, didOf, actions[..|actions| - 1]);
    }
  }

  // ---- Totals ----

  /** What the committed windows credit `a` with. */
  function CreditOf(windows: seq<seq<Transfer>>, a: Address): nat {
    if windows == [] then 0 else
      var n := |windows| - 1;
      CreditOf(windows[..n], a) + LastValue(windows[n], a)
  }

  function TotalOf(windows: seq<seq<Transfer>>, a: Address): nat {
    if windows == [] then 0 else
      var n := |windows| - 1;
      TotalOf(windows[..n], a) + SumValue(windows[n], a)
  }

  ghost predicate OncePerWindow(windows: seq<seq<Transfer>>, a: Address) {
    forall i :: 0 <= i < |windows| ==> Occurrences(windows[i], a) <= 1
  }

  ghost predicate AllPositive(windows: seq<seq<Transfer>>) {
    forall i :: 0 <= i < |windows| ==> Positive(windows[i])
  }

  lemma {:induction false} CreditIsTotalIffOnce(windows: seq<seq<Transfer>>, a: Address)
    requires AllPositive(windows)
    ensures CreditOf(windows, a) <= TotalOf(windows, a)
    ensures CreditOf(windows, a) == TotalOf(windows, a) <==> OncePerWindow(windows, a)
  {
    if windows != [] {
      var n := |windows| - 1;
      CreditIsTotalIffOnce(windows[..n], a);
      LastIsSumIffOnce(windows[n], a);
      assert OncePerWindow(windows, a) <==> OncePerWindow(windows[..n], a) && Occurrences(windows[n], a) <= 1;
    }
  }

  lemma {:induction false} SumConcat(x: seq<Transfer>, y: seq<Transfer>, a: Address)
    ensures SumValue(x + y, a) == SumValue(x, a) + SumValue(y, a)
  {
    if y == [] {
      assert x + y == x;
    } else {
      var n := |y| - 1;
      SumConcat(x, y[..n], a);
      assert (x + y)[..|x + y| - 1] == x + y[..n];
    }
  }

  lemma {:induction false} TotalIsSumOfFlatten(windows: seq<seq<Transfer>>, a: Address)
    ensures TotalOf(windows, a) == SumValue(Flatten(windows), a)
  {
    if windows != [] {
      var n := |windows| - 1;
      TotalIsSumOfFlatten(windows[..n], a);
      SumConcat(Flatten(windows[..n]), windows[n], a);
    }
  }

  /** Every scanned transfer is positive and fits the store's 128-bit totals. */
  ghost predicate ScanFits(scan: Scan) {
    forall lo, hi :: Fits(scan(lo, hi)) && Positive(scan(lo, hi))
  }

  ghost predicate Totalled(s: Watch) {
    && AllPositive(s.windows)
    && (forall a :: Fuel(s.contributors, a) == Sat128(CreditOf(s.windows, a)))
  }

  lemma CreditPush(windows: seq<seq<Transfer>>, ts: seq<Transfer>, a: Address)
    ensures CreditOf(windows + [ts], a) == CreditOf(windows, a) + LastValue(ts, a)
  {
  }

  /** A committed window adds to each total what it credits. */
  lemma CreditedKeepsTotals(scan: Scan, didOf: Address -> Did, s: Watch, s': Watch, lo: nat, hi: nat)
    requires Totalled(s) && ScanFits(scan)
    requires s'.windows == s.windows + [scan(lo, hi)]
    requires s'.contributors == Credited(s.contributors, scan(lo, hi), didOf)
    ensures Totalled(s')
  {
    var ts := scan(lo, hi);
    assert Fits(ts);
    forall a
      ensures Fuel(s'.contributors, a) == Sat128(CreditOf(s'.windows, a))
    {
      assert Fuel(s.contributors, a) == Sat128(CreditOf(s.windows, a));
      WindowCreditsLast(s.contributors, ts, didOf, a);
      CreditPush(s.windows, ts, a);
    }
  }

  lemma SameTotals(s: Watch, s': Watch)
    requires Totalled(s) && s'.windows == s.windows && s'.contributors == s.contributors
    ensures Totalled(s')
  {
  }

  lemma PollKeepsTotals(scan: Scan, didOf: Address -> Did, s: Watch, env: PollEnv)
    requires Totalled(s) && ScanFits(scan)
    ensures Totalled(Polled(scan, didOf, s, env))
  {
    if s.running && env.latest.Some? && env.latest.value > s.watermark && env.scanned {
      var end := WindowEnd(s.watermark, env.latest.value);
      if scan(s.watermark + 1, end + 1) != [] && Lands(env.write) {
        CreditedKeepsTotals(scan, didOf, s, Polled(scan, didOf, s, env), s.watermark + 1, end + 1);
      } else {
        SameTotals(s, Polled(scan, didOf, s, env));
      }
    }
  }

  ghost predicate UnsyncedPoll(a: WatchAction) {
    a.Poll? && a.env.write == Unsynced
  }

  /**
   * The stored watermark is read at every start, and a write that landed but
   * reported an error is followed by a restart before the next poll.
   */
  ghost predicate Prudent(actions: seq<WatchAction>) {
    && (forall i :: 0 <= i < |actions| ==> WatchOk(actions[i]) && (actions[i].Start? ==> actions[i].read))
    && (forall i :: 0 <= i < |actions| - 1 && UnsyncedPoll(actions[i]) ==> actions[i + 1].Start?)
  }

  ghost predicate AtRest(actions: seq<WatchAction>) {
    actions == [] || !UnsyncedPoll(actions[|actions| - 1])
  }

  lemma PrudentPrefix(actions: seq<WatchAction>)
    requires Prudent(actions) && actions != []
    ensures
      var n := |actions| - 1;
      && Prudent(actions[..n]) && WatchOk(actions[n])
      && (actions[n].Start? ==> actions[n].read) && (actions[n].Poll? ==> AtRest(actions[..n]))
  {
    var n := |actions| - 1;
    assert n > 0 ==> actions[..n][n - 1] == actions[n - 1];
  }

  lemma {:induction false} EveryWatchKeeps(scan: Scan, didOf: Address -> Did, actions: seq<WatchAction>)
    requires Additive(scan) && Prudent(actions)
    ensures Covered(scan, WatchRun(scan, didOf, actions))
    ensures AtRest(actions) ==> InStep(scan, WatchRun(scan, didOf, actions))
  {
    if actions != [] {
      var n := |actions| - 1;
      PrudentPrefix(actions);
      EveryWatchKeeps(scan, didOf, actions[..n]);
      var before := WatchRun(scan, didOf, actions[..n]);
      match actions[n]
      case Start(read, latest) => StartKeepsCovered(scan, before, read, latest);
      case Poll(env) => PollKeepsCovered(scan, didOf, before, env);
    }
  }

  lemma {:induction false} EveryWatchTotals(scan: Scan, didOf: Address -> Did, actions: seq<WatchAction>)
    requires ScanFits(scan)
    ensures Totalled(WatchRun(scan, didOf, actions))
  {
    if actions != [] {
      var n := |actions| - 1;
      EveryWatchTotals(scan, didOf, actions[..n]);
      var before := WatchRun(scan, didOf, actions[..n]);
      if actions[n].Poll? {
        PollKeepsTotals(scan, didOf, before, actions[n].env);
      } else {
        SameTotals(before, Started(before, actions[n].read, actions[n].latest));
      }
    }
  }

  /** Transferred values fit the store's 128-bit totals. */
  ghost predicate ChainFits(c: Chain) {
    forall n :: c(n).txs.Some? ==> ValuesFit(c(n).txs.value)
  }

  lemma ChainScanFits(c: Chain, wallet: Address)
    requires ChainFits(c)
    ensures ScanFits(ScanOf(c, wallet))
  {
    forall lo: nat, hi: nat
      ensures Fits(ScanOf(c, wallet)(lo, hi)) && Positive(ScanOf(c, wallet)(lo, hi))
    {
      ScannedArePositive(c, wallet, lo, hi);
      ScannedFit(c, wallet, lo, hi);
    }
  }

  lemma {:induction false} ScannedFit(c: Chain, wallet: Address, lo: nat, hi: nat)
    requires ChainFits(c)
    ensures Fits(TransfersIn(c, wallet, lo, hi))
    decreases hi
  {
    if lo < hi {
      ScannedFit(c, wallet, lo, hi - 1);
      if c(hi - 1).txs.Some? {
        FilteredFit(c(hi - 1).txs.value, wallet, hi - 1, c(hi - 1).timestamp);
      }
    }
  }

  lemma {:induction false} FilteredSum(txs: seq<Tx>, wallet: Address, number: nat, timestamp: nat, a: Address)
    ensures SumValue(FilterTransfers(txs, wallet, number, timestamp), a) == TxSum(txs, wallet, a)
  {
    if txs != [] {
      var n := |txs| - 1;
      var before := FilterTransfers(txs[..n], wallet, number, timestamp);
      FilteredSum(txs[..n], wallet, number, timestamp, a);
      var t := Transfer(txs[n].signer, txs[n].value, number, timestamp);
      assert (before + [t])[..|before|] == before;
      assert before + [] == before;
    }
  }

  lemma BlockSumIs(c: Chain, wallet: Address, n: nat, a: Address)
    ensures SumValue(BlockTransfers(c, wallet, n), a) == BlockSum(c(n), wallet, a)
  {
    if c(n).txs.Some? {
      FilteredSum(c(n).txs.value, wallet, n, c(n).timestamp, a);
    }
  }

  /** The scan's transfers of `a` add up to what the chain holds. */
  lemma {:induction false} ScannedSum(c: Chain, wallet: Address, lo: nat, hi: nat, a: Address)
    ensures SumValue(TransfersIn(c, wallet, lo, hi), a) == ChainSum(c, wallet, lo, hi, a)
    decreases hi
  {
    if lo < hi {
      ScannedSum(c, wallet, lo, hi - 1, a);
      SumConcat(TransfersIn(c, wallet, lo, hi - 1), BlockTransfers(c, wallet, hi - 1), a);
      BlockSumIs(c, wallet, hi - 1, a);
    }
  }

  /** What a covered state with its totals in order has credited `a` with. */
  lemma CreditingOfState(scan: Scan, s: Watch, a: Address)
    requires Covered(scan, s) && Totalled(s)
    ensures CreditExact(scan, s, a)
  {
    CreditIsTotalIffOnce(s.windows, a);
    TotalIsSumOfFlatten(s.windows, a);
  }

  lemma ChainScan(c: Chain, wallet: Address, scan: Scan)
    requires scan == ScanOf(c, wallet) && ChainFits(c)
    ensures Additive(scan) && ScanFits(scan)
  {
    ChainScanIsAdditive(c, wallet);
    ChainScanFits(c, wallet);
  }

  /** Where the committed windows lie: after the base, and how that compares with the very first start. */
  ghost predicate WindowsExact(scan: Scan, s: Watch) {
    && Flatten(s.windows) == scan(s.base + 1, Done(s) + 1)
    && (s.first.Some? && s.first.value <= s.base ==>
          (Flatten(s.windows) == scan(s.first.value + 1, Done(s) + 1) <==> scan(s.first.value + 1, s.base + 1) == []))
    && (s.first.Some? && s.base <= s.first.value <= Done(s) ==>
          Flatten(s.windows) == scan(s.base + 1, s.first.value + 1) + scan(s.first.value + 1, Done(s) + 1))
  }

  lemma CoveredIsExact(scan: Scan, s: Watch)
    requires Additive(scan) && Covered(scan, s)
    ensures WindowsExact(scan, s)
  {
    if s.first.Some? {
      FromTheFirstStart(scan, s);
    }
  }

  lemma RunIsExact(scan: Scan, didOf: Address -> Did, actions: seq<WatchAction>)
    requires Additive(scan) && Prudent(actions)
    ensures WindowsExact(scan, WatchRun(scan, didOf, actions))
  {
    EveryWatchKeeps(scan, didOf, actions);
    CoveredIsExact(scan, WatchRun(scan, didOf, actions));
  }

  /**
   * Over every run with crashes anywhere and every failure of the node or the
   * store's writes, as long as starts can read the store and a restart follows
   * a failed sync, the windows committed are the chain's transfers from the
   * base to the durable watermark, each once. They are those from the first
   * start on if and only if no transfer lies between the two.
   */
  lemma WindowsAreExact(c: Chain, wallet: Address, scan: Scan, didOf: Address -> Did, actions: seq<WatchAction>)
    requires scan == ScanOf(c, wallet) && Prudent(actions)
    ensures WindowsExact(scan, WatchRun(scan, didOf, actions))
  {
    ChainScanIsAdditive(c, wallet);
    RunIsExact(scan, didOf, actions);
  }

  /** The committed windows are the transfers from the very first start on. */
  ghost predicate NoneSkipped(scan: Scan, s: Watch) {
    s.first.Some? ==> Flatten(s.windows) == scan(s.first.value + 1, Done(s) + 1)
  }

  lemma SameBaseSkipsNone(scan: Scan, s: Watch)
    requires WindowsExact(scan, s) && (s.first.Some? ==> s.base == s.first.value)
    ensures NoneSkipped(scan, s)
  {
  }

  /** Nothing is skipped when every restart finds a stored watermark. */
  lemma NothingIsSkipped(c: Chain, wallet: Address, scan: Scan, didOf: Address -> Did, actions: seq<WatchAction>)
    requires scan == ScanOf(c, wallet) && Prudent(actions)
    requires StoredBeforeRestarts(scan, didOf, actions)
    ensures NoneSkipped(scan, WatchRun(scan, didOf, actions))
  {
    WindowsAreExact(c, wallet, scan, didOf, actions);
    BaseIsFirst(scan, didOf, actions);
    SameBaseSkipsNone(scan, WatchRun(scan, didOf, actions));
  }

  /** A contributor's total, and how it compares with the sum of its transfers. */
  ghost predicate CreditExact(scan: Scan, s: Watch, a: Address) {
    && Fuel(s.contributors, a) == Sat128(CreditOf(s.windows, a))
    && (CreditOf(s.windows, a) == SumValue(scan(s.base + 1, Done(s) + 1), a) <==> OncePerWindow(s.windows, a))
  }

  lemma CreditingOfRun(scan: Scan, didOf: Address -> Did, actions: seq<WatchAction>, a: Address)
    requires Additive(scan) && ScanFits(scan) && Prudent(actions)
    ensures CreditExact(scan, WatchRun(scan, didOf, actions), a)
  {
    EveryWatchKeeps(scan, didOf, actions);
    EveryWatchTotals(scan, didOf, actions);
    CreditingOfState(scan, WatchRun(scan, didOf, actions), a);
  }

  /** A contributor's total, and how it compares with what it sent the wallet in the covered blocks. */
  ghost predicate CreditsChain(c: Chain, wallet: Address, s: Watch, a: Address) {
    && Fuel(s.contributors, a) == Sat128(CreditOf(s.windows, a))
    && (CreditOf(s.windows, a) == ChainSum(c, wallet, s.base + 1, Done(s) + 1, a) <==> OncePerWindow(s.windows, a))
  }

  lemma CreditsTheChain(c: Chain, wallet: Address, scan: Scan, s: Watch, a: Address)
    requires scan == ScanOf(c, wallet) && CreditExact(scan, s, a)
    ensures CreditsChain(c, wallet, s, a)
  {
    ScannedSum(c, wallet, s.base + 1, Done(s) + 1, a);
  }

  /**
   * A contributor's total is what its last transfer of each committed window
   * adds up to, saturated; unsaturated, that is what it sent the wallet in the
   * covered blocks of the chain if and only if none of those windows holds two
   * of its transfers.
   */
  lemma CreditingIsExact(c: Chain, wallet: Address, scan: Scan,
                         didOf: Address -> Did, actions: seq<WatchAction>, a: Address)
    requires scan == ScanOf(c, wallet) && ChainFits(c) && Prudent(actions)
    ensures CreditsChain(c, wallet, WatchRun(scan, didOf, actions), a)
  {
    ChainScan(c, wallet, scan);
    CreditingOfRun(scan, didOf, actions, a);
    CreditsTheChain(c, wallet, scan, WatchRun(scan, didOf, actions), a);
  }

  // ---- Runs that credit too little or too much ----

  /** Two blocks, the second with two transfers of one sender. */
  function TwoInOneBlock(wallet: Address, sender: Address): Chain {
    (n: nat) => Block(n, Some(if n == 2 then [Tx(Some(wallet), sender, 5), Tx(Some(wallet), sender, 7)] else []))
  }

  function FiveAndSeven(sender: Address): seq<Transfer> {
    [Transfer(sender, 5, 2, 2), Transfer(sender, 7, 2, 2)]
  }

  lemma ScanOfTwo(wallet: Address, sender: Address)
    ensures TransfersIn(TwoInOneBlock(wallet, sender), wallet, 2, 3) == FiveAndSeven(sender)
  {
    var txs := [Tx(Some(wallet), sender, 5), Tx(Some(wallet), sender, 7)];
    assert txs[..1] == [Tx(Some(wallet), sender, 5)] && txs[..1][..0] == [];
    assert FilterTransfers(txs[..1], wallet, 2, 2) == [Transfer(sender, 5, 2, 2)];
    assert TransfersIn(TwoInOneBlock(wallet, sender), wallet, 2, 2) == [];
  }

  lemma CreditOfTwo(sender: Address, didOf: Address -> Did)
    ensures SumValue(FiveAndSeven(sender), sender) == 12
    ensures Fuel(Credited(map[], FiveAndSeven(sender), didOf), sender) == 7
  {
    var ts := FiveAndSeven(sender);
    assert ts[..1] == [Transfer(sender, 5, 2, 2)] && ts[..1][..0] == [];
    assert SumValue(ts[..1], sender) == 5;
  }

  /** A sender with transfers of 5 and 7 in one window is credited 7, not 12. */
  lemma RepeatedSenderIsUndercredited(wallet: Address, sender: Address, scan: Scan, didOf: Address -> Did)
    requires scan == ScanOf(TwoInOneBlock(wallet, sender), wallet)
    ensures
      var s := Polled(scan, didOf, Started(IDLE, true, Some(1)), PollEnv(Some(2), true, Written));
      SumValue(scan(2, 3), sender) == 12 && Fuel(s.contributors, sender) == 7
  {
    ScanOfTwo(wallet, sender);
    CreditOfTwo(sender, didOf);
  }

  /** One transfer of 5, in block 11. */
  function OneTransfer(wallet: Address, sender: Address): Chain {
    (n: nat) => Block(n, Some(if n == 11 then [Tx(Some(wallet), sender, 5)] else []))
  }

  lemma {:induction false} QuietAfter(wallet: Address, sender: Address, lo: nat, hi: nat)
    requires lo > 11
    ensures TransfersIn(OneTransfer(wallet, sender), wallet, lo, hi) == []
    decreases hi
  {
    if lo < hi {
      QuietAfter(wallet, sender, lo, hi - 1);
    }
  }

  lemma ScanOfOne(wallet: Address, sender: Address)
    ensures TransfersIn(OneTransfer(wallet, sender), wallet, 11, 12) == [Transfer(sender, 5, 11, 11)]
    ensures TransfersIn(OneTransfer(wallet, sender), wallet, 21, 22) == []
    ensures TransfersIn(OneTransfer(wallet, sender), wallet, 11, 22) == [Transfer(sender, 5, 11, 11)]
  {
    var c := OneTransfer(wallet, sender);
    var txs := [Tx(Some(wallet), sender, 5)];
    assert txs[..0] == [];
    assert FilterTransfers(txs, wallet, 11, 11) == [Transfer(sender, 5, 11, 11)];
    assert TransfersIn(c, wallet, 11, 11) == [];
    QuietAfter(wallet, sender, 21, 22);
    QuietAfter(wallet, sender, 12, 22);
    TransfersConcat(c, wallet, 11, 12, 22);
  }

  lemma RunPush(scan: Scan, didOf: Address -> Did, actions: seq<WatchAction>, a: WatchAction)
    ensures WatchRun(scan, didOf, actions + [a]) == WatchStep(scan, didOf, WatchRun(scan, didOf, actions), a)
  {
    assert (actions + [a])[..|actions|] == actions;
  }

  /** A first start at block 10, a crash before block 11 is committed, and a restart at block 20. */
  function CrashBeforeFirstWrite(): seq<WatchAction> {
    [Start(true, Some(10))] + [Poll(PollEnv(Some(11), true, CrashBefore))]
    + [Start(true, Some(20))] + [Poll(PollEnv(Some(21), true, Written))]
  }

  lemma CrashBeforeFirstWriteRun(scan: Scan, didOf: Address -> Did)
    requires scan(11, 12) != [] && scan(21, 22) == []
    ensures
      var s := WatchRun(scan, didOf, CrashBeforeFirstWrite());
      s.contributors == map[] && s.first == Some(10) && s.base == 20 && Done(s) == 21
  {
    var a, b := Start(true, Some(10)), Poll(PollEnv(Some(11), true, CrashBefore));
    var c, d := Start(true, Some(20)), Poll(PollEnv(Some(21), true, Written));
    RunPush(scan, didOf, [], a);
    assert [] + [a] == [a];
    RunPush(scan, didOf, [a], b);
    RunPush(scan, didOf, [a] + [b], c);
    RunPush(scan, didOf, [a] + [b] + [c], d);
  }

  /** The transfer in block 11 was scanned, lost with the crash, and is never credited. */
  lemma TransferSkippedAcrossCrash(wallet: Address, sender: Address, scan: Scan, didOf: Address -> Did)
    requires scan == ScanOf(OneTransfer(wallet, sender), wallet)
    ensures
      var s := WatchRun(scan, didOf, CrashBeforeFirstWrite());
      && s.first == Some(10) && Done(s) == 21
      && SumValue(scan(11, 22), sender) == 5 && Fuel(s.contributors, sender) == 0
  {
    ScanOfOne(wallet, sender);
    CrashBeforeFirstWriteRun(scan, didOf);
    assert [Transfer(sender, 5, 11, 11)][..0] == [];
  }

  lemma CreditTwice(scan: Scan, didOf: Address -> Did, t: Transfer)
    requires scan(11, 12) == [t] && t.value == 5
    ensures
      var s := Polled(scan, didOf, Started(IDLE, true, Some(10)), PollEnv(Some(11), true, Unsynced));
      var s' := Polled(scan, didOf, s, PollEnv(Some(11), true, Written));
      Fuel(s.contributors, t.sender) == 5 && Fuel(s'.contributors, t.sender) == 10
  {
    CreditOfOne(map[], t, didOf);
    CreditOfOne(Credited(map[], [t], didOf), t, didOf);
  }

  /** A commit that landed but reported an error is scanned again by the next poll, and credited again. */
  lemma TransferCreditedTwice(wallet: Address, sender: Address, scan: Scan, didOf: Address -> Did)
    requires scan == ScanOf(OneTransfer(wallet, sender), wallet)
    ensures
      var s := Polled(scan, didOf, Started(IDLE, true, Some(10)), PollEnv(Some(11), true, Unsynced));
      var s' := Polled(scan, didOf, s, PollEnv(Some(11), true, Written));
      SumValue(scan(11, 12), sender) == 5 && Fuel(s.contributors, sender) == 5 && Fuel(s'.contributors, sender) == 10
  {
    ScanOfOne(wallet, sender);
    var t := Transfer(sender, 5, 11, 11);
    assert [t][..0] == [];
    CreditTwice(scan, didOf, t);
  }

  lemma CreditOfOne(m: Contributors, t: Transfer, didOf: Address -> Did)
    ensures Credited(m, [t], didOf) == m[t.sender := EntryAfter(Lookup(m, t.sender), didOf(t.sender), t)]
  {
    assert [t][..0] == [];
  }

  // ---- The component ----

  class BlockWatcher {
    const wallet: Address
    const didOf: Address -> Did
    var contributors: Contributors
    var stored: Option<nat>
    var running: bool
    var watermark: nat
    ghost var first: Option<nat>
    ghost var base: nat
    ghost var windows: seq<seq<Transfer>>

    ghost function View(): Watch
      reads this
    {
      Watch(contributors, stored, running, watermark, first, base, windows)
    }

    constructor (wallet: Address, didOf: Address -> Did)
      ensures View() == IDLE && this.wallet == wallet && this.didOf == didOf
    {
      this.wallet, this.didOf := wallet, didOf;
      contributors, stored, running, watermark := map[], None, false, 0;
      first, base, windows := None, 0, [];
    }

    /** `read` tells whether the stored watermark could be read. */
    method Start(read: bool, latest: Option<nat>)
      modifies this
      ensures View() == Started(old(View()), read, latest)
    {
      running := true;
      if !read {
        watermark := 0;
      } else {
        match stored
        case Some(w) => watermark := w;
        case None => watermark := if latest.Some? then latest.value else 0;
      }
      if stored.None? {
        base := watermark;
      }
      first := if first.None? then Some(watermark) else first;
    }

    /** The new entry of every transfer's sender, each read from the store. */
    method ComputeUpdates(ts: seq<Transfer>) returns (updates: seq<(Address, Contributor)>)
      ensures |updates| == |ts|
      ensures forall i :: 0 <= i < |ts| ==>
        && updates[i].0 == ts[i].sender
        && updates[i].1 == EntryAfter(Lookup(contributors, ts[i].sender), didOf(ts[i].sender), ts[i])
    {
      updates := [];
      for i := 0 to |ts|
        invariant |updates| == i
        invariant forall j :: 0 <= j < i ==>
          && updates[j].0 == ts[j].sender
          && updates[j].1 == EntryAfter(Lookup(contributors, ts[j].sender), didOf(ts[j].sender), ts[j])
      {
        var entry := EntryAfter(Lookup(contributors, ts[i].sender), didOf(ts[i].sender), ts[i]);
        updates := updates + [(ts[i].sender, entry)];
      }
    }

    /** The entries and the watermark in one commit, the entries in order. */
    method UpsertWithWatermark(ghost ts: seq<Transfer>, updates: seq<(Address, Contributor)>, end: nat, o: WriteOutcome)
        returns (r: WriteResult)
      requires |updates| == |ts| && forall i :: 0 <= i < |ts| ==>
        && updates[i].0 == ts[i].sender
        && updates[i].1 == EntryAfter(Lookup(contributors, ts[i].sender), didOf(ts[i].sender), ts[i])
      modifies this`contributors, this`stored
      ensures r == ResultOf(o)
      ensures contributors == if Lands(o) then Credited(old(contributors), ts, didOf) else old(contributors)
      ensures stored == if Lands(o) then Some(end) else old(stored)
    {
      var batch := contributors;
      for i := 0 to |updates|
        invariant contributors == old(contributors) && stored == old(stored)
        invariant batch == Credited(contributors, ts[..i], didOf)
      {
        assert ts[..i + 1][..i] == ts[..i];
        batch := batch[updates[i].0 := updates[i].1];
      }
      assert ts[..|ts|] == ts;
      if Lands(o) {
        contributors, stored := batch, Some(end);
      }
      return ResultOf(o);
    }

    /** The window a poll scans; `None` when a block of it cannot be fetched. */
    method ScanWindow(ghost scan: Scan, c: Chain, w: nat, latest: nat, reachable: nat -> bool)
        returns (r: Option<seq<Transfer>>)
      requires scan == ScanOf(c, wallet) && w < latest <= MAX_U64
      ensures r.Some? <==> forall n :: w < n <= WindowEnd(w, latest) ==> reachable(n)
      ensures r.Some? ==> r.value == scan(w + 1, WindowEnd(w, latest) + 1)
    {
      CapNeverCuts(w, latest);
      r := ScanBlocks(c, wallet, SatAdd(w, 1), Min(latest, SatAdd(w, 100)), reachable);
    }

    /** One turn of the watcher's loop. */
    method PollOnce(ghost scan: Scan, c: Chain, env: PollEnv, reachable: nat -> bool)
      requires scan == ScanOf(c, wallet) && running && (env.latest.Some? ==> env.latest.value <= MAX_U64)
      requires env.latest.Some? && env.latest.value > watermark ==>
        (env.scanned <==> forall n :: watermark < n <= WindowEnd(watermark, env.latest.value) ==> reachable(n))
      modifies this
      ensures View() == Polled(scan, didOf, old(View()), env)
    {
      if env.latest.None? || env.latest.value <= watermark {
        return;
      }
      var scanned := ScanWindow(scan, c, watermark, env.latest.value, reachable);
      Advance(scan, env, scanned);
    }

    method Advance(ghost scan: Scan, env: PollEnv, scanned: Option<seq<Transfer>>)
      requires running && env.latest.Some? && env.latest.value > watermark && scanned.Some? == env.scanned
      requires scanned.Some? ==> scanned.value == scan(watermark + 1, WindowEnd(watermark, env.latest.value) + 1)
      modifies this
      ensures View() == Polled(scan, didOf, old(View()), env)
    {
      if scanned.Some? {
        WriteWindow(scanned.value, WindowEnd(watermark, env.latest.value), env.write);
      }
    }

    /** Credits the window's transfers and moves the watermark, in one commit. */
    method WriteWindow(ts: seq<Transfer>, end: nat, o: WriteOutcome)
      requires running
      modifies this
      ensures View() == AfterWindow(didOf, old(View()), ts, end, o)
    {
      running := ResultOf(o) != Crash;
      if ts == [] {
        if Lands(o) {
          stored := Some(end);
        }
        watermark := end;
        return;
      }
      var updates := ComputeUpdates(ts);
      var written := UpsertWithWatermark(ts, updates, end, o);
      if Lands(o) {
        windows := windows + [ts];
      }
      if written != StoreError && Lands(o) {
        watermark := end;
      }
    }
  }
}
