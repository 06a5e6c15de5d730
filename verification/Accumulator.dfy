/**
 * The in-memory open epoch: first-submitter-wins dedup, whole-batch refusal at
 * the leaf cap, and the swap taken by the sealer.
 */
module Accumulation {
  import opened Base

  const MAX_LEAVES_PER_EPOCH: nat := 0x10_0000

  datatype EpochFull = EpochFull(epochId: nat, epochClosesAt: nat, cap: nat)

  datatype AcceptOutcome = AcceptOutcome(epochId: nat, epochClosesAt: nat, accepted: nat, duplicates: nat)

  datatype SealedSnapshot = SealedSnapshot(epochId: nat, openedAt: nat, closedAt: nat, leaves: seq<LeafEntry>)

  /** The open epoch as a value: what `Accumulator` holds apart from its index. */
  datatype OpenEpoch = OpenEpoch(epochId: nat, openedAt: nat, closesAt: nat, leaves: seq<LeafEntry>, cap: nat) {
    ghost predicate Valid() {
      && DistinctLeaves(leaves)
      && |leaves| <= cap <= MAX_LEAVES_PER_EPOCH
    }
  }

  function Opened(epochId: nat, openedAt: nat, duration: nat, cap: nat): OpenEpoch {
    OpenEpoch(epochId, openedAt, SatAdd(openedAt, duration), [], Min(cap, MAX_LEAVES_PER_EPOCH))
  }

  /** The append pass: each leaf of `batch` in turn, unless the epoch already holds it. */
  function Pushed(entries: seq<LeafEntry>, batch: seq<Leaf>, did: Did): seq<LeafEntry> {
    if batch == [] then entries else
      var n := |batch| - 1;
      var before := Pushed(entries, batch[..n], did);
      if batch[n] in LeafSet(before) then before else before + [LeafEntry(batch[n], did)]
  }

  /** The admission pass: the leaves of `batch` the epoch does not hold yet. */
  function Novel(batch: seq<Leaf>, known: set<Leaf>): set<Leaf> {
    set l | l in batch && l !in known
  }

  /** The open epoch after an accepted submission, or the refusal of a whole one. */
  datatype Submission = Accepted(next: OpenEpoch, outcome: AcceptOutcome) | Refused(full: EpochFull) {
    function Reply(): Result<AcceptOutcome, EpochFull> {
      if Accepted? then Ok(outcome) else Err(full)
    }

    function NextOr(o: OpenEpoch): OpenEpoch {
      if Accepted? then next else o
    }
  }

  /** What a submission does to the open epoch. */
  function Submitted(o: OpenEpoch, batch: seq<Leaf>, did: Did): (r: Submission) {
    if |o.leaves| + |Novel(batch, LeafSet(o.leaves))| > o.cap then
      Refused(EpochFull(o.epochId, o.closesAt, o.cap))
    else
      var leaves := Pushed(o.leaves, batch, did);
      PushedGrows(o.leaves, batch, did);
      var accepted := |leaves| - |o.leaves|;
      Accepted(o.(leaves := leaves), AcceptOutcome(o.epochId, o.closesAt, accepted, |batch| - accepted))
  }

  lemma {:induction false} PushedGrows(entries: seq<LeafEntry>, batch: seq<Leaf>, did: Did)
    ensures entries <= Pushed(entries, batch, did)
    ensures |Pushed(entries, batch, did)| <= |entries| + |batch|
  {
    if batch != [] {
      PushedGrows(entries, batch[..|batch| - 1], did);
    }
  }

  /** What the sealer's swap does: the closed epoch and the empty next one. */
  function Swapped(o: OpenEpoch, closedAt: nat, nextOpenedAt: nat, duration: nat): (SealedSnapshot, OpenEpoch) {
    (SealedSnapshot(o.epochId, o.openedAt, closedAt, o.leaves),
     OpenEpoch(SatAdd(o.epochId, 1), nextOpenedAt, SatAdd(nextOpenedAt, duration), [], o.cap))
  }

  // ---- Properties of the specification ----

  /** After the append pass the epoch holds its old leaves and the batch. */
  lemma {:induction false} PushedLeafSet(entries: seq<LeafEntry>, batch: seq<Leaf>, did: Did)
    ensures LeafSet(Pushed(entries, batch, did)) == LeafSet(entries) + set l | l in batch
  {
    if batch != [] {
      var n := |batch| - 1;
      var before := Pushed(entries, batch[..n], did);
      PushedLeafSet(entries, batch[..n], did);
      LeafSetPush(before, LeafEntry(batch[n], did));
      assert batch == batch[..n] + [batch[n]];
    }
  }

  lemma FreshStep(batch: seq<Leaf>, known: set<Leaf>)
    requires batch != []
    ensures
      var n := |batch| - 1;
      var before := Novel(batch[..n], known);
      Novel(batch, known) == if batch[n] in known || batch[n] in batch[..n] then before else before + {batch[n]}
  {
  }

  /**
   * The admission pass counts a set, the append pass walks the batch: both
   * count the same leaves.
   */
  lemma {:induction false} PassesAgree(entries: seq<LeafEntry>, batch: seq<Leaf>, did: Did)
    ensures |Pushed(entries, batch, did)| == |entries| + |Novel(batch, LeafSet(entries))|
  {
    if batch == [] {
      assert Novel(batch, LeafSet(entries)) == {};
    } else {
      var n := |batch| - 1;
      PassesAgree(entries, batch[..n], did);
      PushedLeafSet(entries, batch[..n], did);
      FreshStep(batch, LeafSet(entries));
    }
  }

  lemma {:induction false} PushedDistinct(entries: seq<LeafEntry>, batch: seq<Leaf>, did: Did)
    requires DistinctLeaves(entries)
    ensures DistinctLeaves(Pushed(entries, batch, did))
  {
    if batch != [] {
      var n := |batch| - 1;
      var before := Pushed(entries, batch[..n], did);
      PushedDistinct(entries, batch[..n], did);
      if batch[n] !in LeafSet(before) {
        DistinctPush(before, LeafEntry(batch[n], did));
      }
    }
  }

  /** Entries added by the append pass are fresh and owned by the submitter. */
  lemma {:induction false} PushedEntries(entries: seq<LeafEntry>, batch: seq<Leaf>, did: Did, i: nat)
    requires |entries| <= i < |Pushed(entries, batch, did)|
    ensures Pushed(entries, batch, did)[i].did == did
    ensures Pushed(entries, batch, did)[i].leaf !in LeafSet(entries)
  {
    if batch != [] {
      var n := |batch| - 1;
      var before := Pushed(entries, batch[..n], did);
      if i < |before| {
        PushedEntries(entries, batch[..n], did, i);
      } else {
        PushedLeafSet(entries, batch[..n], did);
      }
    }
  }

  /**
   * All or nothing. A submission is refused exactly when its distinct fresh
   * leaves do not fit; a refusal changes nothing (there is no new state in it)
   * and tells when the epoch closes and its cap.
   * Otherwise every leaf of the batch is in the epoch afterwards, first
   * submitters and positions are kept, each added leaf was fresh and is owned
   * by this submitter, and the two counters add up to the batch.
   */
  lemma {:induction false} SubmissionAllOrNothing(o: OpenEpoch, batch: seq<Leaf>, did: Did)
    requires o.Valid()
    ensures Submitted(o, batch, did).Refused? <==> |o.leaves| + |Novel(batch, LeafSet(o.leaves))| > o.cap
    ensures Submitted(o, batch, did).Refused? ==>
      Submitted(o, batch, did).full == EpochFull(epochId := o.epochId, epochClosesAt := o.closesAt, cap := o.cap)
    ensures Submitted(o, batch, did).Accepted? ==>
      var Accepted(o', outcome) := Submitted(o, batch, did);
      && o'.Valid()
      && o' == o.(leaves := o'.leaves)
      && o.leaves <= o'.leaves
      && outcome.epochId == o.epochId && outcome.epochClosesAt == o.closesAt
      && outcome.accepted == |Novel(batch, LeafSet(o.leaves))| == |o'.leaves| - |o.leaves|
      && outcome.accepted + outcome.duplicates == |batch|
      && LeafSet(o'.leaves) == LeafSet(o.leaves) + (set l | l in batch)
      && (forall i :: |o.leaves| <= i < |o'.leaves| ==>
            o'.leaves[i].did == did && o'.leaves[i].leaf !in LeafSet(o.leaves))
  {
    PassesAgree(o.leaves, batch, did);
    PushedGrows(o.leaves, batch, did);
    PushedLeafSet(o.leaves, batch, did);
    PushedDistinct(o.leaves, batch, did);
    forall i | |o.leaves| <= i < |Pushed(o.leaves, batch, did)|
      ensures Pushed(o.leaves, batch, did)[i].did == did
      ensures Pushed(o.leaves, batch, did)[i].leaf !in LeafSet(o.leaves)
    {
      PushedEntries(o.leaves, batch, did, i);
    }
  }

  /** A leaf accepted into epoch N is in the snapshot the next swap takes of N. */
  lemma {:induction false} AcceptedLeavesReachTheirEpoch(o: OpenEpoch, batch: seq<Leaf>, did: Did,
                                                         closedAt: nat, nextOpenedAt: nat, duration: nat)
    requires o.Valid() && Submitted(o, batch, did).Accepted?
    ensures
      var Accepted(o', outcome) := Submitted(o, batch, did);
      var (snapshot, next) := Swapped(o', closedAt, nextOpenedAt, duration);
      && snapshot.epochId == outcome.epochId
      && (forall l :: l in batch ==> HasLeaf(snapshot.leaves, l))
      && next.leaves == [] && next.Valid()
  {
    SubmissionAllOrNothing(o, batch, did);
    var Accepted(o', outcome) := Submitted(o, batch, did);
    LeafSetMembers(o'.leaves);
  }

  /** One step of the append pass. */
  lemma PushedStep(entries: seq<LeafEntry>, batch: seq<Leaf>, i: nat, did: Did)
    requires i < |batch|
    ensures
      var before := Pushed(entries, batch[..i], did);
      Pushed(entries, batch[..i + 1], did) ==
        if batch[i] in LeafSet(before) then before else before + [LeafEntry(batch[i], did)]
  {
    assert batch[..i + 1][..i] == batch[..i] && batch[..i + 1][i] == batch[i];
  }

  lemma AcceptedIsValid(o: OpenEpoch, batch: seq<Leaf>, did: Did)
    requires o.Valid() && Submitted(o, batch, did).Accepted?
    ensures Submitted(o, batch, did).next.Valid()
  {
    SubmissionAllOrNothing(o, batch, did);
  }

  /** One duration after `at`, or the top of the range. */
  ghost predicate ClosesAfter(closesAt: nat, at: nat, duration: nat) {
    if at + duration <= MAX_U64 then closesAt == at + duration else closesAt == MAX_U64
  }

  /** An epoch opens empty, closes one duration later, and holds at most the template's leaves. */
  lemma OpenedIs(epochId: nat, openedAt: nat, duration: nat, cap: nat)
    ensures
      var o := Opened(epochId, openedAt, duration, cap);
      && o.epochId == epochId && o.openedAt == openedAt && ClosesAfter(o.closesAt, openedAt, duration)
      && o.leaves == [] && o.cap == (if cap <= 0x10_0000 then cap else 0x10_0000)
  {
  }

  /** The swap hands out the closed epoch as it was, and opens the next id, empty, under the same cap. */
  lemma SwapIs(o: OpenEpoch, closedAt: nat, nextOpenedAt: nat, duration: nat)
    ensures
      var (s, next) := Swapped(o, closedAt, nextOpenedAt, duration);
      && s.epochId == o.epochId && s.openedAt == o.openedAt && s.closedAt == closedAt && s.leaves == o.leaves
      && next.epochId == (if o.epochId < MAX_U64 then o.epochId + 1 else MAX_U64)
      && next.openedAt == nextOpenedAt && ClosesAfter(next.closesAt, nextOpenedAt, duration)
      && next.leaves == [] && next.cap == o.cap
  {
  }

  /** The swap opens a new id exactly below the top of the range; at the top it saturates and opens the same one. */
  lemma SwapReusesIdExactlyAtTop(o: OpenEpoch, closedAt: nat, nextOpenedAt: nat, duration: nat)
    requires o.epochId <= MAX_U64
    ensures Swapped(o, closedAt, nextOpenedAt, duration).1.epochId == o.epochId <==> o.epochId == MAX_U64
  {
  }

  // ---- The component ----

  /** The dedup index of an entry list: every leaf to its position. */
  function IndexOf(entries: seq<LeafEntry>): map<Leaf, nat> {
    if entries == [] then map[] else
      var n := |entries| - 1;
      IndexOf(entries[..n])[entries[n].leaf := n]
  }

  lemma {:induction false} IndexInverts(entries: seq<LeafEntry>)
    requires DistinctLeaves(entries)
    ensures forall i :: 0 <= i < |entries| ==>
      entries[i].leaf in IndexOf(entries) && IndexOf(entries)[entries[i].leaf] == i
    ensures forall l :: l in IndexOf(entries) ==>
      IndexOf(entries)[l] < |entries| && entries[IndexOf(entries)[l]].leaf == l
  {
    if entries != [] {
      IndexInverts(entries[..|entries| - 1]);
    }
  }

  lemma {:induction false} IndexKeys(entries: seq<LeafEntry>)
    ensures IndexOf(entries).Keys == LeafSet(entries)
  {
    if entries != [] {
      var n := |entries| - 1;
      IndexKeys(entries[..n]);
    }
  }

  lemma IndexPush(entries: seq<LeafEntry>, e: LeafEntry)
    ensures IndexOf(entries + [e]) == IndexOf(entries)[e.leaf := |entries|]
  {
  }

  class Accumulator {
    var epochId: nat
    var openedAt: nat
    var closesAt: nat
    var leaves: seq<LeafEntry>
    var seen: map<Leaf, nat>
    const leafCap: nat

    /** `seen` is the index of `leaves`, hence its inverse (`IndexInverts`). */
    ghost predicate Valid()
      reads this
    {
      View().Valid() && seen == IndexOf(leaves)
    }

    ghost function View(): OpenEpoch
      reads this
    {
      OpenEpoch(epochId, openedAt, closesAt, leaves, leafCap)
    }

    constructor WithLeafCap(epochId: nat, openedAt: nat, duration: nat, cap: nat)
      ensures Valid()
      ensures View() == Opened(epochId, openedAt, duration, cap)
    {
      this.epochId, this.openedAt := epochId, openedAt;
      closesAt := SatAdd(openedAt, duration);
      leaves, seen := [], map[];
      leafCap := Min(cap, MAX_LEAVES_PER_EPOCH);
    }

    /** One step of the append pass; `isNew` unless the epoch already holds `leaf`. */
    method Push(leaf: Leaf, did: Did) returns (isNew: bool)
      requires seen == IndexOf(leaves)
      modifies this`leaves, this`seen
      ensures seen == IndexOf(leaves)
      ensures isNew <==> leaf !in LeafSet(old(leaves))
      ensures leaves == if isNew then old(leaves) + [LeafEntry(leaf, did)] else old(leaves)
    {
      IndexKeys(leaves);
      if leaf in seen {
        return false;
      }
      IndexPush(leaves, LeafEntry(leaf, did));
      var idx := |leaves|;
      leaves := leaves + [LeafEntry(leaf, did)];
      seen := seen[leaf := idx];
      return true;
    }

    /** The append pass of `AppendBatch`. */
    method PushAll(batch: seq<Leaf>, did: Did) returns (accepted: nat, duplicates: nat)
      requires seen == IndexOf(leaves) && |batch| <= MAX_U64
      modifies this`leaves, this`seen
      ensures leaves == Pushed(old(leaves), batch, did) && seen == IndexOf(leaves)
      ensures |leaves| == |old(leaves)| + accepted && accepted + duplicates == |batch|
    {
      accepted, duplicates := 0, 0;
      for i := 0 to |batch|
        invariant leaves == Pushed(old(leaves), batch[..i], did)
        invariant |leaves| == |old(leaves)| + accepted
        invariant accepted + duplicates == i
        invariant seen == IndexOf(leaves)
      {
        ghost var n := |leaves|;
        PushedStep(old(leaves), batch, i, did);
        assert SatAdd(accepted, 1) == accepted + 1 && SatAdd(duplicates, 1) == duplicates + 1;
        var isNew := Push(batch[i], did);
        assert leaves == Pushed(old(leaves), batch[..i + 1], did) && |leaves| == if isNew then n + 1 else n;
        if isNew {
          accepted := SatAdd(accepted, 1);
        } else {
          duplicates := SatAdd(duplicates, 1);
        }
      }
      assert batch[..|batch|] == batch;
    }

    /** `batch` is a slice, so its length fits the duplicate counter. */
    method AppendBatch(batch: seq<Leaf>, did: Did) returns (r: Result<AcceptOutcome, EpochFull>)
      requires Valid() && |batch| <= MAX_U64
      modifies this`leaves, this`seen
      ensures Valid()
      ensures r == Submitted(old(View()), batch, did).Reply()
      ensures View() == Submitted(old(View()), batch, did).NextOr(old(View()))
    {
      IndexKeys(leaves);
      var novel := Novel(batch, seen.Keys);
      if SatAdd(|leaves|, |novel|) > leafCap {
        return Err(EpochFull(epochId, closesAt, leafCap));
      }
      ghost var submitted := Submitted(View(), batch, did);
      AcceptedIsValid(View(), batch, did);
      var accepted, duplicates := PushAll(batch, did);
      assert View() == submitted.next;
      assert submitted.outcome == AcceptOutcome(epochId, closesAt, accepted, duplicates);
      r := Ok(AcceptOutcome(epochId, closesAt, accepted, duplicates));
    }

    method SwapAndOpenNext(closedAt: nat, nextOpenedAt: nat, duration: nat) returns (snapshot: SealedSnapshot)
      requires Valid()
      modifies this
      ensures Valid()
      ensures (snapshot, View()) == Swapped(old(View()), closedAt, nextOpenedAt, duration)
    {
      snapshot := SealedSnapshot(epochId, openedAt, closedAt, leaves);
      leaves, seen := [], map[];
      epochId := SatAdd(epochId, 1);
      openedAt := nextOpenedAt;
      closesAt := SatAdd(nextOpenedAt, duration);
    }
  }
}
