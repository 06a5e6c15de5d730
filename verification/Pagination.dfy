/**
 * The epoch list, page by page: following the cursor visits every epoch that
 * existed when the walk began, in descending order, each once, however many
 * epochs are sealed between the pages.
 */
module Pagination {
  import opened Base
  import opened Storage
  import opened Persistence
  import opened Accumulation
  import opened Sealer
  import opened Invariants
  import opened System
  import opened Runs
  import opened Keys

  /** The ids of a partition up to `upper`, from the highest down. */
  ghost predicate Descends(ids: set<nat>, upper: nat, s: seq<nat>) {
    && (forall i, j :: 0 <= i < j < |s| ==> s[i] > s[j])
    && (forall x :: x in s <==> x in ids && x <= upper)
  }

  lemma DescendsHead(ids: set<nat>, upper: nat, s: seq<nat>, t: seq<nat>)
    requires Descends(ids, upper, s) && Descends(ids, upper, t)
    ensures s == [] <==> t == []
    ensures s != [] ==> s[0] == t[0]
  {
    assert s != [] ==> s[0] in s;
    assert t != [] ==> t[0] in t;
  }

  lemma {:induction false} DescendingUnique(ids: set<nat>, upper: nat, s: seq<nat>, t: seq<nat>)
    requires Descends(ids, upper, s) && Descends(ids, upper, t)
    ensures s == t
    decreases |s|
  {
    DescendsHead(ids, upper, s, t);
    if s != [] {
      RestDescends(ids, upper, s);
      RestDescends(ids, upper, t);
      DescendingUnique(ids - {s[0]}, upper, s[1..], t[1..]);
      assert s == [s[0]] + s[1..] && t == [t[0]] + t[1..];
    }
  }

  lemma RestDescends(ids: set<nat>, upper: nat, s: seq<nat>)
    requires Descends(ids, upper, s) && s != []
    ensures Descends(ids - {s[0]}, upper, s[1..])
  {
    forall x
      ensures x in s[1..] <==> x in ids - {s[0]} && x <= upper
    {
      if x in s[1..] {
        var i :| 0 <= i < |s[1..]| && s[1..][i] == x;
        assert s[i + 1] == x && s[0] > s[i + 1];
      }
      if x in ids - {s[0]} && x <= upper {
        assert x in s;
        var i :| 0 <= i < |s| && s[i] == x;
        assert s[1..][i - 1] == x;
      }
    }
  }

  /** `range(..=upper).rev()` over keys in ascending order. */
  function Downward(s: seq<nat>, upper: nat): seq<nat> {
    if s == [] then [] else
      var n := |s| - 1;
      (if s[n] <= upper then [s[n]] else []) + Downward(s[..n], upper)
  }

  lemma {:induction false} DownwardMember(s: seq<nat>, upper: nat, x: nat)
    ensures x in Downward(s, upper) <==> x in s && x <= upper
  {
    if s != [] {
      var n := |s| - 1;
      DownwardMember(s[..n], upper, x);
      assert s == s[..n] + [s[n]];
    }
  }

  lemma {:induction false} DownwardOrdered(s: seq<nat>, upper: nat)
    requires Ascending(s)
    ensures forall i, j :: 0 <= i < j < |Downward(s, upper)| ==> Downward(s, upper)[i] > Downward(s, upper)[j]
  {
    if s != [] {
      var n := |s| - 1;
      var rest := Downward(s[..n], upper);
      DownwardOrdered(s[..n], upper);
      forall j | 0 <= j < |rest|
        ensures rest[j] < s[n]
      {
        assert rest[j] in rest;
        DownwardMember(s[..n], upper, rest[j]);
      }
    }
  }

  ghost function AllDown(ids: set<nat>, upper: nat): seq<nat> {
    Downward(InOrder(ids), upper)
  }

  lemma AllDownDescends(ids: set<nat>, upper: nat)
    ensures Descends(ids, upper, AllDown(ids, upper))
  {
    DownwardOrdered(InOrder(ids), upper);
    forall x: nat
      ensures x in AllDown(ids, upper) <==> x in ids && x <= upper
    {
      DownwardMember(InOrder(ids), upper, x);
    }
  }

  // ---- One page ----

  type Epochs = map<nat, EpochRecord>

  datatype Page = Page(records: seq<EpochRecord>, next: Option<nat>)

  function Upper(start: Option<nat>): nat {
    if start.Some? then start.value else MAX_U64
  }

  /** The records of `ids`, in that order. */
  ghost function RecordsOf(epochs: Epochs, ids: seq<nat>): seq<EpochRecord> {
    if ids == [] then [] else
      var n := |ids| - 1;
      RecordsOf(epochs, ids[..n]) + if ids[n] in epochs then [epochs[ids[n]]] else []
  }

  lemma AllDownStored(epochs: Epochs, upper: nat)
    ensures forall i :: 0 <= i < |AllDown(epochs.Keys, upper)| ==> AllDown(epochs.Keys, upper)[i] in epochs
  {
    AllDownDescends(epochs.Keys, upper);
    forall i | 0 <= i < |AllDown(epochs.Keys, upper)|
      ensures AllDown(epochs.Keys, upper)[i] in epochs
    {
      assert AllDown(epochs.Keys, upper)[i] in AllDown(epochs.Keys, upper);
    }
  }

  /** The first `limit` of the listed ids, and the id of the record after them. */
  ghost function PageIn(epochs: Epochs, all: seq<nat>, limit: nat): Page
    requires forall i :: 0 <= i < |all| ==> all[i] in epochs
  {
    if |all| > limit then Page(RecordsOf(epochs, all[..limit]), Some(epochs[all[limit]].id))
    else Page(RecordsOf(epochs, all), None)
  }

  /** At most `limit` records from `start` down, and the id of the one after them. */
  ghost function PageOf(epochs: Epochs, start: Option<nat>, limit: nat): Page {
    if limit == 0 then Page([], start) else
      AllDownStored(epochs, Upper(start));
      PageIn(epochs, AllDown(epochs.Keys, Upper(start)), limit)
  }

  lemma RecordsPush(epochs: Epochs, ids: seq<nat>, e: nat)
    requires e in epochs
    ensures RecordsOf(epochs, ids + [e]) == RecordsOf(epochs, ids) + [epochs[e]]
  {
  }

  /**
   * The reverse range scan that fills a page and peeks at the record after it.
   * `keys` is what iterating the partition yields: its keys in byte order.
   */
  method ListEpochsDesc(store: Store, keys: seq<Key>, start: Option<nat>, limit: nat) returns (page: Page)
    requires Iterates(store.epochs.Keys, keys) && Upper(start) <= MAX_U64
    requires forall e :: e in store.epochs ==> e <= MAX_U64
    ensures page == PageOf(store.epochs, start, limit)
  {
    if limit == 0 {
      return Page([], start);
    }
    ghost var ids := InOrder(store.epochs.Keys);
    KeysAreOf(store.epochs, keys);
    FillIsPageDown(store.epochs, Upper(start), limit);
    page := ScanDown(store.epochs, keys, ids, Upper(start), limit);
  }

  /** The ids the keys stand for. */
  lemma KeysAreOf(epochs: Epochs, keys: seq<Key>)
    requires Iterates(epochs.Keys, keys) && forall e :: e in epochs ==> e <= MAX_U64
    ensures
      var ids := InOrder(epochs.Keys);
      keys == KeysOf(ids) && forall i :: 0 <= i < |ids| ==> ids[i] <= MAX_U64
  {
    var ids := InOrder(epochs.Keys);
    IterationIsInOrder(epochs.Keys, keys);
    forall i | 0 <= i < |ids|
      ensures ids[i] <= MAX_U64
    {
      assert ids[i] in ids;
    }
  }

  /** Filling a page from them gives the page. */
  lemma FillIsPageDown(epochs: Epochs, upper: nat, limit: nat)
    ensures AllStored(epochs, AllDown(epochs.Keys, upper))
    ensures Fill(epochs, [], AllDown(epochs.Keys, upper), limit) == PageIn(epochs, AllDown(epochs.Keys, upper), limit)
  {
    AllDownStored(epochs, upper);
    FillIsPage(epochs, [], AllDown(epochs.Keys, upper), limit);
    assert [] + AllDown(epochs.Keys, upper) == AllDown(epochs.Keys, upper);
  }

  /** All of `ids` are stored. */
  ghost predicate AllStored(epochs: Epochs, ids: seq<nat>) {
    forall i :: 0 <= i < |ids| ==> ids[i] in epochs
  }

  /** Filling a page from the ids still to come. */
  ghost function Fill(epochs: Epochs, records: seq<EpochRecord>, rest: seq<nat>, limit: nat): Page
    requires AllStored(epochs, rest)
    decreases |rest|
  {
    if rest == [] then Page(records, None)
    else if |records| == limit then Page(records, Some(epochs[rest[0]].id))
    else Fill(epochs, records + [epochs[rest[0]]], rest[1..], limit)
  }

  lemma {:induction false} FillIsPage(epochs: Epochs, got: seq<nat>, rest: seq<nat>, limit: nat)
    requires |got| <= limit && |RecordsOf(epochs, got)| == |got|
    requires (forall i :: 0 <= i < |rest| ==> rest[i] in epochs) && (forall i :: 0 <= i < |got| ==> got[i] in epochs)
    ensures Fill(epochs, RecordsOf(epochs, got), rest, limit) == PageIn(epochs, got + rest, limit)
    decreases |rest|
  {
    if rest == [] {
      assert got + rest == got;
    } else if |got| == limit {
      assert (got + rest)[..limit] == got;
    } else {
      RecordsPush(epochs, got, rest[0]);
      FillIsPage(epochs, got + [rest[0]], rest[1..], limit);
      assert got + [rest[0]] + rest[1..] == got + rest;
    }
  }

  /** The scan, from the highest key down; `ids` are the ids the keys stand for. */
  method ScanDown(epochs: Epochs, keys: seq<Key>, ghost ids: seq<nat>, upper: nat, limit: nat) returns (page: Page)
    requires keys == KeysOf(ids) && upper <= MAX_U64 && forall i :: 0 <= i < |ids| ==> ids[i] <= MAX_U64
    requires AllStored(epochs, Downward(ids, upper))
    ensures page == Fill(epochs, [], Downward(ids, upper), limit)
  {
    var records := [];
    var i := |keys|;
    assert ids[..i] == ids;
    while i > 0
      invariant 0 <= i <= |ids|
      invariant AllStored(epochs, Downward(ids[..i], upper))
      invariant Fill(epochs, records, Downward(ids[..i], upper), limit) == Fill(epochs, [], Downward(ids, upper), limit)
    {
      i := i - 1;
      KeyInRange(upper, ids[i]);
      FillDown(epochs, records, ids, i, upper, limit);
      if !BytesBelow(BigEndian(upper, 8), keys[i]) {
        var e := FromBigEndian(keys[i]);
        if |records| == limit {
          return Page(records, Some(epochs[e].id));
        }
        records := records + [epochs[e]];
      }
    }
    return Page(records, None);
  }

  lemma KeyInRange(upper: nat, e: nat)
    requires upper <= MAX_U64 && e <= MAX_U64
    ensures BytesBelow(BigEndian(upper, 8), BigEndian(e, 8)) <==> upper < e
    ensures FromBigEndian(BigEndian(e, 8)) == e
  {
    EpochKeysAreOrdered(upper, e);
    EpochKeysAreOrdered(e, e);
  }

  /** One step of the scan: the id is skipped above the range, else it goes on the page or is the cursor. */
  lemma FillDown(epochs: Epochs, records: seq<EpochRecord>, ids: seq<nat>, i: nat, upper: nat, limit: nat)
    requires i < |ids| && AllStored(epochs, Downward(ids[..i + 1], upper))
    ensures AllStored(epochs, Downward(ids[..i], upper)) && (ids[i] <= upper ==> ids[i] in epochs)
    ensures Fill(epochs, records, Downward(ids[..i + 1], upper), limit) ==
      if ids[i] > upper then Fill(epochs, records, Downward(ids[..i], upper), limit)
      else if |records| == limit then Page(records, Some(epochs[ids[i]].id))
      else Fill(epochs, records + [epochs[ids[i]]], Downward(ids[..i], upper), limit)
  {
    assert ids[..i + 1][..i] == ids[..i] && ids[..i + 1][i] == ids[i];
    var all, below := Downward(ids[..i + 1], upper), Downward(ids[..i], upper);
    if ids[i] <= upper {
      assert all == [ids[i]] + below && all[1..] == below && all[0] == ids[i];
      forall j | 0 <= j < |below|
        ensures below[j] in epochs
      {
        assert below[j] == all[j + 1];
      }
    } else {
      assert all == below;
    }
  }

  // ---- Walking the pages ----

  ghost predicate Keyed(epochs: Epochs) {
    forall e :: e in epochs ==> epochs[e].id == e
  }

  /** A later store: the same records, and new ones above them all. */
  ghost predicate Later(a: Epochs, b: Epochs) {
    && (forall e :: e in a ==> e in b && b[e] == a[e])
    && (forall e, q :: e in b && e !in a && q in a ==> q < e)
  }

  lemma NextIsLower(epochs: Epochs, start: Option<nat>, limit: nat)
    requires Keyed(epochs) && limit > 0 && PageOf(epochs, start, limit).next.Some?
    ensures
      var all := AllDown(epochs.Keys, Upper(start));
      var next := PageOf(epochs, start, limit).next.value;
      |all| > limit && next == all[limit] && next in epochs && next < Upper(start)
  {
    var all := AllDown(epochs.Keys, Upper(start));
    AllDownDescends(epochs.Keys, Upper(start));
    AllDownStored(epochs, Upper(start));
    assert all[0] in all && all[0] > all[limit];
  }

  /** What a client collects by following the cursor: page `i` is read from store `i` with limit `i`. */
  ghost function Walk(stores: nat -> Epochs, limits: nat -> nat, i: nat, start: Option<nat>): seq<EpochRecord>
    requires forall j :: Keyed(stores(j)) && limits(j) > 0
    decreases Upper(start)
  {
    var page := PageOf(stores(i), start, limits(i));
    if page.next.None? then page.records
    else
      NextIsLower(stores(i), start, limits(i));
      page.records + Walk(stores, limits, i + 1, page.next)
  }

  /** What is below an id of the old store is the same in the later one. */
  lemma SameBelow(a: Epochs, b: Epochs, c: nat)
    requires Later(a, b) && c in a
    ensures AllDown(b.Keys, c) == AllDown(a.Keys, c)
  {
    AllDownDescends(a.Keys, c);
    AllDownDescends(b.Keys, c);
    assert Descends(a.Keys, c, AllDown(b.Keys, c));
    DescendingUnique(a.Keys, c, AllDown(a.Keys, c), AllDown(b.Keys, c));
  }

  /** From the record after a page, the rest of the list. */
  lemma RestOfList(ids: set<nat>, upper: nat, k: nat)
    requires k < |AllDown(ids, upper)|
    ensures AllDown(ids, AllDown(ids, upper)[k]) == AllDown(ids, upper)[k..]
  {
    var all := AllDown(ids, upper);
    var c := all[k];
    AllDownDescends(ids, upper);
    AllDownDescends(ids, c);
    forall x
      ensures x in all[k..] <==> x in ids && x <= c
    {
      if x in all[k..] {
        var i :| 0 <= i < |all[k..]| && all[k..][i] == x;
        assert all[k + i] == x && x in all;
        assert i > 0 ==> all[k] > all[k + i];
      }
      if x in ids && x <= c {
        assert all[k] in all && x in all;
        var i :| 0 <= i < |all| && all[i] == x;
        assert !(i < k);
        assert all[k..][i - k] == x;
      }
    }
    DescendingUnique(ids, c, AllDown(ids, c), all[k..]);
  }

  lemma {:induction false} RecordsConcat(epochs: Epochs, a: seq<nat>, b: seq<nat>)
    ensures RecordsOf(epochs, a + b) == RecordsOf(epochs, a) + RecordsOf(epochs, b)
  {
    if b == [] {
      assert a + b == a;
    } else {
      var n := |b| - 1;
      RecordsConcat(epochs, a, b[..n]);
      assert (a + b)[..|a + b| - 1] == a + b[..n];
    }
  }

  lemma {:induction false} SameRecords(a: Epochs, b: Epochs, ids: seq<nat>)
    requires forall i :: 0 <= i < |ids| ==> ids[i] in a && ids[i] in b && b[ids[i]] == a[ids[i]]
    ensures RecordsOf(a, ids) == RecordsOf(b, ids)
  {
    if ids != [] {
      SameRecords(a, b, ids[..|ids| - 1]);
    }
  }

  lemma SamePage(a: Epochs, b: Epochs, all: seq<nat>, limit: nat)
    requires forall i :: 0 <= i < |all| ==> all[i] in a && all[i] in b && b[all[i]] == a[all[i]]
    ensures PageIn(a, all, limit) == PageIn(b, all, limit)
  {
    SameRecords(a, b, all);
    if |all| > limit {
      SameRecords(a, b, all[..limit]);
    }
  }

  /** A page of a later store from a cursor of the old one. */
  lemma PageFromCursor(a: Epochs, b: Epochs, c: nat, limit: nat)
    requires Later(a, b) && c in a && limit > 0
    ensures PageOf(b, Some(c), limit) == PageOf(a, Some(c), limit)
  {
    SameBelow(a, b, c);
    AllDownStored(a, c);
    SamePage(a, b, AllDown(a.Keys, c), limit);
  }

  lemma RecordsSplit(a: Epochs, all: seq<nat>, k: nat)
    requires k <= |all|
    ensures RecordsOf(a, all[..k]) + RecordsOf(a, all[k..]) == RecordsOf(a, all)
  {
    RecordsConcat(a, all[..k], all[k..]);
    assert all == all[..k] + all[k..];
  }

  /** The records up to `upper`, from the highest id down. */
  ghost function ListFrom(epochs: Epochs, upper: nat): seq<EpochRecord> {
    RecordsOf(epochs, AllDown(epochs.Keys, upper))
  }

  /** `out` is the records of ids up to `upper`, from the highest id down, each once. */
  ghost predicate IsListing(epochs: Epochs, upper: nat, out: seq<EpochRecord>) {
    && (forall i, j :: 0 <= i < j < |out| ==> out[i].id > out[j].id)
    && (forall i :: 0 <= i < |out| ==> out[i].id <= upper && out[i].id in epochs && epochs[out[i].id] == out[i])
    && (forall e :: e in epochs && e <= upper ==> epochs[e] in out)
  }

  lemma {:induction false} RecordsAt(epochs: Epochs, ids: seq<nat>)
    requires forall i :: 0 <= i < |ids| ==> ids[i] in epochs
    ensures |RecordsOf(epochs, ids)| == |ids|
    ensures forall i :: 0 <= i < |ids| ==> RecordsOf(epochs, ids)[i] == epochs[ids[i]]
  {
    if ids != [] {
      RecordsAt(epochs, ids[..|ids| - 1]);
    }
  }

  lemma ListFromIs(epochs: Epochs, upper: nat)
    requires Keyed(epochs)
    ensures IsListing(epochs, upper, ListFrom(epochs, upper))
  {
    var ids := AllDown(epochs.Keys, upper);
    AllDownStored(epochs, upper);
    AllDownDescends(epochs.Keys, upper);
    RecordsAt(epochs, ids);
    var out := ListFrom(epochs, upper);
    forall i | 0 <= i < |out|
      ensures out[i].id <= upper && out[i].id in epochs && epochs[out[i].id] == out[i]
    {
      assert ids[i] in ids;
    }
    forall e | e in epochs && e <= upper
      ensures epochs[e] in out
    {
      assert e in ids;
      var i :| 0 <= i < |ids| && ids[i] == e;
      assert out[i] == epochs[e];
    }
  }

  /** `page` and the list from its cursor on are the list from `start` on. */
  ghost predicate Starts(a: Epochs, start: Option<nat>, page: Page) {
    && (page.next.None? ==> page.records == ListFrom(a, Upper(start)))
    && (page.next.Some? ==>
          && page.next.value in a && page.next.value < Upper(start)
          && page.records + ListFrom(a, page.next.value) == ListFrom(a, Upper(start)))
  }

  lemma PageStartsList(a: Epochs, start: Option<nat>, limit: nat)
    requires Keyed(a) && limit > 0
    ensures Starts(a, start, PageOf(a, start, limit))
  {
    var all := AllDown(a.Keys, Upper(start));
    AllDownStored(a, Upper(start));
    if |all| > limit {
      NextIsLower(a, start, limit);
      RestOfList(a.Keys, Upper(start), limit);
      RecordsSplit(a, all, limit);
    }
  }

  /** A page read from a later store, from a cursor into the first one, continues the first one's list. */
  lemma CursorStep(a: Epochs, b: Epochs, c: nat, limit: nat)
    requires Keyed(a) && Later(a, b) && c in a && limit > 0
    ensures Starts(a, Some(c), PageOf(b, Some(c), limit))
  {
    PageFromCursor(a, b, c, limit);
    PageStartsList(a, Some(c), limit);
  }

  /** Every page is read from a store later than the first, by a limit of at least one. */
  ghost predicate Growing(stores: nat -> Epochs, limits: nat -> nat) {
    && (forall j :: Keyed(stores(j)) && limits(j) > 0)
    && (forall j :: Later(stores(0), stores(j)))
  }

  lemma GrowingAt(stores: nat -> Epochs, limits: nat -> nat, i: nat)
    requires Growing(stores, limits)
    ensures Keyed(stores(0)) && Later(stores(0), stores(i)) && limits(i) > 0
  {
  }

  /** The rest of a walk, from a cursor into the first store. */
  lemma {:induction false} WalkFromCursor(stores: nat -> Epochs, limits: nat -> nat, i: nat, c: nat)
    requires Growing(stores, limits) && c in stores(0)
    ensures Walk(stores, limits, i, Some(c)) == ListFrom(stores(0), c)
    decreases c
  {
    GrowingAt(stores, limits, i);
    CursorStep(stores(0), stores(i), c, limits(i));
    var page := PageOf(stores(i), Some(c), limits(i));
    if page.next.Some? {
      WalkFromCursor(stores, limits, i + 1, page.next.value);
    }
  }

  /**
   * Pagination is complete: with any limits of at least one, following the
   * cursor ends and yields exactly the records with an id up to `start` that
   * the first page's store held, in descending order, whatever is sealed later.
   */
  lemma WalkIsComplete(stores: nat -> Epochs, limits: nat -> nat, start: Option<nat>)
    requires Growing(stores, limits)
    ensures IsListing(stores(0), Upper(start), Walk(stores, limits, 0, start))
    ensures Walk(stores, limits, 0, start) == ListFrom(stores(0), Upper(start))
  {
    GrowingAt(stores, limits, 0);
    ListFromIs(stores(0), Upper(start));
    PageStartsList(stores(0), start, limits(0));
    var page := PageOf(stores(0), start, limits(0));
    if page.next.Some? {
      WalkFromCursor(stores, limits, 1, page.next.value);
    }
  }

  /** The cursor handed back is the one given exactly for a limit of zero; such a walk would not move. */
  lemma CursorStaysExactlyAtZero(epochs: Epochs, c: nat, limit: nat)
    requires Keyed(epochs)
    ensures PageOf(epochs, Some(c), limit).next == Some(c) <==> limit == 0
  {
    if limit > 0 && PageOf(epochs, Some(c), limit).next.Some? {
      NextIsLower(epochs, Some(c), limit);
    }
  }

  // ---- The stores of a run ----

  lemma LaterTransitive(a: Epochs, b: Epochs, c: Epochs)
    requires Later(a, b) && Later(b, c)
    ensures Later(a, c)
  {
  }

  lemma RecordsKeyed(w: World)
    requires CoreInv(w)
    ensures Keyed(w.disk.epochs)
  {
    CoreParts(w);
  }

  lemma SettlePhaseKeepsEpochs(cfg: Config, w: World, s: SealedSnapshot, se: SealedEpoch, down: set<Method>,
                               env: TickEnv)
    ensures SettlePhase(cfg, w, s, se, down, env).disk.epochs == w.disk.epochs
  {
    var p := PendingFor(s.epochId, s.openedAt, s.closedAt, se);
    if p.Some? {
      EpochFrame(cfg, WorkOf(w, down), p.value, env.now, env.settle);
    }
  }

  lemma SealIsLater(w: World, s: SealedSnapshot, se: SealedEpoch)
    requires forall q :: q in w.disk.epochs ==> q < s.epochId
    ensures Later(w.disk.epochs, SealedWorld(w, s, se).disk.epochs)
  {
  }

  lemma LandingIsLater(cfg: Config, w: World, s: SealedSnapshot, se: SealedEpoch, down: set<Method>, env: TickEnv)
    requires forall q :: q in w.disk.epochs ==> q < s.epochId
    ensures Later(w.disk.epochs, AfterLanding(cfg, w, s, se, down, env).disk.epochs)
  {
    SealIsLater(w, s, se);
    SettlePhaseKeepsEpochs(cfg, SealedWorld(w, s, se), s, se, down, env);
    assert AfterLanding(cfg, w, s, se, down, env).disk.epochs == SealedWorld(w, s, se).disk.epochs;
  }

  lemma CloseLandsLater(cfg: Config, w: World, s: SealedSnapshot, se: SealedEpoch, down: set<Method>, env: TickEnv)
    requires (forall q :: q in w.disk.epochs ==> q < w.open.epochId) && s.epochId == w.open.epochId
    ensures Later(w.disk.epochs, AfterLanding(cfg, SwapPhase(w, env), s, se, down, env).disk.epochs)
  {
    assert SwapPhase(w, env).disk == w.disk;
    LandingIsLater(cfg, SwapPhase(w, env), s, se, down, env);
  }

  lemma CloseIsLater(cfg: Config, w: World, down: set<Method>, env: TickEnv)
    requires forall q :: q in w.disk.epochs ==> q < w.open.epochId
    ensures Later(w.disk.epochs, ClosePhase(cfg, w, down, env).disk.epochs)
  {
    if Closed(cfg, w.open.leaves, env).Some? && Lands(env.persist) {
      var s := Swapped(w.open, env.now, env.now, env.duration).0;
      CloseLandsLater(cfg, w, s, Closed(cfg, s.leaves, env).value, down, env);
    } else {
      UnsealedTickKeepsStore(cfg, w, down, env);
    }
  }

  lemma RetryKeepsEpochs(cfg: Config, w: World, env: TickEnv)
    ensures RetryPhase(cfg, w, env).disk.epochs == w.disk.epochs
  {
    RetryFrame(cfg, WorkOf(w, {}), PendingEpochs(w.disk), env.now, env.settle);
  }

  lemma IdsBelowOpen(w: World)
    requires CoreInv(w)
    ensures w.open.Valid() && forall q :: q in w.disk.epochs ==> q < w.open.epochId
  {
    CoreParts(w);
    EpochsOfInv(w);
  }

  lemma StepIsLater(cfg: Config, w: World, a: Action)
    requires CoreInv(w)
    ensures Later(w.disk.epochs, Step(cfg, w, a).disk.epochs)
  {
    if a.Tick? && !(a.env.context && Validate(cfg).Some?) {
      var work := RetryPhase(cfg, w, a.env);
      RetryKeepsEpochs(cfg, w, a.env);
      IdsBelowOpen(w);
      SubmitAllGrows(w.open, a.env.before);
      CloseIsLater(cfg, Accept(WithWork(w, work), a.env.before), work.down, a.env);
    }
  }

  /** Epochs are only ever added above: every later store of a run extends every earlier one. */
  lemma {:induction false} RunIsLater(cfg: Config, w: World, actions: seq<Action>)
    requires CoreInv(w) && NoDup(cfg.methods) && AdmissibleRun(cfg, w, actions)
    ensures Later(w.disk.epochs, Run(cfg, w, actions).disk.epochs)
    ensures CoreInv(Run(cfg, w, actions))
  {
    if actions != [] {
      var n := |actions| - 1;
      RunIsLater(cfg, w, actions[..n]);
      var before := Run(cfg, w, actions[..n]);
      StepIsLater(cfg, before, actions[n]);
      StepCore(cfg, before, actions[n]);
      LaterTransitive(w.disk.epochs, before.disk.epochs, Step(cfg, before, actions[n]).disk.epochs);
    }
  }

  /** The walk a client makes over a running service: before page `i`, the run has taken `upTo(i)`. */
  lemma WalkOverARunIsComplete(cfg: Config, w: World,
                               upTo: nat -> seq<Action>, stores: nat -> Epochs, limits: nat -> nat,
                               start: Option<nat>)
    requires CoreInv(w) && NoDup(cfg.methods) && upTo(0) == []
    requires forall i ::
      AdmissibleRun(cfg, w, upTo(i)) && stores(i) == Run(cfg, w, upTo(i)).disk.epochs && limits(i) > 0
    ensures Growing(stores, limits)
    ensures IsListing(w.disk.epochs, Upper(start), Walk(stores, limits, 0, start))
    ensures Walk(stores, limits, 0, start) == ListFrom(w.disk.epochs, Upper(start))
  {
    forall i: nat
      ensures Keyed(stores(i)) && Later(w.disk.epochs, stores(i)) && limits(i) > 0
    {
      RunIsLater(cfg, w, upTo(i));
      RecordsKeyed(Run(cfg, w, upTo(i)));
    }
    assert stores(0) == w.disk.epochs;
    WalkIsComplete(stores, limits, start);
  }
}
