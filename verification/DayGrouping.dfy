/** Two ways the pages merge class times by institute day: a sorted grouping
    (AbsenceDetail) and a one-pass map of ranges (CourseGroupDetail). Times are
    instants in milliseconds; a date is the number of the institute-local day. */
module DayGrouping {
  import opened JsCollections

  const MS_PER_DAY := 86_400_000
  // Asia/Bangkok is seven hours ahead of UTC all year.
  const ZONE_OFFSET_MS := 25_200_000

  datatype Item = Item(id: string, startAt: int, endAt: int)
  datatype Range = Range(startAt: int, endAt: int)
  datatype DayGroup = DayGroup(date: int, range: Range, items: seq<Item>)

  function DayOf(item: Item): int {
    (item.startAt + ZONE_OFFSET_MS) / MS_PER_DAY
  }

  /** Day `d` of the institute begins seven hours before `d` whole days have passed
      since the epoch, and ends where the next begins. */
  lemma DayBegins(item: Item, d: int)
    ensures DayOf(item) == d
            <==> d * 24 * 3_600_000 - 7 * 3_600_000 <= item.startAt < (d + 1) * 24 * 3_600_000 - 7 * 3_600_000
  {}

  // ---- Stable sort by start time ----

  function InsertByStart(s: seq<Item>, x: Item): seq<Item> {
    if s == [] || s[|s| - 1].startAt <= x.startAt then s + [x]
    else InsertByStart(s[..|s| - 1], x) + [s[|s| - 1]]
  }

  function SortByStart(items: seq<Item>): seq<Item> {
    if items == [] then []
    else InsertByStart(SortByStart(items[..|items| - 1]), items[|items| - 1])
  }

  ghost predicate InStartOrder(s: seq<Item>) {
    forall i, j :: 0 <= i < j < |s| ==> s[i].startAt <= s[j].startAt
  }

  lemma {:induction false} InsertKeepsItems(s: seq<Item>, x: Item)
    ensures multiset(InsertByStart(s, x)) == multiset(s) + multiset{x}
  {
    if s != [] && s[|s| - 1].startAt > x.startAt {
      InsertKeepsItems(s[..|s| - 1], x);
      assert s == s[..|s| - 1] + [s[|s| - 1]];
    }
  }

  lemma {:induction false} InsertKeepsOrder(s: seq<Item>, x: Item)
    requires InStartOrder(s)
    ensures InStartOrder(InsertByStart(s, x))
  {
    if s != [] && s[|s| - 1].startAt > x.startAt {
      var init, last := s[..|s| - 1], s[|s| - 1];
      InsertKeepsOrder(init, x);
      var r := InsertByStart(init, x);
      forall i | 0 <= i < |r| ensures r[i].startAt <= last.startAt {
        InsertKeepsItems(init, x);
        assert r[i] in multiset(r);
        assert r[i] in init || r[i] == x;
      }
    }
  }

  /** Sorting orders by start time and keeps every item. */
  lemma {:induction false} SortOrders(items: seq<Item>)
    ensures InStartOrder(SortByStart(items))
    ensures multiset(SortByStart(items)) == multiset(items)
  {
    if items != [] {
      var init := items[..|items| - 1];
      SortOrders(init);
      assert items == init + [items[|items| - 1]];
      InsertKeepsOrder(SortByStart(init), items[|items| - 1]);
      InsertKeepsItems(SortByStart(init), items[|items| - 1]);
    }
  }

  // ---- Earliest start and latest end ----

  function Hull(items: seq<Item>): Range
    requires items != []
  {
    var last := items[|items| - 1];
    if |items| == 1 then Range(last.startAt, last.endAt)
    else
      var h := Hull(items[..|items| - 1]);
      Range(if last.startAt < h.startAt then last.startAt else h.startAt,
            if last.endAt > h.endAt then last.endAt else h.endAt)
  }

  ghost predicate IsHull(r: Range, items: seq<Item>) {
    && (forall x :: x in items ==> r.startAt <= x.startAt && x.endAt <= r.endAt)
    && (exists x :: x in items && x.startAt == r.startAt)
    && (exists x :: x in items && x.endAt == r.endAt)
  }

  lemma {:induction false} HullBounds(items: seq<Item>, x: Item)
    requires x in items
    ensures Hull(items).startAt <= x.startAt && x.endAt <= Hull(items).endAt
  {
    var init := items[..|items| - 1];
    if x in init { HullBounds(init, x); }
  }

  lemma {:induction false} HullIsAttained(items: seq<Item>) returns (first: Item, last: Item)
    requires items != []
    ensures first in items && last in items
    ensures first.startAt == Hull(items).startAt && last.endAt == Hull(items).endAt
  {
    var x := items[|items| - 1];
    if |items| == 1 { return x, x; }
    first, last := HullIsAttained(items[..|items| - 1]);
    if x.startAt < first.startAt { first := x; }
    if x.endAt > last.endAt { last := x; }
  }

  /** The scan finds the earliest start and the latest end. */
  lemma HullIsHull(items: seq<Item>)
    requires items != []
    ensures IsHull(Hull(items), items)
  {
    forall x | x in items ensures Hull(items).startAt <= x.startAt && x.endAt <= Hull(items).endAt {
      HullBounds(items, x);
    }
    var first, last := HullIsAttained(items);
  }

  lemma HullByContents(a: seq<Item>, b: seq<Item>)
    requires a != [] && multiset(a) == multiset(b)
    ensures b != [] && Hull(a) == Hull(b)
  {
    assert |multiset(a)| == |a| && |multiset(b)| == |b|;
    HullIsHull(a);
    HullIsHull(b);
    assert forall x :: x in a <==> x in multiset(a);
    assert forall x :: x in b <==> x in multiset(b);
  }

  // ---- Grouping a start-ordered list by day ----

  ghost predicate DaysInOrder(s: seq<Item>) {
    forall i, j :: 0 <= i < j < |s| ==> DayOf(s[i]) <= DayOf(s[j])
  }

  lemma StartOrderGivesDayOrder(s: seq<Item>)
    requires InStartOrder(s)
    ensures DaysInOrder(s)
  {}

  /** On a list whose days never go back, bucketing yields increasing days and
      loses nothing: the buckets in order spell the list again. */
  lemma {:induction false} OrderedGrouping(s: seq<Item>)
    requires DaysInOrder(s)
    ensures Increasing(Keys(Grouped(s, DayOf)))
    ensures Flatten(Values(Grouped(s, DayOf))) == s
    ensures s != [] ==> Grouped(s, DayOf) != [] && Grouped(s, DayOf)[|Grouped(s, DayOf)| - 1].key == DayOf(s[|s| - 1])
  {
    if s != [] {
      var init, x := s[..|s| - 1], s[|s| - 1];
      assert s == init + [x];
      OrderedGrouping(init);
      GroupedSnoc(init, x, DayOf);
      AppendToLastDay(Grouped(init, DayOf), x, init);
    } else {
      assert Grouped(s, DayOf) == [];
    }
  }

  lemma AppendToLastDay(g: JsMap<int, seq<Item>>, x: Item, init: seq<Item>)
    requires Increasing(Keys(g)) && Flatten(Values(g)) == init
    requires g != [] ==> g[|g| - 1].key <= DayOf(x)
    ensures var h := PushTo(g, DayOf(x), x);
            Increasing(Keys(h)) && Flatten(Values(h)) == init + [x] && h != [] && h[|h| - 1].key == DayOf(x)
  {
    if g != [] && g[|g| - 1].key == DayOf(x) {
      PushSameDay(g, x);
    } else {
      PushLaterDay(g, x);
    }
  }

  lemma PushSameDay(g: JsMap<int, seq<Item>>, x: Item)
    requires Increasing(Keys(g)) && g != [] && g[|g| - 1].key == DayOf(x)
    ensures var h := PushTo(g, DayOf(x), x);
            Keys(h) == Keys(g) && Flatten(Values(h)) == Flatten(Values(g)) + [x]
  {
    var h, n := PushTo(g, DayOf(x), x), |g| - 1;
    var i := IndexOf(g, DayOf(x));
    assert forall j :: 0 <= j < |g| ==> Keys(g)[j] == g[j].key;
    assert i == n;
    var vs := Values(g)[..n];
    assert Values(g) == vs + [g[n].value];
    assert Values(h) == vs + [g[n].value + [x]];
    FlattenSnoc(vs, g[n].value);
    FlattenSnoc(vs, g[n].value + [x]);
    assert Keys(h) == Keys(g);
  }

  lemma PushLaterDay(g: JsMap<int, seq<Item>>, x: Item)
    requires Increasing(Keys(g)) && (g != [] ==> g[|g| - 1].key < DayOf(x))
    ensures var h := PushTo(g, DayOf(x), x);
            h == g + [Entry(DayOf(x), [x])] && Increasing(Keys(h))
            && Flatten(Values(h)) == Flatten(Values(g)) + [x]
  {
    var h := PushTo(g, DayOf(x), x);
    forall i | 0 <= i < |g| ensures Keys(g)[i] < DayOf(x) {
      assert Keys(g)[i] <= Keys(g)[|g| - 1];
    }
    assert forall j :: 0 <= j < |g| ==> Keys(g)[j] == g[j].key;
    assert IndexOf(g, DayOf(x)) < 0;
    assert Values(h) == Values(g) + [[x]];
    FlattenSnoc(Values(g), [x]);
    assert Keys(h) == Keys(g) + [DayOf(x)];
  }

  // ---- The final sort by date ----

  function InsertByDate(s: JsMap<int, seq<Item>>, e: Entry<int, seq<Item>>): JsMap<int, seq<Item>> {
    if s == [] || s[|s| - 1].key <= e.key then s + [e]
    else InsertByDate(s[..|s| - 1], e) + [s[|s| - 1]]
  }

  function SortByDate(s: JsMap<int, seq<Item>>): JsMap<int, seq<Item>> {
    if s == [] then [] else InsertByDate(SortByDate(s[..|s| - 1]), s[|s| - 1])
  }

  ghost predicate InDateOrder(s: JsMap<int, seq<Item>>) {
    forall i, j :: 0 <= i < j < |s| ==> s[i].key <= s[j].key
  }

  /** Whatever it is given, the last sort puts the buckets in date order and keeps
      each of them. */
  lemma {:induction false} SortByDateOrders(s: JsMap<int, seq<Item>>)
    ensures multiset(SortByDate(s)) == multiset(s) && InDateOrder(SortByDate(s))
  {
    if s != [] {
      var init := s[..|s| - 1];
      assert s == init + [s[|s| - 1]];
      SortByDateOrders(init);
      InsertByDateKeeps(SortByDate(init), s[|s| - 1]);
      InsertByDateOrders(SortByDate(init), s[|s| - 1]);
    }
  }

  lemma {:induction false} InsertByDateKeeps(s: JsMap<int, seq<Item>>, e: Entry<int, seq<Item>>)
    ensures multiset(InsertByDate(s, e)) == multiset(s) + multiset{e}
  {
    if s != [] && s[|s| - 1].key > e.key {
      InsertByDateKeeps(s[..|s| - 1], e);
      assert s == s[..|s| - 1] + [s[|s| - 1]];
    }
  }

  lemma {:induction false} InsertByDateOrders(s: JsMap<int, seq<Item>>, e: Entry<int, seq<Item>>)
    requires InDateOrder(s)
    ensures InDateOrder(InsertByDate(s, e))
  {
    if s != [] && s[|s| - 1].key > e.key {
      var init, last := s[..|s| - 1], s[|s| - 1];
      InsertByDateOrders(init, e);
      InsertByDateKeeps(init, e);
      var r := InsertByDate(init, e);
      forall i | 0 <= i < |r| ensures r[i].key <= last.key {
        assert r[i] in multiset(r);
        assert r[i] in init || r[i] == e;
      }
    }
  }

  lemma {:induction false} SortedByDateAlready(s: JsMap<int, seq<Item>>)
    requires Increasing(Keys(s))
    ensures SortByDate(s) == s
  {
    if s != [] {
      var init, e := s[..|s| - 1], s[|s| - 1];
      assert Keys(init) == Keys(s)[..|init|];
      SortedByDateAlready(init);
      assert InsertByDate(init, e) == init + [e] by {
        if init != [] { assert Keys(s)[|init| - 1] < Keys(s)[|init|]; }
      }
      assert s == init + [e];
    }
  }

  /** The institute day is monotone in time, so the last sort changes nothing. */
  lemma FinalSortIsIdentity(items: seq<Item>)
    ensures SortByDate(Grouped(SortByStart(items), DayOf)) == Grouped(SortByStart(items), DayOf)
  {
    SortOrders(items);
    StartOrderGivesDayOrder(SortByStart(items));
    OrderedGrouping(SortByStart(items));
    SortedByDateAlready(Grouped(SortByStart(items), DayOf));
  }

  // ---- The two algorithms ----

  function ItemsOf(groups: seq<DayGroup>): seq<seq<Item>> {
    seq(|groups|, i requires 0 <= i < |groups| => groups[i].items)
  }

  ghost predicate DatesIncrease(groups: seq<DayGroup>) {
    forall i, j :: 0 <= i < j < |groups| ==> groups[i].date < groups[j].date
  }

  ghost predicate IsOneDay(g: DayGroup) {
    g.items != [] && g.range == Hull(g.items) && forall x :: x in g.items ==> DayOf(x) == g.date
  }

  ghost predicate AllOneDay(groups: seq<DayGroup>) {
    forall i :: 0 <= i < |groups| ==> IsOneDay(groups[i])
  }

  /** What grouping by day promises: increasing dates, every group non-empty
      and on its date with the right range, and the groups in order spell the
      start-sorted input. */
  ghost predicate IsDayGrouping(items: seq<Item>, groups: seq<DayGroup>) {
    && DatesIncrease(groups)
    && AllOneDay(groups)
    && Flatten(ItemsOf(groups)) == SortByStart(items)
  }

  method ScanRange(dayItems: seq<Item>) returns (r: Range)
    requires dayItems != []
    ensures r == Hull(dayItems)
  {
    r := Range(dayItems[0].startAt, dayItems[0].endAt);
    for n := 0 to |dayItems|
      invariant n == 0 ==> r == Range(dayItems[0].startAt, dayItems[0].endAt)
      invariant n > 0 ==> r == Hull(dayItems[..n])
    {
      var item := dayItems[n];
      assert dayItems[..n + 1][..n] == dayItems[..n];
      if item.startAt < r.startAt { r := r.(startAt := item.startAt); }
      if item.endAt > r.endAt { r := r.(endAt := item.endAt); }
    }
    assert dayItems[..|dayItems|] == dayItems;
  }

  /** One entry of the day map with its scanned range. */
  function GroupOf(e: Entry<int, seq<Item>>): DayGroup
    requires e.value != []
  {
    DayGroup(e.key, Hull(e.value), e.value)
  }

  ghost predicate NoneEmpty(entries: JsMap<int, seq<Item>>) {
    forall i :: 0 <= i < |entries| ==> entries[i].value != []
  }

  ghost function GroupsOf(entries: JsMap<int, seq<Item>>): (r: seq<DayGroup>)
    requires NoneEmpty(entries)
    ensures |r| == |entries|
  {
    seq(|entries|, i requires 0 <= i < |entries| => GroupOf(entries[i]))
  }

  method ScanGroups(entries: JsMap<int, seq<Item>>) returns (groups: seq<DayGroup>)
    requires NoneEmpty(entries)
    ensures groups == GroupsOf(entries)
  {
    groups := [];
    for n := 0 to |entries|
      invariant groups == GroupsOf(entries)[..n]
    {
      var r := ScanRange(entries[n].value);
      groups := groups + [DayGroup(entries[n].key, r, entries[n].value)];
    }
  }

  method GroupByInstituteDay(items: seq<Item>) returns (groups: seq<DayGroup>)
    ensures IsDayGrouping(items, groups)
  {
    var sorted := SortByStart(items);
    var byDay := GroupItems(sorted, DayOf);
    FinalSortIsIdentity(items);
    GroupedNoneEmpty(sorted);
    groups := ScanGroups(SortByDate(byDay));
    EntriesFormGrouping(items);
  }

  lemma GroupedNoneEmpty(s: seq<Item>)
    ensures NoneEmpty(Grouped(s, DayOf))
  {
    forall n | 0 <= n < |Grouped(s, DayOf)| ensures Grouped(s, DayOf)[n].value != [] {
      GroupedNonEmpty(s, n);
    }
  }

  lemma EntriesFormGrouping(items: seq<Item>)
    requires NoneEmpty(Grouped(SortByStart(items), DayOf))
    ensures IsDayGrouping(items, GroupsOf(Grouped(SortByStart(items), DayOf)))
  {
    var sorted := SortByStart(items);
    SortOrders(items);
    StartOrderGivesDayOrder(sorted);
    OrderedGrouping(sorted);
    GroupsCarryEntries(Grouped(sorted, DayOf));
    OneDayGroups(sorted);
  }

  lemma GroupsCarryEntries(entries: JsMap<int, seq<Item>>)
    requires NoneEmpty(entries) && Increasing(Keys(entries))
    ensures DatesIncrease(GroupsOf(entries))
    ensures ItemsOf(GroupsOf(entries)) == Values(entries)
  {
    forall i | 0 <= i < |entries| ensures GroupsOf(entries)[i].date == Keys(entries)[i] {}
  }

  lemma OneDayGroups(s: seq<Item>)
    requires NoneEmpty(Grouped(s, DayOf))
    ensures AllOneDay(GroupsOf(Grouped(s, DayOf)))
  {
    var entries := Grouped(s, DayOf);
    forall i | 0 <= i < |entries| ensures IsOneDay(GroupsOf(entries)[i]) {
      assert GroupsOf(entries)[i] == GroupOf(entries[i]);
      GroupedNonEmpty(s, i);
    }
  }

  lemma GroupedNonEmpty(s: seq<Item>, n: nat)
    requires n < |Grouped(s, DayOf)|
    ensures var e := Grouped(s, DayOf)[n]; e.value != [] && forall x :: x in e.value ==> DayOf(x) == e.key
  {
    var e := Grouped(s, DayOf)[n];
    BucketMembers(s, DayOf, e.key);
    assert e.key in KeysOf(s, DayOf);
    var i :| 0 <= i < |s| && KeysOf(s, DayOf)[i] == e.key;
    assert s[i] in e.value;
  }

  ghost function DaysOf(items: seq<Item>): set<int> {
    set x | x in items :: DayOf(x)
  }

  ghost function DayHull(items: seq<Item>, d: int): Range {
    var b := Bucket(items, DayOf, d);
    if b == [] then Range(0, 0) else Hull(b)
  }

  /** The per-day hull of a list, as a map. */
  ghost function MergedTimes(items: seq<Item>): map<int, Range> {
    map d | d in DaysOf(items) :: DayHull(items, d)
  }

  lemma DayPresent(items: seq<Item>, d: int)
    ensures d in DaysOf(items) <==> Bucket(items, DayOf, d) != []
  {
    BucketMembers(items, DayOf, d);
    if d in DaysOf(items) {
      var x :| x in items && DayOf(x) == d;
      assert x in Bucket(items, DayOf, d);
    } else {
      EmptyBucket(items, DayOf, d);
    }
  }

  /** The record the map holds for a day; the loop changes it in place. */
  class MergedRange {
    var startAt: int
    var endAt: int

    constructor (startAt: int, endAt: int)
      ensures this.startAt == startAt && this.endAt == endAt
    {
      this.startAt, this.endAt := startAt, endAt;
    }

    ghost function Value(): Range
      reads this
    {
      Range(startAt, endAt)
    }

    method Include(session: Item)
      modifies this
      ensures Value() == Widen(old(Value()), session)
    {
      if session.startAt < startAt { startAt := session.startAt; }
      if session.endAt > endAt { endAt := session.endAt; }
    }
  }

  ghost predicate NoSharing(ranges: map<int, MergedRange>) {
    forall d, e :: d in ranges && e in ranges && d != e ==> ranges[d] != ranges[e]
  }

  ghost function Contents(ranges: map<int, MergedRange>): map<int, Range>
    reads ranges.Values
  {
    map d | d in ranges :: ranges[d].Value()
  }

  /** One session: a new record, or the day's record changed in place. */
  method MergeInto(ranges: map<int, MergedRange>, session: Item) returns (r: map<int, MergedRange>)
    requires NoSharing(ranges)
    modifies ranges.Values
    ensures NoSharing(r) && fresh(r.Values - ranges.Values)
    ensures Contents(r) == Grown(old(Contents(ranges)), session)
  {
    var date := DayOf(session);
    if date !in ranges {
      var current := new MergedRange(session.startAt, session.endAt);
      r := ranges[date := current];
      assert forall d :: d in ranges ==> r[d] == ranges[d] && r[d].Value() == old(ranges[d].Value());
    } else {
      r := ranges;
      ranges[date].Include(session);
      assert forall d :: d in ranges && d != date ==> ranges[d] != ranges[date];
      assert forall d :: d in ranges && d != date ==> ranges[d].Value() == old(ranges[d].Value());
    }
  }

  method MergedTimeByDate(sessions: seq<Item>) returns (ranges: map<int, MergedRange>)
    ensures fresh(ranges.Values) && NoSharing(ranges)
    ensures Contents(ranges) == MergedTimes(sessions)
  {
    ranges := map[];
    for n := 0 to |sessions|
      invariant fresh(ranges.Values) && NoSharing(ranges)
      invariant Contents(ranges) == MergedTimes(sessions[..n])
    {
      MergeOneMore(sessions[..n], sessions[n]);
      assert sessions[..n + 1] == sessions[..n] + [sessions[n]];
      ranges := MergeInto(ranges, sessions[n]);
    }
    assert sessions[..|sessions|] == sessions;
  }

  function Widen(r: Range, x: Item): Range {
    Range(if x.startAt < r.startAt then x.startAt else r.startAt, if x.endAt > r.endAt then x.endAt else r.endAt)
  }

  ghost function Grown(m: map<int, Range>, x: Item): map<int, Range> {
    m[DayOf(x) := if DayOf(x) !in m then Range(x.startAt, x.endAt) else Widen(m[DayOf(x)], x)]
  }

  lemma DayHullGrows(items: seq<Item>, x: Item, d: int)
    ensures DayHull(items + [x], d) ==
            if d != DayOf(x) then DayHull(items, d)
            else if d !in DaysOf(items) then Range(x.startAt, x.endAt)
            else Widen(DayHull(items, d), x)
  {
    BucketSnoc(items, x, DayOf, d);
    DayPresent(items, d);
    var b := Bucket(items, DayOf, d);
    assert (b + [x])[..|b|] == b;
  }

  lemma MergeOneMore(items: seq<Item>, x: Item)
    ensures MergedTimes(items + [x]) == Grown(MergedTimes(items), x)
  {
    assert DaysOf(items + [x]) == DaysOf(items) + {DayOf(x)};
    forall d | d in DaysOf(items + [x])
      ensures MergedTimes(items + [x])[d] == Grown(MergedTimes(items), x)[d]
    {
      DayHullGrows(items, x, d);
    }
  }

  // ---- What the two promise together ----

  /** The one-pass merge ignores the order of its input. */
  lemma MergeIgnoresOrder(a: seq<Item>, b: seq<Item>)
    requires multiset(a) == multiset(b)
    ensures MergedTimes(a) == MergedTimes(b)
  {
    assert forall x :: x in a <==> x in multiset(a);
    assert forall x :: x in b <==> x in multiset(b);
    assert DaysOf(a) == DaysOf(b);
    forall d | d in MergedTimes(a) ensures MergedTimes(a)[d] == MergedTimes(b)[d] {
      BucketIgnoresOrder(a, b, DayOf, d);
      DayPresent(a, d);
      HullByContents(Bucket(a, DayOf, d), Bucket(b, DayOf, d));
    }
  }

  function JoinRanges(p: Range, q: Range): Range {
    Range(if q.startAt < p.startAt then q.startAt else p.startAt, if q.endAt > p.endAt then q.endAt else p.endAt)
  }

  lemma {:induction false} HullOfConcat(a: seq<Item>, b: seq<Item>)
    requires a != [] && b != []
    ensures Hull(a + b) == JoinRanges(Hull(a), Hull(b))
  {
    var init := b[..|b| - 1];
    assert (a + b)[..|a + b| - 1] == a + init;
    if |b| == 1 {
      assert a + init == a;
    } else {
      HullOfConcat(a, init);
    }
  }

  lemma {:induction false} BucketOfConcat(a: seq<Item>, b: seq<Item>, d: int)
    ensures Bucket(a + b, DayOf, d) == Bucket(a, DayOf, d) + Bucket(b, DayOf, d)
  {
    if b == [] {
      assert a + b == a;
    } else {
      var init, x := b[..|b| - 1], b[|b| - 1];
      assert a + b == (a + init) + [x] && b == init + [x];
      BucketOfConcat(a, init, d);
      BucketSnoc(a + init, x, DayOf, d);
      BucketSnoc(init, x, DayOf, d);
    }
  }

  /** Merging two lists at once is the per-day hull of their two merges. */
  lemma MergeOfTwoLists(a: seq<Item>, b: seq<Item>)
    ensures var m, p, q := MergedTimes(a + b), MergedTimes(a), MergedTimes(b);
            && m.Keys == p.Keys + q.Keys
            && forall d :: d in m.Keys ==>
                 m[d] == if d !in q then p[d] else if d !in p then q[d] else JoinRanges(p[d], q[d])
  {
    var m, p, q := MergedTimes(a + b), MergedTimes(a), MergedTimes(b);
    assert DaysOf(a + b) == DaysOf(a) + DaysOf(b);
    forall d | d in m.Keys
      ensures m[d] == if d !in q then p[d] else if d !in p then q[d] else JoinRanges(p[d], q[d])
    {
      BucketOfConcat(a, b, d);
      DayPresent(a, d);
      DayPresent(b, d);
      var x, y := Bucket(a, DayOf, d), Bucket(b, DayOf, d);
      if d in p && d in q {
        HullOfConcat(x, y);
      } else if d in p {
        assert x + y == x;
      } else {
        assert x + y == y;
      }
    }
  }

  /** The items shown on date `d`. */
  function ShownOn(groups: seq<DayGroup>, d: int): seq<Item> {
    if groups == [] then []
    else
      var g := groups[|groups| - 1];
      ShownOn(groups[..|groups| - 1], d) + if g.date == d then g.items else []
  }

  lemma {:induction false} BucketOfGroups(groups: seq<DayGroup>, d: int)
    requires AllOneDay(groups)
    ensures Bucket(Flatten(ItemsOf(groups)), DayOf, d) == ShownOn(groups, d)
  {
    if groups == [] {
      assert Flatten(ItemsOf(groups)) == [];
    } else {
      var init, g := groups[..|groups| - 1], groups[|groups| - 1];
      assert IsOneDay(g);
      assert ItemsOf(groups) == ItemsOf(init) + [g.items];
      FlattenSnoc(ItemsOf(init), g.items);
      BucketOfGroups(init, d);
      BucketOfConcat(Flatten(ItemsOf(init)), g.items, d);
      OneDayBucket(g.items, g.date, d);
    }
  }

  lemma {:induction false} NothingShown(groups: seq<DayGroup>, d: int)
    requires forall i :: 0 <= i < |groups| ==> groups[i].date != d
    ensures ShownOn(groups, d) == []
  {
    if groups != [] { NothingShown(groups[..|groups| - 1], d); }
  }

  lemma {:induction false} ShownByItsGroup(groups: seq<DayGroup>, i: nat)
    requires DatesIncrease(groups) && i < |groups|
    ensures ShownOn(groups, groups[i].date) == groups[i].items
  {
    var init := groups[..|groups| - 1];
    if i == |groups| - 1 {
      NothingShown(init, groups[i].date);
    } else {
      ShownByItsGroup(init, i);
    }
  }

  lemma BucketOfGroup(items: seq<Item>, groups: seq<DayGroup>, i: nat)
    requires IsDayGrouping(items, groups) && i < |groups|
    ensures Bucket(SortByStart(items), DayOf, groups[i].date) == groups[i].items != []
  {
    assert IsOneDay(groups[i]);
    BucketOfGroups(groups, groups[i].date);
    ShownByItsGroup(groups, i);
  }

  lemma {:induction false} OneDayBucket(items: seq<Item>, date: int, d: int)
    requires forall x :: x in items ==> DayOf(x) == date
    ensures Bucket(items, DayOf, d) == if d == date then items else []
  {
    if items != [] {
      var init := items[..|items| - 1];
      assert items == init + [items[|items| - 1]];
      OneDayBucket(init, date, d);
    }
  }

  lemma DayHasGroup(items: seq<Item>, groups: seq<DayGroup>, d: int)
    requires IsDayGrouping(items, groups) && d in DaysOf(SortByStart(items))
    ensures exists i :: 0 <= i < |groups| && groups[i].date == d
  {
    DayPresent(SortByStart(items), d);
    BucketOfGroups(groups, d);
    if forall i :: 0 <= i < |groups| ==> groups[i].date != d {
      NothingShown(groups, d);
    }
  }

  /** The two algorithms agree: the same days, and on each day the same
      earliest start and latest end. */
  lemma DayMergesAgree(items: seq<Item>, groups: seq<DayGroup>, d: int)
    requires IsDayGrouping(items, groups)
    ensures d in MergedTimes(items) <==> exists i :: 0 <= i < |groups| && groups[i].date == d
    ensures forall i :: 0 <= i < |groups| && groups[i].date == d ==> MergedTimes(items)[d] == groups[i].range
  {
    SortOrders(items);
    MergeIgnoresOrder(SortByStart(items), items);
    if d in MergedTimes(items) {
      DayHasGroup(items, groups, d);
    }
    DayPresent(SortByStart(items), d);
    forall i | 0 <= i < |groups| && groups[i].date == d
      ensures d in MergedTimes(items) && MergedTimes(items)[d] == groups[i].range
    {
      BucketOfGroup(items, groups, i);
      assert IsOneDay(groups[i]);
    }
  }

  /** Inside a group the items are in start order, so the range starts with
      the first item. */
  lemma GroupStartsWithFirst(items: seq<Item>, groups: seq<DayGroup>, i: nat)
    requires IsDayGrouping(items, groups) && i < |groups|
    ensures groups[i].items != [] && InStartOrder(groups[i].items)
    ensures groups[i].range.startAt == groups[i].items[0].startAt
  {
    SortOrders(items);
    BucketOfGroup(items, groups, i);
    BucketInOrder(SortByStart(items), groups[i].date);
    HullIsHull(groups[i].items);
    assert IsOneDay(groups[i]);
  }

  lemma {:induction false} BucketInOrder(s: seq<Item>, d: int)
    requires InStartOrder(s)
    ensures InStartOrder(Bucket(s, DayOf, d))
  {
    if s != [] {
      var init := s[..|s| - 1];
      BucketInOrder(init, d);
      BucketMembers(init, DayOf, d);
      var b := Bucket(init, DayOf, d);
      assert s == init + [s[|s| - 1]];
      forall i | 0 <= i < |b| ensures b[i].startAt <= s[|s| - 1].startAt {
        assert b[i] in b;
      }
    }
  }
}
