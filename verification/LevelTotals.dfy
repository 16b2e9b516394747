/** The level summary: gap detection, per-group status and the totals that must
    agree with the parts (CourseLevelManagerPanel, utils/levels). */
module LevelTotals {
  import opened JsCollections
  import opened LevelManager
  import Text

  // ---- Gaps in one list of courses ----

  function Levels(courses: seq<Course>): seq<int> {
    if courses == [] then []
    else
      var last := courses[|courses| - 1];
      var r := Levels(courses[..|courses| - 1]);
      if last.level.Some? then r + [last.level.value] else r
  }

  ghost predicate Used(courses: seq<Course>, l: int) {
    exists c :: c in courses && c.level == Some(l)
  }

  lemma {:induction false} LevelsAreUsed(courses: seq<Course>, l: int)
    ensures l in Levels(courses) <==> Used(courses, l)
  {
    if courses != [] {
      var init, last := courses[..|courses| - 1], courses[|courses| - 1];
      assert courses == init + [last];
      LevelsAreUsed(init, l);
      assert last in courses;
    }
  }

  function Least(s: seq<int>): (m: int)
    requires s != []
    ensures m in s && forall x :: x in s ==> m <= x
  {
    if |s| == 1 then s[0]
    else
      var m := Least(s[1..]);
      assert s == [s[0]] + s[1..];
      if s[0] < m then s[0] else m
  }

  function Greatest(s: seq<int>): (m: int)
    requires s != []
    ensures m in s && forall x :: x in s ==> x <= m
  {
    if |s| == 1 then s[0]
    else
      var m := Greatest(s[1..]);
      assert s == [s[0]] + s[1..];
      if s[0] > m then s[0] else m
  }

  /** The numbers from lo up to, not including, hi that are not in s. */
  function Absent(s: seq<int>, lo: int, hi: int): seq<int>
    decreases hi - lo
  {
    if lo >= hi then []
    else
      var r := Absent(s, lo, hi - 1);
      if hi - 1 in s then r else r + [hi - 1]
  }

  lemma {:induction false} AbsentMembers(s: seq<int>, lo: int, hi: int, x: int)
    ensures x in Absent(s, lo, hi) <==> lo <= x < hi && x !in s
    decreases hi - lo
  {
    if lo < hi {
      AbsentMembers(s, lo, hi - 1, x);
    }
  }

  lemma {:induction false} AbsentIncreases(s: seq<int>, lo: int, hi: int)
    ensures Increasing(Absent(s, lo, hi))
    decreases hi - lo
  {
    if lo < hi {
      AbsentIncreases(s, lo, hi - 1);
      var r := Absent(s, lo, hi - 1);
      forall i | 0 <= i < |r| ensures r[i] < hi - 1 {
        AbsentMembers(s, lo, hi - 1, r[i]);
      }
      assert Increasing(r + [hi - 1]);
    }
  }

  /** The missing levels between the lowest and the highest one in use. */
  function Gaps(courses: seq<Course>): seq<int> {
    var ls := Levels(courses);
    if ls == [] then [] else Absent(ls, Least(ls), Greatest(ls))
  }

  function InsertInt(s: seq<int>, x: int): seq<int> {
    if s == [] || s[|s| - 1] <= x then s + [x] else InsertInt(s[..|s| - 1], x) + [s[|s| - 1]]
  }

  function SortInts(s: seq<int>): seq<int> {
    if s == [] then [] else InsertInt(SortInts(s[..|s| - 1]), s[|s| - 1])
  }

  lemma {:induction false} InsertIntSorts(s: seq<int>, x: int)
    requires forall i, j :: 0 <= i < j < |s| ==> s[i] <= s[j]
    ensures var r := InsertInt(s, x);
            |r| == |s| + 1 && (forall i, j :: 0 <= i < j < |r| ==> r[i] <= r[j])
            && forall y :: y in r <==> y in s || y == x
  {
    if s != [] && s[|s| - 1] > x {
      var init := s[..|s| - 1];
      assert s == init + [s[|s| - 1]];
      InsertIntSorts(init, x);
      var t := InsertInt(init, x);
      forall i | 0 <= i < |t| ensures t[i] <= s[|s| - 1] {
        assert t[i] in t;
      }
    }
  }

  lemma {:induction false} SortIntsSorts(s: seq<int>)
    ensures var r := SortInts(s);
            |r| == |s| && (forall i, j :: 0 <= i < j < |r| ==> r[i] <= r[j]) && forall y :: y in r <==> y in s
  {
    if s != [] {
      var init := s[..|s| - 1];
      assert s == init + [s[|s| - 1]];
      SortIntsSorts(init);
      InsertIntSorts(SortInts(init), s[|s| - 1]);
    }
  }

  lemma SortedEnds(all: seq<int>)
    requires all != []
    ensures |SortInts(all)| == |all|
    ensures SortInts(all)[0] == Least(all) && SortInts(all)[|all| - 1] == Greatest(all)
    ensures forall x :: x in SortInts(all) <==> x in all
  {
    var s := SortInts(all);
    SortIntsSorts(all);
    assert s[0] in all && s[|all| - 1] in all;
    assert Least(all) in s && Greatest(all) in s;
  }

  method DetectGaps(courses: seq<Course>) returns (gaps: seq<int>)
    ensures gaps == Gaps(courses)
  {
    var all := Levels(courses);
    var levels := SortInts(all);
    SortIntsSorts(all);
    gaps := [];
    if |levels| < 2 { return; }
    SortedEnds(all);
    var last := levels[|levels| - 1];
    for i := levels[0] to last
      invariant gaps == Absent(all, levels[0], i)
    {
      if i !in levels {
        gaps := gaps + [i];
      }
    }
  }

  ghost predicate UsedBelow(courses: seq<Course>, l: int) {
    exists c :: c in courses && c.level.Some? && c.level.value < l
  }

  ghost predicate UsedAbove(courses: seq<Course>, l: int) {
    exists c :: c in courses && c.level.Some? && c.level.value > l
  }

  lemma BelowLeast(courses: seq<Course>, l: int)
    ensures UsedBelow(courses, l) <==> Levels(courses) != [] && Least(Levels(courses)) < l
  {
    var ls := Levels(courses);
    if UsedBelow(courses, l) {
      var c :| c in courses && c.level.Some? && c.level.value < l;
      assert c.level == Some(c.level.value);
      LevelsAreUsed(courses, c.level.value);
    }
    if ls != [] {
      LevelsAreUsed(courses, Least(ls));
    }
  }

  lemma AboveGreatest(courses: seq<Course>, l: int)
    ensures UsedAbove(courses, l) <==> Levels(courses) != [] && Greatest(Levels(courses)) > l
  {
    var ls := Levels(courses);
    if UsedAbove(courses, l) {
      var c :| c in courses && c.level.Some? && c.level.value > l;
      assert c.level == Some(c.level.value);
      LevelsAreUsed(courses, c.level.value);
    }
    if ls != [] {
      LevelsAreUsed(courses, Greatest(ls));
    }
  }

  lemma GapsByEnds(courses: seq<Course>, l: int)
    ensures var ls := Levels(courses);
            l in Gaps(courses) <==> ls != [] && l !in ls && Least(ls) < l < Greatest(ls)
  {
    var ls := Levels(courses);
    if ls != [] {
      AbsentMembers(ls, Least(ls), Greatest(ls), l);
      assert Least(ls) in ls;
    }
  }

  /** A level is reported missing exactly when it is unused and lies between
      two used ones. */
  lemma GapsExact(courses: seq<Course>, l: int)
    ensures l in Gaps(courses) <==> !Used(courses, l) && UsedBelow(courses, l) && UsedAbove(courses, l)
  {
    BelowLeast(courses, l);
    AboveGreatest(courses, l);
    LevelsAreUsed(courses, l);
    GapsByEnds(courses, l);
  }

  lemma LastIsGreatest(s: seq<int>, x: int)
    requires Increasing(s) && x in s
    ensures x <= s[|s| - 1]
    ensures x in s[..|s| - 1] <==> x != s[|s| - 1]
  {
    var i :| 0 <= i < |s| && s[i] == x;
    if i < |s| - 1 {
      assert s[..|s| - 1][i] == x;
    }
  }

  lemma {:induction false} SameIncreasing(a: seq<int>, b: seq<int>)
    requires Increasing(a) && Increasing(b)
    requires forall x :: x in a <==> x in b
    ensures a == b
  {
    if a == [] {
      assert forall x :: x in b ==> x in a;
      NoMembers(b);
    } else {
      assert a[0] in a && a[0] in b;
      var a', b', x, y := a[..|a| - 1], b[..|b| - 1], a[|a| - 1], b[|b| - 1];
      assert x in a && y in b;
      LastIsGreatest(a, y);
      LastIsGreatest(b, x);
      forall z ensures z in a' <==> z in b' {
        if z in a { LastIsGreatest(a, z); }
        if z in b { LastIsGreatest(b, z); }
        assert z in a' ==> z in a;
        assert z in b' ==> z in b;
      }
      SameIncreasing(a', b');
      assert a == a' + [x] && b == b' + [y];
    }
  }

  lemma GapsIncrease(courses: seq<Course>)
    ensures Increasing(Gaps(courses))
  {
    var ls := Levels(courses);
    if ls != [] {
      AbsentIncreases(ls, Least(ls), Greatest(ls));
    }
  }

  /** Gap detection depends only on which courses there are, not on their order. */
  lemma GapsIgnoreOrder(a: seq<Course>, b: seq<Course>)
    requires multiset(a) == multiset(b)
    ensures Gaps(a) == Gaps(b)
  {
    assert forall c :: c in a ==> c in multiset(b);
    assert forall c :: c in b ==> c in multiset(a);
    assert forall c :: c in a <==> c in b;
    forall l ensures l in Gaps(a) <==> l in Gaps(b) {
      assert Used(a, l) <==> Used(b, l);
      assert UsedBelow(a, l) <==> UsedBelow(b, l);
      assert UsedAbove(a, l) <==> UsedAbove(b, l);
      GapsExact(a, l);
      GapsExact(b, l);
    }
    GapsIncrease(a);
    GapsIncrease(b);
    SameIncreasing(Gaps(a), Gaps(b));
  }

  // ---- Group status and summary ----

  datatype LevelStatus = Ready | Attention | Empty
  datatype GroupStatus = GroupStatus(status: LevelStatus, text: string, gaps: nat)
  datatype Summary = Summary(totalCourses: nat, levelled: nat, gaps: nat, notSet: nat)

  function CycleOf(c: Course): string { c.cycleId }
  function GroupOf(c: Course): Option<string> { c.groupId }

  function JointKey(c: Course): string {
    (if c.groupId.Some? then c.groupId.value else UNGROUPED_ID) + ":" + c.cycleId
  }

  function GapTotal(buckets: seq<seq<Course>>): nat {
    if buckets == [] then 0 else GapTotal(buckets[..|buckets| - 1]) + |Gaps(buckets[|buckets| - 1])|
  }

  method SumGaps(buckets: seq<seq<Course>>) returns (total: nat)
    ensures total == GapTotal(buckets)
  {
    total := 0;
    for n := 0 to |buckets|
      invariant total == GapTotal(buckets[..n])
    {
      var g := DetectGaps(buckets[n]);
      assert buckets[..n + 1][..n] == buckets[..n];
      total := total + |g|;
    }
    assert buckets[..|buckets|] == buckets;
  }

  method GetGroupStatus(courses: seq<Course>, hasSitInRule: bool) returns (s: GroupStatus)
    ensures s.status.Empty? <==> courses == []
    ensures s.gaps == GapTotal(Values(Grouped(courses, CycleOf)))
    ensures s.status.Ready? <==>
            && courses != [] && s.gaps == 0
            && (forall c :: c in courses ==> c.level.Some?)
            && hasSitInRule
    ensures s.text == "Rule needed" <==> !hasSitInRule && exists c :: c in courses && c.level.Some?
    ensures s.text == "Empty" <==> s.status.Empty?
    ensures s.text == "Ready" <==> s.status.Ready?
    ensures s.text in {"Empty", "Ready", "Rule needed", "Needs attention"}
  {
    if courses == [] {
      assert Values(Grouped(courses, CycleOf)) == [];
      return GroupStatus(Empty, "Empty", 0);
    }
    var cycles := GroupItems(courses, CycleOf);
    var gaps := SumGaps(Values(cycles));
    var hasUnset := exists c | c in courses :: c.level.None?;
    var hasLevel := exists c | c in courses :: c.level.Some?;
    assert courses[0] in courses;
    if hasLevel && !hasSitInRule { return GroupStatus(Attention, "Rule needed", gaps); }
    if hasUnset || gaps > 0 { return GroupStatus(Attention, "Needs attention", gaps); }
    return GroupStatus(Ready, "Ready", 0);
  }

  method GetSummary(courses: seq<Course>) returns (s: Summary)
    ensures s.totalCourses == |courses| == s.levelled + s.notSet
    ensures s.levelled == |Levels(courses)|
    ensures s.gaps == GapTotal(Values(Grouped(courses, JointKey)))
  {
    var cycles := GroupItems(courses, JointKey);
    var gaps := SumGaps(Values(cycles));
    var levelled := 0;
    for n := 0 to |courses|
      invariant levelled == |Levels(courses[..n])| <= n
    {
      assert courses[..n + 1][..n] == courses[..n];
      if courses[n].level.Some? { levelled := levelled + 1; }
    }
    assert courses[..|courses|] == courses;
    s := Summary(|courses|, levelled, gaps, |courses| - levelled);
  }

  // ---- The list a group shows ----

  predicate StringBefore(a: string, b: string) {
    if a == [] then true
    else if b == [] then false
    else if a[0] != b[0] then a[0] < b[0]
    else StringBefore(a[1..], b[1..])
  }

  /** Not after: by level, unset last, then by code. */
  predicate ComesBefore(a: Course, b: Course) {
    if a.level.None? && b.level.Some? then false
    else if a.level.Some? && b.level.None? then true
    else if a.level.Some? && b.level.Some? && a.level != b.level then a.level.value < b.level.value
    else StringBefore(a.code, b.code)
  }

  function InsertCourse(s: seq<Course>, x: Course): seq<Course> {
    if s == [] || ComesBefore(s[|s| - 1], x) then s + [x] else InsertCourse(s[..|s| - 1], x) + [s[|s| - 1]]
  }

  function SortCourses(s: seq<Course>): seq<Course> {
    if s == [] then [] else InsertCourse(SortCourses(s[..|s| - 1]), s[|s| - 1])
  }

  /** The courses of one entry of the group list, in display order. */
  function GroupCourses(courses: seq<Course>, groupId: string): seq<Course> {
    SortCourses(Bucket(courses, GroupOf, if groupId == UNGROUPED_ID then None else Some(groupId)))
  }

  lemma {:induction false} InsertCourseKeeps(s: seq<Course>, x: Course)
    ensures multiset(InsertCourse(s, x)) == multiset(s) + multiset{x}
  {
    if s != [] && !ComesBefore(s[|s| - 1], x) {
      InsertCourseKeeps(s[..|s| - 1], x);
      assert s == s[..|s| - 1] + [s[|s| - 1]];
    }
  }

  lemma {:induction false} SortCoursesKeeps(s: seq<Course>)
    ensures multiset(SortCourses(s)) == multiset(s)
  {
    if s != [] {
      SortCoursesKeeps(s[..|s| - 1]);
      InsertCourseKeeps(SortCourses(s[..|s| - 1]), s[|s| - 1]);
      assert s == s[..|s| - 1] + [s[|s| - 1]];
    }
  }

  /** Where two codes first differ the smaller character goes first; a code goes
      before those it begins. */
  lemma {:induction false} StringBeforeExactly(a: string, b: string, k: nat)
    ensures a <= b ==> StringBefore(a, b)
    ensures b < a ==> !StringBefore(a, b)
    ensures k < |a| && k < |b| && a[..k] == b[..k] && a[k] != b[k] ==> (StringBefore(a, b) <==> a[k] < b[k])
  {
    if a != [] && b != [] && a[0] == b[0] {
      assert a <= b <==> a[1..] <= b[1..];
      assert b < a <==> b[1..] < a[1..];
      if 0 < k < |a| && k < |b| && a[..k] == b[..k] {
        assert a[1..][..k - 1] == a[..k][1..] == b[..k][1..] == b[1..][..k - 1];
      }
      StringBeforeExactly(a[1..], b[1..], if k > 0 then k - 1 else 0);
    } else if k > 0 && k < |a| && k < |b| {
      assert a[..k][0] == a[0] && b[..k][0] == b[0];
    }
  }

  lemma {:induction false} StringBeforeOrders(a: string, b: string, c: string)
    ensures StringBefore(a, b) || StringBefore(b, a)
    ensures StringBefore(a, b) && StringBefore(b, c) ==> StringBefore(a, c)
  {
    if a != [] && b != [] {
      StringBeforeOrders(a[1..], b[1..], if c == [] then [] else c[1..]);
    }
  }

  /** Levelled courses by level, then those without; at one level by code. */
  predicate ListedBefore(a: Course, b: Course) {
    || (a.level.Some? && b.level.None?)
    || (a.level.Some? && b.level.Some? && a.level.value < b.level.value)
    || (a.level == b.level && StringBefore(a.code, b.code))
  }

  ghost predicate InListOrder(s: seq<Course>) {
    forall i, j :: 0 <= i < j < |s| ==> ListedBefore(s[i], s[j])
  }

  lemma ListedBeforeOrders(a: Course, b: Course, c: Course)
    ensures ListedBefore(a, b) || ListedBefore(b, a)
    ensures ListedBefore(a, b) && ListedBefore(b, c) ==> ListedBefore(a, c)
    ensures ComesBefore(a, b) <==> ListedBefore(a, b)
  {
    StringBeforeOrders(a.code, b.code, c.code);
  }

  lemma {:induction false} InsertCourseOrders(s: seq<Course>, x: Course)
    requires InListOrder(s)
    ensures InListOrder(InsertCourse(s, x))
  {
    if s != [] {
      var init, last := s[..|s| - 1], s[|s| - 1];
      ListedBeforeOrders(last, x, x);
      if ComesBefore(last, x) {
        forall i | 0 <= i < |s| ensures ListedBefore(s[i], x) { ListedBeforeOrders(s[i], last, x); }
      } else {
        InsertCourseOrders(init, x);
        var r := InsertCourse(init, x);
        InsertCourseKeeps(init, x);
        forall i | 0 <= i < |r| ensures ListedBefore(r[i], last) {
          assert r[i] in multiset(r);
          assert r[i] in init || r[i] == x;
        }
      }
    }
  }

  lemma {:induction false} SortCoursesOrders(s: seq<Course>)
    ensures InListOrder(SortCourses(s))
  {
    if s != [] {
      SortCoursesOrders(s[..|s| - 1]);
      InsertCourseOrders(SortCourses(s[..|s| - 1]), s[|s| - 1]);
    }
  }

  /** A group's list holds exactly its courses, each as often as the page has it, by
      level with the unset last and by code within a level. */
  lemma GroupListExactly(courses: seq<Course>, groupId: string, c: Course)
    ensures InListOrder(GroupCourses(courses, groupId))
    ensures multiset(GroupCourses(courses, groupId))[c] ==
      if c.groupId == (if groupId == UNGROUPED_ID then None else Some(groupId)) then multiset(courses)[c] else 0
  {
    var k := if groupId == UNGROUPED_ID then None else Some(groupId);
    SortCoursesOrders(Bucket(courses, GroupOf, k));
    SortCoursesKeeps(Bucket(courses, GroupOf, k));
    BucketCounts(courses, k, c);
  }

  lemma {:induction false} BucketCounts(courses: seq<Course>, k: Option<string>, c: Course)
    ensures multiset(Bucket(courses, GroupOf, k))[c] == if c.groupId == k then multiset(courses)[c] else 0
  {
    if courses != [] {
      var init, last := courses[..|courses| - 1], courses[|courses| - 1];
      BucketCounts(init, k, c);
      assert courses == init + [last];
    }
  }

  // ---- Totals agree with parts ----

  function OptionTotal(options: seq<GroupOption>): nat {
    if options == [] then 0 else options[0].courseCount + OptionTotal(options[1..])
  }

  function CountsOf(courses: seq<Course>, groups: seq<Group>): nat {
    if groups == [] then 0 else CountIn(courses, Some(groups[0].id)) + CountsOf(courses, groups[1..])
  }

  lemma {:induction false} CountsOfMatchOptions(p: Panel)
    ensures OptionTotal(GroupOptions(p)) == CountsOf(p.courses, p.groups) + CountIn(p.courses, None)
    decreases |p.groups|
  {
    if p.groups == [] {
      assert GroupOptions(p) == [GroupOption(UNGROUPED_ID, "Unassigned", CountIn(p.courses, None), true)];
    } else {
      var rest := p.(groups := p.groups[1..]);
      CountsOfMatchOptions(rest);
      assert GroupOptions(p)[1..] == GroupOptions(rest);
    }
  }

  lemma {:induction false} CountsWithoutCourses(groups: seq<Group>)
    ensures CountsOf([], groups) == 0
  {
    if groups != [] { CountsWithoutCourses(groups[1..]); }
  }

  lemma {:induction false} CountsWithFirst(courses: seq<Course>, groups: seq<Group>)
    requires courses != []
    requires forall i, j :: 0 <= i < j < |groups| ==> groups[i].id != groups[j].id
    ensures CountsOf(courses, groups) == CountsOf(courses[1..], groups)
            + if courses[0].groupId.Some? && FindGroup(groups, courses[0].groupId.value).Some? then 1 else 0
  {
    if groups != [] {
      CountsWithFirst(courses, groups[1..]);
    }
  }

  lemma {:induction false} CountsCoverCourses(courses: seq<Course>, groups: seq<Group>)
    requires forall i, j :: 0 <= i < j < |groups| ==> groups[i].id != groups[j].id
    requires forall c :: c in courses && c.groupId.Some? ==> FindGroup(groups, c.groupId.value).Some?
    ensures CountsOf(courses, groups) + CountIn(courses, None) == |courses|
  {
    if courses == [] {
      CountsWithoutCourses(groups);
    } else {
      assert courses[0] in courses;
      CountsWithFirst(courses, groups);
      CountsCoverCourses(courses[1..], groups);
    }
  }

  /** The counts shown in the group list add up to the number of courses. */
  lemma CountsAddUp(p: Panel)
    requires Consistent(p)
    ensures OptionTotal(GroupOptions(p)) == |p.courses|
  {
    CountsOfMatchOptions(p);
    forall c | c in p.courses && c.groupId.Some? ensures FindGroup(p.groups, c.groupId.value).Some? {
      assert CourseOk(c, p.groups);
    }
    CountsCoverCourses(p.courses, p.groups);
  }

  // ---- Gaps counted per place agree with gaps counted per joint key ----

  datatype Place = Place(group: Option<string>, cycle: string)

  function PlaceOf(c: Course): Place { Place(c.groupId, c.cycleId) }

  function PlaceGaps(courses: seq<Course>, pl: Place): nat {
    |Gaps(Bucket(courses, PlaceOf, pl))|
  }

  function PlaceSum(places: seq<Place>, courses: seq<Course>): nat {
    if places == [] then 0
    else PlaceSum(places[..|places| - 1], courses) + PlaceGaps(courses, places[|places| - 1])
  }

  lemma {:induction false} PlaceSumConcat(a: seq<Place>, b: seq<Place>, courses: seq<Course>)
    ensures PlaceSum(a + b, courses) == PlaceSum(a, courses) + PlaceSum(b, courses)
  {
    if b == [] {
      assert a + b == a;
    } else {
      assert (a + b)[..|a + b| - 1] == a + b[..|b| - 1];
      PlaceSumConcat(a, b[..|b| - 1], courses);
    }
  }

  lemma PlaceSumWithout(b: seq<Place>, j: nat, courses: seq<Course>)
    requires j < |b|
    ensures PlaceSum(b, courses) == PlaceSum(b[..j] + b[j + 1..], courses) + PlaceGaps(courses, b[j])
  {
    var l, r := b[..j], b[j + 1..];
    assert b == l + [b[j]] + r;
    PlaceSumConcat(l + [b[j]], r, courses);
    PlaceSumConcat(l, r, courses);
    assert (l + [b[j]])[..j] == l;
  }

  /** The sum over distinct places depends only on which places there are. */
  lemma {:induction false} PlaceSumIgnoresOrder(a: seq<Place>, b: seq<Place>, courses: seq<Course>)
    requires Distinct(a) && Distinct(b)
    requires forall x :: x in a <==> x in b
    ensures PlaceSum(a, courses) == PlaceSum(b, courses)
  {
    if a == [] {
      assert forall x :: x in b ==> x in a;
      NoMembers(b);
    } else {
      var n := |a| - 1;
      assert a[n] in a && a[n] in b;
      var j :| 0 <= j < |b| && b[j] == a[n];
      DistinctWithout(a, n);
      DistinctWithout(b, j);
      var a', b' := a[..n], b[..j] + b[j + 1..];
      assert a[..n] + a[n + 1..] == a';
      assert forall x :: x in a' <==> x in a && x != a[n];
      PlaceSumIgnoresOrder(a', b', courses);
      PlaceSumWithout(b, j, courses);
    }
  }

  lemma {:induction false} TotalByPlaces(buckets: seq<seq<Course>>, places: seq<Place>, courses: seq<Course>)
    requires |buckets| == |places|
    requires forall i :: 0 <= i < |places| ==> |Gaps(buckets[i])| == PlaceGaps(courses, places[i])
    ensures GapTotal(buckets) == PlaceSum(places, courses)
  {
    if places != [] {
      TotalByPlaces(buckets[..|places| - 1], places[..|places| - 1], courses);
    }
  }

  function JointOf(pl: Place): string {
    (if pl.group.Some? then pl.group.value else UNGROUPED_ID) + ":" + pl.cycle
  }

  ghost predicate PlainGroup(pl: Place) {
    pl.group.Some? ==> ':' !in pl.group.value && pl.group.value != UNGROUPED_ID
  }

  lemma JointIsInjective(p: Place, q: Place)
    requires PlainGroup(p) && PlainGroup(q)
    ensures JointOf(p) == JointOf(q) <==> p == q
  {
    var a := if p.group.Some? then p.group.value else UNGROUPED_ID;
    var b := if q.group.Some? then q.group.value else UNGROUPED_ID;
    assert JointOf(p) == a + [':'] + p.cycle && JointOf(q) == b + [':'] + q.cycle;
    if JointOf(p) == JointOf(q) {
      Text.SplitAtSeparator(a, b, p.cycle, q.cycle, ':');
    }
  }

  lemma {:induction false} JointBucket(courses: seq<Course>, pl: Place)
    requires PlainGroup(pl) && forall c :: c in courses ==> PlainGroup(PlaceOf(c))
    ensures Bucket(courses, JointKey, JointOf(pl)) == Bucket(courses, PlaceOf, pl)
  {
    if courses != [] {
      var init, c := courses[..|courses| - 1], courses[|courses| - 1];
      assert courses == init + [c] && c in courses;
      JointBucket(init, pl);
      JointIsInjective(PlaceOf(c), pl);
    }
  }

  lemma {:induction false} JointFirsts(courses: seq<Course>)
    requires forall c :: c in courses ==> PlainGroup(PlaceOf(c))
    ensures Firsts(KeysOf(courses, JointKey)) == KeysOf(Firsts(KeysOf(courses, PlaceOf)), JointOf)
  {
    if courses == [] {
      assert KeysOf(courses, PlaceOf) == [] && KeysOf(courses, JointKey) == [];
    } else {
      var init, c := courses[..|courses| - 1], courses[|courses| - 1];
      assert courses == init + [c] && c in courses;
      JointFirsts(init);
      var ps, js := KeysOf(init, PlaceOf), KeysOf(init, JointKey);
      assert KeysOf(courses, PlaceOf) == ps + [PlaceOf(c)];
      assert KeysOf(courses, JointKey) == js + [JointKey(c)];
      FirstsSnoc(ps, PlaceOf(c));
      FirstsSnoc(js, JointKey(c));
      JointSeen(init, c);
      JointOfSnoc(Firsts(ps), PlaceOf(c));
    }
  }

  lemma JointOfSnoc(places: seq<Place>, pl: Place)
    ensures KeysOf(places + [pl], JointOf) == KeysOf(places, JointOf) + [JointOf(pl)]
  {}

  lemma JointSeen(courses: seq<Course>, c: Course)
    requires PlainGroup(PlaceOf(c)) && forall d :: d in courses ==> PlainGroup(PlaceOf(d))
    ensures JointKey(c) in KeysOf(courses, JointKey) <==> PlaceOf(c) in KeysOf(courses, PlaceOf)
  {
    forall i | 0 <= i < |courses|
      ensures KeysOf(courses, JointKey)[i] == JointKey(c) <==> KeysOf(courses, PlaceOf)[i] == PlaceOf(c)
    {
      assert courses[i] in courses;
      JointIsInjective(PlaceOf(courses[i]), PlaceOf(c));
    }
  }

  lemma SummaryByPlaces(courses: seq<Course>)
    requires forall c :: c in courses ==> PlainGroup(PlaceOf(c))
    ensures GapTotal(Values(Grouped(courses, JointKey))) == PlaceSum(Firsts(KeysOf(courses, PlaceOf)), courses)
  {
    var places := Firsts(KeysOf(courses, PlaceOf));
    var buckets := Values(Grouped(courses, JointKey));
    JointFirsts(courses);
    forall i | 0 <= i < |places| ensures |Gaps(buckets[i])| == PlaceGaps(courses, places[i]) {
      assert places[i] in KeysOf(courses, PlaceOf);
      assert exists n :: 0 <= n < |courses| && PlaceOf(courses[n]) == places[i];
      JointBucket(courses, places[i]);
      assert buckets[i] == Bucket(courses, JointKey, JointOf(places[i]));
    }
    TotalByPlaces(buckets, places, courses);
  }

  lemma {:induction false} BucketOfBucket(courses: seq<Course>, g: Option<string>, cycle: string)
    ensures Bucket(Bucket(courses, GroupOf, g), CycleOf, cycle) == Bucket(courses, PlaceOf, Place(g, cycle))
  {
    if courses != [] {
      var init, c := courses[..|courses| - 1], courses[|courses| - 1];
      BucketOfBucket(init, g, cycle);
      if GroupOf(c) == g {
        BucketSnoc(Bucket(init, GroupOf, g), c, CycleOf, cycle);
      }
    }
  }

  /** The places of one group's shown courses, one per cycle. */
  function PlacesOfGroup(shown: seq<Course>, g: Option<string>): (r: seq<Place>)
    ensures Distinct(r)
    ensures forall pl :: pl in r <==> pl.group == g && pl.cycle in KeysOf(shown, CycleOf)
  {
    var cycles := Firsts(KeysOf(shown, CycleOf));
    var r := seq(|cycles|, i requires 0 <= i < |cycles| => Place(g, cycles[i]));
    assert forall i :: 0 <= i < |cycles| ==> r[i] == Place(g, cycles[i]) && cycles[i] in cycles;
    assert forall pl: Place :: pl.group == g && pl.cycle in cycles ==> pl in r by {
      forall pl: Place | pl.group == g && pl.cycle in cycles ensures pl in r {
        var i :| 0 <= i < |cycles| && cycles[i] == pl.cycle;
        assert r[i] == pl;
      }
    }
    r
  }

  lemma GroupByPlaces(courses: seq<Course>, groupId: string, g: Option<string>)
    requires g == if groupId == UNGROUPED_ID then None else Some(groupId)
    ensures var shown := GroupCourses(courses, groupId);
            GapTotal(Values(Grouped(shown, CycleOf))) == PlaceSum(PlacesOfGroup(shown, g), courses)
  {
    var mine := Bucket(courses, GroupOf, g);
    var shown := GroupCourses(courses, groupId);
    SortCoursesKeeps(mine);
    var cycles := Firsts(KeysOf(shown, CycleOf));
    var places, buckets := PlacesOfGroup(shown, g), Values(Grouped(shown, CycleOf));
    forall i | 0 <= i < |places| ensures |Gaps(buckets[i])| == PlaceGaps(courses, places[i]) {
      assert places[i] == Place(g, cycles[i]) && buckets[i] == Bucket(shown, CycleOf, cycles[i]);
      SameGapsInPlace(courses, shown, g, cycles[i]);
    }
    TotalByPlaces(buckets, places, courses);
  }

  lemma SameGapsInPlace(courses: seq<Course>, shown: seq<Course>, g: Option<string>, cycle: string)
    requires multiset(shown) == multiset(Bucket(courses, GroupOf, g))
    ensures |Gaps(Bucket(shown, CycleOf, cycle))| == PlaceGaps(courses, Place(g, cycle))
  {
    var mine := Bucket(courses, GroupOf, g);
    BucketIgnoresOrder(shown, mine, CycleOf, cycle);
    BucketOfBucket(courses, g, cycle);
    GapsIgnoreOrder(Bucket(shown, CycleOf, cycle), Bucket(mine, CycleOf, cycle));
  }

  lemma KeyPresent<T(!new), K(!new)>(items: seq<T>, key: T -> K, k: K)
    ensures k in KeysOf(items, key) <==> exists x :: x in items && key(x) == k
  {
    if k in KeysOf(items, key) {
      var n :| 0 <= n < |items| && KeysOf(items, key)[n] == k;
      assert items[n] in items;
    }
    if x :| x in items && key(x) == k {
      var n :| 0 <= n < |items| && items[n] == x;
      assert KeysOf(items, key)[n] == k;
    }
  }

  lemma GroupPlaces(courses: seq<Course>, groupId: string, g: Option<string>, pl: Place)
    requires g == if groupId == UNGROUPED_ID then None else Some(groupId)
    ensures pl in PlacesOfGroup(GroupCourses(courses, groupId), g)
            <==> pl.group == g && pl in KeysOf(courses, PlaceOf)
  {
    var mine := Bucket(courses, GroupOf, g);
    var shown := GroupCourses(courses, groupId);
    SortCoursesKeeps(mine);
    BucketMembers(courses, GroupOf, g);
    assert forall c :: c in shown <==> c in multiset(shown);
    assert forall c :: c in mine <==> c in multiset(mine);
    KeyPresent(shown, CycleOf, pl.cycle);
    KeyPresent(courses, PlaceOf, pl);
  }

  /** The gap counts the group list shows, added up. */
  function ShownGaps(courses: seq<Course>, options: seq<GroupOption>): nat {
    if options == [] then 0
    else GapTotal(Values(Grouped(GroupCourses(courses, options[0].id), CycleOf))) + ShownGaps(courses, options[1..])
  }

  function OptionGroup(o: GroupOption): Option<string> {
    if o.id == UNGROUPED_ID then None else Some(o.id)
  }

  /** The places the listed options show. */
  ghost predicate ShownPlace(courses: seq<Course>, options: seq<GroupOption>, pl: Place) {
    pl in KeysOf(courses, PlaceOf) && exists i :: 0 <= i < |options| && OptionGroup(options[i]) == pl.group
  }

  lemma ShownPlaceFirst(courses: seq<Course>, options: seq<GroupOption>, pl: Place)
    requires options != []
    ensures ShownPlace(courses, options, pl) <==>
            (pl in KeysOf(courses, PlaceOf) && pl.group == OptionGroup(options[0])) || ShownPlace(courses, options[1..], pl)
  {
    var rest := options[1..];
    if ShownPlace(courses, options, pl) && pl.group != OptionGroup(options[0]) {
      var i :| 0 <= i < |options| && OptionGroup(options[i]) == pl.group;
      assert rest[i - 1] == options[i];
    }
    if ShownPlace(courses, rest, pl) {
      var i :| 0 <= i < |rest| && OptionGroup(rest[i]) == pl.group;
      assert options[i + 1] == rest[i];
    }
  }

  lemma DistinctConcat(a: seq<Place>, b: seq<Place>)
    requires Distinct(a) && Distinct(b) && forall x :: x in a ==> x !in b
    ensures Distinct(a + b)
  {
    forall i, j | 0 <= i < |a| && 0 <= j < |b| ensures a[i] != b[j] {
      assert a[i] in a && b[j] in b;
    }
  }

  lemma OtherOptionsElsewhere(courses: seq<Course>, options: seq<GroupOption>, pl: Place)
    requires options != [] && forall i, j :: 0 <= i < j < |options| ==> options[i].id != options[j].id
    requires ShownPlace(courses, options[1..], pl)
    ensures pl.group != OptionGroup(options[0])
  {
    var i :| 0 <= i < |options| - 1 && OptionGroup(options[1..][i]) == pl.group;
    assert options[1..][i] == options[i + 1];
    assert options[0].id != options[i + 1].id;
  }

  lemma {:induction false} ShownByPlaces(courses: seq<Course>, options: seq<GroupOption>) returns (places: seq<Place>)
    requires forall i, j :: 0 <= i < j < |options| ==> options[i].id != options[j].id
    ensures ShownGaps(courses, options) == PlaceSum(places, courses) && Distinct(places)
    ensures forall pl :: pl in places <==> ShownPlace(courses, options, pl)
  {
    if options == [] {
      return [];
    }
    var g, rest := OptionGroup(options[0]), options[1..];
    var here := PlacesOfGroup(GroupCourses(courses, options[0].id), g);
    GroupByPlaces(courses, options[0].id, g);
    var others := ShownByPlaces(courses, rest);
    places := here + others;
    forall pl ensures pl in places <==> ShownPlace(courses, options, pl)
              ensures pl in here ==> pl !in others {
      GroupPlaces(courses, options[0].id, g, pl);
      ShownPlaceFirst(courses, options, pl);
      if ShownPlace(courses, rest, pl) { OtherOptionsElsewhere(courses, options, pl); }
    }
    DistinctConcat(here, others);
    PlaceSumConcat(here, others, courses);
  }

  lemma OptionsCoverCourses(p: Panel, c: Course)
    requires Consistent(p) && c in p.courses && forall g :: g in p.groups ==> ':' !in g.id
    ensures PlainGroup(PlaceOf(c))
    ensures exists o :: o in GroupOptions(p) && OptionGroup(o) == c.groupId
  {
    var options := GroupOptions(p);
    assert CourseOk(c, p.groups);
    if c.groupId.Some? {
      var g := FindGroup(p.groups, c.groupId.value).value;
      var i :| 0 <= i < |p.groups| && p.groups[i] == g;
      assert options[i].id == g.id && options[i] in options;
    } else {
      assert options[|p.groups|] in options;
    }
  }

  lemma OptionsDistinct(p: Panel)
    requires Consistent(p)
    ensures var options := GroupOptions(p);
            forall i, j :: 0 <= i < j < |options| ==> options[i].id != options[j].id
  {
    assert forall i :: 0 <= i < |p.groups| ==> p.groups[i] in p.groups;
  }

  /** The gaps the group list shows add up to the gaps of the summary, although
      one groups by group then cycle and the other by a joint text key. */
  lemma GapsAddUp(p: Panel)
    requires Consistent(p) && forall g :: g in p.groups ==> ':' !in g.id
    ensures ShownGaps(p.courses, GroupOptions(p)) == GapTotal(Values(Grouped(p.courses, JointKey)))
  {
    forall c | c in p.courses
      ensures PlainGroup(PlaceOf(c)) && exists o :: o in GroupOptions(p) && OptionGroup(o) == c.groupId
    {
      OptionsCoverCourses(p, c);
    }
    OptionsDistinct(p);
    SummaryByPlaces(p.courses);
    var places := ShownByPlaces(p.courses, GroupOptions(p));
    forall pl ensures pl in places <==> pl in Firsts(KeysOf(p.courses, PlaceOf)) {
      KeyPresent(p.courses, PlaceOf, pl);
      if pl in KeysOf(p.courses, PlaceOf) {
        var o :| o in GroupOptions(p) && OptionGroup(o) == pl.group;
        var i :| 0 <= i < |GroupOptions(p)| && GroupOptions(p)[i] == o;
        assert ShownPlace(p.courses, GroupOptions(p), pl);
      }
    }
    PlaceSumIgnoresOrder(places, Firsts(KeysOf(p.courses, PlaceOf)), p.courses);
  }
}
