/** The course level manager: courses, course groups and the actions that keep
    them consistent (CourseLevelManagerPanel). */
module LevelManager {
  import opened JsCollections
  import opened Text

  const UNGROUPED_ID := "__ungrouped__"

  datatype Course = Course(
    id: string, code: string, level: Option<int>, cycleId: string,
    groupId: Option<string>, groupName: Option<string>)

  datatype Group = Group(id: string, name: string, courseCount: int, ruleId: Option<string>)

  /** The panel's data between two actions. */
  datatype Panel = Panel(courses: seq<Course>, groups: seq<Group>, selectedGroupId: string)

  /** What the user typed into a level field, after `Number`. */
  datatype RawLevel = Blank | NotANumber | Number(value: real)

  datatype GroupOption = GroupOption(id: string, name: string, courseCount: nat, virtual: bool)

  datatype Action =
    | SaveLevel(course: Course, raw: RawLevel, accepted: bool)
    | SaveRule(ruleId: Option<string>, accepted: bool)
    | CreateGroup(rawName: string, created: Option<Group>)
    | RenameGroup(groupId: string, rawName: string, accepted: bool)
    | DeleteGroup(groupId: string, confirmed: bool, accepted: bool)
    | AssignCourse(courseId: string, accepted: bool)
    | MoveCourse(course: Course, groupId: string, accepted: bool)
    | SelectGroup(groupId: string)

  predicate Truthy(s: Option<string>) {
    s.Some? && s.value != ""
  }

  /** None when the text is refused, otherwise the level to store. */
  function ParseLevel(raw: RawLevel): Option<Option<int>> {
    match raw
    case Blank => Some(None)
    case NotANumber => None
    case Number(v) => if v.Floor as real == v && v >= 1.0 then Some(Some(v.Floor)) else None
  }

  // ---- Looking things up ----

  function FindGroup(groups: seq<Group>, id: string): (r: Option<Group>)
    ensures r.Some? ==> r.value in groups && r.value.id == id
    ensures r.None? ==> forall g :: g in groups ==> g.id != id
  {
    if groups == [] then None
    else if groups[0].id == id then Some(groups[0])
    else FindGroup(groups[1..], id)
  }

  function FindCourse(courses: seq<Course>, id: string): (r: Option<Course>)
    ensures r.Some? ==> r.value in courses && r.value.id == id
  {
    if courses == [] then None
    else if courses[0].id == id then Some(courses[0])
    else FindCourse(courses[1..], id)
  }

  function CountIn(courses: seq<Course>, groupId: Option<string>): nat {
    if courses == [] then 0
    else (if courses[0].groupId == groupId then 1 else 0) + CountIn(courses[1..], groupId)
  }

  function GroupOptions(p: Panel): (r: seq<GroupOption>)
    ensures |r| == |p.groups| + 1
  {
    seq(|p.groups|, i requires 0 <= i < |p.groups| =>
      GroupOption(p.groups[i].id, p.groups[i].name, CountIn(p.courses, Some(p.groups[i].id)), false))
    + [GroupOption(UNGROUPED_ID, "Unassigned", CountIn(p.courses, None), true)]
  }

  function FindOption(options: seq<GroupOption>, id: string): Option<GroupOption> {
    if options == [] then None
    else if options[0].id == id then Some(options[0])
    else FindOption(options[1..], id)
  }

  function SelectedGroup(p: Panel): GroupOption {
    var found := FindOption(GroupOptions(p), p.selectedGroupId);
    if found.Some? then found.value else GroupOptions(p)[0]
  }

  function SelectedRootGroup(p: Panel): Option<Group> {
    if SelectedGroup(p).virtual then None else FindGroup(p.groups, SelectedGroup(p).id)
  }

  // ---- The updates each action sends to the lists ----

  function SetLevel(courses: seq<Course>, id: string, level: Option<int>): seq<Course> {
    seq(|courses|, i requires 0 <= i < |courses| =>
      if courses[i].id == id then courses[i].(level := level) else courses[i])
  }

  function SetGroup(courses: seq<Course>, id: string, groupId: Option<string>, name: Option<string>): seq<Course> {
    seq(|courses|, i requires 0 <= i < |courses| =>
      if courses[i].id == id then courses[i].(groupId := groupId, groupName := name) else courses[i])
  }

  function Relabel(courses: seq<Course>, groupId: string, toId: Option<string>, toName: Option<string>): seq<Course> {
    seq(|courses|, i requires 0 <= i < |courses| =>
      if courses[i].groupId == Some(groupId) then courses[i].(groupId := toId, groupName := toName) else courses[i])
  }

  function SetRule(groups: seq<Group>, id: string, ruleId: string): seq<Group> {
    seq(|groups|, i requires 0 <= i < |groups| =>
      if groups[i].id == id then groups[i].(ruleId := Some(ruleId)) else groups[i])
  }

  function SetName(groups: seq<Group>, id: string, name: string): seq<Group> {
    seq(|groups|, i requires 0 <= i < |groups| =>
      if groups[i].id == id then groups[i].(name := name) else groups[i])
  }

  function RemoveGroup(groups: seq<Group>, id: string): seq<Group> {
    if groups == [] then []
    else (if groups[0].id == id then [] else [groups[0]]) + RemoveGroup(groups[1..], id)
  }

  // ---- The actions, each run to completion ----

  predicate LevelAllowed(p: Panel, course: Course, level: Option<int>) {
    var g := if Truthy(course.groupId) then FindGroup(p.groups, course.groupId.value) else None;
    !(level.Some? && g.Some? && !Truthy(g.value.ruleId))
  }

  predicate MoveAllowed(p: Panel, course: Course, groupId: string) {
    var g := FindGroup(p.groups, groupId);
    !(course.level.Some? && g.Some? && !Truthy(g.value.ruleId))
  }

  function MoveTo(p: Panel, course: Course, groupId: string): Panel {
    var g := FindGroup(p.groups, groupId);
    p.(courses := SetGroup(p.courses, course.id,
                           if groupId == "" then None else Some(groupId),
                           if g.Some? then Some(g.value.name) else None))
  }

  function Apply(p: Panel, a: Action): Panel {
    match a
    case SaveLevel(course, raw, accepted) =>
      var level := ParseLevel(raw);
      if level.None? || !LevelAllowed(p, course, level.value) || !accepted then p
      else p.(courses := SetLevel(p.courses, course.id, level.value))
    case SaveRule(ruleId, accepted) =>
      var g := SelectedRootGroup(p);
      if g.None? || !Truthy(ruleId) || !accepted then p
      else p.(groups := SetRule(p.groups, g.value.id, ruleId.value))
    case CreateGroup(rawName, created) =>
      if Trim(rawName) == "" || created.None? then p
      else p.(groups := p.groups + [created.value], selectedGroupId := created.value.id)
    case RenameGroup(groupId, rawName, accepted) =>
      var name := Trim(rawName);
      if name == "" || !accepted then p
      else p.(groups := SetName(p.groups, groupId, name),
              courses := Relabel(p.courses, groupId, Some(groupId), Some(name)))
    case DeleteGroup(groupId, confirmed, accepted) =>
      if !confirmed || !accepted then p
      else Panel(Relabel(p.courses, groupId, None, None), RemoveGroup(p.groups, groupId), UNGROUPED_ID)
    case AssignCourse(courseId, accepted) =>
      var target, course := SelectedGroup(p), FindCourse(p.courses, courseId);
      if target.virtual || course.None? || course.value.groupId == Some(target.id) then p
      else
        var root := SelectedRootGroup(p);
        if course.value.level.Some? && !(root.Some? && Truthy(root.value.ruleId)) then p
        else if !accepted then p
        else p.(courses := SetGroup(p.courses, course.value.id, Some(target.id), Some(target.name)))
    case MoveCourse(course, groupId, accepted) =>
      var next := if groupId == "" then None else Some(groupId);
      if course.groupId == next || !MoveAllowed(p, course, groupId) || !accepted then p
      else MoveTo(p, course, groupId)
    case SelectGroup(groupId) => p.(selectedGroupId := groupId)
  }

  function Run(p: Panel, actions: seq<Action>): Panel {
    if actions == [] then p else Apply(Run(p, actions[..|actions| - 1]), actions[|actions| - 1])
  }

  // ---- The invariant ----

  ghost predicate CourseOk(c: Course, groups: seq<Group>) {
    && (c.level.Some? ==> c.level.value >= 1)
    && (c.groupId.None? ==> c.groupName.None?)
    && (c.groupId.Some? ==>
          var g := FindGroup(groups, c.groupId.value);
          && g.Some?
          && c.groupName == Some(g.value.name)
          && (c.level.Some? ==> Truthy(g.value.ruleId)))
  }

  /** Every levelled, grouped course lies in an existing group with a sit-in
      rule and shows that group's current name; levels are unset or at least 1. */
  ghost predicate Consistent(p: Panel) {
    && (forall i, j :: 0 <= i < j < |p.courses| ==> p.courses[i].id != p.courses[j].id)
    && (forall i, j :: 0 <= i < j < |p.groups| ==> p.groups[i].id != p.groups[j].id)
    && (forall g :: g in p.groups ==> g.id != "" && g.id != UNGROUPED_ID)
    && (forall c :: c in p.courses ==> CourseOk(c, p.groups))
  }

  /** What the page lets the user do: act on a listed course, move it to a
      listed group or to none; the server names new groups with fresh ids. */
  ghost predicate Offered(p: Panel, a: Action) {
    match a
    case SaveLevel(course, _, _) => course in p.courses
    case MoveCourse(course, groupId, _) => course in p.courses && (groupId == "" || FindGroup(p.groups, groupId).Some?)
    case CreateGroup(_, created) => created.Some? ==>
      FindGroup(p.groups, created.value.id).None? && created.value.id != "" && created.value.id != UNGROUPED_ID
    case _ => true
  }

  ghost predicate OfferedRun(p: Panel, actions: seq<Action>) {
    forall n :: 0 <= n < |actions| ==> Offered(Run(p, actions[..n]), actions[n])
  }

  lemma FindIsUnique(groups: seq<Group>, g: Group)
    requires forall i, j :: 0 <= i < j < |groups| ==> groups[i].id != groups[j].id
    requires g in groups
    ensures FindGroup(groups, g.id) == Some(g)
  {
    var f := FindGroup(groups, g.id);
    var i :| 0 <= i < |groups| && groups[i] == g;
    var j :| 0 <= j < |groups| && groups[j] == f.value;
    assert i == j;
  }

  lemma {:induction false} FindAfterSetRule(groups: seq<Group>, id: string, rule: string, k: string)
    ensures FindGroup(SetRule(groups, id, rule), k) ==
            match FindGroup(groups, k)
            case None => None
            case Some(g) => Some(if g.id == id then g.(ruleId := Some(rule)) else g)
  {
    if groups != [] {
      FindAfterSetRule(groups[1..], id, rule, k);
      assert SetRule(groups, id, rule)[1..] == SetRule(groups[1..], id, rule);
    }
  }

  lemma {:induction false} FindAfterSetName(groups: seq<Group>, id: string, name: string, k: string)
    ensures FindGroup(SetName(groups, id, name), k) ==
            match FindGroup(groups, k)
            case None => None
            case Some(g) => Some(if g.id == id then g.(name := name) else g)
  {
    if groups != [] {
      FindAfterSetName(groups[1..], id, name, k);
      assert SetName(groups, id, name)[1..] == SetName(groups[1..], id, name);
    }
  }

  lemma {:induction false} FindAfterRemove(groups: seq<Group>, id: string, k: string)
    ensures FindGroup(RemoveGroup(groups, id), k) == if k == id then None else FindGroup(groups, k)
    ensures forall g :: g in RemoveGroup(groups, id) ==> g in groups
  {
    if groups != [] {
      FindAfterRemove(groups[1..], id, k);
      if groups[0].id != id {
        assert RemoveGroup(groups, id) == [groups[0]] + RemoveGroup(groups[1..], id);
      } else {
        assert RemoveGroup(groups, id) == RemoveGroup(groups[1..], id);
      }
    }
  }

  lemma {:induction false} RemoveKeepsUnique(groups: seq<Group>, id: string)
    requires forall i, j :: 0 <= i < j < |groups| ==> groups[i].id != groups[j].id
    ensures var r := RemoveGroup(groups, id);
            forall i, j :: 0 <= i < j < |r| ==> r[i].id != r[j].id
  {
    if groups != [] {
      var rest := RemoveGroup(groups[1..], id);
      RemoveKeepsUnique(groups[1..], id);
      FindAfterRemove(groups[1..], id, "");
      forall j | 0 <= j < |rest| ensures rest[j].id != groups[0].id {
        assert rest[j] in rest && rest[j] in groups[1..];
        var k :| 0 <= k < |groups| - 1 && groups[1..][k] == rest[j];
        assert groups[k + 1] == rest[j];
      }
    }
  }

  lemma {:induction false} FindAfterAppend(groups: seq<Group>, g: Group, k: string)
    ensures FindGroup(groups + [g], k) ==
            if FindGroup(groups, k).Some? then FindGroup(groups, k) else if g.id == k then Some(g) else None
  {
    if groups == [] {
      assert groups + [g] == [g];
    } else {
      FindAfterAppend(groups[1..], g, k);
      assert (groups + [g])[1..] == groups[1..] + [g];
    }
  }

  lemma SameCourse(p: Panel, c: Course, d: Course)
    requires Consistent(p) && c in p.courses && d in p.courses && c.id == d.id
    ensures c == d
  {
    var i :| 0 <= i < |p.courses| && p.courses[i] == c;
    var j :| 0 <= j < |p.courses| && p.courses[j] == d;
    assert i == j;
  }

  lemma SaveLevelKeeps(p: Panel, a: Action)
    requires a.SaveLevel? && Consistent(p) && Offered(p, a)
    ensures Consistent(Apply(p, a))
  {
    var q := Apply(p, a);
    forall i | 0 <= i < |q.courses| ensures CourseOk(q.courses[i], q.groups) {
      assert p.courses[i] in p.courses;
      if p.courses[i].id == a.course.id {
        SameCourse(p, p.courses[i], a.course);
        if a.course.groupId.Some? {
          assert FindGroup(p.groups, a.course.groupId.value).Some?;
        }
      }
    }
  }

  lemma SaveRuleKeeps(p: Panel, a: Action)
    requires a.SaveRule? && Consistent(p)
    ensures Consistent(Apply(p, a))
  {
    var q, g := Apply(p, a), SelectedRootGroup(p);
    if q != p {
      forall c | c in q.courses ensures CourseOk(c, q.groups) {
        assert CourseOk(c, p.groups);
        if c.groupId.Some? {
          FindAfterSetRule(p.groups, g.value.id, a.ruleId.value, c.groupId.value);
        }
      }
      forall i | 0 <= i < |q.groups| ensures q.groups[i].id == p.groups[i].id {}
    }
  }

  lemma CreateGroupKeeps(p: Panel, a: Action)
    requires a.CreateGroup? && Consistent(p) && Offered(p, a)
    ensures Consistent(Apply(p, a))
  {
    var q := Apply(p, a);
    if q != p {
      forall c | c in q.courses ensures CourseOk(c, q.groups) {
        assert CourseOk(c, p.groups);
        if c.groupId.Some? {
          FindAfterAppend(p.groups, a.created.value, c.groupId.value);
        }
      }
      assert forall i :: 0 <= i < |p.groups| ==> p.groups[i] in p.groups;
    }
  }

  lemma RenameGroupKeeps(p: Panel, a: Action)
    requires a.RenameGroup? && Consistent(p)
    ensures Consistent(Apply(p, a))
  {
    var q, name := Apply(p, a), Trim(a.rawName);
    if q != p {
      forall i | 0 <= i < |q.courses| ensures CourseOk(q.courses[i], q.groups) {
        assert CourseOk(p.courses[i], p.groups) by { assert p.courses[i] in p.courses; }
        if p.courses[i].groupId.Some? {
          FindAfterSetName(p.groups, a.groupId, name, p.courses[i].groupId.value);
        }
      }
      forall i | 0 <= i < |q.groups| ensures q.groups[i].id == p.groups[i].id {}
    }
  }

  lemma DeleteGroupKeeps(p: Panel, a: Action)
    requires a.DeleteGroup? && Consistent(p)
    ensures Consistent(Apply(p, a))
  {
    var q := Apply(p, a);
    if q != p {
      RemoveKeepsUnique(p.groups, a.groupId);
      FindAfterRemove(p.groups, a.groupId, "");
      forall i | 0 <= i < |q.courses| ensures CourseOk(q.courses[i], q.groups) {
        assert CourseOk(p.courses[i], p.groups) by { assert p.courses[i] in p.courses; }
        if p.courses[i].groupId.Some? {
          FindAfterRemove(p.groups, a.groupId, p.courses[i].groupId.value);
        }
      }
    }
  }

  /** A course taken to an existing group under the name it has, with a rule
      if the course is levelled, leaves everything consistent. */
  lemma RegroupKeeps(p: Panel, course: Course, groupId: Option<string>, name: Option<string>)
    requires Consistent(p) && course in p.courses
    requires CourseOk(course.(groupId := groupId, groupName := name), p.groups)
    ensures Consistent(p.(courses := SetGroup(p.courses, course.id, groupId, name)))
  {
    var cs := SetGroup(p.courses, course.id, groupId, name);
    forall i | 0 <= i < |cs| ensures CourseOk(cs[i], p.groups) {
      assert p.courses[i] in p.courses;
      if p.courses[i].id == course.id {
        SameCourse(p, p.courses[i], course);
      }
    }
    forall i | 0 <= i < |cs| ensures cs[i].id == p.courses[i].id {}
  }

  lemma {:induction false} FoundOptionIsListed(options: seq<GroupOption>, id: string)
    ensures FindOption(options, id).Some? ==> FindOption(options, id).value in options
  {
    if options != [] {
      FoundOptionIsListed(options[1..], id);
    }
  }

  lemma SelectedIsListed(p: Panel)
    requires Consistent(p) && !SelectedGroup(p).virtual
    ensures SelectedRootGroup(p).Some?
    ensures SelectedRootGroup(p).value.id == SelectedGroup(p).id
    ensures SelectedRootGroup(p).value.name == SelectedGroup(p).name
  {
    FoundOptionIsListed(GroupOptions(p), p.selectedGroupId);
    var o := SelectedGroup(p);
    assert o in GroupOptions(p);
    var i :| 0 <= i < |GroupOptions(p)| && GroupOptions(p)[i] == o;
    assert o.id == p.groups[i].id && o.name == p.groups[i].name;
    FindIsUnique(p.groups, p.groups[i]);
  }

  lemma AssignCourseKeeps(p: Panel, a: Action)
    requires a.AssignCourse? && Consistent(p)
    ensures Consistent(Apply(p, a))
  {
    if Apply(p, a) != p {
      SelectedIsListed(p);
      var course, target := FindCourse(p.courses, a.courseId).value, SelectedGroup(p);
      RegroupKeeps(p, course, Some(target.id), Some(target.name));
    }
  }

  lemma MoveCourseKeeps(p: Panel, a: Action)
    requires a.MoveCourse? && Consistent(p) && Offered(p, a)
    ensures Consistent(Apply(p, a))
  {
    if Apply(p, a) != p {
      var g := FindGroup(p.groups, a.groupId);
      assert a.groupId == "" ==> g.None? by {
        if g.Some? { assert g.value in p.groups; }
      }
      RegroupKeeps(p, a.course, if a.groupId == "" then None else Some(a.groupId),
                   if g.Some? then Some(g.value.name) else None);
    }
  }

  lemma ActionKeeps(p: Panel, a: Action)
    requires Consistent(p) && Offered(p, a)
    ensures Consistent(Apply(p, a))
  {
    match a
    case SaveLevel(_, _, _) => SaveLevelKeeps(p, a);
    case SaveRule(_, _) => SaveRuleKeeps(p, a);
    case CreateGroup(_, _) => CreateGroupKeeps(p, a);
    case RenameGroup(_, _, _) => RenameGroupKeeps(p, a);
    case DeleteGroup(_, _, _) => DeleteGroupKeeps(p, a);
    case AssignCourse(_, _) => AssignCourseKeeps(p, a);
    case MoveCourse(_, _, _) => MoveCourseKeeps(p, a);
    case SelectGroup(_) =>
  }

  // ---- What a typed level does ----

  /** A course may be given a level when it is in no listed group or in a ruled one. */
  predicate TakesLevels(p: Panel, course: Course) {
    forall g :: g in p.groups && course.groupId == Some(g.id) ==> g.ruleId.Some? && g.ruleId.value != ""
  }

  /** Typing the whole number `n`, at least 1, stores exactly `n`; leaving the field
      blank stores no level. No other course and nothing else changes. */
  lemma TypedLevelIsStored(p: Panel, course: Course, n: int, i: nat)
    requires Consistent(p) && course in p.courses && i < |p.courses|
    ensures n >= 1 && TakesLevels(p, course) ==>
      var q := Apply(p, SaveLevel(course, Number(n as real), true));
      && q == p.(courses := q.courses) && |q.courses| == |p.courses|
      && q.courses[i] == if p.courses[i] == course then course.(level := Some(n)) else p.courses[i]
    ensures var q := Apply(p, SaveLevel(course, Blank, true));
      && q == p.(courses := q.courses) && |q.courses| == |p.courses|
      && q.courses[i] == if p.courses[i] == course then course.(level := None) else p.courses[i]
  {
    if p.courses[i].id == course.id { SameCourse(p, p.courses[i], course); }
    assert (n as real).Floor == n;
  }

  lemma NoWholeBetween(v: real, n: int)
    requires n as real < v < n as real + 1.0
    ensures v.Floor as real != v
  {
    var m := v.Floor;
    assert m >= n + 1 ==> m as real >= (n + 1) as real == n as real + 1.0;
    assert m <= n ==> m as real <= n as real;
  }

  /** What is no number, has a fraction or is below 1 changes nothing, and neither
      does a save that fails. */
  lemma OtherTextIsRefused(p: Panel, course: Course, v: real, n: int, raw: RawLevel)
    ensures Apply(p, SaveLevel(course, NotANumber, true)) == p && Apply(p, SaveLevel(course, raw, false)) == p
    ensures v < 1.0 || n as real < v < n as real + 1.0 ==> Apply(p, SaveLevel(course, Number(v), true)) == p
  {
    if n as real < v < n as real + 1.0 { NoWholeBetween(v, n); }
  }

  /** Nor does any number for a course of a group without a rule. */
  lemma UnruledTakesNoLevel(p: Panel, course: Course, v: real)
    requires Consistent(p) && !TakesLevels(p, course)
    ensures Apply(p, SaveLevel(course, Number(v), true)) == p
  {
    var g :| g in p.groups && course.groupId == Some(g.id) && (g.ruleId.None? || g.ruleId.value == "");
    FindIsUnique(p.groups, g);
  }

  // ---- Which actions go through, and what they change ----

  /** A failed action changes nothing, and neither does an unconfirmed delete, a
      blank name or a blank rule. Choosing a group only chooses it. */
  lemma FailedChangesNothing(p: Panel, course: Course, id: string, text: string, rule: Option<string>, raw: RawLevel, g: Group)
    ensures Apply(p, SaveLevel(course, raw, false)) == Apply(p, SaveRule(rule, false)) == p
    ensures Apply(p, CreateGroup(text, None)) == Apply(p, RenameGroup(id, text, false)) == p
    ensures Apply(p, DeleteGroup(id, true, false)) == Apply(p, DeleteGroup(id, false, true)) == p
    ensures Apply(p, AssignCourse(id, false)) == Apply(p, MoveCourse(course, id, false)) == p
    ensures Trim(text) == "" ==> Apply(p, CreateGroup(text, Some(g))) == Apply(p, RenameGroup(id, text, true)) == p
    ensures rule.None? || rule.value == "" ==> Apply(p, SaveRule(rule, true)) == p
    ensures Apply(p, SelectGroup(id)) == p.(selectedGroupId := id)
  {}

  lemma ChosenIsListed(p: Panel, g: Group)
    requires Consistent(p) && g in p.groups && p.selectedGroupId == g.id
    ensures SelectedRootGroup(p) == Some(g) && !SelectedGroup(p).virtual
    ensures SelectedGroup(p).id == g.id && SelectedGroup(p).name == g.name
  {
    OptionIdsDiffer(p);
    var i :| 0 <= i < |p.groups| && p.groups[i] == g;
    var o := GroupOptions(p)[i];
    assert o in GroupOptions(p) && o.id == g.id;
    FindOptionListed(GroupOptions(p), o);
    FindIsUnique(p.groups, g);
  }

  lemma NoneChosen(p: Panel)
    requires Consistent(p) && p.selectedGroupId == UNGROUPED_ID
    ensures SelectedGroup(p).virtual && SelectedRootGroup(p).None?
  {
    OptionIdsDiffer(p);
    var o := GroupOptions(p)[|p.groups|];
    assert o in GroupOptions(p) && o.id == UNGROUPED_ID;
    FindOptionListed(GroupOptions(p), o);
  }

  /** An accepted rule becomes the chosen group's and no other's. */
  lemma RuleIsStored(p: Panel, g: Group, rule: string, i: nat)
    requires Consistent(p) && g in p.groups && p.selectedGroupId == g.id && rule != "" && i < |p.groups|
    ensures var q := Apply(p, SaveRule(Some(rule), true));
      && q == p.(groups := q.groups) && |q.groups| == |p.groups|
      && q.groups[i] == if p.groups[i] == g then g.(ruleId := Some(rule)) else p.groups[i]
  {
    ChosenIsListed(p, g);
    if p.groups[i].id == g.id {
      FindIsUnique(p.groups, p.groups[i]);
      FindIsUnique(p.groups, g);
    }
  }

  predicate HasRule(g: Group) {
    g.ruleId.Some? && g.ruleId.value != ""
  }

  predicate MayJoin(c: Course, g: Group) {
    c.groupId != Some(g.id) && (c.level.None? || HasRule(g))
  }

  /** An accepted assignment takes the course into the chosen group, under its name,
      exactly when it is not in it and has no level or the group has a rule. */
  lemma AssignExactly(p: Panel, c: Course, g: Group, i: nat)
    requires Consistent(p) && c in p.courses && g in p.groups && p.selectedGroupId == g.id && i < |p.courses|
    ensures var q := Apply(p, AssignCourse(c.id, true));
      && q == p.(courses := q.courses) && |q.courses| == |p.courses|
      && q.courses[i] == if p.courses[i] == c && MayJoin(c, g)
                         then c.(groupId := Some(g.id), groupName := Some(g.name)) else p.courses[i]
  {
    ChosenIsListed(p, g);
    FoundCourse(p.courses, c);
    if p.courses[i].id == c.id { SameCourse(p, p.courses[i], c); }
  }

  /** With the unassigned courses chosen nothing is assigned and no rule stored. */
  lemma NothingChosenNothingDone(p: Panel, id: string, rule: string)
    requires Consistent(p) && p.selectedGroupId == UNGROUPED_ID
    ensures Apply(p, AssignCourse(id, true)) == p && Apply(p, SaveRule(Some(rule), true)) == p
  {
    NoneChosen(p);
  }

  /** An accepted move to a listed group does the same for that group, and one to
      none takes the course out of its group. */
  lemma MoveExactly(p: Panel, c: Course, g: Group, i: nat)
    requires Consistent(p) && c in p.courses && g in p.groups && i < |p.courses|
    ensures var q := Apply(p, MoveCourse(c, g.id, true));
      && q == p.(courses := q.courses) && |q.courses| == |p.courses|
      && q.courses[i] == if p.courses[i] == c && MayJoin(c, g)
                         then c.(groupId := Some(g.id), groupName := Some(g.name)) else p.courses[i]
    ensures var q := Apply(p, MoveCourse(c, "", true));
      && q == p.(courses := q.courses) && |q.courses| == |p.courses|
      && q.courses[i] == if p.courses[i] == c then c.(groupId := None, groupName := None) else p.courses[i]
  {
    FindIsUnique(p.groups, g);
    assert CourseOk(c, p.groups) && FindGroup(p.groups, "").None?;
    if p.courses[i].id == c.id { SameCourse(p, p.courses[i], c); }
  }

  /** Every run of completed actions, any of which may fail, stays consistent. */
  lemma {:induction false} RunKeeps(p: Panel, actions: seq<Action>)
    requires Consistent(p) && OfferedRun(p, actions)
    ensures Consistent(Run(p, actions))
  {
    if actions != [] {
      var init := actions[..|actions| - 1];
      assert forall n :: 0 <= n < |init| ==> init[..n] == actions[..n];
      RunKeeps(p, init);
      ActionKeeps(Run(p, init), actions[|actions| - 1]);
    }
  }

  /** Moving trusts the group id it is handed: an accepted move keeps the panel
      consistent exactly when the id is empty or names a listed group. */
  lemma MoveKeepsExactlyForListedGroups(p: Panel, course: Course, groupId: string)
    requires Consistent(p) && course in p.courses
    ensures Consistent(Apply(p, MoveCourse(course, groupId, true)))
            <==> groupId == "" || FindGroup(p.groups, groupId).Some?
  {
    if groupId == "" || FindGroup(p.groups, groupId).Some? {
      MoveCourseKeeps(p, MoveCourse(course, groupId, true));
    } else {
      assert CourseOk(course, p.groups);
      var q := Apply(p, MoveCourse(course, groupId, true));
      var i :| 0 <= i < |p.courses| && p.courses[i] == course;
      assert q.courses[i].groupId == Some(groupId) && q.courses[i] in q.courses;
    }
  }

  /** Deleting a group undoes every assignment to it and nothing else. */
  lemma DeleteUnassignsExactly(p: Panel, groupId: string, i: nat)
    requires Consistent(p) && i < |p.courses|
    ensures var q := Apply(p, DeleteGroup(groupId, true, true));
            && FindGroup(q.groups, groupId).None?
            && q.courses[i] == if p.courses[i].groupId == Some(groupId)
                               then p.courses[i].(groupId := None, groupName := None) else p.courses[i]
  {
    FindAfterRemove(p.groups, groupId, groupId);
  }

  lemma {:induction false} FoundCourse(courses: seq<Course>, c: Course)
    requires c in courses && forall i, j :: 0 <= i < j < |courses| ==> courses[i].id != courses[j].id
    ensures FindCourse(courses, c.id) == Some(c)
  {
    if courses[0] != c {
      var i :| 0 <= i < |courses| && courses[i] == c;
      assert courses[0].id != courses[i].id;
      assert courses[1..][i - 1] == c;
      FoundCourse(courses[1..], c);
    }
  }

  /** Looking the course up afterwards finds the whole number typed, no level for a
      blank field, and the course as it was for a number below 1. */
  lemma SavedLevelIsFound(p: Panel, course: Course, n: int)
    requires Consistent(p) && course in p.courses && TakesLevels(p, course)
    ensures FindCourse(Apply(p, SaveLevel(course, Number(n as real), true)).courses, course.id)
         == Some(if n >= 1 then course.(level := Some(n)) else course)
    ensures FindCourse(Apply(p, SaveLevel(course, Blank, true)).courses, course.id) == Some(course.(level := None))
  {
    FoundCourse(p.courses, course);
    SavedIsFound(p, course, Number(n as real), if n >= 1 then Some(n) else course.level);
    SavedIsFound(p, course, Blank, None);
  }

  lemma SavedIsFound(p: Panel, course: Course, raw: RawLevel, level: Option<int>)
    requires Consistent(p) && course in p.courses
    requires forall i :: 0 <= i < |p.courses| && p.courses[i] == course ==>
      Apply(p, SaveLevel(course, raw, true)).courses[i] == course.(level := level)
    ensures FindCourse(Apply(p, SaveLevel(course, raw, true)).courses, course.id) == Some(course.(level := level))
  {
    var q := Apply(p, SaveLevel(course, raw, true));
    var i :| 0 <= i < |p.courses| && p.courses[i] == course;
    SaveLevelKeeps(p, SaveLevel(course, raw, true));
    assert q.courses[i] in q.courses;
    FoundCourse(q.courses, q.courses[i]);
  }

  lemma {:induction false} FindOptionListed(options: seq<GroupOption>, o: GroupOption)
    requires o in options && forall i, j :: 0 <= i < j < |options| ==> options[i].id != options[j].id
    ensures FindOption(options, o.id) == Some(o)
  {
    if options[0] != o {
      var i :| 0 <= i < |options| && options[i] == o;
      assert options[0].id != options[i].id;
      assert options[1..][i - 1] == o;
      FindOptionListed(options[1..], o);
    }
  }

  lemma OptionIdsDiffer(p: Panel)
    requires Consistent(p)
    ensures forall i, j :: 0 <= i < j < |GroupOptions(p)| ==> GroupOptions(p)[i].id != GroupOptions(p)[j].id
  {
    assert forall i :: 0 <= i < |p.groups| ==> p.groups[i] in p.groups;
  }

  /** A new group is listed and selected, under the name and rule it was made
      with, and holds no course. */
  lemma CreatedGroupIsSelected(p: Panel, rawName: string, g: Group)
    requires Consistent(p) && Offered(p, CreateGroup(rawName, Some(g))) && Trim(rawName) != ""
    ensures var q := Apply(p, CreateGroup(rawName, Some(g)));
      && SelectedGroup(q) == GroupOption(g.id, g.name, 0, false)
      && SelectedRootGroup(q) == Some(g)
  {
    var q := Apply(p, CreateGroup(rawName, Some(g)));
    CreateGroupKeeps(p, CreateGroup(rawName, Some(g)));
    OptionIdsDiffer(q);
    NobodyIn(p, g.id);
    var o := GroupOptions(q)[|p.groups|];
    assert o == GroupOption(g.id, g.name, 0, false) && o in GroupOptions(q);
    FindOptionListed(GroupOptions(q), o);
    assert q.groups[|p.groups|] == g && g in q.groups;
    FindIsUnique(q.groups, g);
  }

  lemma NobodyIn(p: Panel, id: string)
    requires Consistent(p) && FindGroup(p.groups, id).None?
    ensures CountIn(p.courses, Some(id)) == 0
  {
    forall c | c in p.courses ensures c.groupId != Some(id) {
      assert CourseOk(c, p.groups);
    }
    CountsNone(p.courses, Some(id));
  }

  lemma {:induction false} CountsNone(courses: seq<Course>, groupId: Option<string>)
    requires forall c :: c in courses ==> c.groupId != groupId
    ensures CountIn(courses, groupId) == 0
  {
    if courses != [] {
      assert courses[0] in courses;
      CountsNone(courses[1..], groupId);
    }
  }

  /** An accepted rename reaches the group and every course in it. */
  lemma RenameReachesEveryCourse(p: Panel, groupId: string, rawName: string, c: Course)
    requires Consistent(p) && Trim(rawName) != ""
    requires c in Apply(p, RenameGroup(groupId, rawName, true)).courses && c.groupId == Some(groupId)
    ensures FindGroup(Apply(p, RenameGroup(groupId, rawName, true)).groups, groupId).Some?
    ensures c.groupName == Some(Trim(rawName))
    ensures FindGroup(Apply(p, RenameGroup(groupId, rawName, true)).groups, groupId).value.name == Trim(rawName)
  {
    var q := Apply(p, RenameGroup(groupId, rawName, true));
    RenameGroupKeeps(p, RenameGroup(groupId, rawName, true));
    assert CourseOk(c, q.groups);
    FindAfterSetName(p.groups, groupId, Trim(rawName), groupId);
  }

  /** Two actions on one course that overlap in time can break the invariant:
      both checks pass, then both updates land. */
  lemma OverlappingActionsCanBreak() returns (p: Panel, course: Course, level: int, groupId: string)
    ensures Consistent(p) && course in p.courses && level >= 1
    ensures LevelAllowed(p, course, Some(level)) && MoveAllowed(p, course, groupId)
    ensures Offered(p, MoveCourse(course, groupId, true))
    ensures var moved := MoveTo(p, course, groupId);
            !Consistent(moved.(courses := SetLevel(moved.courses, course.id, Some(level))))
  {
    course := Course("c", "MATH", None, "cy", None, None);
    p := Panel([course], [Group("g", "Group", 0, None)], "g");
    level, groupId := 1, "g";
    assert FindGroup(p.groups, "g") == Some(p.groups[0]);
    var moved := MoveTo(p, course, groupId);
    var q := moved.(courses := SetLevel(moved.courses, course.id, Some(level)));
    assert q.courses[0] in q.courses && q.courses[0].level == Some(1);
    assert q.courses[0].groupId == Some("g");
    assert FindGroup(q.groups, "g") == Some(q.groups[0]);
    assert !CourseOk(q.courses[0], q.groups);
  }

  // ---- The component ----

  class CourseLevelManagerPanel {
    var courses: seq<Course>
    var groups: seq<Group>
    var selectedGroupId: string
    var savingCourseId: Option<string>

    ghost function State(): Panel
      reads this
    {
      Panel(courses, groups, selectedGroupId)
    }

    constructor (courses: seq<Course>, groups: seq<Group>)
      ensures State() == Panel(courses, groups, "") && savingCourseId == None
    {
      this.courses, this.groups, selectedGroupId, savingCourseId := courses, groups, "", None;
    }

    method DoSaveLevel(course: Course, raw: RawLevel, accepted: bool)
      modifies this
      ensures State() == Apply(old(State()), SaveLevel(course, raw, accepted))
      ensures savingCourseId == None || savingCourseId == old(savingCourseId)
    {
      var level := ParseLevel(raw);
      if level.None? { return; }
      var courseGroup := if Truthy(course.groupId) then FindGroup(groups, course.groupId.value) else None;
      if level.value.Some? && courseGroup.Some? && !Truthy(courseGroup.value.ruleId) { return; }
      savingCourseId := Some(course.id);
      if accepted {
        courses := SetLevel(courses, course.id, level.value);
      }
      savingCourseId := None;
    }

    method DoSaveSitInRule(ruleId: Option<string>, accepted: bool)
      modifies this`groups
      ensures State() == Apply(old(State()), SaveRule(ruleId, accepted))
    {
      var selected := SelectedRootGroup(Panel(courses, groups, selectedGroupId));
      if selected.None? || !Truthy(ruleId) { return; }
      if accepted {
        groups := SetRule(groups, selected.value.id, ruleId.value);
      }
    }

    method DoCreateGroup(newGroupName: string, created: Option<Group>)
      modifies this`groups, this`selectedGroupId
      ensures State() == Apply(old(State()), CreateGroup(newGroupName, created))
    {
      var name := Trim(newGroupName);
      if name == "" { return; }
      if created.Some? {
        groups := groups + [created.value];
        selectedGroupId := created.value.id;
      }
    }

    method DoRenameGroup(groupId: string, editingGroupName: string, accepted: bool)
      modifies this`groups, this`courses
      ensures State() == Apply(old(State()), RenameGroup(groupId, editingGroupName, accepted))
    {
      var name := Trim(editingGroupName);
      if name == "" { return; }
      if accepted {
        groups := SetName(groups, groupId, name);
        courses := Relabel(courses, groupId, Some(groupId), Some(name));
      }
    }

    method DoDeleteGroup(groupId: string, confirmed: bool, accepted: bool)
      modifies this`groups, this`courses, this`selectedGroupId
      ensures State() == Apply(old(State()), DeleteGroup(groupId, confirmed, accepted))
    {
      if !confirmed { return; }
      if accepted {
        groups := RemoveGroup(groups, groupId);
        courses := Relabel(courses, groupId, None, None);
        selectedGroupId := UNGROUPED_ID;
      }
    }

    method DoAssignCourse(courseId: string, accepted: bool)
      modifies this
      ensures savingCourseId == old(savingCourseId)
      ensures State() == if old(savingCourseId).Some? then old(State())
                         else Apply(old(State()), AssignCourse(courseId, accepted))
    {
      var selected := SelectedGroup(Panel(courses, groups, selectedGroupId));
      if selected.virtual || savingCourseId.Some? { return; }
      var course := FindCourse(courses, courseId);
      if course.None? || course.value.groupId == Some(selected.id) { return; }
      var root := SelectedRootGroup(Panel(courses, groups, selectedGroupId));
      if course.value.level.Some? && !(root.Some? && Truthy(root.value.ruleId)) { return; }
      savingCourseId := Some(course.value.id);
      if accepted {
        courses := SetGroup(courses, course.value.id, Some(selected.id), Some(selected.name));
      }
      savingCourseId := None;
    }

    method DoMoveCourse(course: Course, groupId: string, accepted: bool)
      modifies this
      ensures State() == Apply(old(State()), MoveCourse(course, groupId, accepted))
      ensures savingCourseId == None || savingCourseId == old(savingCourseId)
    {
      var nextGroup := FindGroup(groups, groupId);
      var nextGroupId := if groupId != "" then Some(groupId) else None;
      if course.groupId == nextGroupId { return; }
      if course.level.Some? && nextGroup.Some? && !Truthy(nextGroup.value.ruleId) { return; }
      savingCourseId := Some(course.id);
      if accepted {
        var name := if nextGroup.Some? then Some(nextGroup.value.name) else None;
        courses := SetGroup(courses, course.id, nextGroupId, name);
      }
      savingCourseId := None;
    }
  }
}
