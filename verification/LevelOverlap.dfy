/** Level manager actions that overlap in time: an action checks the panel it
    sees and its update lands on whatever the panel has become by then
    (CourseLevelManagerPanel). */
module LevelOverlap {
  import opened JsCollections
  import opened LevelManager
  import Text

  /** The update an action sends to the lists once its request succeeds, with the
      values it captured when it was checked. */
  datatype Landing =
    | LandLevel(courseId: string, level: Option<int>)
    | LandRule(groupId: string, ruleId: string)
    | LandGroup(group: Group)
    | LandName(groupId: string, name: string)
    | LandDelete(groupId: string)
    | LandPlace(courseId: string, place: Option<string>, placeName: Option<string>)

  /** What an action that passes its checks on `p` will land. */
  function Start(p: Panel, a: Action): Option<Landing> {
    match a
    case SaveLevel(course, raw, _) =>
      var level := ParseLevel(raw);
      if level.None? || !LevelAllowed(p, course, level.value) then None else Some(LandLevel(course.id, level.value))
    case SaveRule(ruleId, _) =>
      var g := SelectedRootGroup(p);
      if g.None? || !Truthy(ruleId) then None else Some(LandRule(g.value.id, ruleId.value))
    case CreateGroup(rawName, created) =>
      if Text.Trim(rawName) == "" || created.None? then None else Some(LandGroup(created.value))
    case RenameGroup(groupId, rawName, _) =>
      if Text.Trim(rawName) == "" then None else Some(LandName(groupId, Text.Trim(rawName)))
    case DeleteGroup(groupId, confirmed, _) => if confirmed then Some(LandDelete(groupId)) else None
    case AssignCourse(courseId, _) =>
      var target, course, root := SelectedGroup(p), FindCourse(p.courses, courseId), SelectedRootGroup(p);
      if target.virtual || course.None? || course.value.groupId == Some(target.id) then None
      else if course.value.level.Some? && !(root.Some? && Truthy(root.value.ruleId)) then None
      else Some(LandPlace(course.value.id, Some(target.id), Some(target.name)))
    case MoveCourse(course, groupId, _) =>
      var g := FindGroup(p.groups, groupId);
      var next := if groupId == "" then None else Some(groupId);
      if course.groupId == next || !MoveAllowed(p, course, groupId) then None
      else Some(LandPlace(course.id, next, if g.Some? then Some(g.value.name) else None))
    case SelectGroup(_) => None
  }

  function Land(p: Panel, l: Landing): Panel {
    match l
    case LandLevel(id, level) => p.(courses := SetLevel(p.courses, id, level))
    case LandRule(id, ruleId) => p.(groups := SetRule(p.groups, id, ruleId))
    case LandGroup(g) => p.(groups := p.groups + [g], selectedGroupId := g.id)
    case LandName(id, name) =>
      p.(groups := SetName(p.groups, id, name), courses := Relabel(p.courses, id, Some(id), Some(name)))
    case LandDelete(id) => Panel(Relabel(p.courses, id, None, None), RemoveGroup(p.groups, id), UNGROUPED_ID)
    case LandPlace(id, place, name) => p.(courses := SetGroup(p.courses, id, place, name))
  }

  predicate Accepted(a: Action) {
    match a
    case SaveLevel(_, _, ok) => ok
    case SaveRule(_, ok) => ok
    case RenameGroup(_, _, ok) => ok
    case DeleteGroup(_, _, ok) => ok
    case AssignCourse(_, ok) => ok
    case MoveCourse(_, _, ok) => ok
    case _ => true
  }

  /** An action run to completion is its start followed at once by its landing. */
  lemma ApplyIsStartThenLand(p: Panel, a: Action)
    requires !a.SelectGroup?
    ensures Apply(p, a) == if Start(p, a).Some? && Accepted(a) then Land(p, Start(p, a).value) else p
  {}

  // ---- When a landing keeps the panel consistent ----

  predicate PlaceFits(p: Panel, c: Course, place: Option<string>, name: Option<string>) {
    if place.None? then name.None?
    else
      var g := FindGroup(p.groups, place.value);
      g.Some? && name == Some(g.value.name) && (c.level.Some? ==> Truthy(g.value.ruleId))
  }

  /** The check a landing would need on the panel it lands on: a level against the
      group the course is in now, a place against the group's name and rule and
      the course's level now. */
  ghost predicate LandsWell(p: Panel, l: Landing) {
    match l
    case LandLevel(id, level) =>
      var c := FindCourse(p.courses, id);
      c.Some? && level.Some? ==> level.value >= 1 && LevelAllowed(p, c.value, level)
    case LandRule(id, ruleId) => ruleId != "" || forall c :: c in p.courses && c.groupId == Some(id) ==> c.level.None?
    case LandGroup(g) => FindGroup(p.groups, g.id).None? && g.id != "" && g.id != UNGROUPED_ID
    case LandName(_, _) => true
    case LandDelete(_) => true
    case LandPlace(id, place, name) =>
      var c := FindCourse(p.courses, id);
      c.Some? ==> PlaceFits(p, c.value, place, name)
  }

  lemma {:induction false} NotFoundNoCourse(courses: seq<Course>, id: string, i: nat)
    requires FindCourse(courses, id).None? && i < |courses|
    ensures courses[i].id != id
  {
    if i > 0 { NotFoundNoCourse(courses[1..], id, i - 1); }
  }

  lemma FoundIs(p: Panel, i: nat)
    requires Consistent(p) && i < |p.courses|
    ensures FindCourse(p.courses, p.courses[i].id) == Some(p.courses[i])
  {
    assert p.courses[i] in p.courses;
    FoundCourse(p.courses, p.courses[i]);
  }

  lemma IndexOfFound(courses: seq<Course>, id: string) returns (i: nat)
    requires FindCourse(courses, id).Some?
    ensures i < |courses| && courses[i] == FindCourse(courses, id).value
  {
    var c := FindCourse(courses, id).value;
    i :| 0 <= i < |courses| && courses[i] == c;
  }

  lemma AbsentLands(p: Panel, l: Landing)
    requires l.LandLevel? || l.LandPlace?
    requires FindCourse(p.courses, l.courseId).None?
    ensures Land(p, l) == p
  {
    forall i | 0 <= i < |p.courses| ensures p.courses[i].id != l.courseId {
      NotFoundNoCourse(p.courses, l.courseId, i);
    }
  }

  lemma LevelLandsExactly(p: Panel, id: string, level: Option<int>)
    requires Consistent(p)
    ensures Consistent(Land(p, LandLevel(id, level))) <==> LandsWell(p, LandLevel(id, level))
  {
    var q := Land(p, LandLevel(id, level));
    if FindCourse(p.courses, id).None? {
      AbsentLands(p, LandLevel(id, level));
    } else {
      var n := IndexOfFound(p.courses, id);
      var c := p.courses[n];
      assert CourseOk(c, p.groups);
      assert q.courses[n] == c.(level := level) && q.courses[n] in q.courses;
      LevelFits(p, c, level);
      if LandsWell(p, LandLevel(id, level)) {
        forall i | 0 <= i < |q.courses| ensures CourseOk(q.courses[i], q.groups) {
          assert p.courses[i] in p.courses;
          assert i != n ==> q.courses[i] == p.courses[i];
        }
        forall i | 0 <= i < |q.courses| ensures q.courses[i].id == p.courses[i].id {}
      }
    }
  }

  lemma LevelFits(p: Panel, c: Course, level: Option<int>)
    requires Consistent(p) && c in p.courses
    ensures CourseOk(c.(level := level), p.groups) <==> (level.Some? ==> level.value >= 1 && LevelAllowed(p, c, level))
  {
    assert CourseOk(c, p.groups);
    if c.groupId.Some? {
      var g := FindGroup(p.groups, c.groupId.value).value;
      assert g in p.groups && g.id == c.groupId.value;
    }
  }

  lemma PlaceLandsExactly(p: Panel, id: string, place: Option<string>, name: Option<string>)
    requires Consistent(p)
    ensures Consistent(Land(p, LandPlace(id, place, name))) <==> LandsWell(p, LandPlace(id, place, name))
  {
    var q := Land(p, LandPlace(id, place, name));
    if FindCourse(p.courses, id).None? {
      AbsentLands(p, LandPlace(id, place, name));
    } else {
      var n := IndexOfFound(p.courses, id);
      var c := p.courses[n];
      assert CourseOk(c, p.groups);
      assert q.courses[n] == c.(groupId := place, groupName := name) && q.courses[n] in q.courses;
      assert CourseOk(q.courses[n], q.groups) <==> PlaceFits(p, c, place, name);
      if PlaceFits(p, c, place, name) { RegroupKeeps(p, c, place, name); }
    }
  }

  lemma RuleLandsExactly(p: Panel, id: string, ruleId: string)
    requires Consistent(p)
    ensures Consistent(Land(p, LandRule(id, ruleId))) <==> LandsWell(p, LandRule(id, ruleId))
  {
    var q := Land(p, LandRule(id, ruleId));
    forall c | c in p.courses
      ensures CourseOk(c, q.groups) <==> !(ruleId == "" && c.groupId == Some(id) && c.level.Some?)
    {
      assert CourseOk(c, p.groups);
      if c.groupId.Some? { FindAfterSetRule(p.groups, id, ruleId, c.groupId.value); }
    }
    forall i | 0 <= i < |q.groups| ensures q.groups[i].id == p.groups[i].id {}
    forall g | g in q.groups ensures g.id != "" && g.id != UNGROUPED_ID {
      var i :| 0 <= i < |q.groups| && q.groups[i] == g;
      assert p.groups[i] in p.groups;
    }
  }

  lemma GroupLandsExactly(p: Panel, g: Group)
    requires Consistent(p)
    ensures Consistent(Land(p, LandGroup(g))) <==> LandsWell(p, LandGroup(g))
  {
    var q := Land(p, LandGroup(g));
    assert q.groups[|p.groups|] == g && g in q.groups;
    if LandsWell(p, LandGroup(g)) {
      CreateGroupKeeps(p, CreateGroup("x", Some(g)));
      assert Text.Trim("x") == "x";
    } else if FindGroup(p.groups, g.id).Some? {
      var h := FindGroup(p.groups, g.id).value;
      var i :| 0 <= i < |p.groups| && p.groups[i] == h;
      assert q.groups[i].id == q.groups[|p.groups|].id;
    }
  }

  lemma NameLands(p: Panel, id: string, name: string)
    requires Consistent(p)
    ensures Consistent(Land(p, LandName(id, name)))
  {
    var q := Land(p, LandName(id, name));
    forall i | 0 <= i < |q.courses| ensures CourseOk(q.courses[i], q.groups) {
      assert CourseOk(p.courses[i], p.groups) by { assert p.courses[i] in p.courses; }
      if p.courses[i].groupId.Some? { FindAfterSetName(p.groups, id, name, p.courses[i].groupId.value); }
    }
    forall i | 0 <= i < |q.groups| ensures q.groups[i].id == p.groups[i].id {}
    forall g | g in q.groups ensures g.id != "" && g.id != UNGROUPED_ID {
      var i :| 0 <= i < |q.groups| && q.groups[i] == g;
      assert p.groups[i] in p.groups;
    }
  }

  lemma DeleteLands(p: Panel, id: string)
    requires Consistent(p)
    ensures Consistent(Land(p, LandDelete(id)))
  {
    DeleteGroupKeeps(p, DeleteGroup(id, true, true));
  }

  /** A landing keeps a consistent panel consistent if and only if it lands well,
      whatever happened since it was checked. */
  lemma LandKeepsExactly(p: Panel, l: Landing)
    requires Consistent(p)
    ensures Consistent(Land(p, l)) <==> LandsWell(p, l)
  {
    match l
    case LandLevel(id, level) => LevelLandsExactly(p, id, level);
    case LandRule(id, ruleId) => RuleLandsExactly(p, id, ruleId);
    case LandGroup(g) => GroupLandsExactly(p, g);
    case LandName(id, name) => NameLands(p, id, name);
    case LandDelete(id) => DeleteLands(p, id);
    case LandPlace(id, place, name) => PlaceLandsExactly(p, id, place, name);
  }

  // ---- All interleavings ----

  /** The panel and the updates whose requests are on the way. */
  datatype Flow = Flow(panel: Panel, inFlight: seq<Landing>)

  datatype Step = Begin(action: Action) | Finish(index: nat, accepted: bool) | Choose(groupId: string)

  function Next(f: Flow, s: Step): Flow {
    match s
    case Begin(a) => if Start(f.panel, a).Some? then f.(inFlight := f.inFlight + [Start(f.panel, a).value]) else f
    case Finish(i, accepted) =>
      if i >= |f.inFlight| then f
      else Flow(if accepted then Land(f.panel, f.inFlight[i]) else f.panel, f.inFlight[..i] + f.inFlight[i + 1..])
    case Choose(id) => f.(panel := f.panel.(selectedGroupId := id))
  }

  function Run(f: Flow, steps: seq<Step>): Flow {
    if steps == [] then f else Next(Run(f, steps[..|steps| - 1]), steps[|steps| - 1])
  }

  ghost predicate LandsWellAt(f: Flow, s: Step) {
    s.Finish? && s.accepted && s.index < |f.inFlight| ==> LandsWell(f.panel, f.inFlight[s.index])
  }

  ghost predicate EveryLandingWell(f: Flow, steps: seq<Step>) {
    steps != [] ==>
      EveryLandingWell(f, steps[..|steps| - 1]) && LandsWellAt(Run(f, steps[..|steps| - 1]), steps[|steps| - 1])
  }

  ghost predicate AlwaysConsistent(f: Flow, steps: seq<Step>) {
    Consistent(Run(f, steps).panel) && (steps != [] ==> AlwaysConsistent(f, steps[..|steps| - 1]))
  }

  /** Over every interleaving the panel stays consistent throughout if and only if
      each accepted update lands well when it lands. */
  lemma {:induction false} InterleavingsKeepExactly(f: Flow, steps: seq<Step>)
    requires Consistent(f.panel)
    ensures AlwaysConsistent(f, steps) <==> EveryLandingWell(f, steps)
  {
    if steps != [] {
      var init, s := steps[..|steps| - 1], steps[|steps| - 1];
      InterleavingsKeepExactly(f, init);
      var g := Run(f, init);
      if Consistent(g.panel) { StepKeepsExactly(g, s); }
    }
  }

  lemma StepKeepsExactly(f: Flow, s: Step)
    requires Consistent(f.panel)
    ensures Consistent(Next(f, s).panel) <==> LandsWellAt(f, s)
  {
    if s.Finish? && s.accepted && s.index < |f.inFlight| { LandKeepsExactly(f.panel, f.inFlight[s.index]); }
  }

  // ---- Which actions may overlap ----

  /** What `Start` makes: a level of at least 1 or none, a rule that is not blank,
      a place with a name or neither. */
  predicate WellMade(l: Landing) {
    && (l.LandLevel? && l.level.Some? ==> l.level.value >= 1)
    && (l.LandRule? ==> l.ruleId != "")
    && (l.LandPlace? ==> (l.place.None? <==> l.placeName.None?))
  }

  /** `m` landing after `l` was checked can make `l` land badly: a level and a
      place of one course, a place and a new name or the delete of its group, one
      group made twice. */
  predicate Interferes(l: Landing, m: Landing) {
    || (l.LandLevel? && m.LandPlace? && l.courseId == m.courseId && l.level.Some? && m.place.Some?)
    || (l.LandPlace? && m.LandLevel? && l.courseId == m.courseId && l.place.Some? && m.level.Some?)
    || (l.LandPlace? && m.LandName? && l.place == Some(m.groupId) && l.placeName != Some(m.name))
    || (l.LandPlace? && m.LandDelete? && l.place == Some(m.groupId))
    || (l.LandGroup? && m.LandGroup? && l.group.id == m.group.id)
  }

  lemma StartLandsWell(p: Panel, a: Action)
    requires Consistent(p) && Offered(p, a) && Start(p, a).Some?
    ensures LandsWell(p, Start(p, a).value) && WellMade(Start(p, a).value)
  {
    match a
    case SaveLevel(course, _, _) => FoundCourse(p.courses, course);
    case MoveCourse(course, groupId, _) =>
      FoundCourse(p.courses, course);
      if FindGroup(p.groups, groupId).Some? { assert FindGroup(p.groups, groupId).value in p.groups; }
    case AssignCourse(courseId, _) =>
      SelectedIsListed(p);
      var c := FindCourse(p.courses, courseId).value;
      FoundCourse(p.courses, c);
    case _ =>
  }

  // ---- How a landing changes what another one looks at ----

  lemma {:induction false} FindAfterSetLevel(courses: seq<Course>, id: string, level: Option<int>, k: string)
    ensures FindCourse(SetLevel(courses, id, level), k) ==
      match FindCourse(courses, k) case None => None case Some(c) => Some(if k == id then c.(level := level) else c)
  {
    if courses != [] {
      FindAfterSetLevel(courses[1..], id, level, k);
      assert SetLevel(courses, id, level)[1..] == SetLevel(courses[1..], id, level);
    }
  }

  lemma {:induction false} FindAfterSetGroup(courses: seq<Course>, id: string, g: Option<string>, n: Option<string>, k: string)
    ensures FindCourse(SetGroup(courses, id, g, n), k) ==
      match FindCourse(courses, k)
      case None => None
      case Some(c) => Some(if k == id then c.(groupId := g, groupName := n) else c)
  {
    if courses != [] {
      FindAfterSetGroup(courses[1..], id, g, n, k);
      assert SetGroup(courses, id, g, n)[1..] == SetGroup(courses[1..], id, g, n);
    }
  }

  lemma {:induction false} FindAfterRelabel(courses: seq<Course>, id: string, g: Option<string>, n: Option<string>, k: string)
    ensures FindCourse(Relabel(courses, id, g, n), k) ==
      match FindCourse(courses, k)
      case None => None
      case Some(c) => Some(if c.groupId == Some(id) then c.(groupId := g, groupName := n) else c)
  {
    if courses != [] {
      FindAfterRelabel(courses[1..], id, g, n, k);
      assert Relabel(courses, id, g, n)[1..] == Relabel(courses[1..], id, g, n);
    }
  }

  /** A group stays listed with its rule, and with its name unless it is renamed,
      through any landing but its delete. */
  lemma GroupAfter(p: Panel, m: Landing, k: string)
    requires WellMade(m) && FindGroup(p.groups, k).Some? && !(m.LandDelete? && m.groupId == k)
    ensures var g, h := FindGroup(p.groups, k).value, FindGroup(Land(p, m).groups, k);
      && h.Some? && (Truthy(g.ruleId) ==> Truthy(h.value.ruleId))
      && h.value.name == if m.LandName? && m.groupId == k then m.name else g.name
  {
    match m
    case LandRule(id, ruleId) => FindAfterSetRule(p.groups, id, ruleId, k);
    case LandGroup(g) => FindAfterAppend(p.groups, g, k);
    case LandName(id, name) => FindAfterSetName(p.groups, id, name, k);
    case LandDelete(id) => FindAfterRemove(p.groups, id, k);
    case _ =>
  }

  lemma NoGroupAfter(p: Panel, m: Landing, k: string)
    requires FindGroup(p.groups, k).None? && !(m.LandGroup? && m.group.id == k)
    ensures FindGroup(Land(p, m).groups, k).None?
  {
    match m
    case LandRule(id, ruleId) => FindAfterSetRule(p.groups, id, ruleId, k);
    case LandGroup(g) => FindAfterAppend(p.groups, g, k);
    case LandName(id, name) => FindAfterSetName(p.groups, id, name, k);
    case LandDelete(id) => FindAfterRemove(p.groups, id, k);
    case _ =>
  }

  lemma CourseAfter(p: Panel, m: Landing, k: string)
    ensures var c, d := FindCourse(p.courses, k), FindCourse(Land(p, m).courses, k);
      && (c.None? <==> d.None?)
      && (c.Some? ==>
            && d.value.level == (if m.LandLevel? && m.courseId == k then m.level else c.value.level)
            && d.value.groupId == (if m.LandPlace? && m.courseId == k then m.place
                                   else if m.LandDelete? && c.value.groupId == Some(m.groupId) then None
                                   else c.value.groupId))
  {
    match m
    case LandLevel(id, level) => FindAfterSetLevel(p.courses, id, level, k);
    case LandName(id, name) => FindAfterRelabel(p.courses, id, Some(id), Some(name), k);
    case LandDelete(id) => FindAfterRelabel(p.courses, id, None, None, k);
    case LandPlace(id, place, name) => FindAfterSetGroup(p.courses, id, place, name, k);
    case _ =>
  }

  lemma LevelStillLands(p: Panel, l: Landing, m: Landing)
    requires l.LandLevel? && Consistent(p) && LandsWell(p, l) && WellMade(l) && WellMade(m) && !Interferes(l, m)
    ensures LandsWell(Land(p, m), l)
  {
    CourseAfter(p, m, l.courseId);
    var c := FindCourse(p.courses, l.courseId);
    var d := FindCourse(Land(p, m).courses, l.courseId);
    if c.Some? && l.level.Some? {
      assert CourseOk(c.value, p.groups);
      if d.value.groupId.Some? {
        assert d.value.groupId == c.value.groupId;
        var k := c.value.groupId.value;
        assert FindGroup(p.groups, k).value in p.groups;
        GroupAfter(p, m, k);
      }
    }
  }

  lemma PlaceStillLands(p: Panel, l: Landing, m: Landing)
    requires l.LandPlace? && Consistent(p) && LandsWell(p, l) && WellMade(l) && WellMade(m) && !Interferes(l, m)
    ensures LandsWell(Land(p, m), l)
  {
    CourseAfter(p, m, l.courseId);
    var c := FindCourse(p.courses, l.courseId);
    if c.Some? && l.place.Some? {
      GroupAfter(p, m, l.place.value);
    }
  }

  /** What landed well and is not interfered with still lands well. */
  lemma StillLandsWell(p: Panel, l: Landing, m: Landing)
    requires Consistent(p) && LandsWell(p, l) && WellMade(l) && WellMade(m) && !Interferes(l, m)
    ensures LandsWell(Land(p, m), l)
  {
    match l
    case LandLevel(_, _) => LevelStillLands(p, l, m);
    case LandPlace(_, _, _) => PlaceStillLands(p, l, m);
    case LandGroup(g) => NoGroupAfter(p, m, g.id);
    case _ =>
  }

  /** The group or the place it is about could be listed. */
  predicate CouldBeListed(l: Landing) {
    && (l.LandPlace? && l.place.Some? ==> l.place.value !in {"", UNGROUPED_ID})
    && (l.LandGroup? ==> l.group.id !in {"", UNGROUPED_ID})
  }

  /** One ungrouped course and one group without a rule. */
  function SmallPanel(courseId: string, groupId: string, name: string): Panel {
    Panel([Course(courseId, "", None, "", None, None)], [Group(groupId, name, 0, None)], "")
  }

  lemma InterferenceShows(l: Landing, m: Landing) returns (p: Panel)
    requires WellMade(l) && WellMade(m) && CouldBeListed(l) && CouldBeListed(m) && Interferes(l, m)
    ensures Consistent(p) && LandsWell(p, l) && LandsWell(p, m) && !LandsWell(Land(p, m), l)
  {
    if l.LandGroup? {
      p := Panel([], [], "");
      FindAfterAppend(p.groups, m.group, l.group.id);
    } else {
      var place := if l.LandPlace? then l else m;
      p := SmallPanel(l.courseId, place.place.value, place.placeName.value);
      var c := p.courses[0];
      assert CourseOk(c, p.groups) && p.courses == [c];
      assert FindCourse(p.courses, l.courseId) == Some(c) && FindGroup(p.groups, place.place.value) == Some(p.groups[0]);
      CourseAfter(p, m, l.courseId);
      if m.LandDelete? {
        FindAfterRemove(p.groups, m.groupId, m.groupId);
      } else {
        GroupAfter(p, m, place.place.value);
      }
    }
  }

  /** Two updates interfere if and only if on some consistent panel both could land,
      but the one no longer after the other. */
  lemma InterferesExactly(l: Landing, m: Landing)
    requires WellMade(l) && WellMade(m) && CouldBeListed(l) && CouldBeListed(m)
    ensures Interferes(l, m)
      <==> exists p: Panel :: Consistent(p) && LandsWell(p, l) && LandsWell(p, m) && !LandsWell(Land(p, m), l)
  {
    if Interferes(l, m) { var p := InterferenceShows(l, m); }
    if p: Panel :| Consistent(p) && LandsWell(p, l) && LandsWell(p, m) && !LandsWell(Land(p, m), l) {
      if !Interferes(l, m) { StillLandsWell(p, l, m); }
    }
  }

  /** An action begun while others are under way and answered next changes the
      panel as if it were run alone, and leaves the others under way; choosing a
      group only chooses it. */
  lemma AnsweredNextIsApply(f: Flow, a: Action, id: string)
    requires !a.SelectGroup?
    ensures Start(f.panel, a).Some? ==>
      Next(Next(f, Begin(a)), Finish(|f.inFlight|, Accepted(a))) == Flow(Apply(f.panel, a), f.inFlight)
    ensures Start(f.panel, a).None? ==> Next(f, Begin(a)) == f && Apply(f.panel, a) == f.panel
    ensures Next(f, Choose(id)) == Flow(f.panel.(selectedGroupId := id), f.inFlight)
  {
    ApplyIsStartThenLand(f.panel, a);
    if Start(f.panel, a).Some? {
      var g := Next(f, Begin(a));
      assert g.inFlight[..|f.inFlight|] + g.inFlight[|f.inFlight| + 1..] == f.inFlight;
    }
  }

  predicate Apart(l: Landing, m: Landing) {
    !Interferes(l, m) && !Interferes(m, l)
  }

  ghost predicate Orderly(f: Flow) {
    && Consistent(f.panel)
    && (forall i :: 0 <= i < |f.inFlight| ==> LandsWell(f.panel, f.inFlight[i]) && WellMade(f.inFlight[i]))
    && forall i, j :: 0 <= i < j < |f.inFlight| ==> Apart(f.inFlight[i], f.inFlight[j])
  }

  /** The page offers the action, and it does not interfere with one under way. */
  ghost predicate Polite(f: Flow, s: Step) {
    s.Begin? ==>
      && Offered(f.panel, s.action)
      && (Start(f.panel, s.action).Some? ==>
            forall i :: 0 <= i < |f.inFlight| ==> Apart(f.inFlight[i], Start(f.panel, s.action).value))
  }

  ghost predicate PoliteRun(f: Flow, steps: seq<Step>) {
    steps != [] ==> PoliteRun(f, steps[..|steps| - 1]) && Polite(Run(f, steps[..|steps| - 1]), steps[|steps| - 1])
  }

  lemma FinishKeepsOrder(f: Flow, i: nat)
    requires Orderly(f) && i < |f.inFlight|
    ensures Orderly(Next(f, Finish(i, true))) && Orderly(Next(f, Finish(i, false)))
  {
    var l, rest := f.inFlight[i], f.inFlight[..i] + f.inFlight[i + 1..];
    LandKeepsExactly(f.panel, l);
    forall k | 0 <= k < |rest| ensures LandsWell(Land(f.panel, l), rest[k]) && LandsWell(f.panel, rest[k]) && WellMade(rest[k]) {
      var n := if k < i then k else k + 1;
      assert rest[k] == f.inFlight[n];
      assert Apart(f.inFlight[if n < i then n else i], f.inFlight[if n < i then i else n]);
      StillLandsWell(f.panel, rest[k], l);
    }
    forall j, k | 0 <= j < k < |rest| ensures Apart(rest[j], rest[k]) {
      assert Apart(f.inFlight[if j < i then j else j + 1], f.inFlight[if k < i then k else k + 1]);
    }
  }

  lemma BeginKeepsOrder(f: Flow, a: Action)
    requires Orderly(f) && Polite(f, Begin(a))
    ensures Orderly(Next(f, Begin(a)))
  {
    if Start(f.panel, a).Some? { StartLandsWell(f.panel, a); }
  }

  lemma ChooseKeepsOrder(f: Flow, id: string)
    requires Orderly(f)
    ensures Orderly(Next(f, Choose(id)))
  {
    var q := Next(f, Choose(id)).panel;
    forall i | 0 <= i < |f.inFlight| ensures LandsWell(q, f.inFlight[i]) {
      assert LandsWell(f.panel, f.inFlight[i]);
    }
  }

  /** Over every interleaving in which overlapping actions do not interfere, any
      of them may fail, the panel stays consistent. */
  lemma {:induction false} OverlappingRunsKeep(f: Flow, steps: seq<Step>)
    requires Orderly(f) && PoliteRun(f, steps)
    ensures Orderly(Run(f, steps))
  {
    if steps != [] {
      var init, s := steps[..|steps| - 1], steps[|steps| - 1];
      OverlappingRunsKeep(f, init);
      var g := Run(f, init);
      match s
      case Begin(a) => BeginKeepsOrder(g, a);
      case Finish(i, _) => if i < |g.inFlight| { FinishKeepsOrder(g, i); }
      case Choose(id) => ChooseKeepsOrder(g, id);
    }
  }
}
