/** Keeping each group's course count in step with the course list while requests
    overlap and answers get lost (RootGroupManagerPanel, useRootCourseGroups, the
    course group tables). */
module GroupCounters {
  import opened JsCollections

  datatype Course = Course(id: string, groupId: Option<string>)
  datatype Group = Group(id: string, courseCount: int)

  /** What the panel holds. */
  datatype Panel = Panel(
    courses: seq<Course>, manageGroups: seq<Group>, selectedGroupId: Option<string>, savingCourseId: Option<string>)

  /** A course row; the panel's list leaves out rows without a subject. */
  datatype Row = Row(id: string, groupId: Option<string>, hasSubject: bool)

  datatype Server = Server(rows: seq<Row>, groupIds: seq<string>)

  // ---- Lists and counts ----

  function CountIn(courses: seq<Course>, groupId: string): nat {
    if courses == [] then 0
    else CountIn(courses[..|courses| - 1], groupId) + if courses[|courses| - 1].groupId == Some(groupId) then 1 else 0
  }

  /** The server counts every row of a group. */
  function CountRows(rows: seq<Row>, groupId: string): nat {
    if rows == [] then 0
    else CountRows(rows[..|rows| - 1], groupId) + if rows[|rows| - 1].groupId == Some(groupId) then 1 else 0
  }

  function Find(courses: seq<Course>, id: string): Option<Course> {
    if courses == [] then None
    else if courses[|courses| - 1].id == id then Some(courses[|courses| - 1])
    else Find(courses[..|courses| - 1], id)
  }

  function PutIn(courses: seq<Course>, id: string, groupId: Option<string>): (r: seq<Course>)
    ensures |r| == |courses|
  {
    seq(|courses|, i requires 0 <= i < |courses| =>
      if courses[i].id == id then courses[i].(groupId := groupId) else courses[i])
  }

  function Ungroup(courses: seq<Course>, groupId: string): (r: seq<Course>)
    ensures |r| == |courses|
  {
    seq(|courses|, i requires 0 <= i < |courses| =>
      if courses[i].groupId == Some(groupId) then courses[i].(groupId := None) else courses[i])
  }

  function PutRow(rows: seq<Row>, id: string, groupId: Option<string>): (r: seq<Row>)
    ensures |r| == |rows|
  {
    seq(|rows|, i requires 0 <= i < |rows| => if rows[i].id == id then rows[i].(groupId := groupId) else rows[i])
  }

  function PutSubject(rows: seq<Row>, id: string, has: bool): (r: seq<Row>)
    ensures |r| == |rows|
  {
    seq(|rows|, i requires 0 <= i < |rows| => if rows[i].id == id then rows[i].(hasSubject := has) else rows[i])
  }

  function Bumped(g: Group, to: string, from: Option<string>): Group {
    if g.id == to then g.(courseCount := g.courseCount + 1)
    else if Some(g.id) == from then g.(courseCount := if g.courseCount - 1 > 0 then g.courseCount - 1 else 0)
    else g
  }

  function Bump(groups: seq<Group>, to: string, from: Option<string>): (r: seq<Group>)
    ensures |r| == |groups|
    ensures forall i :: 0 <= i < |r| ==> r[i] == Bumped(groups[i], to, from)
  {
    seq(|groups|, i requires 0 <= i < |groups| => Bumped(groups[i], to, from))
  }

  function ListGroups(s: Server): (r: seq<Group>)
    ensures |r| == |s.groupIds|
    ensures forall i :: 0 <= i < |r| ==> r[i] == Group(s.groupIds[i], CountRows(s.rows, s.groupIds[i]))
  {
    seq(|s.groupIds|, i requires 0 <= i < |s.groupIds| => Group(s.groupIds[i], CountRows(s.rows, s.groupIds[i])))
  }

  function Without(ids: seq<string>, id: string): seq<string> {
    if ids == [] then []
    else Without(ids[..|ids| - 1], id) + if ids[|ids| - 1] == id then [] else [ids[|ids| - 1]]
  }

  /** The rows with one of `ids`, as the panel holds them. */
  function Shown(rows: seq<Row>, ids: set<string>): seq<Course> {
    if rows == [] then []
    else
      var r, shown := rows[|rows| - 1], Shown(rows[..|rows| - 1], ids);
      if r.id in ids then shown + [Course(r.id, r.groupId)] else shown
  }

  function WithSubject(rows: seq<Row>): set<string> {
    set r | r in rows && r.hasSubject :: r.id
  }

  // ---- The panel's handlers, split where they await ----

  predicate AssignGoesAhead(p: Panel, courseId: string) {
    var course := Find(p.courses, courseId);
    p.selectedGroupId.Some? && p.savingCourseId.None? && course.Some? && course.value.groupId != p.selectedGroupId
  }

  /** The answer to an assignment, with the groups captured when it was sent. */
  function AfterAssigned(p: Panel, courseId: string, from: Option<string>, to: string, done: bool): Panel {
    var q := p.(savingCourseId := None);
    if !done then q
    else q.(courses := PutIn(p.courses, courseId, Some(to)), manageGroups := Bump(p.manageGroups, to, from))
  }

  /** After a delete and the first reading of the groups. */
  function AfterDeleted(p: Panel, id: string): Panel {
    p.(courses := Ungroup(p.courses, id),
       selectedGroupId := if p.selectedGroupId == Some(id) then None else p.selectedGroupId)
  }

  class RootGroupManagerPanel {
    var courses: seq<Course>
    var manageGroups: seq<Group>
    var selectedGroupId: Option<string>
    var savingCourseId: Option<string>

    ghost function State(): Panel
      reads this
    {
      Panel(courses, manageGroups, selectedGroupId, savingCourseId)
    }

    constructor (courses: seq<Course>, groups: seq<Group>)
      ensures State() == Panel(courses, groups, None, None)
    {
      this.courses, manageGroups, selectedGroupId, savingCourseId := courses, groups, None, None;
    }

    method HandleAssignCourse(courseId: string) returns (sent: Option<Request>)
      modifies this`savingCourseId
      ensures sent.Some? <==> AssignGoesAhead(old(State()), courseId)
      ensures sent.Some? ==>
        && sent.value == PutCourse(courseId, Find(courses, courseId).value.groupId, selectedGroupId.value)
        && State() == old(State()).(savingCourseId := Some(courseId))
      ensures sent.None? ==> State() == old(State())
    {
      if selectedGroupId.None? || savingCourseId.Some? { return None; }
      var course := Find(courses, courseId);
      if course.None? || course.value.groupId == selectedGroupId { return None; }
      savingCourseId := Some(courseId);
      return Some(PutCourse(courseId, course.value.groupId, selectedGroupId.value));
    }

    method OnAssigned(courseId: string, from: Option<string>, to: string, done: bool)
      modifies this
      ensures State() == AfterAssigned(old(State()), courseId, from, to, done)
    {
      if done {
        courses := PutIn(courses, courseId, Some(to));
        manageGroups := Bump(manageGroups, to, from);
      }
      savingCourseId := None;
    }

    method HandleDelete(id: string, confirmed: bool) returns (sent: Option<Request>)
      ensures sent == if confirmed then Some(DeleteGroup(id)) else None
    {
      sent := if confirmed then Some(DeleteGroup(id)) else None;
    }

    method OnDeleted(id: string)
      modifies this
      ensures State() == AfterDeleted(old(State()), id)
    {
      courses := Ungroup(courses, id);
      if selectedGroupId == Some(id) { selectedGroupId := None; }
    }

    method OnGroups(listed: seq<Group>)
      modifies this`manageGroups
      ensures State() == old(State()).(manageGroups := listed)
    {
      manageGroups := listed;
    }
  }

  // ---- Requests in flight ----

  /** `GetAll` is the first reading after a delete, `GetGroups` the one that
      replaces the counts. */
  datatype Request =
    | PutCourse(courseId: string, from: Option<string>, to: string)
    | PostGroup
    | PutName
    | DeleteGroup(groupId: string)
    | GetAll(deleted: string)
    | GetGroups

  /** A list is remembered with the server it was read from and the assignments
      made by then. */
  datatype Answer = Done | Refused | Listed(at: Server, puts: set<nat>)

  /** A lost request may already have been served, or be served later. */
  datatype Phase = Open | Landed | Lost

  datatype Flight = Flight(request: Request, answer: Option<Answer>, phase: Phase)

  /** `shown` names the courses the panel loaded, `used` every group id so far. */
  datatype Flow = Flow(panel: Panel, server: Server, shown: set<string>, used: set<string>, flights: seq<Flight>)

  /** The last one is the legacy sync giving a course a subject or taking it. */
  datatype Step =
    | Select(groupId: string)
    | Assign(courseId: string)
    | Begin(request: Request)
    | Serve(flight: nat, ok: bool, newId: string)
    | Land(flight: nat)
    | Lose(flight: nat)
    | SetSubject(courseId: string, hasSubject: bool)

  function Add(w: Flow, r: Request): Flow {
    w.(flights := w.flights + [Flight(r, None, Open)])
  }

  /** The assignments the server has made so far. */
  function Made(fl: seq<Flight>): set<nat> {
    set i | 0 <= i < |fl| && fl[i].request.PutCourse? && fl[i].answer == Some(Done)
  }

  /** What the server answers and becomes. A course row may only name an existing
      group, so it turns down an assignment to a deleted group and keeps a group
      that has rows; a new group's id was never used before. */
  function Answered(w: Flow, r: Request, ok: bool, newId: string): (Server, Answer) {
    var s := w.server;
    if !ok then (s, Refused)
    else match r
      case PutCourse(courseId, _, to) =>
        if to in s.groupIds then (s.(rows := PutRow(s.rows, courseId, Some(to))), Done) else (s, Refused)
      case PostGroup => if newId in w.used then (s, Refused) else (s.(groupIds := s.groupIds + [newId]), Done)
      case PutName => (s, Done)
      case DeleteGroup(id) =>
        if CountRows(s.rows, id) > 0 then (s, Refused) else (s.(groupIds := Without(s.groupIds, id)), Done)
      case GetAll(_) => (s, Listed(s, Made(w.flights)))
      case GetGroups => (s, Listed(s, Made(w.flights)))
  }

  function Served(w: Flow, i: nat, ok: bool, newId: string): Flow
    requires i < |w.flights|
  {
    var f := w.flights[i];
    var (server, answer) := Answered(w, f.request, ok, newId);
    w.(server := server, flights := w.flights[i := f.(answer := Some(answer))],
       used := w.used + {newId} + if f.request.DeleteGroup? then {f.request.groupId} else {})
  }

  /** The panel and the next request after an answer landed. */
  function AfterAnswer(p: Panel, r: Request, a: Answer): Panel {
    match r
    case PutCourse(courseId, from, to) => AfterAssigned(p, courseId, from, to, a.Done?)
    case GetAll(id) => if a.Listed? then AfterDeleted(p, id) else p
    case GetGroups => if a.Listed? then p.(manageGroups := ListGroups(a.at)) else p
    case _ => p
  }

  function FollowUp(r: Request, a: Answer): Option<Request> {
    match r
    case PostGroup => if a.Done? then Some(GetGroups) else None
    case PutName => if a.Done? then Some(GetGroups) else None
    case DeleteGroup(id) => if a.Done? then Some(GetAll(id)) else None
    case GetAll(_) => if a.Listed? then Some(GetGroups) else None
    case _ => None
  }

  function Closing(w: Flow, i: nat): Flow
    requires i < |w.flights| && w.flights[i].answer.Some?
  {
    var f := w.flights[i];
    w.(panel := AfterAnswer(w.panel, f.request, f.answer.value), flights := w.flights[i := f.(phase := Landed)])
  }

  function Landing(w: Flow, i: nat): Flow
    requires i < |w.flights| && w.flights[i].answer.Some?
  {
    var next := FollowUp(w.flights[i].request, w.flights[i].answer.value);
    if next.Some? then Add(Closing(w, i), next.value) else Closing(w, i)
  }

  /** The user only starts creating, renaming and deleting; the readings follow. */
  predicate Startable(r: Request) {
    r.PostGroup? || r.PutName? || r.DeleteGroup?
  }

  predicate CanLand(w: Flow, i: nat) {
    i < |w.flights| && w.flights[i].phase.Open? && w.flights[i].answer.Some?
  }

  function Next(w: Flow, s: Step): Flow {
    match s
    case Select(id) => w.(panel := w.panel.(selectedGroupId := Some(id)))
    case Assign(courseId) =>
      if !AssignGoesAhead(w.panel, courseId) then w
      else Add(w.(panel := w.panel.(savingCourseId := Some(courseId))),
               PutCourse(courseId, Find(w.panel.courses, courseId).value.groupId, w.panel.selectedGroupId.value))
    case Begin(r) => if Startable(r) then Add(w, r) else w
    case Serve(i, ok, newId) =>
      if i < |w.flights| && w.flights[i].answer.None? then Served(w, i, ok, newId) else w
    case Land(i) => if CanLand(w, i) then Landing(w, i) else w
    case Lose(i) =>
      if i >= |w.flights| || !w.flights[i].phase.Open? then w
      else
        var f := w.flights[i];
        w.(flights := w.flights[i := f.(phase := Lost)],
           panel := if f.request.PutCourse? then w.panel.(savingCourseId := None) else w.panel)
    case SetSubject(courseId, has) => w.(server := w.server.(rows := PutSubject(w.server.rows, courseId, has)))
  }

  function Run(w: Flow, steps: seq<Step>): Flow {
    if steps == [] then w else Next(Run(w, steps[..|steps| - 1]), steps[|steps| - 1])
  }

  /** A panel that has just read both lists. */
  function Opened(s: Server): Flow {
    var ids := WithSubject(s.rows);
    Flow(Panel(Shown(s.rows, ids), ListGroups(s), None, None), s, ids, (set g | g in s.groupIds), [])
  }

  // ---- What every run keeps ----

  ghost predicate ServerOk(s: Server) {
    && (forall i, j :: 0 <= i < j < |s.rows| ==> s.rows[i].id != s.rows[j].id)
    && Distinct(s.groupIds)
    && forall i :: 0 <= i < |s.rows| && s.rows[i].groupId.Some? ==> s.rows[i].groupId.value in s.groupIds
  }

  ghost predicate SameIds(a: seq<Course>, b: seq<Course>) {
    |a| == |b| && forall i :: 0 <= i < |a| ==> a[i].id == b[i].id
  }

  predicate PutOf(f: Flight, id: string) {
    f.request.PutCourse? && f.request.courseId == id
  }

  /** An assignment of the course was made and its answer has not landed. */
  predicate Hanging(f: Flight, id: string) {
    PutOf(f, id) && f.answer == Some(Done) && !f.phase.Landed?
  }

  predicate Finished(f: Flight) {
    f.answer.Some? && !f.phase.Open?
  }

  /** Here and below only flights from `lo` on are looked at; earlier ones are finished. */
  ghost predicate Unlanded(fl: seq<Flight>, lo: nat, id: string) {
    exists i :: lo <= i < |fl| && Hanging(fl[i], id)
  }

  /** One was made and its answer is lost; `within` tells which ones count. */
  ghost predicate LostMade(fl: seq<Flight>, lo: nat, within: set<nat>, id: string) {
    exists i :: lo <= i < |fl| && i in within && Hanging(fl[i], id) && fl[i].phase.Lost?
  }

  /** The panel shows a course in the server's group, or an assignment of it was
      made whose answer has not landed. */
  ghost predicate CourseOk(w: Flow, lo: nat, j: nat)
    requires j < |w.panel.courses| && SameIds(w.panel.courses, Shown(w.server.rows, w.shown))
  {
    || w.panel.courses[j].groupId == Shown(w.server.rows, w.shown)[j].groupId
    || Unlanded(w.flights, lo, w.panel.courses[j].id)
  }

  /** An open assignment still has the course's group unless a deletion took the
      course out; one that was made is the server's last word on its course unless
      a lost one was made as well. */
  ghost predicate PutOk(w: Flow, lo: nat, i: nat, j: nat)
    requires i < |w.flights| && j < |w.panel.courses| && SameIds(w.panel.courses, Shown(w.server.rows, w.shown))
  {
    PutOf(w.flights[i], w.panel.courses[j].id) && w.flights[i].phase.Open? ==>
      && (w.panel.courses[j].groupId == w.flights[i].request.from || w.panel.courses[j].groupId == None)
      && (w.flights[i].answer == Some(Done) ==>
            || Shown(w.server.rows, w.shown)[j].groupId == Some(w.flights[i].request.to)
            || LostMade(w.flights, lo, Made(w.flights), w.panel.courses[j].id))
  }

  ghost predicate FlightOk(w: Flow, lo: nat, i: nat)
    requires i < |w.flights|
  {
    var f := w.flights[i];
    && (i < lo ==> Finished(f))
    && (f.phase.Landed? ==> f.answer.Some?)
    && (f.request.PutCourse? && !Finished(f) ==>
          exists j :: 0 <= j < |w.panel.courses| && w.panel.courses[j].id == f.request.courseId)
    && (f.phase.Open? ==>
          && (f.answer.Some? && f.answer.value.Listed? ==>
                && !f.request.PutCourse? && ServerOk(f.answer.value.at)
                && SameIds(w.panel.courses, Shown(f.answer.value.at.rows, w.shown)))
          && (f.request.PutCourse? ==>
                w.panel.savingCourseId.Some? && f.request.from != Some(f.request.to))
          && (f.request.GetAll? ==> f.request.deleted in w.used && f.request.deleted !in w.server.groupIds)
          && (f.request.DeleteGroup? && f.answer == Some(Done) ==>
                f.request.groupId in w.used && f.request.groupId !in w.server.groupIds))
  }

  /** The page sends no assignment while another is open. */
  ghost predicate OneOpenPut(fl: seq<Flight>) {
    forall i, j :: 0 <= i < |fl| && 0 <= j < |fl| && OpenPut(fl[i]) && OpenPut(fl[j]) ==> i == j
  }

  predicate OpenPut(f: Flight) {
    f.request.PutCourse? && f.phase.Open?
  }

  ghost predicate Inv(w: Flow, lo: nat) {
    && ServerOk(w.server) && (forall g :: g in w.server.groupIds ==> g in w.used)
    && SameIds(w.panel.courses, Shown(w.server.rows, w.shown))
    && lo <= |w.flights| && OneOpenPut(w.flights)
    && (forall i :: 0 <= i < |w.flights| ==> FlightOk(w, lo, i))
    && (forall j :: 0 <= j < |w.panel.courses| ==> CourseOk(w, lo, j))
    && (forall i, j :: 0 <= i < |w.flights| && 0 <= j < |w.panel.courses| ==> PutOk(w, lo, i, j))
  }

  lemma {:induction false} ShownAfterPut(rows: seq<Row>, ids: set<string>, id: string, g: Option<string>)
    ensures Shown(PutRow(rows, id, g), ids) == PutIn(Shown(rows, ids), id, g)
  {
    if rows != [] {
      var n := |rows| - 1;
      assert PutRow(rows, id, g)[..n] == PutRow(rows[..n], id, g);
      ShownAfterPut(rows[..n], ids, id, g);
    }
  }

  lemma {:induction false} ShownAfterSubject(rows: seq<Row>, ids: set<string>, id: string, has: bool)
    ensures Shown(PutSubject(rows, id, has), ids) == Shown(rows, ids)
  {
    if rows != [] {
      var n := |rows| - 1;
      assert PutSubject(rows, id, has)[..n] == PutSubject(rows[..n], id, has);
      ShownAfterSubject(rows[..n], ids, id, has);
    }
  }

  lemma {:induction false} NoRowsNoCourses(rows: seq<Row>, ids: set<string>, g: string)
    requires CountRows(rows, g) == 0
    ensures Ungroup(Shown(rows, ids), g) == Shown(rows, ids)
    ensures forall i :: 0 <= i < |rows| ==> rows[i].groupId != Some(g)
  {
    if rows != [] {
      var n := |rows| - 1;
      NoRowsNoCourses(rows[..n], ids, g);
      assert forall i :: 0 <= i < n ==> rows[i] == rows[..n][i];
    }
  }

  lemma {:induction false} WithoutMembers(ids: seq<string>, id: string, x: string)
    ensures x in Without(ids, id) <==> x in ids && x != id
  {
    if ids != [] {
      WithoutMembers(ids[..|ids| - 1], id, x);
      assert ids == ids[..|ids| - 1] + [ids[|ids| - 1]];
    }
  }

  lemma {:induction false} WithoutKeepsDistinct(ids: seq<string>, id: string)
    requires Distinct(ids)
    ensures Distinct(Without(ids, id))
  {
    if ids != [] {
      var init := ids[..|ids| - 1];
      WithoutKeepsDistinct(init, id);
      forall i | 0 <= i < |Without(init, id)| ensures Without(init, id)[i] != ids[|ids| - 1] {
        WithoutMembers(init, id, Without(init, id)[i]);
      }
    }
  }

  lemma {:induction false} FoundAt(courses: seq<Course>, id: string) returns (j: nat)
    requires Find(courses, id).Some?
    ensures j < |courses| && courses[j] == Find(courses, id).value && courses[j].id == id
  {
    j := |courses| - 1;
    if courses[j].id != id { j := FoundAt(courses[..j], id); }
  }

  lemma DeleteKeepsServer(s: Server, id: string)
    requires ServerOk(s) && CountRows(s.rows, id) == 0
    ensures ServerOk(s.(groupIds := Without(s.groupIds, id)))
  {
    WithoutKeepsDistinct(s.groupIds, id);
    NoRowsNoCourses(s.rows, {}, id);
    forall i | 0 <= i < |s.rows| && s.rows[i].groupId.Some? ensures s.rows[i].groupId.value in Without(s.groupIds, id) {
      WithoutMembers(s.groupIds, id, s.rows[i].groupId.value);
    }
  }

  /** Hanging and lost assignments stay so when a flight is added. */
  lemma AddKeepsHanging(fl: seq<Flight>, f: Flight, lo: nat, id: string)
    requires lo <= |fl|
    ensures Unlanded(fl, lo, id) ==> Unlanded(fl + [f], lo, id)
    ensures LostMade(fl, lo, Made(fl), id) ==> LostMade(fl + [f], lo, Made(fl + [f]), id)
  {
    var all := fl + [f];
    if Unlanded(fl, lo, id) {
      var i :| lo <= i < |fl| && Hanging(fl[i], id);
      assert Hanging(all[i], id);
    }
    if LostMade(fl, lo, Made(fl), id) {
      var i :| lo <= i < |fl| && i in Made(fl) && Hanging(fl[i], id) && fl[i].phase.Lost?;
      assert Hanging(all[i], id) && i in Made(all);
    }
  }

  /** And when a flight changes that was not hanging or is hanging still. */
  lemma SetKeepsHanging(fl: seq<Flight>, i: nat, f: Flight, lo: nat, id: string)
    requires i < |fl| && (Hanging(fl[i], id) ==> Hanging(f, id) && (fl[i].phase.Lost? ==> f.phase.Lost?))
    ensures Unlanded(fl, lo, id) ==> Unlanded(fl[i := f], lo, id)
    ensures LostMade(fl, lo, Made(fl), id) ==> LostMade(fl[i := f], lo, Made(fl[i := f]), id)
  {
    var all := fl[i := f];
    if Unlanded(fl, lo, id) {
      var k :| lo <= k < |fl| && Hanging(fl[k], id);
      assert Hanging(all[k], id);
    }
    if LostMade(fl, lo, Made(fl), id) {
      var k :| lo <= k < |fl| && k in Made(fl) && Hanging(fl[k], id) && fl[k].phase.Lost?;
      assert Hanging(all[k], id) && k in Made(all);
    }
  }

  lemma OpenKeeps(w: Flow, lo: nat, r: Request)
    requires Inv(w, lo) && !r.PutCourse?
    requires r.GetAll? ==> r.deleted in w.used && r.deleted !in w.server.groupIds
    ensures Inv(Add(w, r), lo)
  {
    var v := Add(w, r);
    forall j | 0 <= j < |v.panel.courses| ensures CourseOk(v, lo, j) {
      assert CourseOk(w, lo, j);
      AddKeepsHanging(w.flights, Flight(r, None, Open), lo, v.panel.courses[j].id);
    }
    forall i, j | 0 <= i < |v.flights| && 0 <= j < |v.panel.courses| ensures PutOk(v, lo, i, j) {
      if i < |w.flights| { assert PutOk(w, lo, i, j); }
      AddKeepsHanging(w.flights, Flight(r, None, Open), lo, v.panel.courses[j].id);
    }
    forall i | 0 <= i < |v.flights| ensures FlightOk(v, lo, i) {
      if i < |w.flights| { assert FlightOk(w, lo, i); }
    }
  }

  lemma AssignKeeps(w: Flow, lo: nat, courseId: string)
    requires Inv(w, lo)
    ensures Inv(Next(w, Assign(courseId)), lo)
  {
    if AssignGoesAhead(w.panel, courseId) {
      var v := Next(w, Assign(courseId));
      var f := v.flights[|w.flights|];
      var at := FoundAt(w.panel.courses, courseId);
      CoursesDiffer(w, lo);
      forall j | 0 <= j < |v.panel.courses| ensures CourseOk(v, lo, j) {
        assert CourseOk(w, lo, j);
        AddKeepsHanging(w.flights, f, lo, v.panel.courses[j].id);
      }
      forall i, j | 0 <= i < |v.flights| && 0 <= j < |v.panel.courses| ensures PutOk(v, lo, i, j) {
        if i < |w.flights| { assert PutOk(w, lo, i, j); }
        AddKeepsHanging(w.flights, f, lo, v.panel.courses[j].id);
      }
      forall i | 0 <= i < |v.flights| ensures FlightOk(v, lo, i) && (i < |w.flights| ==> !OpenPut(v.flights[i])) {
        if i < |w.flights| {
          assert FlightOk(w, lo, i);
        } else {
          assert v.panel.courses[at].id == f.request.courseId;
        }
      }
    }
  }

  lemma ServeKeepsServer(w: Flow, lo: nat, i: nat, ok: bool, newId: string)
    requires Inv(w, lo) && i < |w.flights| && w.flights[i].answer.None?
    ensures var v := Served(w, i, ok, newId);
      && ServerOk(v.server)
      && (forall g :: g in v.server.groupIds ==> g in v.used && (g in w.server.groupIds || g !in w.used))
      && Shown(v.server.rows, w.shown) ==
           if w.flights[i].request.PutCourse? && v.flights[i].answer == Some(Done)
           then PutIn(Shown(w.server.rows, w.shown), w.flights[i].request.courseId, Some(w.flights[i].request.to))
           else Shown(w.server.rows, w.shown)
  {
    var r := w.flights[i].request;
    match r
    case PutCourse(courseId, _, to) =>
      ShownAfterPut(w.server.rows, w.shown, courseId, Some(to));
      var rows := PutRow(w.server.rows, courseId, Some(to));
      assert forall k :: 0 <= k < |rows| ==> rows[k].id == w.server.rows[k].id;
    case DeleteGroup(id) =>
      if CountRows(w.server.rows, id) == 0 {
        DeleteKeepsServer(w.server, id);
        forall g | g in Without(w.server.groupIds, id) ensures g in w.server.groupIds {
          WithoutMembers(w.server.groupIds, id, g);
        }
      }
    case _ =>
  }

  lemma ServeKeeps(w: Flow, lo: nat, i: nat, ok: bool, newId: string)
    requires Inv(w, lo) && i < |w.flights| && w.flights[i].answer.None?
    ensures Inv(Served(w, i, ok, newId), lo)
  {
    var v, f := Served(w, i, ok, newId), w.flights[i];
    ServeKeepsServer(w, lo, i, ok, newId);
    assert FlightOk(w, lo, i);
    forall j | 0 <= j < |v.panel.courses| ensures CourseOk(v, lo, j) {
      assert CourseOk(w, lo, j);
      SetKeepsHanging(w.flights, i, v.flights[i], lo, v.panel.courses[j].id);
      if PutOf(f, v.panel.courses[j].id) && v.flights[i].answer == Some(Done) {
        assert Hanging(v.flights[i], v.panel.courses[j].id);
      }
    }
    forall k, j | 0 <= k < |v.flights| && 0 <= j < |v.panel.courses| ensures PutOk(v, lo, k, j) {
      assert PutOk(w, lo, k, j);
      SetKeepsHanging(w.flights, i, v.flights[i], lo, v.panel.courses[j].id);
      if PutOf(f, v.panel.courses[j].id) && v.flights[i].answer == Some(Done) && k != i {
        assert Hanging(v.flights[i], v.panel.courses[j].id) && i in Made(v.flights);
      }
    }
    ServeKeepsFlights(w, lo, i, ok, newId);
  }

  lemma ServeKeepsFlights(w: Flow, lo: nat, i: nat, ok: bool, newId: string)
    requires Inv(w, lo) && i < |w.flights| && w.flights[i].answer.None?
    ensures var v := Served(w, i, ok, newId);
      OneOpenPut(v.flights) && forall k :: 0 <= k < |v.flights| ==> FlightOk(v, lo, k)
  {
    var v, r := Served(w, i, ok, newId), w.flights[i].request;
    ServeKeepsServer(w, lo, i, ok, newId);
    forall k | 0 <= k < |v.flights| ensures FlightOk(v, lo, k) {
      assert FlightOk(w, lo, k);
      if k == i && r.DeleteGroup? && v.flights[i].answer == Some(Done) {
        WithoutMembers(w.server.groupIds, r.groupId, r.groupId);
      }
    }
    assert forall k :: 0 <= k < |v.flights| ==> (OpenPut(v.flights[k]) <==> OpenPut(w.flights[k]));
  }

  lemma LoseKeeps(w: Flow, lo: nat, i: nat)
    requires Inv(w, lo)
    ensures Inv(Next(w, Lose(i)), lo)
  {
    var v := Next(w, Lose(i));
    if v != w {
      assert FlightOk(w, lo, i);
      forall j | 0 <= j < |v.panel.courses| ensures CourseOk(v, lo, j) {
        assert CourseOk(w, lo, j);
        SetKeepsHanging(w.flights, i, v.flights[i], lo, v.panel.courses[j].id);
      }
      forall k, j | 0 <= k < |v.flights| && 0 <= j < |v.panel.courses| ensures PutOk(v, lo, k, j) {
        assert PutOk(w, lo, k, j);
        SetKeepsHanging(w.flights, i, v.flights[i], lo, v.panel.courses[j].id);
      }
      forall k | 0 <= k < |v.flights| ensures FlightOk(v, lo, k) && (OpenPut(v.flights[k]) ==> OpenPut(w.flights[k])) {
        assert FlightOk(w, lo, k);
      }
    }
  }

  lemma CloseKeeps(w: Flow, lo: nat, i: nat)
    requires Inv(w, lo) && CanLand(w, i)
    ensures Inv(Closing(w, i), lo)
  {
    var v, f := Closing(w, i), w.flights[i];
    assert FlightOk(w, lo, i);
    forall j | 0 <= j < |v.panel.courses| ensures CourseOk(v, lo, j) {
      assert CourseOk(w, lo, j) && PutOk(w, lo, i, j);
      CloseKeepsCourse(w, lo, i, j);
    }
    forall k, j | 0 <= k < |v.flights| && 0 <= j < |v.panel.courses| ensures PutOk(v, lo, k, j) {
      assert PutOk(w, lo, k, j);
      if !Hanging(f, v.panel.courses[j].id) {
        SetKeepsHanging(w.flights, i, v.flights[i], lo, v.panel.courses[j].id);
      }
    }
    forall k | 0 <= k < |v.flights| ensures FlightOk(v, lo, k) && (OpenPut(v.flights[k]) ==> OpenPut(w.flights[k])) {
      assert FlightOk(w, lo, k);
      assert OpenPut(v.flights[k]) ==> OpenPut(w.flights[k]);
      if v.flights[k].request.PutCourse? && !Finished(v.flights[k]) {
        var j :| 0 <= j < |w.panel.courses| && w.panel.courses[j].id == w.flights[k].request.courseId;
        assert v.panel.courses[j].id == w.panel.courses[j].id;
      }
    }
  }

  lemma CloseKeepsCourse(w: Flow, lo: nat, i: nat, j: nat)
    requires Inv(w, lo) && CanLand(w, i) && j < |w.panel.courses| && SameIds(w.panel.courses, Closing(w, i).panel.courses)
    requires CourseOk(w, lo, j) && PutOk(w, lo, i, j)
    ensures CourseOk(Closing(w, i), lo, j)
  {
    var v, f, id := Closing(w, i), w.flights[i], w.panel.courses[j].id;
    assert FlightOk(w, lo, i);
    if Hanging(f, id) {
      if LostMade(w.flights, lo, Made(w.flights), id) {
        var k :| lo <= k < |w.flights| && Hanging(w.flights[k], id) && w.flights[k].phase.Lost?;
        assert Hanging(v.flights[k], id);
      }
    } else {
      SetKeepsHanging(w.flights, i, v.flights[i], lo, id);
      if v.panel.courses[j] != w.panel.courses[j] && Shown(w.server.rows, w.shown)[j].groupId.Some? {
        ShownGroupExists(w.server, w.shown, j);
      }
    }
  }

  lemma {:induction false} ShownGroupExists(s: Server, ids: set<string>, j: nat)
    requires ServerOk(s) && j < |Shown(s.rows, ids)| && Shown(s.rows, ids)[j].groupId.Some?
    ensures Shown(s.rows, ids)[j].groupId.value in s.groupIds
    decreases |s.rows|
  {
    var n := |s.rows| - 1;
    var init := s.(rows := s.rows[..n]);
    if j < |Shown(init.rows, ids)| { ShownGroupExists(init, ids, j); }
  }

  lemma LandKeeps(w: Flow, lo: nat, i: nat)
    requires Inv(w, lo) && CanLand(w, i)
    ensures Inv(Landing(w, i), lo)
  {
    CloseKeeps(w, lo, i);
    assert FlightOk(w, lo, i);
    var next := FollowUp(w.flights[i].request, w.flights[i].answer.value);
    if next.Some? { OpenKeeps(Closing(w, i), lo, next.value); }
  }

  lemma SubjectKeeps(w: Flow, lo: nat, id: string, has: bool)
    requires Inv(w, lo)
    ensures Inv(Next(w, SetSubject(id, has)), lo)
  {
    var v := Next(w, SetSubject(id, has));
    ShownAfterSubject(w.server.rows, w.shown, id, has);
    assert forall k :: 0 <= k < |v.server.rows| ==> v.server.rows[k].id == w.server.rows[k].id;
    forall j | 0 <= j < |v.panel.courses| ensures CourseOk(v, lo, j) { assert CourseOk(w, lo, j); }
    forall i, j | 0 <= i < |v.flights| && 0 <= j < |v.panel.courses| ensures PutOk(v, lo, i, j) {
      assert PutOk(w, lo, i, j);
    }
    forall i | 0 <= i < |v.flights| ensures FlightOk(v, lo, i) { assert FlightOk(w, lo, i); }
  }

  lemma SelectKeeps(w: Flow, lo: nat, id: string)
    requires Inv(w, lo)
    ensures Inv(Next(w, Select(id)), lo)
  {
    var v := Next(w, Select(id));
    forall j | 0 <= j < |v.panel.courses| ensures CourseOk(v, lo, j) { assert CourseOk(w, lo, j); }
    forall i, j | 0 <= i < |v.flights| && 0 <= j < |v.panel.courses| ensures PutOk(v, lo, i, j) {
      assert PutOk(w, lo, i, j);
    }
    forall i | 0 <= i < |v.flights| ensures FlightOk(v, lo, i) { assert FlightOk(w, lo, i); }
  }

  lemma StepKeeps(w: Flow, lo: nat, s: Step)
    requires Inv(w, lo)
    ensures Inv(Next(w, s), lo)
  {
    match s
    case Select(id) => SelectKeeps(w, lo, id);
    case Assign(courseId) => AssignKeeps(w, lo, courseId);
    case Begin(r) => if Startable(r) { OpenKeeps(w, lo, r); }
    case Serve(i, ok, newId) =>
      if i < |w.flights| && w.flights[i].answer.None? { ServeKeeps(w, lo, i, ok, newId); }
    case Land(i) => if CanLand(w, i) { LandKeeps(w, lo, i); }
    case Lose(i) => LoseKeeps(w, lo, i);
    case SetSubject(id, has) => SubjectKeeps(w, lo, id, has);
  }

  lemma {:induction false} RunKeeps(w: Flow, lo: nat, steps: seq<Step>)
    requires Inv(w, lo)
    ensures Inv(Run(w, steps), lo)
  {
    if steps != [] {
      RunKeeps(w, lo, steps[..|steps| - 1]);
      StepKeeps(Run(w, steps[..|steps| - 1]), lo, steps[|steps| - 1]);
    }
  }

  /** Nothing is in flight and the panel's list is the server's. */
  ghost predicate Settled(w: Flow) {
    && ServerOk(w.server) && (forall g :: g in w.server.groupIds ==> g in w.used)
    && w.panel.courses == Shown(w.server.rows, w.shown)
    && forall i :: 0 <= i < |w.flights| ==> Finished(w.flights[i])
  }

  lemma SettledKeeps(w: Flow)
    requires Settled(w)
    ensures Inv(w, |w.flights|)
  {
    assert forall i :: 0 <= i < |w.flights| ==> Finished(w.flights[i]);
  }

  /** Over every interleaving of requests, answers and losses, a course shown in
      another group than the server's has an assignment that was made and whose
      answer has not landed. */
  lemma AlwaysMatches(w: Flow, steps: seq<Step>, j: nat)
    requires Settled(w) && j < |w.panel.courses|
    ensures var v := Run(w, steps);
      var now := Shown(v.server.rows, w.shown);
      && |now| == |v.panel.courses| == |w.panel.courses|
      && now[j].id == v.panel.courses[j].id == w.panel.courses[j].id
      && (v.panel.courses[j].groupId == now[j].groupId || Unlanded(v.flights, |w.flights|, now[j].id))
  {
    SettledKeeps(w);
    RunKeeps(w, |w.flights|, steps);
    RunKeepsIds(w, |w.flights|, steps);
    assert CourseOk(Run(w, steps), |w.flights|, j);
  }

  lemma {:induction false} RunKeepsIds(w: Flow, lo: nat, steps: seq<Step>)
    requires Inv(w, lo)
    ensures Run(w, steps).shown == w.shown && SameIds(Run(w, steps).panel.courses, w.panel.courses)
  {
    if steps != [] { RunKeepsIds(w, lo, steps[..|steps| - 1]); }
  }

  /** The page warns that a deleted group's courses become ungrouped; the server
      changes no row then, and the panel ungroups a course only if an assignment of
      it was made whose answer has not landed. */
  lemma DeleteNeverUngroups(w: Flow, lo: nat, i: nat, ok: bool, newId: string)
    requires Inv(w, lo) && i < |w.flights|
    ensures w.flights[i].request.DeleteGroup? ==> Served(w, i, ok, newId).server.rows == w.server.rows
    ensures CanLand(w, i) && w.flights[i].request.GetAll? ==>
      forall j :: 0 <= j < |w.panel.courses| && Landing(w, i).panel.courses[j] != w.panel.courses[j] ==>
        Unlanded(w.flights, lo, w.panel.courses[j].id)
  {
    assert FlightOk(w, lo, i);
    if CanLand(w, i) && w.flights[i].request.GetAll? {
      forall j | 0 <= j < |w.panel.courses| && Landing(w, i).panel.courses[j] != w.panel.courses[j]
        ensures Unlanded(w.flights, lo, w.panel.courses[j].id)
      {
        assert CourseOk(w, lo, j);
        if Shown(w.server.rows, w.shown)[j].groupId.Some? { ShownGroupExists(w.server, w.shown, j); }
      }
    }
  }

  // ---- Counts ----

  /** Each group's count is the number of courses pointing at it. */
  ghost predicate Agrees(p: Panel) {
    && (forall i, j :: 0 <= i < j < |p.manageGroups| ==> p.manageGroups[i].id != p.manageGroups[j].id)
    && forall i :: 0 <= i < |p.manageGroups| ==>
         p.manageGroups[i].courseCount == CountIn(p.courses, p.manageGroups[i].id)
  }

  /** Every grouped course is one the panel shows. */
  ghost predicate NothingHidden(rows: seq<Row>, ids: set<string>) {
    forall i :: 0 <= i < |rows| && rows[i].groupId.Some? ==> rows[i].id in ids
  }

  ghost predicate IsListed(p: Panel, groupId: string) {
    exists i :: 0 <= i < |p.manageGroups| && p.manageGroups[i].id == groupId
  }

  function RowsIn(rows: seq<Row>, groupId: string): set<string> {
    set r | r in rows && r.groupId == Some(groupId) :: r.id
  }

  function CoursesIn(courses: seq<Course>, groupId: string): set<string> {
    set c | c in courses && c.groupId == Some(groupId) :: c.id
  }

  lemma {:induction false} CountsShown(rows: seq<Row>, ids: set<string>, g: string)
    ensures CountIn(Shown(rows, ids), g) <= CountRows(rows, g)
    ensures CountIn(Shown(rows, ids), g) == CountRows(rows, g)
            <==> forall i :: 0 <= i < |rows| && rows[i].groupId == Some(g) ==> rows[i].id in ids
  {
    if rows != [] {
      var n := |rows| - 1;
      CountsShown(rows[..n], ids, g);
      CountSnoc(Shown(rows[..n], ids), Course(rows[n].id, rows[n].groupId), g);
      assert forall i :: 0 <= i < n ==> rows[i] == rows[..n][i];
    }
  }

  lemma CountSnoc(courses: seq<Course>, c: Course, g: string)
    ensures CountIn(courses + [c], g) == CountIn(courses, g) + if c.groupId == Some(g) then 1 else 0
  {
    assert (courses + [c])[..|courses|] == courses;
  }

  ghost predicate UniqueCourses(courses: seq<Course>) {
    forall i, j :: 0 <= i < j < |courses| ==> courses[i].id != courses[j].id
  }

  lemma {:induction false} CountAfterPut(courses: seq<Course>, id: string, to: Option<string>, g: string)
    requires UniqueCourses(courses) && Find(courses, id).Some?
    ensures var from := Find(courses, id).value.groupId;
      CountIn(PutIn(courses, id, to), g) ==
        CountIn(courses, g) - (if from == Some(g) then 1 else 0) + (if to == Some(g) then 1 else 0)
    ensures Find(courses, id).value.groupId == Some(g) ==> CountIn(courses, g) >= 1
  {
    var n := |courses| - 1;
    var init, last := courses[..n], courses[n];
    var put := PutIn(courses, id, to);
    if last.id == id {
      assert put[..n] == init;
    } else {
      CountAfterPut(init, id, to, g);
      assert put[..n] == PutIn(init, id, to);
    }
  }

  lemma {:induction false} ShownIdsDiffer(rows: seq<Row>, ids: set<string>)
    requires forall i, j :: 0 <= i < j < |rows| ==> rows[i].id != rows[j].id
    ensures UniqueCourses(Shown(rows, ids))
    ensures forall c :: c in Shown(rows, ids) ==> exists i :: 0 <= i < |rows| && rows[i].id == c.id
  {
    if rows != [] {
      var n := |rows| - 1;
      ShownIdsDiffer(rows[..n], ids);
      var shown := Shown(rows[..n], ids);
      forall i | 0 <= i < |shown| ensures shown[i].id != rows[n].id {
        assert shown[i] in shown;
        var j :| 0 <= j < n && rows[..n][j].id == shown[i].id;
      }
      forall c | c in Shown(rows, ids) ensures exists i :: 0 <= i < |rows| && rows[i].id == c.id {
        if c in shown {
          var j :| 0 <= j < n && rows[..n][j].id == c.id;
          assert rows[j].id == c.id;
        } else {
          assert rows[n].id == c.id;
        }
      }
    }
  }

  lemma RowsInSnoc(rows: seq<Row>, r: Row, g: string)
    ensures RowsIn(rows + [r], g) == RowsIn(rows, g) + if r.groupId == Some(g) then {r.id} else {}
  {
    assert forall x :: x in rows + [r] <==> x in rows || x == r;
  }

  lemma {:induction false} RowsAreCounted(rows: seq<Row>, g: string)
    requires forall i, j :: 0 <= i < j < |rows| ==> rows[i].id != rows[j].id
    ensures CountRows(rows, g) == |RowsIn(rows, g)|
  {
    if rows != [] {
      var init, r := rows[..|rows| - 1], rows[|rows| - 1];
      RowsAreCounted(init, g);
      RowsInSnoc(init, r, g);
      assert rows == init + [r];
      assert r.id !in RowsIn(init, g);
    }
  }

  lemma CoursesInSnoc(courses: seq<Course>, c: Course, g: string)
    ensures CoursesIn(courses + [c], g) == CoursesIn(courses, g) + if c.groupId == Some(g) then {c.id} else {}
  {
    assert forall x :: x in courses + [c] <==> x in courses || x == c;
  }

  lemma {:induction false} CoursesAreCounted(courses: seq<Course>, g: string)
    requires UniqueCourses(courses)
    ensures CountIn(courses, g) == |CoursesIn(courses, g)|
  {
    if courses != [] {
      var init, c := courses[..|courses| - 1], courses[|courses| - 1];
      CoursesAreCounted(init, g);
      CoursesInSnoc(init, c, g);
      assert courses == init + [c];
      assert c.id !in CoursesIn(init, g);
    }
  }

  lemma DifferencesDecide(a: set<string>, b: set<string>)
    ensures |a| == |b| <==> |a - b| == |b - a|
  {
    assert a == (a - b) + (a * b) && b == (b - a) + (a * b);
  }

  /** Each listed group has as many courses the panel does not show in it as the
      panel shows in it and the list does not have there. */
  ghost predicate Balanced(courses: seq<Course>, at: Server) {
    forall g :: g in at.groupIds ==>
      |RowsIn(at.rows, g) - CoursesIn(courses, g)| == |CoursesIn(courses, g) - RowsIn(at.rows, g)|
  }

  lemma CoursesDiffer(w: Flow, lo: nat)
    requires Inv(w, lo)
    ensures UniqueCourses(w.panel.courses)
  {
    ShownIdsDiffer(w.server.rows, w.shown);
    var shown := Shown(w.server.rows, w.shown);
    forall i, j | 0 <= i < j < |w.panel.courses| ensures w.panel.courses[i].id != w.panel.courses[j].id {
      assert w.panel.courses[i].id == shown[i].id && w.panel.courses[j].id == shown[j].id;
    }
  }

  /** Whatever the panel holds, a list of the groups makes the counts right exactly
      when it is balanced against the courses shown. */
  lemma RefetchAgreesExactly(p: Panel, at: Server)
    requires UniqueCourses(p.courses) && ServerOk(at)
    ensures Agrees(p.(manageGroups := ListGroups(at))) <==> Balanced(p.courses, at)
  {
    var q := p.(manageGroups := ListGroups(at));
    forall i | 0 <= i < |at.groupIds|
      ensures q.manageGroups[i].courseCount == CountIn(p.courses, q.manageGroups[i].id)
              <==> |RowsIn(at.rows, at.groupIds[i]) - CoursesIn(p.courses, at.groupIds[i])|
                   == |CoursesIn(p.courses, at.groupIds[i]) - RowsIn(at.rows, at.groupIds[i])|
    {
      RowsAreCounted(at.rows, at.groupIds[i]);
      CoursesAreCounted(p.courses, at.groupIds[i]);
      DifferencesDecide(RowsIn(at.rows, at.groupIds[i]), CoursesIn(p.courses, at.groupIds[i]));
    }
    if Agrees(q) {
      forall g | g in at.groupIds
        ensures |RowsIn(at.rows, g) - CoursesIn(p.courses, g)| == |CoursesIn(p.courses, g) - RowsIn(at.rows, g)|
      {
        var i :| 0 <= i < |at.groupIds| && at.groupIds[i] == g;
        assert q.manageGroups[i].courseCount == CountIn(p.courses, q.manageGroups[i].id);
      }
    }
  }

  /** While the panel's list is the server's, that is when no grouped course is
      missing from it. */
  lemma CurrentListAgreesExactly(p: Panel, at: Server, ids: set<string>)
    requires ServerOk(at) && p.courses == Shown(at.rows, ids)
    ensures Agrees(p.(manageGroups := ListGroups(at))) <==> NothingHidden(at.rows, ids)
  {
    var q := p.(manageGroups := ListGroups(at));
    forall i | 0 <= i < |at.groupIds|
      ensures q.manageGroups[i].courseCount == CountIn(p.courses, q.manageGroups[i].id)
              <==> forall j :: 0 <= j < |at.rows| && at.rows[j].groupId == Some(at.groupIds[i]) ==> at.rows[j].id in ids
    {
      CountsShown(at.rows, ids, at.groupIds[i]);
    }
    if Agrees(q) {
      forall j | 0 <= j < |at.rows| && at.rows[j].groupId.Some? ensures at.rows[j].id in ids {
        var i :| 0 <= i < |at.groupIds| && at.groupIds[i] == at.rows[j].groupId.value;
        assert q.manageGroups[i].courseCount == CountIn(p.courses, q.manageGroups[i].id);
      }
    }
  }

  /** A panel that opens shows right counts exactly when no grouped course is
      without a subject. */
  lemma OpenAgreesExactly(s: Server)
    requires ServerOk(s)
    ensures Settled(Opened(s))
    ensures Agrees(Opened(s).panel) <==> forall i :: 0 <= i < |s.rows| && s.rows[i].groupId.Some? ==> s.rows[i].hasSubject
  {
    var w := Opened(s);
    CurrentListAgreesExactly(w.panel, s, w.shown);
    assert w.panel.(manageGroups := ListGroups(s)) == w.panel;
    forall i | 0 <= i < |s.rows| ensures s.rows[i].id in w.shown <==> s.rows[i].hasSubject {
      assert s.rows[i] in s.rows;
      if s.rows[i].id in w.shown {
        var r :| r in s.rows && r.hasSubject && r.id == s.rows[i].id;
        var j :| 0 <= j < |s.rows| && s.rows[j] == r;
        assert j == i;
      }
    }
  }

  /** When the panel shows just one course in another group than the list, the
      list counts one too many in the one group and one too few in the other. */
  lemma OneDriftCounts(p: Panel, at: Server, ids: set<string>, x: string, shownIn: Option<string>, i: nat)
    requires ServerOk(at) && NothingHidden(at.rows, ids) && Find(Shown(at.rows, ids), x).Some?
    requires p.courses == PutIn(Shown(at.rows, ids), x, shownIn) && i < |at.groupIds|
    ensures var g := at.groupIds[i];
      ListGroups(at)[i].courseCount == CountIn(p.courses, g)
        + (if Find(Shown(at.rows, ids), x).value.groupId == Some(g) then 1 else 0) - (if shownIn == Some(g) then 1 else 0)
  {
    ShownIdsDiffer(at.rows, ids);
    CountsShown(at.rows, ids, at.groupIds[i]);
    CountAfterPut(Shown(at.rows, ids), x, shownIn, at.groupIds[i]);
  }

  /** Then the counts are right exactly when neither group is listed. */
  lemma OneDriftAgreesExactly(p: Panel, at: Server, ids: set<string>, x: string, shownIn: Option<string>)
    requires ServerOk(at) && NothingHidden(at.rows, ids) && Find(Shown(at.rows, ids), x).Some?
    requires p.courses == PutIn(Shown(at.rows, ids), x, shownIn) && Find(Shown(at.rows, ids), x).value.groupId != shownIn
    ensures var listedIn := Find(Shown(at.rows, ids), x).value.groupId;
      Agrees(p.(manageGroups := ListGroups(at)))
      <==> listedIn.None? && (shownIn.Some? ==> shownIn.value !in at.groupIds)
  {
    var shown, q := Shown(at.rows, ids), p.(manageGroups := ListGroups(at));
    var listedIn := Find(shown, x).value.groupId;
    forall i | 0 <= i < |at.groupIds|
      ensures q.manageGroups[i].courseCount == CountIn(p.courses, q.manageGroups[i].id)
              <==> listedIn != Some(at.groupIds[i]) && shownIn != Some(at.groupIds[i])
    {
      OneDriftCounts(p, at, ids, x, shownIn, i);
    }
    var j := FoundAt(shown, x);
    if listedIn.Some? {
      ShownGroupExists(at, ids, j);
      var i :| 0 <= i < |at.groupIds| && at.groupIds[i] == listedIn.value;
      assert q.manageGroups[i].courseCount != CountIn(p.courses, q.manageGroups[i].id);
    } else if shownIn.Some? && shownIn.value in at.groupIds {
      var i :| 0 <= i < |at.groupIds| && at.groupIds[i] == shownIn.value;
      assert q.manageGroups[i].courseCount != CountIn(p.courses, q.manageGroups[i].id);
    }
  }

  // ---- When an answer leaves the counts right ----

  /** The course is shown where it was when the assignment was sent, or that group
      is not listed, or shows no course. */
  ghost predicate AssignFits(p: Panel, courseId: string, from: Option<string>) {
    && Find(p.courses, courseId).Some?
    && (|| Find(p.courses, courseId).value.groupId == from
        || from.None? || !IsListed(p, from.value) || CoursesIn(p.courses, from.value) == {})
  }

  /** What the landing of an answer asks for. */
  ghost predicate Fits(p: Panel, r: Request, a: Answer) {
    match r
    case PutCourse(courseId, from, _) => a.Done? ==> AssignFits(p, courseId, from)
    case GetAll(id) => a.Listed? && IsListed(p, id) ==> CoursesIn(p.courses, id) == {}
    case GetGroups => a.Listed? ==> Balanced(p.courses, a.at)
    case _ => true
  }

  ghost predicate StepFits(w: Flow, s: Step) {
    s.Land? && CanLand(w, s.flight) ==>
      Fits(w.panel, w.flights[s.flight].request, w.flights[s.flight].answer.value)
  }

  lemma FindUnique(courses: seq<Course>, j: nat)
    requires UniqueCourses(courses) && j < |courses|
    ensures Find(courses, courses[j].id) == Some(courses[j])
    decreases |courses|
  {
    if j < |courses| - 1 { FindUnique(courses[..|courses| - 1], j); }
  }

  lemma NoneIn(courses: seq<Course>, g: string)
    requires UniqueCourses(courses)
    ensures CoursesIn(courses, g) == {} <==> CountIn(courses, g) == 0
  {
    CoursesAreCounted(courses, g);
  }

  /** How far one group's count is off after an assignment that landed on a course
      shown in `from` or in no group. */
  lemma BumpedCount(p: Panel, x: string, from: Option<string>, to: string, i: nat)
    requires UniqueCourses(p.courses) && Find(p.courses, x).Some? && from != Some(to) && i < |p.manageGroups|
    requires Find(p.courses, x).value.groupId in {from, None}
    ensures var q, g, count := AfterAssigned(p, x, from, to, true), p.manageGroups[i].id, p.manageGroups[i].courseCount;
      var now, n := Find(p.courses, x).value.groupId, CountIn(p.courses, g);
      && q.manageGroups[i].id == g
      && q.manageGroups[i].courseCount - CountIn(q.courses, g) ==
           if Some(g) != from then count - n
           else if now != from then (if count > 0 then count - 1 - n else 0 - n)
           else (if count > 0 then count - n else 1 - n)
    ensures Find(p.courses, x).value.groupId == Some(p.manageGroups[i].id) ==> CountIn(p.courses, p.manageGroups[i].id) >= 1
  {
    CountAfterPut(p.courses, x, Some(to), p.manageGroups[i].id);
  }

  lemma AssignLandsExactly(p: Panel, x: string, from: Option<string>, to: string)
    requires UniqueCourses(p.courses) && Agrees(p) && Find(p.courses, x).Some? && from != Some(to)
    requires Find(p.courses, x).value.groupId in {from, None}
    ensures Agrees(AfterAssigned(p, x, from, to, true)) <==> AssignFits(p, x, from)
  {
    var q := AfterAssigned(p, x, from, to, true);
    forall i | 0 <= i < |q.manageGroups|
      ensures q.manageGroups[i].id == p.manageGroups[i].id
      ensures q.manageGroups[i].courseCount == CountIn(q.courses, q.manageGroups[i].id)
              <==> (Some(p.manageGroups[i].id) == from && Find(p.courses, x).value.groupId != from ==>
                      CoursesIn(p.courses, p.manageGroups[i].id) == {})
    {
      BumpedCount(p, x, from, to, i);
      NoneIn(p.courses, p.manageGroups[i].id);
      assert p.manageGroups[i].courseCount == CountIn(p.courses, p.manageGroups[i].id);
    }
  }

  lemma {:induction false} CountAfterUngroup(courses: seq<Course>, id: string, g: string)
    ensures CountIn(Ungroup(courses, id), g) == if g == id then 0 else CountIn(courses, g)
  {
    if courses != [] {
      var n := |courses| - 1;
      CountAfterUngroup(courses[..n], id, g);
      assert Ungroup(courses, id)[..n] == Ungroup(courses[..n], id);
    }
  }

  lemma DeleteLandsExactly(p: Panel, id: string)
    requires UniqueCourses(p.courses) && Agrees(p)
    ensures Agrees(AfterDeleted(p, id)) <==> (IsListed(p, id) ==> CoursesIn(p.courses, id) == {})
  {
    var q := AfterDeleted(p, id);
    forall i | 0 <= i < |q.manageGroups|
      ensures q.manageGroups[i].courseCount == CountIn(q.courses, q.manageGroups[i].id)
              <==> (p.manageGroups[i].id == id ==> CoursesIn(p.courses, id) == {})
    {
      CountAfterUngroup(p.courses, id, p.manageGroups[i].id);
      NoneIn(p.courses, id);
      assert p.manageGroups[i].courseCount == CountIn(p.courses, p.manageGroups[i].id);
    }
  }

  lemma StepAgreesExactly(w: Flow, lo: nat, s: Step)
    requires Inv(w, lo) && Agrees(w.panel)
    ensures Agrees(Next(w, s).panel) <==> StepFits(w, s)
  {
    CoursesDiffer(w, lo);
    if s.Land? && CanLand(w, s.flight) {
      assert FlightOk(w, lo, s.flight);
      var r, a := w.flights[s.flight].request, w.flights[s.flight].answer.value;
      match r
      case PutCourse(x, from, to) =>
        if a.Done? {
          var j :| 0 <= j < |w.panel.courses| && w.panel.courses[j].id == x;
          FindUnique(w.panel.courses, j);
          assert PutOk(w, lo, s.flight, j);
          AssignLandsExactly(w.panel, x, from, to);
        }
      case GetAll(id) => DeleteLandsExactly(w.panel, id);
      case GetGroups => if a.Listed? { RefetchAgreesExactly(w.panel, a.at); }
      case _ =>
    }
  }

  ghost predicate AlwaysAgrees(w: Flow, steps: seq<Step>) {
    Agrees(Run(w, steps).panel) && (steps != [] ==> AlwaysAgrees(w, steps[..|steps| - 1]))
  }

  ghost predicate EveryStepFits(w: Flow, steps: seq<Step>) {
    steps != [] ==>
      && EveryStepFits(w, steps[..|steps| - 1])
      && StepFits(Run(w, steps[..|steps| - 1]), steps[|steps| - 1])
  }

  /** Over every interleaving: the counts agree with the courses shown all the way
      exactly when every answer that lands fits the panel it finds. */
  lemma {:induction false} InterleavingsAgreeExactly(w: Flow, lo: nat, steps: seq<Step>)
    requires Inv(w, lo) && Agrees(w.panel)
    ensures AlwaysAgrees(w, steps) <==> EveryStepFits(w, steps)
  {
    if steps != [] {
      var init, s := steps[..|steps| - 1], steps[|steps| - 1];
      InterleavingsAgreeExactly(w, lo, init);
      RunKeeps(w, lo, init);
      if Agrees(Run(w, init).panel) { StepAgreesExactly(Run(w, init), lo, s); }
    }
  }

  // ---- Assigning again after a lost answer, and the clamp ----

  /** The clamp at zero takes effect on some group. */
  ghost predicate ClampActs(p: Panel, from: Option<string>, to: string) {
    exists i :: 0 <= i < |p.manageGroups| && p.manageGroups[i].id != to && Some(p.manageGroups[i].id) == from
                && p.manageGroups[i].courseCount - 1 < 0
  }

  /** While the counts agree the clamp acts exactly when the group the course came
      from is listed and shows no course any more. Then the course is shown in no
      group by now, and the counts agree afterwards because of the clamp. */
  lemma ClampActsExactly(w: Flow, lo: nat, i: nat)
    requires Inv(w, lo) && Agrees(w.panel) && CanLand(w, i)
    requires w.flights[i].request.PutCourse? && w.flights[i].answer == Some(Done)
    ensures var r := w.flights[i].request;
      ClampActs(w.panel, r.from, r.to)
      <==> r.from.Some? && IsListed(w.panel, r.from.value) && CoursesIn(w.panel.courses, r.from.value) == {}
    ensures var r := w.flights[i].request;
      ClampActs(w.panel, r.from, r.to) ==>
        Find(w.panel.courses, r.courseId) == Some(Course(r.courseId, None)) && Agrees(Next(w, Land(i)).panel)
  {
    CoursesDiffer(w, lo);
    assert FlightOk(w, lo, i);
    var r := w.flights[i].request;
    var j :| 0 <= j < |w.panel.courses| && w.panel.courses[j].id == r.courseId;
    FindUnique(w.panel.courses, j);
    assert PutOk(w, lo, i, j);
    StepAgreesExactly(w, lo, Land(i));
    if r.from.Some? {
      NoneIn(w.panel.courses, r.from.value);
      if w.panel.courses[j].groupId == r.from { assert r.courseId in CoursesIn(w.panel.courses, r.from.value); }
    }
  }

  /** The steps of an assignment that goes through. */
  function AssignSteps(w: Flow, x: string, to: string): seq<Step> {
    [Select(to), Assign(x), Serve(|w.flights|, true, ""), Land(|w.flights|)]
  }

  lemma RunFour(w: Flow, steps: seq<Step>)
    requires |steps| == 4
    ensures Run(w, steps) == Next(Next(Next(Next(w, steps[0]), steps[1]), steps[2]), steps[3])
  {
    var a, b, c := steps[..1], steps[..2], steps[..3];
    assert a[..0] == [] && b[..1] == a && c[..2] == b;
    assert Run(w, a) == Next(w, steps[0]);
    assert Run(w, b) == Next(Run(w, a), steps[1]);
    assert Run(w, c) == Next(Run(w, b), steps[2]);
  }

  lemma AssignGoesThrough(w: Flow, x: string, to: string)
    requires w.panel.savingCourseId.None? && to in w.server.groupIds
    requires Find(w.panel.courses, x).Some? && Find(w.panel.courses, x).value.groupId != Some(to)
    ensures var v, from := Run(w, AssignSteps(w, x, to)), Find(w.panel.courses, x).value.groupId;
      && v.panel == AfterAssigned(w.panel.(selectedGroupId := Some(to)), x, from, to, true)
      && v.server == w.server.(rows := PutRow(w.server.rows, x, Some(to))) && v.shown == w.shown
      && |v.flights| == |w.flights| + 1 && v.flights[..|w.flights|] == w.flights && Finished(v.flights[|w.flights|])
      && w.used <= v.used
  {
    RunFour(w, AssignSteps(w, x, to));
  }

  /** Assigning again after the answer was lost (or at any other time). The list is
      the server's afterwards exactly when no other course had drifted; the counts
      are right afterwards exactly when they were before, except that the clamp
      also mends a last course's group counted as empty. */
  lemma RetryAgreesExactly(w: Flow, lo: nat, x: string, to: string)
    requires Inv(w, lo) && w.panel.savingCourseId.None? && to in w.server.groupIds
    requires Find(w.panel.courses, x).Some? && Find(w.panel.courses, x).value.groupId != Some(to)
    requires forall i, j :: 0 <= i < j < |w.panel.manageGroups| ==> w.panel.manageGroups[i].id != w.panel.manageGroups[j].id
    ensures var v := Run(w, AssignSteps(w, x, to));
      v.panel.courses == Shown(v.server.rows, v.shown)
      <==> forall j :: 0 <= j < |w.panel.courses| && w.panel.courses[j].id != x ==>
             w.panel.courses[j] == Shown(w.server.rows, w.shown)[j]
    ensures Agrees(Run(w, AssignSteps(w, x, to)).panel)
      <==> forall i :: 0 <= i < |w.panel.manageGroups| ==>
             var n := CountIn(w.panel.courses, w.panel.manageGroups[i].id);
             || w.panel.manageGroups[i].courseCount == n
             || (Find(w.panel.courses, x).value.groupId == Some(w.panel.manageGroups[i].id)
                 && n == 1 && w.panel.manageGroups[i].courseCount <= 0)
  {
    var p, from := w.panel, Find(w.panel.courses, x).value.groupId;
    var v := Run(w, AssignSteps(w, x, to));
    AssignGoesThrough(w, x, to);
    CoursesDiffer(w, lo);
    RetryListsExactly(w, lo, x, to);
    forall i | 0 <= i < |p.manageGroups|
      ensures v.panel.manageGroups[i].id == p.manageGroups[i].id
      ensures v.panel.manageGroups[i].courseCount == CountIn(v.panel.courses, v.panel.manageGroups[i].id)
              <==> var n := CountIn(p.courses, p.manageGroups[i].id);
                || p.manageGroups[i].courseCount == n
                || (from == Some(p.manageGroups[i].id) && n == 1 && p.manageGroups[i].courseCount <= 0)
    {
      BumpedCount(p.(selectedGroupId := Some(to)), x, from, to, i);
    }
  }

  lemma RetryListsExactly(w: Flow, lo: nat, x: string, to: string)
    requires Inv(w, lo)
    ensures PutIn(w.panel.courses, x, Some(to)) == Shown(PutRow(w.server.rows, x, Some(to)), w.shown)
      <==> forall j :: 0 <= j < |w.panel.courses| && w.panel.courses[j].id != x ==>
             w.panel.courses[j] == Shown(w.server.rows, w.shown)[j]
  {
    ShownAfterPut(w.server.rows, w.shown, x, Some(to));
    var mine, now := w.panel.courses, Shown(w.server.rows, w.shown);
    var a, b := PutIn(mine, x, Some(to)), PutIn(now, x, Some(to));
    assert forall j :: 0 <= j < |mine| ==> mine[j].id == now[j].id;
    forall j | 0 <= j < |mine| ensures a[j] == b[j] <==> (mine[j].id == x || mine[j] == now[j]) {}
    if a == b {
      forall j | 0 <= j < |mine| && mine[j].id != x ensures mine[j] == now[j] { assert a[j] == b[j]; }
    }
  }

  /** With nothing else in flight, no other course drifted and the counts as the
      panel shows them, the retry settles the panel. */
  lemma RetrySettles(w: Flow, lo: nat, x: string, to: string)
    requires Inv(w, lo) && Agrees(w.panel) && w.panel.savingCourseId.None? && to in w.server.groupIds
    requires Find(w.panel.courses, x).Some? && Find(w.panel.courses, x).value.groupId != Some(to)
    requires forall i :: 0 <= i < |w.flights| ==> Finished(w.flights[i])
    requires forall j :: 0 <= j < |w.panel.courses| && w.panel.courses[j].id != x ==>
      w.panel.courses[j] == Shown(w.server.rows, w.shown)[j]
    ensures var v := Run(w, AssignSteps(w, x, to)); Settled(v) && Agrees(v.panel) && v.panel.savingCourseId.None?
  {
    var v := Run(w, AssignSteps(w, x, to));
    AssignGoesThrough(w, x, to);
    RetryAgreesExactly(w, lo, x, to);
    RunKeeps(w, lo, AssignSteps(w, x, to));
    forall i | 0 <= i < |v.flights| ensures Finished(v.flights[i]) {
      if i < |w.flights| { assert v.flights[i] == v.flights[..|w.flights|][i] == w.flights[i]; }
    }
  }

  /** An assignment that is made while its answer is lost. */
  function LostSteps(w: Flow, x: string, to: string): seq<Step> {
    [Select(to), Assign(x), Serve(|w.flights|, true, ""), Lose(|w.flights|)]
  }

  lemma LostAssign(w: Flow, x: string, to: string)
    requires w.panel.savingCourseId.None? && to in w.server.groupIds
    requires Find(w.panel.courses, x).Some? && Find(w.panel.courses, x).value.groupId != Some(to)
    ensures var v, from := Run(w, LostSteps(w, x, to)), Find(w.panel.courses, x).value.groupId;
      && v.panel == w.panel.(selectedGroupId := Some(to)) && v.shown == w.shown
      && v.server == w.server.(rows := PutRow(w.server.rows, x, Some(to)))
      && v.flights == w.flights + [Flight(PutCourse(x, from, to), Some(Done), Lost)]
  {
    RunFour(w, LostSteps(w, x, to));
  }

  /** Such a loss leaves the counts as they were and only that course where it was;
      with no reading of the groups in between, assigning it again settles the
      panel and the counts agree. */
  lemma LostAssignIsRecovered(w: Flow, x: string, to: string)
    requires Settled(w) && Agrees(w.panel) && w.panel.savingCourseId.None? && to in w.server.groupIds
    requires Find(w.panel.courses, x).Some? && Find(w.panel.courses, x).value.groupId != Some(to)
    ensures var v := Run(w, LostSteps(w, x, to));
      && v.panel.courses == w.panel.courses && Agrees(v.panel)
      && Shown(v.server.rows, v.shown) == PutIn(w.panel.courses, x, Some(to)) != v.panel.courses
      && var u := Run(v, AssignSteps(v, x, to)); Settled(u) && Agrees(u.panel)
  {
    var v := Run(w, LostSteps(w, x, to));
    SettledKeeps(w);
    RunKeeps(w, |w.flights|, LostSteps(w, x, to));
    LostAssign(w, x, to);
    ShownAfterPut(w.server.rows, w.shown, x, Some(to));
    var j := FoundAt(w.panel.courses, x);
    assert PutIn(w.panel.courses, x, Some(to))[j] != w.panel.courses[j];
    RetrySettles(v, |w.flights|, x, to);
  }

  /** An answer landing after a list that already has its assignment counts the
      course twice. */
  lemma ListedThenAssigned(p: Panel, at: Server, ids: set<string>, x: string, from: Option<string>, to: string, i: nat)
    requires ServerOk(at) && NothingHidden(at.rows, ids) && from != Some(to)
    requires Find(Shown(at.rows, ids), x) == Some(Course(x, Some(to)))
    requires p.courses == PutIn(Shown(at.rows, ids), x, from) && p.manageGroups == ListGroups(at) && i < |p.manageGroups|
    ensures var q, g := AfterAssigned(p, x, from, to, true), p.manageGroups[i].id;
      && q.courses == Shown(at.rows, ids) && |q.manageGroups| == |p.manageGroups|
      && q.manageGroups[i] == Bumped(Group(g, CountIn(q.courses, g)), to, from)
  {
    var now, g := Shown(at.rows, ids), p.manageGroups[i].id;
    ShownIdsDiffer(at.rows, ids);
    var j := FoundAt(now, x);
    PutBack(now, j, from);
    CountsShown(at.rows, ids, g);
  }

  lemma PutBack(courses: seq<Course>, j: nat, g: Option<string>)
    requires UniqueCourses(courses) && j < |courses|
    ensures PutIn(PutIn(courses, courses[j].id, g), courses[j].id, courses[j].groupId) == courses
    ensures Find(PutIn(courses, courses[j].id, g), courses[j].id) == Some(courses[j].(groupId := g))
  {
    var put := PutIn(courses, courses[j].id, g);
    assert forall i :: 0 <= i < |put| ==> put[i].id == courses[i].id;
    FindUnique(put, j);
  }

  /** When the answer of an assignment was lost and the groups were listed since,
      assigning again makes the panel's list right and the counts wrong: the chosen
      group counts one too high, the old one one too low unless no course is left
      in it, where the clamp keeps it at zero. */
  lemma RetryAfterListMiscounts(w: Flow, lo: nat, x: string, from: Option<string>, to: string, i: nat)
    requires Inv(w, lo) && w.panel.savingCourseId.None? && NothingHidden(w.server.rows, w.shown) && from != Some(to)
    requires Find(Shown(w.server.rows, w.shown), x) == Some(Course(x, Some(to)))
    requires w.panel.courses == PutIn(Shown(w.server.rows, w.shown), x, from)
    requires w.panel.manageGroups == ListGroups(w.server) && i < |w.panel.manageGroups|
    ensures var v := Run(w, AssignSteps(w, x, to)).panel;
      var g := w.panel.manageGroups[i].id;
      && v.courses == Shown(w.server.rows, w.shown) && |v.manageGroups| == |w.panel.manageGroups|
      && v.manageGroups[i].id == g
      && v.manageGroups[i].courseCount ==
           CountIn(v.courses, g) + if g == to then 1 else if Some(g) == from && CountIn(v.courses, g) > 0 then -1 else 0
  {
    var now := Shown(w.server.rows, w.shown);
    ShownIdsDiffer(w.server.rows, w.shown);
    var j := FoundAt(now, x);
    PutBack(now, j, from);
    ShownGroupExists(w.server, w.shown, j);
    ListedThenAssigned(w.panel.(selectedGroupId := Some(to)), w.server, w.shown, x, from, to, i);
    AssignGoesThrough(w, x, to);
  }

  // ---- Creating, renaming and deleting go through ----

  /** A reading that is served and lands at once replaces the counts alone. */
  lemma ReadingReplaces(w: Flow, i: nat)
    requires i < |w.flights| && w.flights[i] == Flight(GetGroups, None, Open)
    ensures var v := Next(Next(w, Serve(i, true, "")), Land(i));
      v.server == w.server && v.panel == w.panel.(manageGroups := ListGroups(w.server)) && |v.flights| == |w.flights|
  {}

  /** Creating a group adds it at the server and lists it, with a count of none. */
  lemma CreateGoesThrough(w: Flow, lo: nat, id: string)
    requires Inv(w, lo) && id !in w.used
    ensures var n := |w.flights|;
      var posted := Next(Next(Next(w, Begin(PostGroup)), Serve(n, true, id)), Land(n));
      var end := Next(Next(posted, Serve(n + 1, true, "")), Land(n + 1));
      && end.server == w.server.(groupIds := w.server.groupIds + [id])
      && end.panel == w.panel.(manageGroups := end.panel.manageGroups)
      && end.panel.manageGroups == ListGroups(w.server) + [Group(id, 0)]
  {
    var n := |w.flights|;
    var posted := Next(Next(Next(w, Begin(PostGroup)), Serve(n, true, id)), Land(n));
    ReadingReplaces(posted, n + 1);
    NobodyIn(w.server.rows, id);
  }

  lemma {:induction false} NobodyIn(rows: seq<Row>, id: string)
    requires forall i :: 0 <= i < |rows| ==> rows[i].groupId != Some(id)
    ensures CountRows(rows, id) == 0
  {
    if rows != [] { NobodyIn(rows[..|rows| - 1], id); }
  }

  /** Renaming changes no count at the server and reads them all again. */
  lemma RenameGoesThrough(w: Flow)
    ensures var n := |w.flights|;
      var put := Next(Next(Next(w, Begin(PutName)), Serve(n, true, "")), Land(n));
      var end := Next(Next(put, Serve(n + 1, true, "")), Land(n + 1));
      end.server == w.server && end.panel == w.panel.(manageGroups := ListGroups(w.server))
  {
    var n := |w.flights|;
    ReadingReplaces(Next(Next(Next(w, Begin(PutName)), Serve(n, true, "")), Land(n)), n + 1);
  }

  /** The state after a delete was served and its answer landed. */
  function Deleting(w: Flow, id: string): Flow {
    Next(Next(Next(w, Begin(DeleteGroup(id))), Serve(|w.flights|, true, "")), Land(|w.flights|))
  }

  /** Deleting a group without rows takes it from the server and the list and drops
      the choice of it and of no other; a group with rows is refused, whatever the
      panel shows. */
  lemma DeleteGoesThrough(w: Flow, lo: nat, id: string)
    requires Inv(w, lo)
    ensures CountRows(w.server.rows, id) > 0 ==> Deleting(w, id).panel == w.panel && Deleting(w, id).server == w.server
    ensures CountRows(w.server.rows, id) == 0 ==>
      var n, deleted := |w.flights|, Deleting(w, id);
      var listed := Next(Next(deleted, Serve(n + 1, true, "")), Land(n + 1));
      var end := Next(Next(listed, Serve(n + 2, true, "")), Land(n + 2));
      && end.server.rows == w.server.rows && id !in end.server.groupIds
      && (forall g :: g != id ==> (g in end.server.groupIds <==> g in w.server.groupIds))
      && end.panel == Panel(Ungroup(w.panel.courses, id), ListGroups(end.server),
                            if w.panel.selectedGroupId == Some(id) then None else w.panel.selectedGroupId,
                            w.panel.savingCourseId)
  {
    if CountRows(w.server.rows, id) == 0 {
      var n, deleted := |w.flights|, Deleting(w, id);
      ReadingReplaces(Next(Next(deleted, Serve(n + 1, true, "")), Land(n + 1)), n + 2);
      forall g ensures g in deleted.server.groupIds <==> g in w.server.groupIds && g != id {
        WithoutMembers(w.server.groupIds, id, g);
      }
    }
  }

  // ---- Runs in which no list and assignment cross ----

  /** The list has the assignment but its answer has not landed, or the answer has
      landed and the list lacks it. */
  predicate Crosses(f: Flight, listed: bool) {
    f.request.PutCourse? && f.answer == Some(Done) && (listed <==> !f.phase.Landed?)
  }

  ghost predicate Crossed(fl: seq<Flight>, lo: nat, puts: set<nat>) {
    exists i :: lo <= i < |fl| && Crosses(fl[i], i in puts)
  }

  ghost predicate CrossedFor(fl: seq<Flight>, lo: nat, puts: set<nat>, id: string) {
    exists i :: lo <= i < |fl| && PutOf(fl[i], id) && Crosses(fl[i], i in puts)
  }

  /** A step other than the landing of the groups across an assignment, or of a
      deletion while an assignment out of the deleted group is unlanded. */
  ghost predicate Polite(w: Flow, lo: nat, s: Step) {
    s.Land? && CanLand(w, s.flight) && w.flights[s.flight].answer.value.Listed? ==>
      var r, a := w.flights[s.flight].request, w.flights[s.flight].answer.value;
      && (r.GetGroups? ==> !Crossed(w.flights, lo, a.puts))
      && (r.GetAll? ==> forall j :: 0 <= j < |w.panel.courses| && w.panel.courses[j].groupId == Some(r.deleted) ==>
                          !Unlanded(w.flights, lo, w.panel.courses[j].id))
  }

  ghost predicate PoliteRun(w: Flow, lo: nat, steps: seq<Step>) {
    steps != [] ==>
      && PoliteRun(w, lo, steps[..|steps| - 1])
      && Polite(Run(w, steps[..|steps| - 1]), lo, steps[|steps| - 1])
  }

  ghost predicate ShownFrom(w: Flow, i: nat, j: nat)
    requires i < |w.flights| && j < |w.panel.courses|
  {
    OpenPut(w.flights[i]) && PutOf(w.flights[i], w.panel.courses[j].id) ==>
      w.panel.courses[j].groupId == w.flights[i].request.from
  }

  /** A list on its way has a course where the panel shows it, or is crossed. */
  ghost predicate ListOk(w: Flow, lo: nat, at: Server, puts: set<nat>, j: nat)
    requires j < |w.panel.courses| && SameIds(w.panel.courses, Shown(at.rows, w.shown))
  {
    || w.panel.courses[j].groupId == Shown(at.rows, w.shown)[j].groupId
    || CrossedFor(w.flights, lo, puts, w.panel.courses[j].id)
  }

  ghost predicate ListedPutOk(w: Flow, lo: nat, at: Server, puts: set<nat>, i: nat, j: nat)
    requires i < |w.flights| && j < |w.panel.courses| && SameIds(w.panel.courses, Shown(at.rows, w.shown))
  {
    PutOf(w.flights[i], w.panel.courses[j].id) && w.flights[i].phase.Open? && i in puts ==>
      || Shown(at.rows, w.shown)[j].groupId == Some(w.flights[i].request.to)
      || LostMade(w.flights, lo, puts, w.panel.courses[j].id)
  }

  ghost predicate SnapshotOk(w: Flow, lo: nat, at: Server, puts: set<nat>) {
    && SameIds(w.panel.courses, Shown(at.rows, w.shown)) && NothingHidden(at.rows, w.shown) && puts <= Made(w.flights)
    && (forall j :: 0 <= j < |w.panel.courses| ==> ListOk(w, lo, at, puts, j))
    && (forall i, j :: 0 <= i < |w.flights| && 0 <= j < |w.panel.courses| ==> ListedPutOk(w, lo, at, puts, i, j))
  }

  ghost predicate ListsOk(w: Flow, lo: nat, i: nat)
    requires i < |w.flights|
  {
    w.flights[i].phase.Open? && w.flights[i].answer.Some? && w.flights[i].answer.value.Listed? ==>
      SnapshotOk(w, lo, w.flights[i].answer.value.at, w.flights[i].answer.value.puts)
  }

  ghost predicate PoliteInv(w: Flow, lo: nat) {
    && Inv(w, lo) && NothingHidden(w.server.rows, w.shown) && Agrees(w.panel)
    && (forall i, j :: 0 <= i < |w.flights| && 0 <= j < |w.panel.courses| ==> ShownFrom(w, i, j))
    && (forall i :: 0 <= i < |w.flights| ==> ListsOk(w, lo, i))
  }

  /** What may become of a flight without uncrossing a list that has `listed`. */
  predicate Follows(f: Flight, g: Flight, listed: bool) {
    && f.request == g.request
    && (Crosses(f, listed) ==> Crosses(g, listed))
    && (f.phase.Lost? ==> g.phase.Lost?)
    && (f.answer.Some? ==> g.answer == f.answer)
  }

  lemma CrossingStays(fl: seq<Flight>, gl: seq<Flight>, lo: nat, puts: set<nat>, id: string)
    requires |fl| <= |gl| && forall i :: 0 <= i < |fl| ==> Follows(fl[i], gl[i], i in puts)
    ensures CrossedFor(fl, lo, puts, id) ==> CrossedFor(gl, lo, puts, id)
    ensures LostMade(fl, lo, puts, id) ==> LostMade(gl, lo, puts, id)
  {
    if CrossedFor(fl, lo, puts, id) {
      var i :| lo <= i < |fl| && PutOf(fl[i], id) && Crosses(fl[i], i in puts);
      assert Follows(fl[i], gl[i], i in puts);
      assert PutOf(gl[i], id) && Crosses(gl[i], i in puts);
    }
    if LostMade(fl, lo, puts, id) {
      var i :| lo <= i < |fl| && i in puts && Hanging(fl[i], id) && fl[i].phase.Lost?;
      assert Follows(fl[i], gl[i], i in puts);
      assert Hanging(gl[i], id);
    }
  }

  /** A list on its way stays right while the courses shown do not change. */
  lemma SnapshotStays(w: Flow, v: Flow, lo: nat, at: Server, puts: set<nat>)
    requires SnapshotOk(w, lo, at, puts) && v.panel.courses == w.panel.courses && v.shown == w.shown
    requires |w.flights| <= |v.flights| && puts <= Made(w.flights)
    requires forall i :: 0 <= i < |w.flights| ==> Follows(w.flights[i], v.flights[i], i in puts)
    requires forall i :: 0 <= i < |w.flights| && v.flights[i].phase.Open? ==> w.flights[i].phase.Open?
    ensures SnapshotOk(v, lo, at, puts)
  {
    forall k | k in puts ensures k in Made(v.flights) {
      assert k in Made(w.flights);
      assert Follows(w.flights[k], v.flights[k], k in puts);
    }
    forall j | 0 <= j < |v.panel.courses| ensures ListOk(v, lo, at, puts, j) {
      assert ListOk(w, lo, at, puts, j);
      CrossingStays(w.flights, v.flights, lo, puts, v.panel.courses[j].id);
    }
    forall i, j | 0 <= i < |v.flights| && 0 <= j < |v.panel.courses| ensures ListedPutOk(v, lo, at, puts, i, j) {
      CrossingStays(w.flights, v.flights, lo, puts, v.panel.courses[j].id);
      if i < |w.flights| {
        assert ListedPutOk(w, lo, at, puts, i, j);
        assert Follows(w.flights[i], v.flights[i], i in puts);
      }
    }
  }

  /** A step that neither changes the courses shown nor answers or lands anything. */
  lemma QuietKeeps(w: Flow, v: Flow, lo: nat)
    requires PoliteInv(w, lo) && Inv(v, lo) && NothingHidden(v.server.rows, w.shown) && v.shown == w.shown
    requires v.panel.courses == w.panel.courses && Agrees(v.panel)
    requires |w.flights| <= |v.flights| && forall i :: 0 <= i < |w.flights| ==> Quiet(w.flights[i], v.flights[i])
    requires forall i :: |w.flights| <= i < |v.flights| ==> v.flights[i].answer.None?
    requires forall i, j :: |w.flights| <= i < |v.flights| && 0 <= j < |v.panel.courses| ==> ShownFrom(v, i, j)
    ensures PoliteInv(v, lo)
  {
    forall i, j | 0 <= i < |v.flights| && 0 <= j < |v.panel.courses| ensures ShownFrom(v, i, j) {
      if i < |w.flights| { assert ShownFrom(w, i, j) && Quiet(w.flights[i], v.flights[i]); }
    }
    forall i | 0 <= i < |v.flights| ensures ListsOk(v, lo, i) {
      if i < |w.flights| && v.flights[i].phase.Open? && v.flights[i].answer.Some? && v.flights[i].answer.value.Listed? {
        assert ListsOk(w, lo, i) && Quiet(w.flights[i], v.flights[i]);
        var puts := v.flights[i].answer.value.puts;
        forall k | 0 <= k < |w.flights| ensures Follows(w.flights[k], v.flights[k], k in puts) {
          assert Quiet(w.flights[k], v.flights[k]);
        }
        forall k | 0 <= k < |w.flights| && v.flights[k].phase.Open? ensures w.flights[k].phase.Open? {
          assert Quiet(w.flights[k], v.flights[k]);
        }
        SnapshotStays(w, v, lo, v.flights[i].answer.value.at, puts);
      }
    }
  }

  /** Nothing happened to the flight, or it was lost, or it landed and was no
      assignment that was made. */
  predicate Quiet(f: Flight, g: Flight) {
    f.request == g.request && f.answer == g.answer
    && (f.phase == g.phase || (f.phase.Open? && (g.phase.Lost? || !f.request.PutCourse? || f.answer != Some(Done))))
  }

  lemma {:induction false} ShownIdsAreKept(rows: seq<Row>, ids: set<string>, j: nat)
    requires j < |Shown(rows, ids)|
    ensures Shown(rows, ids)[j].id in ids
    decreases |rows|
  {
    var n := |rows| - 1;
    if j < |Shown(rows[..n], ids)| { ShownIdsAreKept(rows[..n], ids, j); }
  }

  lemma PoliteAssign(w: Flow, lo: nat, x: string)
    requires PoliteInv(w, lo)
    ensures PoliteInv(Next(w, Assign(x)), lo)
  {
    AssignKeeps(w, lo, x);
    if AssignGoesAhead(w.panel, x) {
      var v := Next(w, Assign(x));
      CoursesDiffer(w, lo);
      forall j | 0 <= j < |v.panel.courses| ensures ShownFrom(v, |w.flights|, j) { FindUnique(w.panel.courses, j); }
      QuietKeeps(w, v, lo);
    }
  }

  lemma PoliteLose(w: Flow, lo: nat, i: nat)
    requires PoliteInv(w, lo)
    ensures PoliteInv(Next(w, Lose(i)), lo)
  {
    LoseKeeps(w, lo, i);
    QuietKeeps(w, Next(w, Lose(i)), lo);
  }

  lemma PoliteSubject(w: Flow, lo: nat, id: string, has: bool)
    requires PoliteInv(w, lo)
    ensures PoliteInv(Next(w, SetSubject(id, has)), lo)
  {
    SubjectKeeps(w, lo, id, has);
    QuietKeeps(w, Next(w, SetSubject(id, has)), lo);
  }

  lemma PoliteAdd(w: Flow, lo: nat, r: Request)
    requires PoliteInv(w, lo) && !r.PutCourse?
    requires r.GetAll? ==> r.deleted in w.used && r.deleted !in w.server.groupIds
    ensures PoliteInv(Add(w, r), lo)
  {
    OpenKeeps(w, lo, r);
    QuietKeeps(w, Add(w, r), lo);
  }

  lemma ServedStaysVisible(w: Flow, lo: nat, i: nat, ok: bool, newId: string)
    requires PoliteInv(w, lo) && i < |w.flights| && w.flights[i].answer.None?
    ensures NothingHidden(Served(w, i, ok, newId).server.rows, w.shown)
  {
    var v := Served(w, i, ok, newId);
    assert FlightOk(w, lo, i);
    if w.flights[i].request.PutCourse? {
      var j :| 0 <= j < |w.panel.courses| && w.panel.courses[j].id == w.flights[i].request.courseId;
      ShownIdsAreKept(w.server.rows, w.shown, j);
    }
  }

  /** A list served now has every course where the panel shows it, or an
      assignment it has is unlanded. */
  lemma FreshSnapshot(w: Flow, v: Flow, lo: nat, i: nat)
    requires PoliteInv(w, lo) && Inv(v, lo) && v.panel == w.panel && v.shown == w.shown && i < |w.flights|
    requires w.flights[i].answer.None? && !w.flights[i].request.PutCourse?
    requires v.flights == w.flights[i := w.flights[i].(answer := Some(Listed(w.server, Made(w.flights))))]
    ensures SnapshotOk(v, lo, w.server, Made(w.flights))
  {
    var puts := Made(w.flights);
    forall j | 0 <= j < |v.panel.courses| ensures ListOk(v, lo, w.server, puts, j) {
      assert CourseOk(w, lo, j);
      var id := v.panel.courses[j].id;
      if Unlanded(w.flights, lo, id) {
        var k :| lo <= k < |w.flights| && Hanging(w.flights[k], id);
        assert PutOf(v.flights[k], id) && Crosses(v.flights[k], k in puts);
      }
    }
    forall k, j | 0 <= k < |v.flights| && 0 <= j < |v.panel.courses| ensures ListedPutOk(v, lo, w.server, puts, k, j) {
      assert PutOk(w, lo, k, j);
      SetKeepsHanging(w.flights, i, v.flights[i], lo, v.panel.courses[j].id);
      assert Made(v.flights) == puts;
    }
  }

  lemma PoliteServe(w: Flow, lo: nat, i: nat, ok: bool, newId: string)
    requires PoliteInv(w, lo) && i < |w.flights| && w.flights[i].answer.None?
    ensures PoliteInv(Served(w, i, ok, newId), lo)
  {
    var v := Served(w, i, ok, newId);
    ServeKeeps(w, lo, i, ok, newId);
    ServedStaysVisible(w, lo, i, ok, newId);
    forall k, j | 0 <= k < |v.flights| && 0 <= j < |v.panel.courses| ensures ShownFrom(v, k, j) {
      assert ShownFrom(w, k, j);
    }
    forall k | 0 <= k < |v.flights| ensures ListsOk(v, lo, k) {
      assert ListsOk(w, lo, k);
      var a := v.flights[k].answer;
      if k == i && a.value.Listed? {
        FreshSnapshot(w, v, lo, i);
      } else if v.flights[k].phase.Open? && a.Some? && a.value.Listed? {
        SnapshotStays(w, v, lo, a.value.at, a.value.puts);
      }
    }
  }

  lemma AssignedSnapshot(w: Flow, lo: nat, i: nat, at: Server, puts: set<nat>)
    requires PoliteInv(w, lo) && CanLand(w, i) && SnapshotOk(w, lo, at, puts)
    requires w.flights[i].request.PutCourse? && w.flights[i].answer == Some(Done)
    ensures SnapshotOk(Closing(w, i), lo, at, puts)
  {
    var v := Closing(w, i);
    assert FlightOk(w, lo, i);
    assert Made(v.flights) == Made(w.flights);
    forall j | 0 <= j < |v.panel.courses| ensures ListOk(v, lo, at, puts, j) {
      assert ListOk(w, lo, at, puts, j) && ListedPutOk(w, lo, at, puts, i, j);
      AssignedListOk(w, lo, i, at, puts, j);
    }
    forall k, j | 0 <= k < |v.flights| && 0 <= j < |v.panel.courses| ensures ListedPutOk(v, lo, at, puts, k, j) {
      assert ListedPutOk(w, lo, at, puts, k, j);
      var id := v.panel.courses[j].id;
      if LostMade(w.flights, lo, puts, id) {
        var m :| lo <= m < |w.flights| && m in puts && Hanging(w.flights[m], id) && w.flights[m].phase.Lost?;
        assert Hanging(v.flights[m], id);
      }
    }
  }

  lemma AssignedListOk(w: Flow, lo: nat, i: nat, at: Server, puts: set<nat>, j: nat)
    requires PoliteInv(w, lo) && CanLand(w, i) && SnapshotOk(w, lo, at, puts) && j < |w.panel.courses|
    requires w.flights[i].request.PutCourse? && w.flights[i].answer == Some(Done)
    ensures ListOk(Closing(w, i), lo, at, puts, j)
  {
    var v, id := Closing(w, i), w.panel.courses[j].id;
    assert FlightOk(w, lo, i);
    assert ListOk(w, lo, at, puts, j) && ListedPutOk(w, lo, at, puts, i, j);
    if !PutOf(w.flights[i], id) {
      if CrossedFor(w.flights, lo, puts, id) {
        var k :| lo <= k < |w.flights| && PutOf(w.flights[k], id) && Crosses(w.flights[k], k in puts);
        assert PutOf(v.flights[k], id) && Crosses(v.flights[k], k in puts);
      }
    } else if i !in puts {
      assert PutOf(v.flights[i], id) && Crosses(v.flights[i], i in puts);
    } else if LostMade(w.flights, lo, puts, id) {
      var k :| lo <= k < |w.flights| && k in puts && Hanging(w.flights[k], id) && w.flights[k].phase.Lost?;
      assert PutOf(v.flights[k], id) && Crosses(v.flights[k], k in puts);
    }
  }

  lemma AssignedAgrees(w: Flow, lo: nat, i: nat)
    requires PoliteInv(w, lo) && CanLand(w, i)
    requires w.flights[i].request.PutCourse? && w.flights[i].answer == Some(Done)
    ensures Agrees(Closing(w, i).panel)
  {
    assert FlightOk(w, lo, i);
    CoursesDiffer(w, lo);
    var at :| 0 <= at < |w.panel.courses| && w.panel.courses[at].id == w.flights[i].request.courseId;
    FindUnique(w.panel.courses, at);
    assert ShownFrom(w, i, at);
    StepAgreesExactly(w, lo, Land(i));
  }

  lemma PoliteAssigned(w: Flow, lo: nat, i: nat)
    requires PoliteInv(w, lo) && CanLand(w, i)
    requires w.flights[i].request.PutCourse? && w.flights[i].answer == Some(Done)
    ensures PoliteInv(Closing(w, i), lo)
  {
    var v := Closing(w, i);
    CloseKeeps(w, lo, i);
    AssignedAgrees(w, lo, i);
    assert OpenPut(w.flights[i]);
    forall k, j | 0 <= k < |v.flights| && 0 <= j < |v.panel.courses| ensures ShownFrom(v, k, j) {
      assert k != i ==> v.flights[k] == w.flights[k];
    }
    forall k | 0 <= k < |v.flights| ensures ListsOk(v, lo, k) {
      assert ListsOk(w, lo, k);
      var a := v.flights[k].answer;
      if v.flights[k].phase.Open? && a.Some? && a.value.Listed? { AssignedSnapshot(w, lo, i, a.value.at, a.value.puts); }
    }
  }

  /** An uncrossed list is the panel's own. */
  lemma UncrossedAgrees(w: Flow, lo: nat, i: nat)
    requires PoliteInv(w, lo) && CanLand(w, i) && w.flights[i].answer.value.Listed?
    requires !Crossed(w.flights, lo, w.flights[i].answer.value.puts)
    ensures Agrees(w.panel.(manageGroups := ListGroups(w.flights[i].answer.value.at)))
  {
    var at, puts := w.flights[i].answer.value.at, w.flights[i].answer.value.puts;
    assert ListsOk(w, lo, i) && FlightOk(w, lo, i);
    forall j | 0 <= j < |w.panel.courses| ensures w.panel.courses[j] == Shown(at.rows, w.shown)[j] {
      assert ListOk(w, lo, at, puts, j);
    }
    CurrentListAgreesExactly(w.panel, at, w.shown);
  }

  lemma PoliteClosing(w: Flow, lo: nat, i: nat)
    requires PoliteInv(w, lo) && CanLand(w, i) && Polite(w, lo, Land(i))
    ensures PoliteInv(Closing(w, i), lo)
  {
    var v, f := Closing(w, i), w.flights[i];
    assert FlightOk(w, lo, i);
    if f.request.PutCourse? && f.answer == Some(Done) {
      PoliteAssigned(w, lo, i);
    } else {
      CloseKeeps(w, lo, i);
      if f.request.GetAll? && f.answer.value.Listed? {
        DeleteNeverUngroups(w, lo, i, true, "");
        assert v.panel.courses == Landing(w, i).panel.courses == w.panel.courses;
      }
      if f.request.GetGroups? && f.answer.value.Listed? { UncrossedAgrees(w, lo, i); }
      QuietKeeps(w, v, lo);
    }
  }

  lemma PoliteStep(w: Flow, lo: nat, s: Step)
    requires PoliteInv(w, lo) && Polite(w, lo, s)
    ensures PoliteInv(Next(w, s), lo)
  {
    match s
    case Select(id) =>
      SelectKeeps(w, lo, id);
      QuietKeeps(w, Next(w, s), lo);
    case Assign(x) => PoliteAssign(w, lo, x);
    case Begin(r) => if Startable(r) { PoliteAdd(w, lo, r); }
    case Serve(i, ok, newId) =>
      if i < |w.flights| && w.flights[i].answer.None? { PoliteServe(w, lo, i, ok, newId); }
    case Land(i) =>
      if CanLand(w, i) {
        PoliteClosing(w, lo, i);
        assert FlightOk(w, lo, i);
        var next := FollowUp(w.flights[i].request, w.flights[i].answer.value);
        if next.Some? { PoliteAdd(Closing(w, i), lo, next.value); }
      }
    case Lose(i) => PoliteLose(w, lo, i);
    case SetSubject(id, has) => PoliteSubject(w, lo, id, has);
  }

  lemma {:induction false} PoliteRunKeeps(w: Flow, lo: nat, steps: seq<Step>)
    requires PoliteInv(w, lo) && PoliteRun(w, lo, steps)
    ensures PoliteInv(Run(w, steps), lo)
  {
    if steps != [] {
      PoliteRunKeeps(w, lo, steps[..|steps| - 1]);
      PoliteStep(Run(w, steps[..|steps| - 1]), lo, steps[|steps| - 1]);
    }
  }

  /** Requests may overlap and answers get lost in any order: from a settled panel
      with right counts they stay right while no list of the groups lands across
      an assignment, no deletion lands over an unlanded assignment out of its
      group, and no grouped course is missing from the panel. */
  lemma RunKeepsCounts(w: Flow, steps: seq<Step>)
    requires Settled(w) && NothingHidden(w.server.rows, w.shown) && Agrees(w.panel)
    requires PoliteRun(w, |w.flights|, steps)
    ensures Agrees(Run(w, steps).panel) && NothingHidden(Run(w, steps).server.rows, Run(w, steps).shown)
  {
    SettledKeeps(w);
    PoliteRunKeeps(w, |w.flights|, steps);
  }
}
