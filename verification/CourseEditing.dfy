/** Version-checked course editing: any number of open course pages, one server
    and a network that loses, delays, reorders and repeats messages
    (CourseDetail, courseadmin). */
module CourseEditing {
  import opened JsCollections
  import opened Text

  datatype Teacher = Teacher(id: string, primary: bool)

  /** The properties a page sends only when the user names them. */
  datatype Details = Details(
    subjectId: Option<string>, courseType: Option<string>, year: Option<int>, hour: Option<int>,
    studentCount: Option<int>, cycleId: Option<string>, expiryDays: Option<int>)

  datatype Course = Course(
    version: nat, code: string, name: string, legacyId: Option<string>, teachers: seq<Teacher>, details: Details)

  /** A property of a request body: absent, null, or a value. */
  datatype Change<T> = Keep | Clear | Set(value: T)

  datatype DetailChanges = DetailChanges(
    subjectId: Change<string>, courseType: Change<string>, year: Change<int>, hour: Change<int>,
    studentCount: Change<int>, cycleId: Change<string>, expiryDays: Change<int>)

  /** What the user edited. */
  datatype Changes = Changes(name: Option<string>, teachers: Option<seq<Teacher>>, details: DetailChanges)

  datatype Patch = Patch(
    expectedVersion: nat, code: string, name: string, legacyId: Option<string>, teachers: seq<Teacher>,
    details: DetailChanges)

  function OrElse<T>(o: Option<T>, d: T): T {
    if o.Some? then o.value else d
  }

  /** The body a save sends: mostly cached fields. */
  function MakePatch(cached: Course, changes: Changes): Patch {
    Patch(cached.version, cached.code, OrElse(changes.name, cached.name), cached.legacyId,
          OrElse(changes.teachers, cached.teachers), changes.details)
  }

  // ---- The server ----

  datatype Verdict = Malformed | Invalid | Fine
  datatype Enrichment = Rich | Sparse | Missing
  datatype Reply = Updated(course: Course) | Stale(current: Option<Course>) | Refused | Fetched(course: Course)

  /** An optional column: absent and null both leave the column alone. */
  function Overlay<T>(was: Option<T>, c: Change<T>): Option<T> {
    if c.Set? then Some(c.value) else was
  }

  /** A nullable column: null clears it. */
  function OverlayRaw<T>(was: Option<T>, c: Change<T>): Option<T> {
    match c case Keep => was case Clear => None case Set(v) => Some(v)
  }

  function OverlayDetails(d: Details, c: DetailChanges): Details {
    Details(Overlay(d.subjectId, c.subjectId), Overlay(d.courseType, c.courseType), Overlay(d.year, c.year),
            Overlay(d.hour, c.hour), Overlay(d.studentCount, c.studentCount),
            OverlayRaw(d.cycleId, c.cycleId), OverlayRaw(d.expiryDays, c.expiryDays))
  }

  function NormalLegacy(id: Option<string>): Option<string> {
    if id.Some? && Trim(id.value) != "" then id else None
  }

  function Patched(c: Course, p: Patch): Course {
    Course(c.version + 1, Trim(p.code), Trim(p.name), NormalLegacy(p.legacyId), p.teachers,
           OverlayDetails(c.details, p.details))
  }

  const NO_DETAILS := Details(None, None, None, None, None, None, None)

  /** The course as a stale answer carries it when enrichment failed. */
  function SparseOf(c: Course): Course {
    c.(legacyId := None, details := NO_DETAILS)
  }

  predicate Accepts(c: Course, p: Patch, verdict: Verdict) {
    verdict.Fine? && 0 < p.expectedVersion == c.version
  }

  function Answer(c: Course, p: Patch, verdict: Verdict, enrichment: Enrichment): Reply {
    if verdict.Malformed? || p.expectedVersion == 0 then Refused
    else if p.expectedVersion != c.version then
      Stale(match enrichment case Rich => Some(c) case Sparse => Some(SparseOf(c)) case Missing => None)
    else if verdict.Invalid? then Refused
    else Updated(Patched(c, p))
  }

  // ---- One open page ----

  datatype Phase = Idle | Saving(request: nat) | Reloading(request: nat)

  datatype Client = Client(course: Option<Course>, phase: Phase)

  predicate CanSave(c: Client) {
    c.course.Some? && c.phase.Idle?
  }

  function BeginSave(c: Client, request: nat): Client {
    if CanSave(c) then c.(phase := Saving(request)) else c
  }

  predicate NeedsReload(c: Client, request: nat, reply: Reply) {
    c.phase == Saving(request) && reply == Stale(None)
  }

  /** An answer to `request`; anything the page no longer waits for is ignored. */
  function Receive(c: Client, request: nat, reply: Reply, reload: nat): Client {
    if c.phase == Saving(request) then
      match reply
      case Updated(course) => Client(Some(course), Idle)
      case Stale(Some(current)) => Client(Some(current), Idle)
      case Stale(None) => c.(phase := Reloading(reload))
      case _ => c.(phase := Idle)
    else if c.phase == Reloading(request) then
      if reply.Fetched? then Client(Some(reply.course), Idle) else c.(phase := Idle)
    else c
  }

  /** The course page's own state and handlers. */
  class CourseDetail {
    var course: Option<Course>
    var phase: Phase

    ghost function State(): Client
      reads this
    {
      Client(course, phase)
    }

    constructor ()
      ensures State() == Client(None, Idle)
    {
      course, phase := None, Idle;
    }

    method SaveCourse(changes: Changes, request: nat) returns (sent: Option<Patch>)
      modifies this`phase
      ensures State() == BeginSave(old(State()), request)
      ensures sent == if CanSave(old(State())) then Some(MakePatch(course.value, changes)) else None
    {
      if course.None? || !phase.Idle? { return None; }
      phase := Saving(request);
      sent := Some(MakePatch(course.value, changes));
    }

    method OnReply(request: nat, reply: Reply, reload: nat)
      modifies this
      ensures State() == Receive(old(State()), request, reply, reload)
    {
      if phase == Saving(request) {
        match reply {
          case Updated(updated) => course, phase := Some(updated), Idle;
          case Stale(current) =>
            if current.Some? {
              course, phase := current, Idle;
            } else {
              phase := Reloading(reload);
            }
          case Refused => phase := Idle;
          case Fetched(_) => phase := Idle;
        }
      } else if phase == Reloading(request) {
        if reply.Fetched? { course := Some(reply.course); }
        phase := Idle;
      }
    }

    /** The first load and the refresh after linking set the course at any time. */
    method OnLoaded(latest: Course)
      modifies this`course
      ensures State() == old(State()).(course := Some(latest))
    {
      course := Some(latest);
    }
  }

  // ---- All pages, the server and the network ----

  /** A patch in flight is kept as the copy and the changes it was made from. */
  datatype Message =
    | PatchSent(client: nat, request: nat, cached: Course, changes: Changes)
    | GetSent(client: nat, awaitedBy: Option<nat>)
    | ReplySent(client: nat, request: nat, reply: Reply)
    | PageSent(client: nat, page: Course)

  /** `history` holds every state the course row went through, the current last. */
  datatype World = World(history: seq<Course>, clients: seq<Client>, net: seq<Message>, next: nat)

  datatype Step =
    | Save(client: nat, changes: Changes)
    | Load(client: nat)
    | Serve(message: nat, verdict: Verdict, enrichment: Enrichment)
    | Deliver(message: nat)
    | GiveUp(client: nat)
    | VersionedWrite(course: Course)
    | SilentWrite(course: Course)

  function Current(w: World): Course
    requires w.history != []
  {
    w.history[|w.history| - 1]
  }

  function Send(w: World, m: Message): World {
    w.(net := w.net + [m], next := w.next + 1)
  }

  function ServeMessage(w: World, m: Message, verdict: Verdict, enrichment: Enrichment): (r: World)
    requires w.history != []
    ensures r.history != []
  {
    var cur := Current(w);
    match m
    case PatchSent(k, request, cached, changes) =>
      var p := MakePatch(cached, changes);
      var w' := w.(net := w.net + [ReplySent(k, request, Answer(cur, p, verdict, enrichment))]);
      if Accepts(cur, p, verdict) then w'.(history := w.history + [Patched(cur, p)]) else w'
    case GetSent(k, awaitedBy) =>
      w.(net := w.net + [if awaitedBy.Some? then ReplySent(k, awaitedBy.value, Fetched(cur)) else PageSent(k, cur)])
    case _ => w
  }

  function DeliverMessage(w: World, m: Message): (r: World)
    ensures r.history == w.history
  {
    if m.client >= |w.clients| then w
    else
      var c := w.clients[m.client];
      match m
      case ReplySent(k, request, reply) =>
        var w' := w.(clients := w.clients[k := Receive(c, request, reply, w.next)]);
        if NeedsReload(c, request, reply) then Send(w', GetSent(k, Some(w.next))) else w'
      case PageSent(k, page) => w.(clients := w.clients[k := c.(course := Some(page))])
      case _ => w
  }

  function Next(w: World, s: Step): (r: World)
    requires w.history != []
    ensures r.history != []
  {
    match s
    case Save(k, changes) =>
      if k < |w.clients| && CanSave(w.clients[k]) then
        Send(w.(clients := w.clients[k := BeginSave(w.clients[k], w.next)]),
             PatchSent(k, w.next, w.clients[k].course.value, changes))
      else w
    case Load(k) => Send(w, GetSent(k, None))
    case Serve(i, verdict, enrichment) => if i < |w.net| then ServeMessage(w, w.net[i], verdict, enrichment) else w
    case Deliver(i) => if i < |w.net| then DeliverMessage(w, w.net[i]) else w
    case GiveUp(k) => if k < |w.clients| then w.(clients := w.clients[k := w.clients[k].(phase := Idle)]) else w
    case VersionedWrite(c) => w.(history := w.history + [c.(version := Current(w).version + 1)])
    case SilentWrite(c) => w.(history := w.history + [c.(version := Current(w).version)])
  }

  function Run(w: World, steps: seq<Step>): (r: World)
    requires w.history != []
    ensures r.history != []
  {
    if steps == [] then w else Next(Run(w, steps[..|steps| - 1]), steps[|steps| - 1])
  }

  // ---- What every reachable state keeps ----

  /** `c` is a state the course had, or (unless `rich`) its sparse rendering. */
  ghost predicate Known(history: seq<Course>, c: Course, rich: bool) {
    exists i :: 0 <= i < |history| && (c == history[i] || (!rich && c == SparseOf(history[i])))
  }

  ghost predicate ReplyKnown(history: seq<Course>, r: Reply, rich: bool) {
    match r
    case Updated(c) => Known(history, c, rich)
    case Stale(Some(c)) => Known(history, c, rich)
    case Fetched(c) => Known(history, c, rich)
    case _ => true
  }

  ghost predicate MessageKnown(history: seq<Course>, m: Message, rich: bool) {
    match m
    case PatchSent(_, _, cached, _) => Known(history, cached, rich)
    case ReplySent(_, _, reply) => ReplyKnown(history, reply, rich)
    case PageSent(_, page) => Known(history, page, rich)
    case GetSent(_, _) => true
  }

  ghost predicate ClientKnown(history: seq<Course>, c: Client, rich: bool) {
    c.course.Some? ==> Known(history, c.course.value, rich)
  }

  /** Every cached course and every course in flight is a past server state. */
  ghost predicate AllKnown(w: World, rich: bool) {
    && (forall k :: 0 <= k < |w.clients| ==> ClientKnown(w.history, w.clients[k], rich))
    && (forall i :: 0 <= i < |w.net| ==> MessageKnown(w.history, w.net[i], rich))
  }

  ghost predicate RichStep(s: Step) {
    s.Serve? ==> !s.enrichment.Sparse?
  }

  lemma KnownGrows(w: World, history: seq<Course>, rich: bool)
    requires AllKnown(w, rich) && w.history <= history
    ensures AllKnown(w.(history := history), rich)
  {
    forall k | 0 <= k < |w.clients| ensures ClientKnown(history, w.clients[k], rich) {
      assert ClientKnown(w.history, w.clients[k], rich);
      if w.clients[k].course.Some? { StaysKnown(w.history, history, w.clients[k].course.value, rich); }
    }
    forall i | 0 <= i < |w.net| ensures MessageKnown(history, w.net[i], rich) {
      MessageStaysKnown(w.history, history, w.net[i], rich);
    }
  }

  lemma StaysKnown(h: seq<Course>, history: seq<Course>, c: Course, rich: bool)
    requires Known(h, c, rich) && h <= history
    ensures Known(history, c, rich)
  {
    var i :| 0 <= i < |h| && (c == h[i] || (!rich && c == SparseOf(h[i])));
    assert history[i] == h[i];
  }

  lemma MessageStaysKnown(h: seq<Course>, history: seq<Course>, m: Message, rich: bool)
    requires MessageKnown(h, m, rich) && h <= history
    ensures MessageKnown(history, m, rich)
  {
    match m
    case PatchSent(_, _, cached, _) => StaysKnown(h, history, cached, rich);
    case PageSent(_, page) => StaysKnown(h, history, page, rich);
    case ReplySent(_, _, Updated(c)) => StaysKnown(h, history, c, rich);
    case ReplySent(_, _, Stale(Some(c))) => StaysKnown(h, history, c, rich);
    case ReplySent(_, _, Fetched(c)) => StaysKnown(h, history, c, rich);
    case _ =>
  }

  lemma MessageAdded(w: World, m: Message, rich: bool)
    requires AllKnown(w, rich) && MessageKnown(w.history, m, rich)
    ensures AllKnown(w.(net := w.net + [m]), rich)
  {}

  lemma ClientChanged(w: World, k: nat, c: Client, rich: bool)
    requires AllKnown(w, rich) && k < |w.clients| && ClientKnown(w.history, c, rich)
    ensures AllKnown(w.(clients := w.clients[k := c]), rich)
  {}

  lemma CurrentKnown(w: World, rich: bool)
    requires w.history != []
    ensures Known(w.history, Current(w), rich)
    ensures !rich ==> Known(w.history, SparseOf(Current(w)), rich)
  {
    assert w.history[|w.history| - 1] == Current(w);
  }

  lemma ServeKeepsKnown(w: World, m: Message, verdict: Verdict, enrichment: Enrichment, rich: bool)
    requires w.history != [] && AllKnown(w, rich) && (rich ==> !enrichment.Sparse?)
    ensures AllKnown(ServeMessage(w, m, verdict, enrichment), rich)
  {
    CurrentKnown(w, rich);
    var cur := Current(w);
    match m
    case PatchSent(k, request, cached, changes) =>
      var p := MakePatch(cached, changes);
      var reply := Answer(cur, p, verdict, enrichment);
      if Accepts(cur, p, verdict) {
        var history := w.history + [Patched(cur, p)];
        KnownGrows(w, history, rich);
        CurrentKnown(w.(history := history), rich);
        MessageAdded(w.(history := history), ReplySent(k, request, reply), rich);
      } else {
        MessageAdded(w, ReplySent(k, request, reply), rich);
      }
    case GetSent(k, awaitedBy) =>
      MessageAdded(w, if awaitedBy.Some? then ReplySent(k, awaitedBy.value, Fetched(cur)) else PageSent(k, cur), rich);
    case _ =>
  }

  lemma DeliverKeepsKnown(w: World, m: Message, rich: bool)
    requires AllKnown(w, rich) && MessageKnown(w.history, m, rich)
    ensures AllKnown(DeliverMessage(w, m), rich)
  {
    if m.client < |w.clients| {
      var c := w.clients[m.client];
      match m
      case ReplySent(k, request, reply) =>
        assert ClientKnown(w.history, c, rich);
        ClientChanged(w, k, Receive(c, request, reply, w.next), rich);
        if NeedsReload(c, request, reply) {
          MessageAdded(w.(clients := w.clients[k := Receive(c, request, reply, w.next)]), GetSent(k, Some(w.next)), rich);
        }
      case PageSent(k, page) => ClientChanged(w, k, c.(course := Some(page)), rich);
      case _ =>
    }
  }

  lemma StepKeepsKnown(w: World, s: Step, rich: bool)
    requires w.history != [] && AllKnown(w, rich) && (rich ==> RichStep(s))
    ensures AllKnown(Next(w, s), rich)
  {
    match s
    case Save(k, changes) =>
      if k < |w.clients| && CanSave(w.clients[k]) {
        assert ClientKnown(w.history, w.clients[k], rich);
        ClientChanged(w, k, BeginSave(w.clients[k], w.next), rich);
        MessageAdded(w.(clients := w.clients[k := BeginSave(w.clients[k], w.next)]),
                     PatchSent(k, w.next, w.clients[k].course.value, changes), rich);
      }
    case Load(k) => MessageAdded(w, GetSent(k, None), rich);
    case Serve(i, verdict, enrichment) => if i < |w.net| { ServeKeepsKnown(w, w.net[i], verdict, enrichment, rich); }
    case Deliver(i) => if i < |w.net| { DeliverKeepsKnown(w, w.net[i], rich); }
    case GiveUp(k) =>
      if k < |w.clients| {
        assert ClientKnown(w.history, w.clients[k], rich);
        ClientChanged(w, k, w.clients[k].(phase := Idle), rich);
      }
    case VersionedWrite(c) => KnownGrows(w, Next(w, s).history, rich);
    case SilentWrite(c) => KnownGrows(w, Next(w, s).history, rich);
  }

  /** In every run, whatever is lost, late, reordered or repeated, each copy of
      the course anywhere is a state the server had at that version. */
  lemma {:induction false} EveryCopyIsAPastState(w: World, steps: seq<Step>, rich: bool)
    requires w.history != [] && AllKnown(w, rich)
    requires rich ==> forall n :: 0 <= n < |steps| ==> RichStep(steps[n])
    ensures AllKnown(Run(w, steps), rich)
  {
    if steps != [] {
      EveryCopyIsAPastState(w, steps[..|steps| - 1], rich);
      StepKeepsKnown(Run(w, steps[..|steps| - 1]), steps[|steps| - 1], rich);
    }
  }

  // ---- Which answers a page takes ----

  function Awaited(c: Client): Option<nat> {
    match c.phase case Idle => None case Saving(r) => Some(r) case Reloading(r) => Some(r)
  }

  ghost predicate Numbered(m: Message, next: nat) {
    match m
    case PatchSent(_, request, _, _) => request < next
    case GetSent(_, awaitedBy) => awaitedBy.Some? ==> awaitedBy.value < next
    case ReplySent(_, request, _) => request < next
    case PageSent(_, _) => true
  }

  /** Every request made so far has a number below the next one. */
  ghost predicate AllNumbered(w: World) {
    && (forall i :: 0 <= i < |w.net| ==> Numbered(w.net[i], w.next))
    && (forall k :: 0 <= k < |w.clients| && Awaited(w.clients[k]).Some? ==> Awaited(w.clients[k]).value < w.next)
  }

  lemma StepKeepsNumbers(w: World, s: Step)
    requires w.history != [] && AllNumbered(w)
    ensures AllNumbered(Next(w, s)) && w.next <= Next(w, s).next
  {
    if s.Serve? && s.message < |w.net| { assert Numbered(w.net[s.message], w.next); }
    if s.Deliver? && s.message < |w.net| { assert Numbered(w.net[s.message], w.next); }
  }

  /** Over every run a save is sent under a number that nothing on the way carries,
      so no answer to an earlier request can pass for its answer. */
  lemma {:induction false} SavesAreNumberedApart(w: World, steps: seq<Step>, k: nat, changes: Changes)
    requires w.history != [] && AllNumbered(w)
    ensures AllNumbered(Run(w, steps))
    ensures var u := Run(w, steps);
      var v := Next(u, Save(k, changes));
      k < |u.clients| && CanSave(u.clients[k]) ==>
        && Awaited(v.clients[k]).Some? && v.net == u.net + [v.net[|u.net|]]
        && forall i :: 0 <= i < |u.net| && u.net[i].ReplySent? ==> u.net[i].request != Awaited(v.clients[k]).value
  {
    if steps != [] {
      SavesAreNumberedApart(w, steps[..|steps| - 1], k, changes);
      StepKeepsNumbers(Run(w, steps[..|steps| - 1]), steps[|steps| - 1]);
    }
    assert forall i :: 0 <= i < |Run(w, steps).net| ==> Numbered(Run(w, steps).net[i], Run(w, steps).next);
  }

  /** A page takes only the answer it waits for. A refused save keeps the course and
      ends the waiting, and so does a reload that fails; while it waits, or before
      it has a course, it sends no save. */
  lemma AnswersTakenExactly(c: Client, request: nat, reply: Reply, reload: nat, w: World, k: nat, changes: Changes)
    ensures Awaited(c) != Some(request) ==> Receive(c, request, reply, reload) == c
    ensures Awaited(c) == Some(request) && reply.Refused? ==> Receive(c, request, reply, reload) == Client(c.course, Idle)
    ensures c.phase == Reloading(request) && !reply.Fetched? ==> Receive(c, request, reply, reload) == Client(c.course, Idle)
    ensures w.history != [] && k < |w.clients| && (Awaited(w.clients[k]).Some? || w.clients[k].course.None?) ==>
      Next(w, Save(k, changes)) == w
    ensures Awaited(c).Some? || c.course.None? ==> BeginSave(c, request) == c
  {}

  // ---- Versions ----

  ghost predicate VersionsDiffer(h: seq<Course>) {
    forall i, j :: 0 <= i < j < |h| ==> h[i].version < h[j].version
  }

  ghost predicate Normal(c: Course) {
    Trim(c.code) == c.code && Trim(c.name) == c.name && NormalLegacy(c.legacyId) == c.legacyId
  }

  ghost predicate AllNormal(h: seq<Course>) {
    forall i :: 0 <= i < |h| ==> Normal(h[i])
  }

  /** Other writers that move the version on and store trimmed values. */
  ghost predicate Versioned(s: Step) {
    !s.SilentWrite? && (s.VersionedWrite? ==> Normal(s.course))
  }

  lemma PatchedIsNormal(c: Course, p: Patch)
    ensures Normal(Patched(c, p))
  {
    TrimIdempotent(p.code);
    TrimIdempotent(p.name);
  }

  lemma StepGrowsHistory(w: World, s: Step)
    requires w.history != []
    ensures var h := Next(w, s).history;
      h == w.history || (h == w.history + [h[|w.history|]] && h[|w.history|].version >= Current(w).version)
    ensures Versioned(s) ==> var h := Next(w, s).history;
      h == w.history || (h[|w.history|].version == Current(w).version + 1 && Normal(h[|w.history|]))
  {
    if s.Serve? && s.message < |w.net| && w.net[s.message].PatchSent? {
      var m := w.net[s.message];
      PatchedIsNormal(Current(w), MakePatch(m.cached, m.changes));
    }
  }

  lemma HistorySnoc(h: seq<Course>, c: Course)
    requires h != [] && VersionsDiffer(h) && AllNormal(h) && Normal(c) && c.version > h[|h| - 1].version
    ensures VersionsDiffer(h + [c]) && AllNormal(h + [c])
  {
    forall i | 0 <= i < |h| ensures h[i].version < c.version {
      assert i < |h| - 1 ==> h[i].version < h[|h| - 1].version;
    }
  }

  lemma {:induction false} VersionedRun(w: World, steps: seq<Step>)
    requires w.history != [] && VersionsDiffer(w.history) && AllNormal(w.history)
    requires forall n :: 0 <= n < |steps| ==> Versioned(steps[n])
    ensures VersionsDiffer(Run(w, steps).history) && AllNormal(Run(w, steps).history)
  {
    if steps != [] {
      var w' := Run(w, steps[..|steps| - 1]);
      VersionedRun(w, steps[..|steps| - 1]);
      StepGrowsHistory(w', steps[|steps| - 1]);
      var h := Next(w', steps[|steps| - 1]).history;
      if h != w'.history {
        HistorySnoc(w'.history, h[|w'.history|]);
      }
    }
  }

  lemma {:induction false} HistoryOnlyGrows(w: World, steps: seq<Step>)
    requires w.history != []
    ensures w.history <= Run(w, steps).history
    ensures Current(w).version <= Current(Run(w, steps)).version
  {
    if steps != [] {
      HistoryOnlyGrows(w, steps[..|steps| - 1]);
      StepGrowsHistory(Run(w, steps[..|steps| - 1]), steps[|steps| - 1]);
    }
  }

  // ---- What an accepted patch changes ----

  /** The named fields take their new values; every other field stays. */
  function OnlyNamed(c: Course, changes: Changes): Course {
    Course(c.version + 1, c.code,
           if changes.name.Some? then Trim(changes.name.value) else c.name,
           c.legacyId,
           OrElse(changes.teachers, c.teachers),
           OverlayDetails(c.details, changes.details))
  }

  /** The cached fields that were not named are still what the server has. */
  predicate EchoIsCurrent(cached: Course, changes: Changes, c: Course) {
    && Trim(cached.code) == c.code
    && (changes.name.None? ==> Trim(cached.name) == c.name)
    && NormalLegacy(cached.legacyId) == c.legacyId
    && (changes.teachers.None? ==> cached.teachers == c.teachers)
  }

  /** An accepted patch changes only the named fields exactly when the fields it
      resends from the cache still match. The version check is what is meant to
      guarantee that; the lemmas below say when it does. */
  lemma KeepsOthersExactly(c: Course, cached: Course, changes: Changes)
    ensures Patched(c, MakePatch(cached, changes)) == OnlyNamed(c, changes) <==> EchoIsCurrent(cached, changes, c)
    ensures TakesExactly(c, Patched(c, MakePatch(cached, changes)), changes) <==> EchoIsCurrent(cached, changes, c)
  {}

  /** What one property of a body does to its column: a value is stored, an absent
      property leaves the column, null clears it only where the column is nullable. */
  predicate Obeys<T(==)>(was: Option<T>, now: Option<T>, c: Change<T>, nullable: bool) {
    && (c.Set? ==> now == Some(c.value))
    && (c.Keep? ==> now == was)
    && (c.Clear? && nullable ==> now == None)
    && (c.Clear? && !nullable ==> now == was)
  }

  predicate DetailsObey(was: Details, now: Details, c: DetailChanges) {
    && Obeys(was.subjectId, now.subjectId, c.subjectId, false) && Obeys(was.courseType, now.courseType, c.courseType, false)
    && Obeys(was.year, now.year, c.year, false) && Obeys(was.hour, now.hour, c.hour, false)
    && Obeys(was.studentCount, now.studentCount, c.studentCount, false)
    && Obeys(was.cycleId, now.cycleId, c.cycleId, true) && Obeys(was.expiryDays, now.expiryDays, c.expiryDays, true)
  }

  /** The named fields hold what the user named. */
  predicate HoldsNamed(was: Course, now: Course, changes: Changes) {
    && now.version == was.version + 1
    && (changes.name.Some? ==> now.name == Trim(changes.name.value))
    && (changes.teachers.Some? ==> now.teachers == changes.teachers.value)
    && DetailsObey(was.details, now.details, changes.details)
  }

  /** And the fields that were not named are as before. */
  predicate TakesExactly(was: Course, now: Course, changes: Changes) {
    && HoldsNamed(was, now, changes)
    && now.code == was.code && now.legacyId == was.legacyId
    && (changes.name.None? ==> now.name == was.name)
    && (changes.teachers.None? ==> now.teachers == was.teachers)
  }

  lemma OnlyNamedTakes(was: Course, now: Course, changes: Changes)
    ensures now == OnlyNamed(was, changes) <==> TakesExactly(was, now, changes)
  {}

  /** Every accepted patch, however old the rest of its copy, stores what the user
      named: each of the properties by what its part of the body says. */
  lemma AcceptedHoldsNamed(w: World, i: nat, e: Enrichment)
    requires w.history != [] && i < |w.net| && w.net[i].PatchSent?
    requires Accepts(Current(w), MakePatch(w.net[i].cached, w.net[i].changes), Fine)
    ensures var v := Next(w, Serve(i, Fine, e));
      v.history == w.history + [Current(v)] && HoldsNamed(Current(w), Current(v), w.net[i].changes)
  {}

  /** And writes over the rest what its copy carries: the trimmed code and unnamed
      name, the unnamed teachers, and the link unless it is blank. */
  lemma AcceptedEchoesCopy(w: World, i: nat, e: Enrichment)
    requires w.history != [] && i < |w.net| && w.net[i].PatchSent?
    requires Accepts(Current(w), MakePatch(w.net[i].cached, w.net[i].changes), Fine)
    ensures var now, m := Current(Next(w, Serve(i, Fine, e))), w.net[i];
      && now.code == Trim(m.cached.code)
      && (m.changes.name.None? ==> now.name == Trim(m.cached.name))
      && (m.changes.teachers.None? ==> now.teachers == m.cached.teachers)
      && (m.cached.legacyId.None? || Trim(m.cached.legacyId.value) == "" ==> now.legacyId == None)
      && (m.cached.legacyId.Some? && Trim(m.cached.legacyId.value) != "" ==> now.legacyId == m.cached.legacyId)
  {}

  /** What a served patch is answered: accepted, and the row changed, exactly when
      it is fine and carries the row's version, which is never 0; stale exactly when
      it can be read and carries another version; else refused. */
  lemma ServedIsAnswered(w: World, i: nat, verdict: Verdict, e: Enrichment)
    requires w.history != [] && i < |w.net| && w.net[i].PatchSent?
    ensures var v, version := Next(w, Serve(i, verdict, e)), w.net[i].cached.version;
      && |v.net| == |w.net| + 1 && v.net[|w.net|].ReplySent?
      && v.net[|w.net|].client == w.net[i].client && v.net[|w.net|].request == w.net[i].request
      && var r := v.net[|w.net|].reply;
         && (r.Updated? <==> verdict == Fine && version == Current(w).version != 0)
         && (r.Stale? <==> verdict != Malformed && version != Current(w).version && version != 0)
         && (r.Updated? || r.Stale? || r.Refused?)
         && v.history == (if r.Updated? then w.history + [r.course] else w.history)
         && (r.Stale? ==>
               && (e == Rich ==> r.current == Some(Current(w)))
               && (e == Missing ==> r.current == None)
               && (e == Sparse ==> r.current == Some(Current(w).(legacyId := None, details := NO_DETAILS))))
  {}

  lemma CopyAtCurrentVersion(h: seq<Course>, c: Course, rich: bool)
    requires h != [] && VersionsDiffer(h) && Known(h, c, rich) && c.version == h[|h| - 1].version
    ensures c == h[|h| - 1] || (!rich && c == SparseOf(h[|h| - 1]))
  {}

  /** In one such state: the copy a served patch was made from, if its version
      passes the check, is the current row or its sparse rendering. */
  lemma AcceptedPatch(w: World, cached: Course, changes: Changes, rich: bool)
    requires w.history != [] && VersionsDiffer(w.history) && AllNormal(w.history)
    requires Known(w.history, cached, rich) && cached.version == Current(w).version
    ensures Patched(Current(w), MakePatch(cached, changes)) == OnlyNamed(Current(w), changes)
            <==> cached.legacyId == Current(w).legacyId
    ensures rich ==> cached.legacyId == Current(w).legacyId
  {
    CopyAtCurrentVersion(w.history, cached, rich);
    assert Normal(Current(w));
    KeepsOthersExactly(Current(w), cached, changes);
  }

  /** No lost updates. When every writer moves the version on, then in every run
      an accepted patch changes only what the user named exactly when the copy
      it was made from carries the server's legacy link; and it always does
      when stale answers are enriched. */
  lemma NoLostUpdates(w: World, steps: seq<Step>, i: nat, e: Enrichment, rich: bool)
    requires w.history != [] && AllKnown(w, rich) && VersionsDiffer(w.history) && AllNormal(w.history)
    requires forall n :: 0 <= n < |steps| ==> Versioned(steps[n]) && (rich ==> RichStep(steps[n]))
    requires i < |Run(w, steps).net| && Run(w, steps).net[i].PatchSent?
    requires var m := Run(w, steps).net[i]; Accepts(Current(Run(w, steps)), MakePatch(m.cached, m.changes), Fine)
    ensures var before, m := Current(Run(w, steps)), Run(w, steps).net[i];
      var after := Current(Next(Run(w, steps), Serve(i, Fine, e)));
      && HoldsNamed(before, after, m.changes)
      && (TakesExactly(before, after, m.changes) <==> m.cached.legacyId == before.legacyId)
      && (rich ==> TakesExactly(before, after, m.changes))
  {
    var w' := Run(w, steps);
    EveryCopyIsAPastState(w, steps, rich);
    VersionedRun(w, steps);
    assert MessageKnown(w'.history, w'.net[i], rich);
    AcceptedPatch(w', w'.net[i].cached, w'.net[i].changes, rich);
    AcceptedHoldsNamed(w', i, e);
    OnlyNamedTakes(Current(w'), Current(Next(w', Serve(i, Fine, e))), w'.net[i].changes);
  }

  /** A patch is applied at most once: after it is accepted, serving it again at
      any later time changes nothing. */
  lemma AppliedAtMostOnce(w: World, i: nat, enrichment: Enrichment, later: seq<Step>, v: Verdict, e: Enrichment)
    requires w.history != [] && i < |w.net| && w.net[i].PatchSent?
    requires Accepts(Current(w), MakePatch(w.net[i].cached, w.net[i].changes), Fine)
    ensures var w' := Run(Next(w, Serve(i, Fine, enrichment)), later);
      ServeMessage(w', w.net[i], v, e).history == w'.history
  {
    HistoryOnlyGrows(Next(w, Serve(i, Fine, enrichment)), later);
  }

  /** The client documents null as clearing a property. */
  predicate NullsAreClear(c: DetailChanges, d: Details) {
    && (c.subjectId.Clear? ==> d.subjectId.None?) && (c.courseType.Clear? ==> d.courseType.None?)
    && (c.year.Clear? ==> d.year.None?) && (c.hour.Clear? ==> d.hour.None?)
    && (c.studentCount.Clear? ==> d.studentCount.None?)
    && (c.cycleId.Clear? ==> d.cycleId.None?) && (c.expiryDays.Clear? ==> d.expiryDays.None?)
  }

  /** The server does that for every save exactly when no null names one of the
      five optional columns while it holds a value. */
  lemma NullClearsExactly(c: Course, p: Patch)
    ensures NullsAreClear(p.details, Patched(c, p).details)
            <==> NullsAreClear(p.details.(cycleId := Keep, expiryDays := Keep), c.details)
  {}

  // ---- Writers that keep the version ----

  /** The echoed fields that writers which keep the version may touch. */
  datatype Fields = Fields(code: bool, name: bool, legacyId: bool, teachers: bool)

  /** Two states that differ in such fields and in properties never echoed. */
  ghost predicate SameOutside(f: Fields, c: Course, d: Course) {
    && (!f.code ==> c.code == d.code) && (!f.name ==> c.name == d.name)
    && (!f.legacyId ==> c.legacyId == d.legacyId) && (!f.teachers ==> c.teachers == d.teachers)
  }

  ghost predicate NormalOutside(f: Fields, c: Course) {
    && (!f.code ==> Trim(c.code) == c.code) && (!f.name ==> Trim(c.name) == c.name)
    && (!f.legacyId ==> NormalLegacy(c.legacyId) == c.legacyId)
  }

  /** Versions never fall, and states of one version differ only in `f`. */
  ghost predicate VersionsAgree(f: Fields, h: seq<Course>) {
    && (forall i, j :: 0 <= i < j < |h| ==> h[i].version <= h[j].version)
    && (forall i, j :: 0 <= i < j < |h| && h[i].version == h[j].version ==> SameOutside(f, h[i], h[j]))
    && (forall i :: 0 <= i < |h| ==> NormalOutside(f, h[i]))
  }

  ghost predicate Confined(f: Fields, w: World, s: Step)
    requires w.history != []
  {
    && (s.SilentWrite? ==> SameOutside(f, Current(w), s.course))
    && (s.SilentWrite? || s.VersionedWrite? ==> NormalOutside(f, s.course))
  }

  ghost predicate ConfinedRun(f: Fields, w: World, steps: seq<Step>)
    requires w.history != []
  {
    steps != [] ==>
      ConfinedRun(f, w, steps[..|steps| - 1]) && Confined(f, Run(w, steps[..|steps| - 1]), steps[|steps| - 1])
  }

  lemma AgreeSnoc(f: Fields, h: seq<Course>, c: Course)
    requires h != [] && VersionsAgree(f, h) && NormalOutside(f, c)
    requires c.version > h[|h| - 1].version || (c.version == h[|h| - 1].version && SameOutside(f, h[|h| - 1], c))
    ensures VersionsAgree(f, h + [c])
  {
    var t, n := h + [c], |h|;
    forall i | 0 <= i < n
      ensures h[i].version <= c.version && (h[i].version == c.version ==> SameOutside(f, h[i], c))
    {
      assert i < n - 1 ==> h[i].version <= h[n - 1].version;
      assert i < n - 1 && h[i].version == h[n - 1].version ==> SameOutside(f, h[i], h[n - 1]);
    }
    forall i, j | 0 <= i < j < |t| && t[i].version == t[j].version ensures SameOutside(f, t[i], t[j]) {
      if j < n { assert SameOutside(f, h[i], h[j]); }
    }
  }

  lemma PatchedIsNormalOutside(f: Fields, c: Course, p: Patch)
    ensures NormalOutside(f, Patched(c, p))
  {
    PatchedIsNormal(c, p);
  }

  lemma ServedAgrees(f: Fields, w: World, m: Message, verdict: Verdict, enrichment: Enrichment)
    requires w.history != [] && VersionsAgree(f, w.history)
    ensures VersionsAgree(f, ServeMessage(w, m, verdict, enrichment).history)
  {
    if m.PatchSent? && Accepts(Current(w), MakePatch(m.cached, m.changes), verdict) {
      var p := MakePatch(m.cached, m.changes);
      PatchedIsNormalOutside(f, Current(w), p);
      AgreeSnoc(f, w.history, Patched(Current(w), p));
    }
  }

  lemma WrittenAgrees(f: Fields, w: World, c: Course, silent: bool)
    requires w.history != [] && VersionsAgree(f, w.history) && NormalOutside(f, c)
    requires silent ==> SameOutside(f, Current(w), c)
    ensures VersionsAgree(f, w.history + [c.(version := Current(w).version + if silent then 0 else 1)])
  {
    AgreeSnoc(f, w.history, c.(version := Current(w).version + if silent then 0 else 1));
  }

  lemma ConfinedStep(f: Fields, w: World, s: Step)
    requires w.history != [] && VersionsAgree(f, w.history) && Confined(f, w, s)
    ensures VersionsAgree(f, Next(w, s).history)
  {
    if s.Serve? && s.message < |w.net| {
      ServedAgrees(f, w, w.net[s.message], s.verdict, s.enrichment);
    } else if s.VersionedWrite? {
      WrittenAgrees(f, w, s.course, false);
    } else if s.SilentWrite? {
      WrittenAgrees(f, w, s.course, true);
    } else {
      assert Next(w, s).history == w.history;
    }
  }

  lemma {:induction false} ConfinedRunAgrees(f: Fields, w: World, steps: seq<Step>)
    requires w.history != [] && VersionsAgree(f, w.history) && ConfinedRun(f, w, steps)
    ensures VersionsAgree(f, Run(w, steps).history)
  {
    if steps != [] {
      ConfinedRunAgrees(f, w, steps[..|steps| - 1]);
      ConfinedStep(f, Run(w, steps[..|steps| - 1]), steps[|steps| - 1]);
    }
  }

  /** The named fields take their new values, an unnamed field of `f` is what the
      copy echoes, and everything else stays. */
  function EchoedOver(c: Course, copy: Course, changes: Changes, f: Fields): Course {
    OnlyNamed(c, changes).(
      code := if f.code then Trim(copy.code) else c.code,
      name := if changes.name.None? && f.name then Trim(copy.name) else OnlyNamed(c, changes).name,
      legacyId := if f.legacyId then NormalLegacy(copy.legacyId) else c.legacyId,
      teachers := if changes.teachers.None? && f.teachers then copy.teachers else OnlyNamed(c, changes).teachers)
  }

  /** No field of `f` that the patch echoes differs between copy and row. */
  predicate EchoAgrees(c: Course, copy: Course, changes: Changes, f: Fields) {
    && (f.code ==> Trim(copy.code) == c.code)
    && (f.name && changes.name.None? ==> Trim(copy.name) == c.name)
    && (f.legacyId ==> NormalLegacy(copy.legacyId) == c.legacyId)
    && (f.teachers && changes.teachers.None? ==> copy.teachers == c.teachers)
  }

  /** The fields a copy may get wrong: those, and the link if it may be sparse. */
  function Doubtful(f: Fields, rich: bool): Fields {
    if rich then f else f.(legacyId := true)
  }

  lemma CopyAgreesOutside(f: Fields, h: seq<Course>, copy: Course, rich: bool)
    requires h != [] && VersionsAgree(f, h) && Known(h, copy, rich) && copy.version == h[|h| - 1].version
    ensures SameOutside(Doubtful(f, rich), copy, h[|h| - 1])
  {
    var i :| 0 <= i < |h| && (copy == h[i] || (!rich && copy == SparseOf(h[i])));
    if i < |h| - 1 { assert SameOutside(f, h[i], h[|h| - 1]); }
  }

  lemma EchoOver(f: Fields, c: Course, copy: Course, changes: Changes)
    requires SameOutside(f, copy, c) && NormalOutside(f, c)
    ensures Patched(c, MakePatch(copy, changes)) == EchoedOver(c, copy, changes, f)
    ensures EchoedOver(c, copy, changes, f) == OnlyNamed(c, changes) <==> EchoAgrees(c, copy, changes, f)
  {}

  /** Lost updates with every kind of writer. When those that keep the version
      touch only the echoed fields in `f`, then in every run an accepted patch
      writes the copy's value over exactly those fields it echoes and loses
      nothing else; so it loses nothing exactly when none of them differs. */
  lemma LostUpdatesAreConfined(f: Fields, w: World, steps: seq<Step>, i: nat, e: Enrichment, rich: bool)
    requires w.history != [] && AllKnown(w, rich) && VersionsAgree(f, w.history) && ConfinedRun(f, w, steps)
    requires rich ==> forall n :: 0 <= n < |steps| ==> RichStep(steps[n])
    requires i < |Run(w, steps).net| && Run(w, steps).net[i].PatchSent?
    requires var m := Run(w, steps).net[i]; Accepts(Current(Run(w, steps)), MakePatch(m.cached, m.changes), Fine)
    ensures var before, m, g := Current(Run(w, steps)), Run(w, steps).net[i], Doubtful(f, rich);
      var after := Current(Next(Run(w, steps), Serve(i, Fine, e)));
      && after == EchoedOver(before, m.cached, m.changes, g)
      && HoldsNamed(before, after, m.changes)
      && (TakesExactly(before, after, m.changes) <==> EchoAgrees(before, m.cached, m.changes, g))
  {
    var w' := Run(w, steps);
    EveryCopyIsAPastState(w, steps, rich);
    ConfinedRunAgrees(f, w, steps);
    assert MessageKnown(w'.history, w'.net[i], rich);
    CopyAgreesOutside(f, w'.history, w'.net[i].cached, rich);
    assert NormalOutside(f, Current(w'));
    EchoOver(Doubtful(f, rich), Current(w'), w'.net[i].cached, w'.net[i].changes);
    ServeAccepted(w', i, e);
    AcceptedHoldsNamed(w', i, e);
    OnlyNamedTakes(Current(w'), Current(Next(w', Serve(i, Fine, e))), w'.net[i].changes);
  }

  lemma ServeAccepted(w: World, i: nat, e: Enrichment)
    requires w.history != [] && i < |w.net| && w.net[i].PatchSent?
    requires Accepts(Current(w), MakePatch(w.net[i].cached, w.net[i].changes), Fine)
    ensures Current(Next(w, Serve(i, Fine, e))) == Patched(Current(w), MakePatch(w.net[i].cached, w.net[i].changes))
  {}

  lemma StepMovesVersion(w: World, s: Step)
    requires w.history != [] && !s.SilentWrite?
    ensures Next(w, s).history == w.history || Current(Next(w, s)).version == Current(w).version + 1
  {}

  /** Without a silent write the version grows whenever the row changes. */
  lemma {:induction false} SameVersionSameRow(w: World, steps: seq<Step>)
    requires w.history != [] && forall n :: 0 <= n < |steps| ==> !steps[n].SilentWrite?
    ensures Current(w).version <= Current(Run(w, steps)).version
    ensures Current(Run(w, steps)).version == Current(w).version ==> Current(Run(w, steps)) == Current(w)
  {
    if steps != [] {
      SameVersionSameRow(w, steps[..|steps| - 1]);
      StepMovesVersion(Run(w, steps[..|steps| - 1]), steps[|steps| - 1]);
    }
  }

  /** A copy read in full with no silent write between the read and the serve: the
      version check alone makes an accepted patch change only what was named. */
  lemma NoSilentWriteSinceRead(w: World, since: seq<Step>, changes: Changes)
    requires w.history != [] && Normal(Current(w)) && forall n :: 0 <= n < |since| ==> !since[n].SilentWrite?
    requires Accepts(Current(Run(w, since)), MakePatch(Current(w), changes), Fine)
    ensures var c := Current(Run(w, since)); TakesExactly(c, Patched(c, MakePatch(Current(w), changes)), changes)
  {
    SameVersionSameRow(w, since);
    KeepsOthersExactly(Current(w), Current(w), changes);
  }

  // ---- Saves get through ----

  /** A page that shows the current row saves, and the answer brings back the row
      with only the named fields changed. */
  lemma SaveGoesThrough(w: World, k: nat, changes: Changes)
    requires w.history != [] && k < |w.clients| && w.clients[k] == Client(Some(Current(w)), Idle)
    requires Current(w).version > 0 && Normal(Current(w))
    ensures var n := |w.net|;
      var end := Next(Next(Next(w, Save(k, changes)), Serve(n, Fine, Rich)), Deliver(n + 1));
      && end.history == w.history + [Current(end)] && TakesExactly(Current(w), Current(end), changes)
      && end.clients[k] == Client(Some(Current(end)), Idle)
  {
    var n, c := |w.net|, Current(w);
    var sent := Next(w, Save(k, changes));
    assert sent.net[n] == PatchSent(k, w.next, c, changes) && sent.clients[k].phase == Saving(w.next);
    KeepsOthersExactly(c, c, changes);
    var served := Next(sent, Serve(n, Fine, Rich));
    assert served.net[n + 1] == ReplySent(k, w.next, Updated(OnlyNamed(c, changes)));
  }

  /** A load brings the current row to the page at any time and leaves a save under
      way alone; a request that fails on the way ends the waiting and keeps the
      course shown. */
  lemma LoadGoesThrough(w: World, k: nat)
    requires w.history != [] && k < |w.clients|
    ensures var n := |w.net|;
      var end := Next(Next(Next(w, Load(k)), Serve(n, Fine, Rich)), Deliver(n + 1));
      end.history == w.history && end.clients == w.clients[k := w.clients[k].(course := Some(Current(w)))]
    ensures Next(w, GiveUp(k)) == w.(clients := w.clients[k := Client(w.clients[k].course, Idle)])
  {
    var n := |w.net|;
    var sent := Next(w, Load(k));
    assert sent.net[n] == GetSent(k, None);
    var served := Next(sent, Serve(n, Fine, Rich));
    assert served.net[n + 1] == PageSent(k, Current(w));
  }

  /** A page whose save went stale ends with the current row in full, from the
      answer itself or from the reload that an answer without it would start. The
      service always sends a current course or another error, so the second half
      is about the page alone. */
  lemma StalePageCatchesUp(w: World, k: nat, i: nat)
    requires WaitsForStale(w, k, i)
    ensures var n := |w.net|;
      var direct := Next(Next(w, Serve(i, Fine, Rich)), Deliver(n));
      var reload := Next(Next(w, Serve(i, Fine, Missing)), Deliver(n));
      var reloaded := Next(Next(reload, Serve(n + 1, Fine, Rich)), Deliver(n + 2));
      direct.clients[k] == reloaded.clients[k] == Client(Some(Current(w)), Idle)
  {
    var n, r := |w.net|, w.net[i].request;
    assert Next(w, Serve(i, Fine, Rich)).net[n] == ReplySent(k, r, Stale(Some(Current(w))));
    ReloadCatchesUp(w, k, i);
  }

  lemma ReloadCatchesUp(w: World, k: nat, i: nat)
    requires WaitsForStale(w, k, i)
    ensures var n := |w.net|;
      var reload := Next(Next(w, Serve(i, Fine, Missing)), Deliver(n));
      Next(Next(reload, Serve(n + 1, Fine, Rich)), Deliver(n + 2)).clients[k] == Client(Some(Current(w)), Idle)
  {
    var n := |w.net|;
    var served := Next(w, Serve(i, Fine, Missing));
    assert served.net[n] == ReplySent(k, w.net[i].request, Stale(None));
    var reload := Next(served, Deliver(n));
    assert reload.net[n + 1] == GetSent(k, Some(w.next)) && reload.clients[k].phase == Reloading(w.next);
    var got := Next(reload, Serve(n + 1, Fine, Rich));
    assert got.net[n + 2] == ReplySent(k, w.next, Fetched(Current(w)));
  }

  // ---- Where the version check is not enough ----

  const UNTOUCHED := DetailChanges(Keep, Keep, Keep, Keep, Keep, Keep, Keep)

  /** Page `k` waits for the save it sent as message `i`, which has gone stale. */
  ghost predicate WaitsForStale(w: World, k: nat, i: nat) {
    && w.history != [] && Current(w).version > 0
    && k < |w.clients| && i < |w.net| && w.net[i].PatchSent? && w.net[i].client == k
    && w.clients[k].phase == Saving(w.net[i].request)
    && 0 < w.net[i].cached.version != Current(w).version
  }

  lemma StaleAnswerReseeds(w: World, k: nat, i: nat)
    requires WaitsForStale(w, k, i)
    ensures var w' := Next(Next(w, Serve(i, Fine, Sparse)), Deliver(|w.net|));
      && w'.history == w.history && |w'.net| == |w.net| + 1 && |w'.clients| == |w.clients|
      && w'.clients[k] == Client(Some(SparseOf(Current(w))), Idle)
  {
    var served := Next(w, Serve(i, Fine, Sparse));
    assert served.net[|w.net|] == ReplySent(k, w.net[i].request, Stale(Some(SparseOf(Current(w)))));
  }

  lemma SaveFromCopy(w: World, k: nat, copy: Course, changes: Changes, e: Enrichment)
    requires w.history != [] && k < |w.clients| && w.clients[k] == Client(Some(copy), Idle)
    requires 0 < copy.version == Current(w).version
    ensures Current(Next(Next(w, Save(k, changes)), Serve(|w.net|, Fine, e)))
            == Patched(Current(w), MakePatch(copy, changes))
  {
    var sent := Next(w, Save(k, changes));
    assert sent.net[|w.net|] == PatchSent(k, w.next, copy, changes);
  }

  /** Whenever a stale answer goes out without enrichment, the page's next
      accepted save erases the course's legacy link, whatever the user named. */
  lemma SparseAnswerLosesLink(w: World, k: nat, i: nat, changes: Changes, e: Enrichment)
    requires WaitsForStale(w, k, i)
    ensures var n := |w.net|;
      var reseeded := Next(Next(w, Serve(i, Fine, Sparse)), Deliver(n));
      var after := Current(Next(Next(reseeded, Save(k, changes)), Serve(n + 1, Fine, e)));
      after.version == Current(w).version + 1 && after.legacyId == None
  {
    StaleAnswerReseeds(w, k, i);
    SaveFromCopy(Next(Next(w, Serve(i, Fine, Sparse)), Deliver(|w.net|)), k, SparseOf(Current(w)), changes, e);
  }

  /** Such a state is reached as soon as another writer overtakes a save. */
  lemma StaleIsReached(w: World, k: nat, changes: Changes, other: Course)
    requires w.history != [] && k < |w.clients| && CanSave(w.clients[k])
    requires 0 < w.clients[k].course.value.version <= Current(w).version
    ensures WaitsForStale(Next(Next(w, Save(k, changes)), VersionedWrite(other)), k, |w.net|)
  {}

  /** The legacy sync links a course without moving its version on, so a page
      that was up to date before erases the link with its next save, whatever
      the user named and however its answers are enriched. */
  lemma SilentLinkIsErased(w: World, k: nat, link: Course, changes: Changes, e: Enrichment)
    requires w.history != [] && k < |w.clients| && Current(w).version > 0
    requires w.clients[k] == Client(Some(Current(w)), Idle) && Current(w).legacyId == None
    requires link == Current(w).(legacyId := Some("L"))
    ensures var linked := Next(w, SilentWrite(link));
      Current(linked) == link
      && Current(Next(Next(linked, Save(k, changes)), Serve(|w.net|, Fine, e))).legacyId == None
  {
    SaveFromCopy(Next(w, SilentWrite(link)), k, Current(w), changes, e);
  }
}
