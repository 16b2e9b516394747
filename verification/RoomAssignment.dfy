/** Assigning rooms to the sessions of a day: the busy set a dropdown shows and
    the optimistic saves behind it (AssignRooms, RoomAssignDropdown). */
module RoomAssignment {
  import opened JsCollections

  /** Times are instants; None is a time that does not parse. */
  datatype Session = Session(id: string, startAt: Option<int>, endAt: Option<int>, roomId: Option<string>, version: nat)

  /** The hours a busy room's label shows. */
  datatype Window = Window(from: int, to: int)

  predicate Timed(s: Session) {
    s.startAt.Some? && s.endAt.Some?
  }

  predicate HasRoom(s: Session) {
    s.roomId.Some? && s.roomId.value != ""
  }

  /** Half-open intervals: sharing an end point is not an overlap. */
  predicate Overlap(a: Session, b: Session) {
    Timed(a) && Timed(b) && a.startAt.value < b.endAt.value && a.endAt.value > b.startAt.value
  }

  predicate Claims(other: Session, session: Session) {
    other.id != session.id && HasRoom(other) && Overlap(other, session)
  }

  // ---- The busy set ----

  function WindowOf(s: Session): Window
    requires Timed(s)
  {
    Window(s.startAt.value, s.endAt.value)
  }

  /** Each claimed room with the hours of its last claimant in the list. */
  function BusyRooms(session: Session, sessions: seq<Session>): map<string, Window> {
    if sessions == [] then map[]
    else
      var other := sessions[|sessions| - 1];
      var busy := BusyRooms(session, sessions[..|sessions| - 1]);
      if Claims(other, session) then busy[other.roomId.value := WindowOf(other)] else busy
  }

  method ComputeBusyRooms(session: Session, sessions: seq<Session>) returns (busy: map<string, Window>)
    ensures busy == BusyRooms(session, sessions)
  {
    busy := map[];
    if session.startAt.None? || session.endAt.None? {
      NothingOverlapsUntimed(session, sessions);
      return;
    }
    for n := 0 to |sessions|
      invariant busy == BusyRooms(session, sessions[..n])
    {
      var other := sessions[n];
      assert sessions[..n + 1][..n] == sessions[..n];
      if other.id == session.id || !HasRoom(other) { continue; }
      if other.startAt.None? || other.endAt.None? { continue; }
      if other.startAt.value < session.endAt.value && other.endAt.value > session.startAt.value {
        busy := busy[other.roomId.value := Window(other.startAt.value, other.endAt.value)];
      }
    }
    assert sessions[..|sessions|] == sessions;
  }

  lemma {:induction false} NothingOverlapsUntimed(session: Session, sessions: seq<Session>)
    requires !Timed(session)
    ensures BusyRooms(session, sessions) == map[]
  {
    if sessions != [] { NothingOverlapsUntimed(session, sessions[..|sessions| - 1]); }
  }

  ghost predicate ClaimedBy(session: Session, sessions: seq<Session>, room: string) {
    exists i :: 0 <= i < |sessions| && Claims(sessions[i], session) && sessions[i].roomId == Some(room)
  }

  /** A room is busy exactly when some other overlapping session has it. */
  lemma {:induction false} BusyExactly(session: Session, sessions: seq<Session>, room: string)
    ensures room in BusyRooms(session, sessions) <==> ClaimedBy(session, sessions, room)
  {
    if sessions != [] {
      var init, n := sessions[..|sessions| - 1], |sessions| - 1;
      BusyExactly(session, init, room);
      if ClaimedBy(session, init, room) {
        var i :| 0 <= i < n && Claims(init[i], session) && init[i].roomId == Some(room);
        assert sessions[i] == init[i];
      }
      if ClaimedBy(session, sessions, room) {
        var i :| 0 <= i < |sessions| && Claims(sessions[i], session) && sessions[i].roomId == Some(room);
        assert i < n ==> init[i] == sessions[i];
      }
    }
  }

  /** Which rooms are busy does not depend on the order of the list. */
  lemma BusyIgnoresOrder(session: Session, a: seq<Session>, b: seq<Session>)
    requires multiset(a) == multiset(b)
    ensures BusyRooms(session, a).Keys == BusyRooms(session, b).Keys
  {
    forall room ensures room in BusyRooms(session, a) <==> room in BusyRooms(session, b) {
      BusyExactly(session, a, room);
      BusyExactly(session, b, room);
      if ClaimedBy(session, a, room) { ClaimMoves(session, a, b, room); }
      if ClaimedBy(session, b, room) { ClaimMoves(session, b, a, room); }
    }
  }

  lemma ClaimMoves(session: Session, a: seq<Session>, b: seq<Session>, room: string)
    requires multiset(a) == multiset(b) && ClaimedBy(session, a, room)
    ensures ClaimedBy(session, b, room)
  {
    var i :| 0 <= i < |a| && Claims(a[i], session) && a[i].roomId == Some(room);
    assert a[i] in multiset(b);
    var j :| 0 <= j < |b| && b[j] == a[i];
  }

  /** Some instant lies in both sessions; each has its start and not its end. */
  ghost predicate ShareAnInstant(a: Session, b: Session) {
    exists t: int :: CoversInstant(a, t) && CoversInstant(b, t)
  }

  predicate CoversInstant(s: Session, t: int) {
    s.startAt.Some? && s.endAt.Some? && s.startAt.value <= t < s.endAt.value
  }

  predicate StartsBeforeEnd(s: Session) {
    s.startAt.Some? && s.endAt.Some? ==> s.startAt.value < s.endAt.value
  }

  lemma OverlapIsShared(a: Session, b: Session)
    requires StartsBeforeEnd(a) && StartsBeforeEnd(b)
    ensures Overlap(a, b) <==> ShareAnInstant(a, b)
  {
    if Overlap(a, b) {
      var t := if a.startAt.value < b.startAt.value then b.startAt.value else a.startAt.value;
      assert CoversInstant(a, t) && CoversInstant(b, t);
    }
  }

  /** A room is busy exactly when another session that has it shares an instant. */
  lemma BusyMeansSharedInstant(session: Session, sessions: seq<Session>, room: string)
    requires StartsBeforeEnd(session) && forall i :: 0 <= i < |sessions| ==> StartsBeforeEnd(sessions[i])
    ensures room in BusyRooms(session, sessions) <==>
      room != "" && exists i :: 0 <= i < |sessions| && sessions[i].id != session.id && sessions[i].roomId == Some(room)
                                && ShareAnInstant(sessions[i], session)
  {
    BusyExactly(session, sessions, room);
    forall i | 0 <= i < |sessions| ensures Overlap(sessions[i], session) <==> ShareAnInstant(sessions[i], session) {
      OverlapIsShared(sessions[i], session);
    }
    if ClaimedBy(session, sessions, room) {
      var i :| 0 <= i < |sessions| && Claims(sessions[i], session) && sessions[i].roomId == Some(room);
      assert ShareAnInstant(sessions[i], session);
    }
  }

  predicate OneAfterTheOther(a: Session, b: Session) {
    a.startAt.Some? && a.endAt.Some? && b.startAt.Some? && b.endAt.Some? ==>
      a.endAt.value <= b.startAt.value || b.endAt.value <= a.startAt.value
  }

  /** Sessions that only touch leave the room free. */
  lemma BackToBackIsFree(session: Session, sessions: seq<Session>, room: string)
    requires forall i :: 0 <= i < |sessions| && sessions[i].roomId == Some(room) && sessions[i].id != session.id ==>
      OneAfterTheOther(sessions[i], session)
    ensures room !in BusyRooms(session, sessions)
  {
    BusyExactly(session, sessions, room);
  }

  /** The hours shown with a busy room are those of the last session in the list
      that keeps it busy. */
  lemma {:induction false} BusyHoursExactly(session: Session, sessions: seq<Session>, room: string) returns (i: nat)
    requires room in BusyRooms(session, sessions)
    ensures i < |sessions| && sessions[i].roomId == Some(room) && Claims(sessions[i], session)
    ensures BusyRooms(session, sessions)[room].from == sessions[i].startAt.value
    ensures BusyRooms(session, sessions)[room].to == sessions[i].endAt.value
    ensures forall j :: i < j < |sessions| && Claims(sessions[j], session) ==> sessions[j].roomId != Some(room)
  {
    var n := |sessions| - 1;
    if Claims(sessions[n], session) && sessions[n].roomId == Some(room) {
      i := n;
    } else {
      i := BusyHoursExactly(session, sessions[..n], room);
      assert forall j :: i < j < n ==> sessions[..n][j] == sessions[j];
    }
  }

  // ---- Double booking ----

  ghost predicate UniqueIds(sessions: seq<Session>) {
    forall i, j :: 0 <= i < j < |sessions| ==> sessions[i].id != sessions[j].id
  }

  ghost predicate SameRoomAtOnce(a: Session, b: Session) {
    HasRoom(a) && a.roomId == b.roomId && Overlap(a, b)
  }

  /** No two overlapping sessions share a room. */
  ghost predicate NoDoubleBooking(sessions: seq<Session>) {
    forall i, j :: 0 <= i < j < |sessions| ==> !SameRoomAtOnce(sessions[i], sessions[j])
  }

  function SetRoom(sessions: seq<Session>, id: string, room: Option<string>): (r: seq<Session>)
    ensures |r| == |sessions|
    ensures forall i :: 0 <= i < |r| ==>
              r[i] == if sessions[i].id == id then sessions[i].(roomId := room) else sessions[i]
  {
    seq(|sessions|, i requires 0 <= i < |sessions| =>
      if sessions[i].id == id then sessions[i].(roomId := room) else sessions[i])
  }

  function SetVersion(sessions: seq<Session>, id: string, version: nat): (r: seq<Session>)
    ensures |r| == |sessions|
    ensures forall i :: 0 <= i < |r| ==>
              r[i] == if sessions[i].id == id then sessions[i].(version := version) else sessions[i]
  {
    seq(|sessions|, i requires 0 <= i < |sessions| =>
      if sessions[i].id == id then sessions[i].(version := version) else sessions[i])
  }

  lemma FreeRoomIsSafe(sessions: seq<Session>, i: nat, room: string)
    requires UniqueIds(sessions) && NoDoubleBooking(sessions) && i < |sessions|
    requires !ClaimedBy(sessions[i], sessions, room)
    ensures NoDoubleBooking(SetRoom(sessions, sessions[i].id, Some(room)))
  {
    var r := SetRoom(sessions, sessions[i].id, Some(room));
    forall a, b | 0 <= a < b < |r| ensures !SameRoomAtOnce(r[a], r[b]) {
      assert !SameRoomAtOnce(sessions[a], sessions[b]);
      assert a != i ==> r[a] == sessions[a];
      assert b != i ==> r[b] == sessions[b];
      if SameRoomAtOnce(r[a], r[b]) {
        assert Claims(sessions[if a == i then b else a], sessions[i]);
      }
    }
  }

  lemma BusyRoomIsUnsafe(sessions: seq<Session>, i: nat, room: string)
    requires UniqueIds(sessions) && i < |sessions| && ClaimedBy(sessions[i], sessions, room)
    ensures !NoDoubleBooking(SetRoom(sessions, sessions[i].id, Some(room)))
  {
    var r := SetRoom(sessions, sessions[i].id, Some(room));
    var j :| 0 <= j < |sessions| && Claims(sessions[j], sessions[i]) && sessions[j].roomId == Some(room);
    assert r[j] == sessions[j];
    if i < j {
      assert SameRoomAtOnce(r[i], r[j]);
    } else {
      assert SameRoomAtOnce(r[j], r[i]);
    }
  }

  /** The busy set is exact: assigning a room double-books if and only if the
      dropdown marks the room busy. */
  lemma BusyMeansDoubleBooking(sessions: seq<Session>, i: nat, room: string)
    requires UniqueIds(sessions) && NoDoubleBooking(sessions) && i < |sessions|
    ensures room in BusyRooms(sessions[i], sessions)
            <==> !NoDoubleBooking(SetRoom(sessions, sessions[i].id, Some(room)))
  {
    BusyExactly(sessions[i], sessions, room);
    if ClaimedBy(sessions[i], sessions, room) {
      BusyRoomIsUnsafe(sessions, i, room);
    } else {
      FreeRoomIsSafe(sessions, i, room);
    }
  }

  lemma NoRoomIsSafe(sessions: seq<Session>, id: string)
    requires NoDoubleBooking(sessions)
    ensures NoDoubleBooking(SetRoom(sessions, id, None))
  {
    var r := SetRoom(sessions, id, None);
    forall a, b | 0 <= a < b < |r| ensures !SameRoomAtOnce(r[a], r[b]) {
      assert !SameRoomAtOnce(sessions[a], sessions[b]);
    }
  }

  // ---- The page ----

  /** The cached list and, per session being saved, the room sent. */
  datatype Page = Page(sessions: seq<Session>, pending: map<string, Option<string>>)

  /** The server answers with the stored room and version, or anything else
      happened and the list is read again (which may itself fail). */
  datatype Outcome = Updated(room: Option<string>, version: nat) | Reloaded(list: Option<seq<Session>>)

  datatype Step =
    | Pick(index: nat, room: string)
    | Clear(index: nat)
    | Answer(id: string, outcome: Outcome)
    | Refresh(list: seq<Session>)

  function Send(p: Page, id: string, room: Option<string>): Page {
    Page(SetRoom(p.sessions, id, room), p.pending[id := room])
  }

  function Next(p: Page, s: Step): Page {
    match s
    case Pick(i, room) =>
      if i >= |p.sessions| || p.sessions[i].id in p.pending || room in BusyRooms(p.sessions[i], p.sessions) then p
      else Send(p, p.sessions[i].id, if p.sessions[i].roomId == Some(room) then None else Some(room))
    case Clear(i) =>
      if i >= |p.sessions| || p.sessions[i].id in p.pending then p else Send(p, p.sessions[i].id, None)
    case Answer(id, outcome) =>
      if id !in p.pending then p
      else
        var sessions := match outcome
          case Updated(room, version) => SetVersion(SetRoom(p.sessions, id, room), id, version)
          case Reloaded(Some(list)) => list
          case Reloaded(None) => p.sessions;
        Page(sessions, p.pending - {id})
    case Refresh(list) => p.(sessions := list)
  }

  function Run(p: Page, steps: seq<Step>): Page {
    if steps == [] then p else Next(Run(p, steps[..|steps| - 1]), steps[|steps| - 1])
  }

  /** What the cache keeps: no double booking, and every session being saved
      shows the room that was sent. */
  ghost predicate Safe(p: Page) {
    && UniqueIds(p.sessions) && NoDoubleBooking(p.sessions)
    && forall i :: 0 <= i < |p.sessions| && p.sessions[i].id in p.pending ==>
         p.sessions[i].roomId == p.pending[p.sessions[i].id]
  }

  ghost predicate Booked(list: seq<Session>) {
    UniqueIds(list) && NoDoubleBooking(list)
  }

  /** The server stores the room it was sent; lists from it are booked without
      overlap and land when no other save is under way. */
  ghost predicate LandsAlone(p: Page, s: Step) {
    match s
    case Refresh(list) => Booked(list) && p.pending == map[]
    case Answer(id, Updated(room, _)) => id in p.pending ==> room == p.pending[id]
    case Answer(id, Reloaded(Some(list))) => Booked(list) && p.pending.Keys <= {id}
    case _ => true
  }

  ghost predicate OrderlyRun(p: Page, steps: seq<Step>) {
    steps != [] ==>
      OrderlyRun(p, steps[..|steps| - 1]) && LandsAlone(Run(p, steps[..|steps| - 1]), steps[|steps| - 1])
  }

  lemma SendKeepsSafe(p: Page, i: nat, room: Option<string>)
    requires Safe(p) && i < |p.sessions| && p.sessions[i].id !in p.pending
    requires room.Some? ==> room.value !in BusyRooms(p.sessions[i], p.sessions)
    ensures Safe(Send(p, p.sessions[i].id, room))
  {
    if room.Some? {
      BusyMeansDoubleBooking(p.sessions, i, room.value);
    } else {
      NoRoomIsSafe(p.sessions, p.sessions[i].id);
    }
  }

  lemma SameRoomsSafe(a: seq<Session>, b: seq<Session>)
    requires |a| == |b| && UniqueIds(a) && NoDoubleBooking(a)
    requires forall i :: 0 <= i < |a| ==> b[i] == a[i].(version := b[i].version)
    ensures UniqueIds(b) && NoDoubleBooking(b)
  {
    forall i, j | 0 <= i < j < |b| ensures !SameRoomAtOnce(b[i], b[j]) {
      assert !SameRoomAtOnce(a[i], a[j]);
    }
  }

  lemma AnswerKeepsSafe(p: Page, id: string, version: nat)
    requires Safe(p) && id in p.pending
    ensures Safe(Next(p, Answer(id, Updated(p.pending[id], version))))
  {
    var q := Next(p, Answer(id, Updated(p.pending[id], version)));
    forall i | 0 <= i < |p.sessions| ensures q.sessions[i] == p.sessions[i].(version := q.sessions[i].version) {}
    SameRoomsSafe(p.sessions, q.sessions);
  }

  lemma StepKeepsSafe(p: Page, s: Step)
    requires Safe(p) && LandsAlone(p, s)
    ensures Safe(Next(p, s))
  {
    match s
    case Pick(i, room) =>
      if Next(p, s) != p {
        SendKeepsSafe(p, i, if p.sessions[i].roomId == Some(room) then None else Some(room));
      }
    case Clear(i) => if Next(p, s) != p { SendKeepsSafe(p, i, None); }
    case Answer(id, Updated(_, version)) => if id in p.pending { AnswerKeepsSafe(p, id, version); }
    case Answer(_, _) =>
    case Refresh(_) =>
  }

  /** No run of picks, clears and answers double-books the page, however many
      saves overlap in time, as long as reloaded lists land alone. */
  lemma {:induction false} RunsNeverDoubleBook(p: Page, steps: seq<Step>)
    requires Safe(p) && OrderlyRun(p, steps)
    ensures Safe(Run(p, steps))
  {
    if steps != [] {
      RunsNeverDoubleBook(p, steps[..|steps| - 1]);
      StepKeepsSafe(Run(p, steps[..|steps| - 1]), steps[|steps| - 1]);
    }
  }

  /** Picking a free room and a successful answer leave that session, and only
      that one, in the room with the new version, and nothing pending for it. */
  lemma PickGoesThrough(p: Page, i: nat, room: string, version: nat, j: nat)
    requires UniqueIds(p.sessions) && i < |p.sessions| && j < |p.sessions|
    requires p.sessions[i].id !in p.pending && room !in BusyRooms(p.sessions[i], p.sessions)
    requires p.sessions[i].roomId != Some(room)
    ensures var id := p.sessions[i].id;
      var q := Next(Next(p, Pick(i, room)), Answer(id, Updated(Some(room), version)));
      && q.pending == p.pending && |q.sessions| == |p.sessions|
      && q.sessions[j] == if j == i then p.sessions[i].(roomId := Some(room), version := version) else p.sessions[j]
  {
    var id := p.sessions[i].id;
    assert p.pending[id := Some(room)] - {id} == p.pending;
    assert j < i ==> p.sessions[j].id != p.sessions[i].id;
    assert i < j ==> p.sessions[i].id != p.sessions[j].id;
  }

  /** Picking the room a session has clears it, and a reload after any failure
      shows the server's list again. */
  lemma PickAgainClears(p: Page, i: nat, room: string, list: seq<Session>)
    requires i < |p.sessions| && p.sessions[i].id !in p.pending && room !in BusyRooms(p.sessions[i], p.sessions)
    requires p.sessions[i].roomId == Some(room)
    ensures Next(p, Pick(i, room)) == Next(p, Clear(i)) && Next(p, Clear(i)).sessions[i].roomId == None
    ensures Next(Next(p, Pick(i, room)), Answer(p.sessions[i].id, Reloaded(Some(list)))) == Page(list, p.pending)
  {
    var id := p.sessions[i].id;
    assert p.pending[id := None] - {id} == p.pending;
  }

  /** A list that lands during a save may be older than the save's success. What
      the page shows after the answer is then double-booked exactly when the
      stored room is busy in that list. */
  lemma LateListDoubleBooksExactly(p: Page, list: seq<Session>, i: nat, room: string, version: nat)
    requires Booked(list) && i < |list| && list[i].id in p.pending
    ensures var q := Next(Next(p, Refresh(list)), Answer(list[i].id, Updated(Some(room), version)));
      NoDoubleBooking(q.sessions) <==> room !in BusyRooms(list[i], list)
  {
    var id := list[i].id;
    BusyMeansDoubleBooking(list, i, room);
    VersionsDoNotMatter(SetRoom(list, id, Some(room)), id, version);
    assert Next(Next(p, Refresh(list)), Answer(id, Updated(Some(room), version))).sessions
        == SetVersion(SetRoom(list, id, Some(room)), id, version);
  }

  /** The list as it will look once every save in flight has succeeded. */
  function Overlay(sessions: seq<Session>, pending: map<string, Option<string>>): (r: seq<Session>)
    ensures |r| == |sessions|
    ensures forall i :: 0 <= i < |r| ==>
              r[i] == if sessions[i].id in pending then sessions[i].(roomId := pending[sessions[i].id]) else sessions[i]
  {
    seq(|sessions|, i requires 0 <= i < |sessions| =>
      if sessions[i].id in pending then sessions[i].(roomId := pending[sessions[i].id]) else sessions[i])
  }

  ghost predicate Succeeds(p: Page, s: Step) {
    s.Answer? && s.outcome.Updated? && (s.id in p.pending ==> s.outcome.room == p.pending[s.id])
  }

  ghost predicate AllSucceed(p: Page, steps: seq<Step>) {
    steps != [] ==>
      AllSucceed(p, steps[..|steps| - 1]) && Succeeds(Run(p, steps[..|steps| - 1]), steps[|steps| - 1])
  }

  lemma SuccessKeepsOverlay(p: Page, s: Step)
    requires Succeeds(p, s)
    ensures var q := Next(p, s);
      NoDoubleBooking(Overlay(q.sessions, q.pending)) <==> NoDoubleBooking(Overlay(p.sessions, p.pending))
  {
    var q := Next(p, s);
    var a, b := Overlay(p.sessions, p.pending), Overlay(q.sessions, q.pending);
    forall i | 0 <= i < |a| ensures b[i] == a[i].(version := b[i].version) {}
    forall i, j | 0 <= i < j < |a| ensures SameRoomAtOnce(a[i], a[j]) <==> SameRoomAtOnce(b[i], b[j]) {}
  }

  lemma {:induction false} SuccessesKeepOverlay(p: Page, steps: seq<Step>)
    requires AllSucceed(p, steps)
    ensures var q := Run(p, steps);
      NoDoubleBooking(Overlay(q.sessions, q.pending)) <==> NoDoubleBooking(Overlay(p.sessions, p.pending))
  {
    if steps != [] {
      SuccessesKeepOverlay(p, steps[..|steps| - 1]);
      SuccessKeepsOverlay(Run(p, steps[..|steps| - 1]), steps[|steps| - 1]);
    }
  }

  /** A list that lands during any number of saves: once they have all succeeded,
      in whatever order, the page is double-booked exactly when the list with the
      rooms in flight put over it is. */
  lemma LateListsSettleExactly(p: Page, list: seq<Session>, steps: seq<Step>)
    requires AllSucceed(Next(p, Refresh(list)), steps) && Run(Next(p, Refresh(list)), steps).pending == map[]
    ensures NoDoubleBooking(Run(Next(p, Refresh(list)), steps).sessions) <==> NoDoubleBooking(Overlay(list, p.pending))
  {
    var q := Run(Next(p, Refresh(list)), steps);
    SuccessesKeepOverlay(Next(p, Refresh(list)), steps);
    assert Overlay(q.sessions, q.pending) == q.sessions;
  }

  // ---- Every run, with lists landing during saves ----

  /** What the page will show once every save in flight has succeeded. */
  function Ahead(p: Page): seq<Session> {
    Overlay(p.sessions, p.pending)
  }

  /** The server stores what it was sent, and its lists name each session once. */
  ghost predicate Faithful(p: Page, s: Step) {
    match s
    case Refresh(list) => UniqueIds(list)
    case Answer(id, Updated(room, _)) => id in p.pending ==> room == p.pending[id]
    case Answer(id, Reloaded(Some(list))) => UniqueIds(list)
    case _ => true
  }

  /** A pick that goes ahead finds its room free under the saves in flight, and a
      list that lands, or the cache after a reload that failed, is free under those
      still in flight. */
  ghost predicate Settles(p: Page, s: Step) {
    match s
    case Pick(i, room) => Next(p, s) != p && p.sessions[i].roomId != Some(room) ==> room !in BusyRooms(Ahead(p)[i], Ahead(p))
    case Clear(_) => true
    case Refresh(list) => NoDoubleBooking(Overlay(list, p.pending))
    case Answer(id, Updated(_, _)) => true
    case Answer(id, Reloaded(list)) =>
      id in p.pending ==> NoDoubleBooking(Overlay(if list.Some? then list.value else p.sessions, p.pending - {id}))
  }

  ghost predicate FaithfulRun(p: Page, steps: seq<Step>) {
    steps != [] ==>
      FaithfulRun(p, steps[..|steps| - 1]) && Faithful(Run(p, steps[..|steps| - 1]), steps[|steps| - 1])
  }

  ghost predicate EveryStepSettles(p: Page, steps: seq<Step>) {
    steps != [] ==>
      EveryStepSettles(p, steps[..|steps| - 1]) && Settles(Run(p, steps[..|steps| - 1]), steps[|steps| - 1])
  }

  ghost predicate AlwaysAhead(p: Page, steps: seq<Step>) {
    NoDoubleBooking(Ahead(Run(p, steps))) && (steps != [] ==> AlwaysAhead(p, steps[..|steps| - 1]))
  }

  lemma SendAhead(p: Page, i: nat, room: Option<string>)
    requires UniqueIds(p.sessions) && i < |p.sessions| && p.sessions[i].id !in p.pending
    ensures Ahead(Send(p, p.sessions[i].id, room)) == SetRoom(Ahead(p), p.sessions[i].id, room)
    ensures UniqueIds(Ahead(p)) && Ahead(p)[i] == p.sessions[i]
  {}

  lemma PickSettlesExactly(p: Page, i: nat, room: string)
    requires UniqueIds(p.sessions) && NoDoubleBooking(Ahead(p)) && Next(p, Pick(i, room)) != p
    ensures NoDoubleBooking(Ahead(Next(p, Pick(i, room)))) <==> Settles(p, Pick(i, room))
  {
    SendAhead(p, i, if p.sessions[i].roomId == Some(room) then None else Some(room));
    if p.sessions[i].roomId == Some(room) {
      NoRoomIsSafe(Ahead(p), p.sessions[i].id);
    } else {
      BusyMeansDoubleBooking(Ahead(p), i, room);
    }
  }

  lemma StepSettlesExactly(p: Page, s: Step)
    requires UniqueIds(p.sessions) && NoDoubleBooking(Ahead(p)) && Faithful(p, s)
    ensures NoDoubleBooking(Ahead(Next(p, s))) <==> Settles(p, s)
    ensures UniqueIds(Next(p, s).sessions)
  {
    match s
    case Pick(i, room) =>
      if Next(p, s) != p { PickSettlesExactly(p, i, room); }
    case Clear(i) =>
      if Next(p, s) != p {
        SendAhead(p, i, None);
        NoRoomIsSafe(Ahead(p), p.sessions[i].id);
      }
    case Answer(id, Updated(_, _)) => SuccessKeepsOverlay(p, s);
    case Answer(_, Reloaded(_)) =>
    case Refresh(_) =>
  }

  lemma {:induction false} IdsStayUnique(p: Page, steps: seq<Step>)
    requires UniqueIds(p.sessions) && FaithfulRun(p, steps)
    ensures UniqueIds(Run(p, steps).sessions)
  {
    if steps != [] { IdsStayUnique(p, steps[..|steps| - 1]); }
  }

  /** Over every run, whatever overlaps: the rooms shown, with those being saved put
      over them, are never double-booked if and only if each pick and each list
      that lands is free under the saves in flight. The page itself is what is
      left when none is. */
  lemma {:induction false} RunsSettleExactly(p: Page, steps: seq<Step>)
    requires UniqueIds(p.sessions) && NoDoubleBooking(Ahead(p)) && FaithfulRun(p, steps)
    ensures AlwaysAhead(p, steps) <==> EveryStepSettles(p, steps)
    ensures Run(p, steps).pending == map[] ==> Ahead(Run(p, steps)) == Run(p, steps).sessions
  {
    if steps != [] {
      var init := steps[..|steps| - 1];
      RunsSettleExactly(p, init);
      IdsStayUnique(p, init);
      if NoDoubleBooking(Ahead(Run(p, init))) { StepSettlesExactly(Run(p, init), steps[|steps| - 1]); }
    }
  }

  lemma VersionsDoNotMatter(list: seq<Session>, id: string, version: nat)
    ensures NoDoubleBooking(SetVersion(list, id, version)) <==> NoDoubleBooking(list)
  {
    var shown := SetVersion(list, id, version);
    forall a, b | 0 <= a < b < |list| ensures SameRoomAtOnce(list[a], list[b]) <==> SameRoomAtOnce(shown[a], shown[b]) {}
  }

  class AssignRooms {
    var sessions: seq<Session>
    var pendingIds: map<string, Option<string>>

    ghost function State(): Page
      reads this
    {
      Page(sessions, pendingIds)
    }

    constructor (sessions: seq<Session>)
      ensures State() == Page(sessions, map[])
    {
      this.sessions, pendingIds := sessions, map[];
    }

    method Commit(id: string, roomId: Option<string>)
      modifies this
      ensures State() == if id in old(pendingIds) then old(State()) else Send(old(State()), id, roomId)
    {
      if id in pendingIds { return; }
      pendingIds := pendingIds[id := roomId];
      sessions := SetRoom(sessions, id, roomId);
    }

    /** The dropdown's `commit`: refuses busy rooms, toggles the current one. */
    method PickRoom(index: nat, room: string)
      requires index < |sessions|
      modifies this
      ensures State() == Next(old(State()), Pick(index, room))
    {
      var session := sessions[index];
      var busy := ComputeBusyRooms(session, sessions);
      if session.id in pendingIds || room in busy { return; }
      Commit(session.id, if session.roomId == Some(room) then None else Some(room));
    }

    method ClearRoom(index: nat)
      requires index < |sessions|
      modifies this
      ensures State() == Next(old(State()), Clear(index))
    {
      if sessions[index].id in pendingIds { return; }
      Commit(sessions[index].id, None);
    }

    method OnAnswer(id: string, outcome: Outcome)
      modifies this
      ensures State() == Next(old(State()), Answer(id, outcome))
    {
      if id !in pendingIds { return; }
      match outcome {
        case Updated(room, version) => sessions := SetVersion(SetRoom(sessions, id, room), id, version);
        case Reloaded(list) => if list.Some? { sessions := list.value; }
      }
      pendingIds := pendingIds - {id};
    }
  }
}
