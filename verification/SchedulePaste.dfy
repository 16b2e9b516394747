/** Creating sessions from a pasted schedule: submit, conflict dialog, cancel,
    create what is available, retry (CourseDetail, scheduling service). Each
    pasted row has a number; editing the text or choosing another teacher makes
    new rows. */
module SchedulePaste {
  import opened JsCollections

  datatype Flight = Flight(row: nat, blocked: bool)

  /** What a preflight answers, and what becomes of one post: created, turned
      down, or created with the answer lost (which the page takes for a failure). */
  datatype Check = Available | Conflict | Broken
  datatype Post = Created | Rejected | Lost

  datatype Event = Checked(row: nat, answer: Check) | Made(row: nat)

  datatype Panel = Panel(text: seq<nat>, preflights: Option<seq<Flight>>, next: nat, trace: seq<Event>)

  datatype Action =
    | Edit(rows: nat)
    | Open
    | Submit(enforced: bool, checks: seq<Check>, posts: seq<Post>)
    | CreateAvailable(enforced: bool, posts: seq<Post>)
    | Cancel

  // ---- Preflights and posts of a list of rows ----

  function CheckOf(checks: seq<Check>, i: nat): Check {
    if i < |checks| then checks[i] else Broken
  }

  function PostOf(posts: seq<Post>, i: nat): Post {
    if i < |posts| then posts[i] else Rejected
  }

  /** What becomes of the posts. While the conflict policy is enforced, creating a
      session checks the teacher's and room's other sessions again in its own
      transaction, so a row that already has a session is turned down. */
  function Settled(t: seq<Event>, rows: seq<nat>, enforced: bool, posts: seq<Post>): (r: seq<Post>)
    ensures |r| == |rows|
  {
    seq(|rows|, i requires 0 <= i < |rows| =>
      if enforced && Made(rows[i]) in t then Rejected else PostOf(posts, i))
  }

  predicate AnyBroken(rows: seq<nat>, checks: seq<Check>) {
    exists i :: 0 <= i < |rows| && CheckOf(checks, i).Broken?
  }

  function Flights(rows: seq<nat>, checks: seq<Check>): (r: seq<Flight>)
    ensures |r| == |rows|
  {
    seq(|rows|, i requires 0 <= i < |rows| => Flight(rows[i], CheckOf(checks, i).Conflict?))
  }

  predicate AnyBlocked(flights: seq<Flight>) {
    exists i :: 0 <= i < |flights| && flights[i].blocked
  }

  function Checks(rows: seq<nat>, checks: seq<Check>): seq<Event> {
    seq(|rows|, i requires 0 <= i < |rows| => Checked(rows[i], CheckOf(checks, i)))
  }

  function Creatable(flights: seq<Flight>): seq<nat> {
    if flights == [] then []
    else
      var f := flights[|flights| - 1];
      Creatable(flights[..|flights| - 1]) + if f.blocked then [] else [f.row]
  }

  /** The sessions that come into being. */
  function Making(rows: seq<nat>, posts: seq<Post>): seq<Event> {
    if rows == [] then []
    else
      var n := |rows| - 1;
      Making(rows[..n], posts) + if PostOf(posts, n).Rejected? then [] else [Made(rows[n])]
  }

  /** The number the page believes it created. */
  function CreatedCount(rows: seq<nat>, posts: seq<Post>): nat {
    if rows == [] then 0
    else CreatedCount(rows[..|rows| - 1], posts) + if PostOf(posts, |rows| - 1).Created? then 1 else 0
  }

  // ---- The page ----

  function AfterPosts(p: Panel, rows: seq<nat>, posts: seq<Post>): Panel {
    var trace := p.trace + Making(rows, posts);
    if CreatedCount(rows, posts) > 0 then p.(text := [], preflights := None, trace := trace) else p.(trace := trace)
  }

  function AfterSubmit(p: Panel, checks: seq<Check>, posts: seq<Post>): Panel {
    if p.preflights.Some? || p.text == [] || AnyBroken(p.text, checks) then p
    else
      var flights := Flights(p.text, checks);
      var q := p.(trace := p.trace + Checks(p.text, checks));
      if AnyBlocked(flights) then q.(preflights := Some(flights)) else AfterPosts(q, Creatable(flights), posts)
  }

  function AfterCreateAvailable(p: Panel, posts: seq<Post>): Panel {
    if p.preflights.None? || Creatable(p.preflights.value) == [] then p
    else AfterPosts(p, Creatable(p.preflights.value), posts)
  }

  /** The conflict dialog is modal: while it is open only its own buttons act. */
  function Next(p: Panel, a: Action): Panel {
    match a
    case Edit(n) =>
      if p.preflights.Some? then p
      else p.(text := seq(n, i requires 0 <= i => p.next + i), next := p.next + n)
    case Open => if p.preflights.Some? then p else p.(text := [])
    case Submit(_, checks, _) => AfterSubmit(p, checks, PostsIn(p, a))
    case CreateAvailable(_, _) => AfterCreateAvailable(p, PostsIn(p, a))
    case Cancel => p.(preflights := None)
  }

  /** The rows an action posts. */
  function Posted(p: Panel, a: Action): seq<nat> {
    match a
    case Submit(_, checks, _) =>
      if p.preflights.Some? || AnyBroken(p.text, checks) || AnyBlocked(Flights(p.text, checks)) then []
      else Creatable(Flights(p.text, checks))
    case CreateAvailable(_, _) => if p.preflights.Some? then Creatable(p.preflights.value) else []
    case _ => []
  }

  /** What becomes of them. */
  function PostsIn(p: Panel, a: Action): seq<Post> {
    match a
    case Submit(enforced, _, posts) => Settled(p.trace, Posted(p, a), enforced, posts)
    case CreateAvailable(enforced, posts) => Settled(p.trace, Posted(p, a), enforced, posts)
    case _ => []
  }

  const START := Panel([], None, 0, [])

  function Run(actions: seq<Action>): Panel {
    if actions == [] then START else Next(Run(actions[..|actions| - 1]), actions[|actions| - 1])
  }

  class CourseDetailPaste {
    var pasteText: seq<nat>
    var pastePreflights: Option<seq<Flight>>
    var createOpen: bool
    ghost var next: nat
    ghost var trace: seq<Event>

    ghost function State(): Panel
      reads this
    {
      Panel(pasteText, pastePreflights, next, trace)
    }

    constructor ()
      ensures State() == START && !createOpen
    {
      pasteText, pastePreflights, createOpen, next, trace := [], None, false, 0, [];
    }

    method CreateSessionsFromPreflights(preflights: seq<Flight>, posts: seq<Post>) returns (created: nat)
      modifies this`trace
      ensures created == CreatedCount(Creatable(preflights), posts)
      ensures trace == old(trace) + Making(Creatable(preflights), posts)
    {
      var creatable := Creatable(preflights);
      trace := trace + Making(creatable, posts);
      created := CreatedCount(creatable, posts);
    }

    method SubmitPastedSessions(checks: seq<Check>, posts: seq<Post>)
      requires pastePreflights.None?
      modifies this
      ensures State() == AfterSubmit(old(State()), checks, posts)
      ensures createOpen == (old(createOpen) && pasteText == old(pasteText))
    {
      if pasteText == [] || AnyBroken(pasteText, checks) { return; }
      var preflights := Flights(pasteText, checks);
      trace := trace + Checks(pasteText, checks);
      if AnyBlocked(preflights) {
        pastePreflights := Some(preflights);
        return;
      }
      var created := CreateSessionsFromPreflights(preflights, posts);
      if created > 0 {
        createOpen, pasteText := false, [];
      }
    }

    method CreateNonConflictingSessions(posts: seq<Post>)
      modifies this
      ensures State() == AfterCreateAvailable(old(State()), posts)
      ensures createOpen == (old(createOpen) && pastePreflights == old(pastePreflights))
    {
      if pastePreflights.None? || Creatable(pastePreflights.value) == [] { return; }
      var created := CreateSessionsFromPreflights(pastePreflights.value, posts);
      if created > 0 {
        pastePreflights, pasteText, createOpen := None, [], false;
      }
    }
  }

  // ---- What the trace may hold ----

  /** The last preflight of a row. */
  function LastCheck(t: seq<Event>, row: nat): Option<Check> {
    if t == [] then None
    else
      var e := t[|t| - 1];
      if e.Checked? && e.row == row then Some(e.answer) else LastCheck(t[..|t| - 1], row)
  }

  /** A session is made only of a row whose last preflight found it available. */
  ghost predicate OnlyAllowed(t: seq<Event>) {
    forall i :: 0 <= i < |t| && t[i].Made? ==> LastCheck(t[..i], t[i].row) == Some(Available)
  }

  ghost predicate AtMostOnce(t: seq<Event>) {
    forall i, j :: 0 <= i < j < |t| && t[i].Made? && t[j].Made? ==> t[i].row != t[j].row
  }

  lemma LastCheckSnoc(t: seq<Event>, e: Event, row: nat)
    ensures LastCheck(t + [e], row) == if e.Checked? && e.row == row then Some(e.answer) else LastCheck(t, row)
  {
    assert (t + [e])[..|t|] == t;
  }

  lemma {:induction false} MakingLeavesChecks(t: seq<Event>, rows: seq<nat>, posts: seq<Post>, row: nat)
    ensures LastCheck(t + Making(rows, posts), row) == LastCheck(t, row)
  {
    if rows == [] {
      assert t + [] == t;
    } else {
      var n := |rows| - 1;
      MakingLeavesChecks(t, rows[..n], posts, row);
      if PostOf(posts, n).Rejected? {
        assert Making(rows, posts) == Making(rows[..n], posts);
      } else {
        assert t + Making(rows, posts) == (t + Making(rows[..n], posts)) + [Made(rows[n])];
        LastCheckSnoc(t + Making(rows[..n], posts), Made(rows[n]), row);
      }
    }
  }

  lemma {:induction false} ChecksAreLast(t: seq<Event>, rows: seq<nat>, checks: seq<Check>, i: nat)
    requires i < |rows| && Distinct(rows)
    ensures LastCheck(t + Checks(rows, checks), rows[i]) == Some(CheckOf(checks, i))
  {
    var n := |rows| - 1;
    var init := t + Checks(rows[..n], checks);
    assert t + Checks(rows, checks) == init + [Checked(rows[n], CheckOf(checks, n))];
    LastCheckSnoc(init, Checked(rows[n], CheckOf(checks, n)), rows[i]);
    if i < n { ChecksAreLast(t, rows[..n], checks, i); }
  }

  lemma {:induction false} CreatableMembers(flights: seq<Flight>, row: nat)
    requires forall a, b :: 0 <= a < b < |flights| ==> flights[a].row != flights[b].row
    ensures row in Creatable(flights) <==> exists i :: 0 <= i < |flights| && flights[i] == Flight(row, false)
    ensures Distinct(Creatable(flights))
  {
    if flights != [] {
      var n := |flights| - 1;
      CreatableMembers(flights[..n], row);
      CreatableMembers(flights[..n], flights[n].row);
      assert flights == flights[..n] + [flights[n]];
    }
  }

  lemma {:induction false} MakingMembers(rows: seq<nat>, posts: seq<Post>, e: Event)
    requires e in Making(rows, posts)
    ensures e.Made? && e.row in rows
  {
    var n := |rows| - 1;
    if e in Making(rows[..n], posts) { MakingMembers(rows[..n], posts, e); }
  }

  /** Posting rows whose last preflight found them available keeps the trace allowed. */
  lemma {:induction false} MakingAllowed(t: seq<Event>, rows: seq<nat>, posts: seq<Post>)
    requires OnlyAllowed(t) && forall r :: r in rows ==> LastCheck(t, r) == Some(Available)
    ensures OnlyAllowed(t + Making(rows, posts))
  {
    if rows == [] {
      assert t + [] == t;
    } else {
      var n := |rows| - 1;
      var init := t + Making(rows[..n], posts);
      MakingAllowed(t, rows[..n], posts);
      if PostOf(posts, n).Rejected? {
        assert t + Making(rows, posts) == init;
      } else {
        assert t + Making(rows, posts) == init + [Made(rows[n])];
        MakingLeavesChecks(t, rows[..n], posts, rows[n]);
        AllowedSnoc(init, Made(rows[n]));
      }
    }
  }

  lemma AllowedSnoc(t: seq<Event>, e: Event)
    requires OnlyAllowed(t) && (e.Made? ==> LastCheck(t, e.row) == Some(Available))
    ensures OnlyAllowed(t + [e])
  {
    forall i | 0 <= i < |t| + 1 && (t + [e])[i].Made? ensures LastCheck((t + [e])[..i], (t + [e])[i].row) == Some(Available) {
      assert (t + [e])[..i] == t[..i];
      assert t[..|t|] == t;
    }
  }

  lemma {:induction false} ChecksAllowed(t: seq<Event>, rows: seq<nat>, checks: seq<Check>)
    requires OnlyAllowed(t)
    ensures OnlyAllowed(t + Checks(rows, checks))
  {
    if rows == [] {
      assert t + Checks(rows, checks) == t;
    } else {
      var n := |rows| - 1;
      var init, e := t + Checks(rows[..n], checks), Checked(rows[n], CheckOf(checks, n));
      ChecksAllowed(t, rows[..n], checks);
      assert t + Checks(rows, checks) == init + [e];
      AllowedSnoc(init, e);
    }
  }

  /** Posting distinct rows makes none twice when those made before are turned
      down. */
  lemma {:induction false} MakingOnce(t: seq<Event>, rows: seq<nat>, posts: seq<Post>)
    requires AtMostOnce(t) && Distinct(rows)
    requires forall i :: 0 <= i < |rows| && Made(rows[i]) in t ==> PostOf(posts, i).Rejected?
    ensures AtMostOnce(t + Making(rows, posts))
  {
    if rows == [] {
      assert t + [] == t;
    } else {
      var n := |rows| - 1;
      var making := Making(rows[..n], posts);
      MakingOnce(t, rows[..n], posts);
      if PostOf(posts, n).Rejected? {
        assert Making(rows, posts) == making;
      } else {
        assert t + Making(rows, posts) == (t + making) + [Made(rows[n])];
        forall i | 0 <= i < |making| ensures making[i] != Made(rows[n]) {
          MakingMembers(rows[..n], posts, making[i]);
        }
        OnceSnoc(t + making, rows[n]);
      }
    }
  }

  lemma OnceSnoc(t: seq<Event>, row: nat)
    requires AtMostOnce(t) && Made(row) !in t
    ensures AtMostOnce(t + [Made(row)])
  {
    forall i | 0 <= i < |t| && t[i].Made? ensures t[i].row != row {
      assert t[i] in t;
    }
  }

  // ---- All runs ----

  /** What a row of the dialog says its preflight found. */
  function Shown(f: Flight): Check {
    if f.blocked then Conflict else Available
  }

  /** The dialog shows the last preflight of every row of the text. */
  ghost predicate DialogOk(p: Panel) {
    p.preflights.Some? ==>
      && |p.preflights.value| == |p.text|
      && forall i :: 0 <= i < |p.text| ==>
           p.preflights.value[i].row == p.text[i]
           && LastCheck(p.trace, p.text[i]) == Some(Shown(p.preflights.value[i]))
  }

  ghost predicate Inv(p: Panel) {
    && Distinct(p.text) && (forall r :: r in p.text ==> r < p.next)
    && (forall e :: e in p.trace ==> e.row < p.next)
    && DialogOk(p) && OnlyAllowed(p.trace)
  }

  /** Nothing that was made still waits in the text. */
  ghost predicate NothingToRepeat(p: Panel) {
    AtMostOnce(p.trace) && forall r :: r in p.text ==> Made(r) !in p.trace
  }

  /** A round in which sessions were made but every answer failed to say so. */
  ghost predicate LosesEveryAnswer(p: Panel, a: Action) {
    CreatedCount(Posted(p, a), PostsIn(p, a)) == 0 && Making(Posted(p, a), PostsIn(p, a)) != []
  }

  lemma FlightRows(flights: seq<Flight>, text: seq<nat>, row: nat)
    requires |flights| == |text| && Distinct(text)
    requires forall i :: 0 <= i < |text| ==> flights[i].row == text[i]
    ensures forall a, b :: 0 <= a < b < |flights| ==> flights[a].row != flights[b].row
    ensures Distinct(Creatable(flights))
    ensures row in Creatable(flights) ==> row in text && Flight(row, false) in flights
  {
    CreatableMembers(flights, row);
  }

  lemma PostsKeep(p: Panel, flights: seq<Flight>, posts: seq<Post>)
    requires Inv(p) && |flights| == |p.text|
    requires forall i :: 0 <= i < |p.text| ==>
      flights[i].row == p.text[i] && LastCheck(p.trace, p.text[i]) == Some(Shown(flights[i]))
    ensures Inv(AfterPosts(p, Creatable(flights), posts))
  {
    var rows := Creatable(flights);
    var q := AfterPosts(p, rows, posts);
    forall r | r in rows ensures r in p.text && LastCheck(p.trace, r) == Some(Available) {
      FlightRows(flights, p.text, r);
      var i :| 0 <= i < |flights| && flights[i] == Flight(r, false);
    }
    MakingAllowed(p.trace, rows, posts);
    forall e | e in q.trace ensures e.row < p.next {
      if e !in p.trace { MakingMembers(rows, posts, e); }
    }
    forall i | 0 <= i < |p.text| ensures LastCheck(q.trace, p.text[i]) == LastCheck(p.trace, p.text[i]) {
      MakingLeavesChecks(p.trace, rows, posts, p.text[i]);
    }
  }

  lemma CheckKeeps(p: Panel, checks: seq<Check>)
    requires Inv(p) && !AnyBroken(p.text, checks)
    ensures var q := p.(trace := p.trace + Checks(p.text, checks));
      Inv(q.(preflights := Some(Flights(p.text, checks)))) && Inv(q.(preflights := None))
  {
    ChecksAllowed(p.trace, p.text, checks);
    ChecksShown(p, checks);
    forall e | e in Checks(p.text, checks) ensures e.row < p.next {
      var i :| 0 <= i < |p.text| && Checks(p.text, checks)[i] == e;
      assert p.text[i] in p.text;
    }
  }

  lemma ChecksShown(p: Panel, checks: seq<Check>)
    requires Distinct(p.text) && !AnyBroken(p.text, checks)
    ensures var flights := Flights(p.text, checks);
      forall i :: 0 <= i < |p.text| ==>
        flights[i].row == p.text[i] && LastCheck(p.trace + Checks(p.text, checks), p.text[i]) == Some(Shown(flights[i]))
  {
    forall i | 0 <= i < |p.text|
      ensures LastCheck(p.trace + Checks(p.text, checks), p.text[i]) == Some(Shown(Flights(p.text, checks)[i]))
    {
      ChecksAreLast(p.trace, p.text, checks, i);
      assert !CheckOf(checks, i).Broken?;
    }
  }

  lemma StepKeeps(p: Panel, a: Action)
    requires Inv(p)
    ensures Inv(Next(p, a))
  {
    match a
    case Edit(n) =>
    case Open =>
    case Submit(_, checks, _) => SubmitKeeps(p, checks, PostsIn(p, a));
    case CreateAvailable(_, _) =>
      if Next(p, a) != p { PostsKeep(p, p.preflights.value, PostsIn(p, a)); }
    case Cancel =>
  }

  lemma SubmitKeeps(p: Panel, checks: seq<Check>, posts: seq<Post>)
    requires Inv(p)
    ensures Inv(AfterSubmit(p, checks, posts))
  {
    if p.preflights.None? && p.text != [] && !AnyBroken(p.text, checks) {
      var flights := Flights(p.text, checks);
      CheckKeeps(p, checks);
      if !AnyBlocked(flights) {
        ChecksShown(p, checks);
        PostsKeep(p.(trace := p.trace + Checks(p.text, checks)), flights, posts);
      }
    }
  }

  /** In every run a session is made only of a row whose last preflight found it
      available, whatever is cancelled, retried or lost. */
  lemma {:induction false} OnlyAllowedRowsAreMade(actions: seq<Action>)
    ensures Inv(Run(actions))
  {
    if actions != [] {
      OnlyAllowedRowsAreMade(actions[..|actions| - 1]);
      StepKeeps(Run(actions[..|actions| - 1]), actions[|actions| - 1]);
    }
  }

  /** A submit that finds any row blocked makes nothing. */
  lemma BlockedSubmitMakesNothing(p: Panel, enforced: bool, checks: seq<Check>, posts: seq<Post>)
    requires AnyBlocked(Flights(p.text, checks))
    ensures forall e :: e in Next(p, Submit(enforced, checks, posts)).trace && e.Made? ==> e in p.trace
  {}

  /** A submit with a row whose preflight failed, or never answered, changes nothing
      at all: nothing is made, shown or cleared. */
  lemma FailedPreflightStopsAll(p: Panel, enforced: bool, checks: seq<Check>, posts: seq<Post>, i: nat)
    requires i < |p.text| && (i >= |checks| || checks[i] == Broken)
    ensures Next(p, Submit(enforced, checks, posts)) == p
  {
    assert CheckOf(checks, i).Broken?;
  }

  /** What a submit makes was found available by that submit, and so was every
      other row of the text. */
  lemma SubmitMakesAvailableRows(p: Panel, enforced: bool, checks: seq<Check>, posts: seq<Post>, row: nat, i: nat)
    requires Inv(p) && i < |p.text|
    requires Made(row) in Next(p, Submit(enforced, checks, posts)).trace && Made(row) !in p.trace
    ensures row in p.text && i < |checks| && checks[i] == Available
  {
    var a := Submit(enforced, checks, posts);
    var t := TraceAfter(p, a);
    MakingMembers(Posted(p, a), PostsIn(p, a), Made(row));
    PostedRows(p, a);
    assert !CheckOf(checks, i).Broken? && !Flights(p.text, checks)[i].blocked;
  }

  /** A submit whose preflights all answer and find some row in conflict opens the
      dialog with every row, those in conflict marked, and keeps the text. */
  lemma BlockedSubmitShows(p: Panel, enforced: bool, checks: seq<Check>, posts: seq<Post>, i: nat)
    requires p.preflights.None? && |checks| >= |p.text| && i < |p.text|
    requires (forall j :: 0 <= j < |p.text| ==> checks[j] != Broken) && checks[i] == Conflict
    ensures var q := Next(p, Submit(enforced, checks, posts));
      && q.text == p.text && q.preflights.Some? && |q.preflights.value| == |p.text|
      && (forall j :: 0 <= j < |p.text| ==> q.preflights.value[j] == Flight(p.text[j], checks[j] == Conflict))
      && forall r :: Made(r) in q.trace <==> Made(r) in p.trace
  {
    assert Flights(p.text, checks)[i].blocked;
    ChecksMakeNothing(p.trace, p.text, checks);
  }

  /** The dialog's create makes exactly the rows that are not in conflict when all of
      them can be made, and closes and clears everything unless there is none. */
  lemma DialogMakesAvailable(p: Panel, enforced: bool, i: nat)
    requires Inv(p) && NothingToRepeat(p) && p.preflights.Some? && i < |p.preflights.value|
    ensures var q := Next(p, CreateAvailable(enforced, AllCreated(|p.text|)));
      && (Made(p.text[i]) in q.trace <==> !p.preflights.value[i].blocked)
      && (!p.preflights.value[i].blocked ==> q.text == [] && q.preflights.None?)
  {
    var a, flights := CreateAvailable(enforced, AllCreated(|p.text|)), p.preflights.value;
    var rows, posts := Posted(p, a), PostsIn(p, a);
    FlightRows(flights, p.text, p.text[i]);
    CreatableMembers(flights, p.text[i]);
    CreatableShorter(flights);
    forall k | 0 <= k < |rows| ensures posts[k].Created? {
      PostedRows(p, a);
      assert rows[k] in rows && rows[k] in p.text;
    }
    var t := TraceAfter(p, a);
    if !flights[i].blocked {
      MakingAll(rows, posts, p.text[i]);
      CountAll(rows, posts);
      CountedClears(p, a);
    } else if Made(p.text[i]) in Making(rows, posts) {
      MakingMembers(rows, posts, Made(p.text[i]));
    }
  }

  lemma {:induction false} CreatableShorter(flights: seq<Flight>)
    ensures |Creatable(flights)| <= |flights|
  {
    if flights != [] { CreatableShorter(flights[..|flights| - 1]); }
  }

  /** Cancelling closes the dialog and keeps the text; opening the form anew, which
      the dialog prevents while it is open, empties the text. */
  lemma CancelKeepsText(p: Panel)
    ensures Next(p, Cancel) == p.(preflights := None)
    ensures p.preflights.None? ==> Next(p, Open) == p.(text := [])
    ensures p.preflights.Some? ==> Next(p, Open) == p
  {}

  // ---- At most once ----

  lemma {:induction false} CountedMeansMade(rows: seq<nat>, posts: seq<Post>)
    requires CreatedCount(rows, posts) > 0
    ensures Making(rows, posts) != []
  {
    var n := |rows| - 1;
    if PostOf(posts, n).Rejected? { CountedMeansMade(rows[..n], posts); }
  }

  lemma CreatableOfText(flights: seq<Flight>, text: seq<nat>)
    requires |flights| == |text| && Distinct(text)
    requires forall i :: 0 <= i < |text| ==> flights[i].row == text[i]
    ensures Distinct(Creatable(flights)) && forall r :: r in Creatable(flights) ==> r in text
  {
    FlightRows(flights, text, 0);
    forall r | r in Creatable(flights) ensures r in text {
      FlightRows(flights, text, r);
    }
  }

  lemma PostedRows(p: Panel, a: Action)
    requires Inv(p)
    ensures Distinct(Posted(p, a)) && forall r :: r in Posted(p, a) ==> r in p.text
  {
    if a.Submit? {
      CreatableOfText(Flights(p.text, a.checks), p.text);
    } else if a.CreateAvailable? && p.preflights.Some? {
      CreatableOfText(p.preflights.value, p.text);
    }
  }

  lemma ChecksMakeNothing(t: seq<Event>, rows: seq<nat>, checks: seq<Check>)
    ensures forall r :: Made(r) in t + Checks(rows, checks) <==> Made(r) in t
    ensures AtMostOnce(t) ==> AtMostOnce(t + Checks(rows, checks))
  {}

  /** What an action adds to the trace besides preflights. */
  lemma TraceAfter(p: Panel, a: Action) returns (t: seq<Event>)
    ensures forall r :: Made(r) in t <==> Made(r) in p.trace
    ensures AtMostOnce(p.trace) ==> AtMostOnce(t)
    ensures Next(p, a).trace == t + Making(Posted(p, a), PostsIn(p, a))
  {
    t := p.trace;
    if a.Submit? && p.preflights.None? && p.text != [] && !AnyBroken(p.text, a.checks) {
      ChecksMakeNothing(p.trace, p.text, a.checks);
      t := p.trace + Checks(p.text, a.checks);
    } else if a.Submit? && p.text == [] {
      assert Flights(p.text, a.checks) == [];
    }
    if Next(p, a).trace == t { assert t + [] == t; }
  }

  predicate Enforced(a: Action) {
    (a.Submit? || a.CreateAvailable?) && a.enforced
  }

  /** The policy is enforced when the action posts, or it posts nothing that was
      made before. */
  ghost predicate Protected(p: Panel, a: Action) {
    Enforced(a) || forall r :: r in Posted(p, a) ==> Made(r) !in p.trace
  }

  lemma ProtectedStep(p: Panel, a: Action)
    requires Inv(p) && AtMostOnce(p.trace) && Protected(p, a)
    ensures AtMostOnce(Next(p, a).trace)
  {
    var rows, posts := Posted(p, a), PostsIn(p, a);
    PostedRows(p, a);
    var t := TraceAfter(p, a);
    forall i | 0 <= i < |rows| && Made(rows[i]) in t ensures PostOf(posts, i).Rejected? {
      assert rows[i] in rows;
    }
    MakingOnce(t, rows, posts);
  }

  ghost predicate ProtectedRun(actions: seq<Action>) {
    actions != [] ==>
      ProtectedRun(actions[..|actions| - 1]) && Protected(Run(actions[..|actions| - 1]), actions[|actions| - 1])
  }

  lemma {:induction false} ProtectedRunsMakeOnce(actions: seq<Action>)
    requires ProtectedRun(actions)
    ensures AtMostOnce(Run(actions).trace)
  {
    if actions != [] {
      ProtectedRunsMakeOnce(actions[..|actions| - 1]);
      OnlyAllowedRowsAreMade(actions[..|actions| - 1]);
      ProtectedStep(Run(actions[..|actions| - 1]), actions[|actions| - 1]);
    }
  }

  /** While the conflict policy is enforced no pasted row is made twice, over any
      run of submits, dialogs, cancels and retries, whatever fails and whatever
      answers are lost. */
  lemma {:induction false} RowsAreMadeOnce(actions: seq<Action>)
    requires forall i :: 0 <= i < |actions| && (actions[i].Submit? || actions[i].CreateAvailable?) ==> Enforced(actions[i])
    ensures ProtectedRun(actions) && AtMostOnce(Run(actions).trace)
  {
    if actions != [] { RowsAreMadeOnce(actions[..|actions| - 1]); }
    ProtectedRunsMakeOnce(actions);
  }

  // ---- With the policy not enforced ----

  /** A step keeps made rows out of the text exactly when it is not a round that
      makes sessions and loses every answer. */
  lemma StepOnce(p: Panel, a: Action)
    requires Inv(p) && NothingToRepeat(p)
    ensures NothingToRepeat(Next(p, a)) <==> !LosesEveryAnswer(p, a)
    ensures AtMostOnce(Next(p, a).trace)
  {
    PostedRows(p, a);
    ProtectedStep(p, a);
    var t := TraceAfter(p, a);
    var made := Making(Posted(p, a), PostsIn(p, a));
    if LosesEveryAnswer(p, a) {
      MakingMembers(Posted(p, a), PostsIn(p, a), made[0]);
      LostKeepsText(p, a);
      assert made[0] in t + made && made[0] == Made(made[0].row);
    } else {
      forall r | r in Next(p, a).text ensures Made(r) !in Next(p, a).trace {
        TextStaysUnmade(p, a, t, r);
      }
    }
  }

  lemma LostKeepsText(p: Panel, a: Action)
    requires LosesEveryAnswer(p, a)
    ensures Next(p, a).text == p.text
  {
    assert Flights([], if a.Submit? then a.checks else []) == [];
  }

  lemma TextStaysUnmade(p: Panel, a: Action, t: seq<Event>, r: nat)
    requires Inv(p) && NothingToRepeat(p) && !LosesEveryAnswer(p, a) && r in Next(p, a).text
    requires forall x :: Made(x) in t <==> Made(x) in p.trace
    requires Next(p, a).trace == t + Making(Posted(p, a), PostsIn(p, a))
    ensures Made(r) !in Next(p, a).trace
  {
    var made := Making(Posted(p, a), PostsIn(p, a));
    if a.Edit? && p.preflights.None? {
      assert Made(r).row == r >= p.next;
    } else if made != [] {
      assert CreatedCount(Posted(p, a), PostsIn(p, a)) > 0;
      CountedClears(p, a);
    }
  }

  lemma CountedClears(p: Panel, a: Action)
    requires CreatedCount(Posted(p, a), PostsIn(p, a)) > 0
    ensures Next(p, a).text == []
  {
    assert Flights([], if a.Submit? then a.checks else []) == [];
  }

  ghost predicate NoRoundIsLost(actions: seq<Action>) {
    actions != [] ==>
      NoRoundIsLost(actions[..|actions| - 1])
      && !LosesEveryAnswer(Run(actions[..|actions| - 1]), actions[|actions| - 1])
  }

  /** With any policy no row is made twice when no round loses every answer. */
  lemma {:induction false} NoLostRoundNoRepeat(actions: seq<Action>)
    requires NoRoundIsLost(actions)
    ensures AtMostOnce(Run(actions).trace) && NothingToRepeat(Run(actions))
  {
    if actions != [] {
      var init := actions[..|actions| - 1];
      NoLostRoundNoRepeat(init);
      OnlyAllowedRowsAreMade(init);
      StepOnce(Run(init), actions[|actions| - 1]);
    }
  }

  lemma {:induction false} HonestPosts(rows: seq<nat>, posts: seq<Post>)
    requires Lost !in posts
    ensures CreatedCount(rows, posts) == 0 ==> Making(rows, posts) == []
  {
    if rows != [] {
      var n := |rows| - 1;
      HonestPosts(rows[..n], posts);
      assert n < |posts| ==> posts[n] in posts;
    }
  }

  /** A failed post of the action means not created. */
  ghost predicate Honest(a: Action) {
    (a.Submit? ==> Lost !in a.posts) && (a.CreateAvailable? ==> Lost !in a.posts)
  }

  /** When that holds of every action no round is lost. */
  lemma {:induction false} HonestRunsLoseNothing(actions: seq<Action>)
    requires forall i :: 0 <= i < |actions| ==> Honest(actions[i])
    ensures NoRoundIsLost(actions)
  {
    if actions != [] {
      var n := |actions| - 1;
      var p, a := Run(actions[..n]), actions[n];
      HonestRunsLoseNothing(actions[..n]);
      forall i | 0 <= i < |PostsIn(p, a)| ensures PostsIn(p, a)[i] != Lost {
        assert i < |a.posts| ==> a.posts[i] in a.posts;
      }
      HonestPosts(Posted(p, a), PostsIn(p, a));
    }
  }

  function AllCreated(n: nat): seq<Post> {
    seq(n, i requires 0 <= i < n => Created)
  }

  function AllAvailable(n: nat): seq<Check> {
    seq(n, i requires 0 <= i < n => Available)
  }

  lemma {:induction false} MakingAll(rows: seq<nat>, posts: seq<Post>, row: nat)
    requires row in rows && |posts| >= |rows| && forall i :: 0 <= i < |posts| ==> posts[i].Created?
    ensures Made(row) in Making(rows, posts)
  {
    var n := |rows| - 1;
    assert rows == rows[..n] + [rows[n]];
    if row != rows[n] { MakingAll(rows[..n], posts, row); }
  }

  lemma {:induction false} CreatableAll(flights: seq<Flight>)
    requires forall i :: 0 <= i < |flights| ==> !flights[i].blocked
    ensures |Creatable(flights)| == |flights|
    ensures forall i :: 0 <= i < |flights| ==> Creatable(flights)[i] == flights[i].row
  {
    if flights != [] { CreatableAll(flights[..|flights| - 1]); }
  }

  lemma {:induction false} CountAll(rows: seq<nat>, posts: seq<Post>)
    requires |posts| >= |rows| && forall i :: 0 <= i < |posts| ==> posts[i].Created?
    ensures CreatedCount(rows, posts) == |rows|
  {
    if rows != [] { CountAll(rows[..|rows| - 1], posts); }
  }

  /** A submit of the whole text, all available. */
  lemma SubmitPostsText(p: Panel, enforced: bool, posts: seq<Post>)
    requires p.preflights.None?
    ensures var a := Submit(enforced, AllAvailable(|p.text|), posts);
      Posted(p, a) == p.text && PostsIn(p, a) == Settled(p.trace, p.text, enforced, posts)
  {
    var flights := Flights(p.text, AllAvailable(|p.text|));
    forall i | 0 <= i < |p.text| ensures CheckOf(AllAvailable(|p.text|), i).Available? {}
    CreatableAll(flights);
    assert Creatable(flights) == p.text;
  }

  /** A submit whose rows are new, all available and all created makes every
      pasted row and leaves no text, whatever the policy. */
  lemma SubmitMakesEveryRow(p: Panel, enforced: bool, row: nat)
    requires Inv(p) && NothingToRepeat(p) && p.preflights.None? && row in p.text
    ensures var q := Next(p, Submit(enforced, AllAvailable(|p.text|), AllCreated(|p.text|)));
      q.text == [] && Made(row) in q.trace && AtMostOnce(q.trace)
  {
    var a := Submit(enforced, AllAvailable(|p.text|), AllCreated(|p.text|));
    SubmitPostsText(p, enforced, AllCreated(|p.text|));
    forall i | 0 <= i < |p.text| ensures PostsIn(p, a)[i].Created? {
      assert p.text[i] in p.text;
    }
    CountAll(p.text, PostsIn(p, a));
    MakingAll(p.text, PostsIn(p, a), row);
    CountedClears(p, a);
    var t := TraceAfter(p, a);
    StepOnce(p, a);
  }

  lemma MadeAgain(t: seq<Event>, made: seq<Event>, row: nat)
    requires Made(row) in t && Made(row) in made
    ensures !AtMostOnce(t + made)
  {
    var i :| 0 <= i < |t| && t[i] == Made(row);
    var j :| 0 <= j < |made| && made[j] == Made(row);
    assert (t + made)[|t| + j] == Made(row) && (t + made)[i] == Made(row);
  }

  /** Submitting a row of the text again without the policy makes it again. */
  lemma ResubmitMakesAgain(p: Panel, row: nat)
    requires p.preflights.None? && row in p.text && Made(row) in p.trace
    ensures !AtMostOnce(Next(p, Submit(false, AllAvailable(|p.text|), AllCreated(|p.text|))).trace)
  {
    var a := Submit(false, AllAvailable(|p.text|), AllCreated(|p.text|));
    SubmitPostsText(p, false, AllCreated(|p.text|));
    MakingAll(p.text, PostsIn(p, a), row);
    var t := TraceAfter(p, a);
    MadeAgain(t, Making(Posted(p, a), PostsIn(p, a)), row);
  }

  /** The dialog's button posts the same rows again. */
  lemma RecreateMakesAgain(p: Panel, row: nat)
    requires p.preflights.Some? && row in Creatable(p.preflights.value) && Made(row) in p.trace
    ensures !AtMostOnce(Next(p, CreateAvailable(false, AllCreated(|Creatable(p.preflights.value)|))).trace)
  {
    var rows := Creatable(p.preflights.value);
    var a := CreateAvailable(false, AllCreated(|rows|));
    assert forall i :: 0 <= i < |rows| ==> PostsIn(p, a)[i].Created?;
    MakingAll(rows, PostsIn(p, a), row);
    var t := TraceAfter(p, a);
    MadeAgain(t, Making(rows, PostsIn(p, a)), row);
  }

  /** Any step, a submit or the dialog's create, can be followed by one that makes
      a row twice exactly when it was a round that lost every answer; the second
      one then runs without the policy, since with it RowsAreMadeOnce holds. */
  lemma LostRoundRepeatsExactly(p: Panel, a: Action)
    requires Inv(p) && NothingToRepeat(p)
    ensures (exists b: Action :: !AtMostOnce(Next(Next(p, a), b).trace)) <==> LosesEveryAnswer(p, a)
  {
    var q := Next(p, a);
    StepOnce(p, a);
    StepKeeps(p, a);
    if LosesEveryAnswer(p, a) {
      LostRoundRepeats(p, a);
    } else {
      forall b: Action ensures AtMostOnce(Next(q, b).trace) {
        StepOnce(q, b);
      }
    }
  }

  lemma LostRoundRepeats(p: Panel, a: Action)
    requires Inv(p) && LosesEveryAnswer(p, a)
    ensures exists b: Action :: !AtMostOnce(Next(Next(p, a), b).trace)
  {
    var q, made := Next(p, a), Making(Posted(p, a), PostsIn(p, a));
    MakingMembers(Posted(p, a), PostsIn(p, a), made[0]);
    PostedRows(p, a);
    LostKeepsText(p, a);
    LostKeepsDialog(p, a);
    var t := TraceAfter(p, a);
    assert made[0] == Made(made[0].row) && made[0] in t + made;
    if p.preflights.None? {
      ResubmitMakesAgain(q, made[0].row);
    } else {
      RecreateMakesAgain(q, made[0].row);
    }
  }

  lemma LostKeepsDialog(p: Panel, a: Action)
    requires LosesEveryAnswer(p, a)
    ensures Next(p, a).preflights == p.preflights
    ensures p.preflights.Some? ==> Posted(p, a) == Creatable(p.preflights.value)
  {}

  /** With the policy the second post of a row that has a session is turned down,
      in the dialog as in a submit. */
  lemma EnforcedRepeatIsRejected(p: Panel, a: Action, i: nat)
    requires Enforced(a)
    requires i < |Posted(p, a)| && Made(Posted(p, a)[i]) in p.trace
    ensures PostOf(PostsIn(p, a), i).Rejected?
  {}
}
