/** The absence-day quota under class-date toggles on the absence form
    (AbsenceForm.handleSessionGroupToggle, sessionGrouping). */
module AbsenceQuota {
  import opened JsCollections

  /** `date` is the number of the institute-local day. */
  datatype Session = Session(id: string, date: int, alreadyAbsent: bool)

  datatype SubjectSessions = SubjectSessions(
    courseId: string, mergeGroupId: Option<string>, remainingDays: Option<int>, sessions: seq<Session>)

  function DateOf(s: Session): int { s.date }

  function ScopeKey(g: SubjectSessions): string {
    if g.mergeGroupId.Some? && g.mergeGroupId.value != "" then "merge:" + g.mergeGroupId.value else "course:" + g.courseId
  }

  // ---- Counting selected days ----

  function Active(items: seq<Session>): seq<Session> {
    if items == [] then []
    else Active(items[..|items| - 1]) + if items[|items| - 1].alreadyAbsent then [] else [items[|items| - 1]]
  }

  predicate AllSelected(items: seq<Session>, selected: set<string>) {
    forall i :: 0 <= i < |items| ==> items[i].id in selected
  }

  /** The day has a class not yet missed, and all such classes are selected. */
  predicate DayTaken(items: seq<Session>, selected: set<string>) {
    Active(items) != [] && AllSelected(Active(items), selected)
  }

  ghost predicate GroupTakesDay(g: SubjectSessions, d: int, selected: set<string>) {
    DayTaken(Bucket(g.sessions, DateOf, d), selected)
  }

  ghost function Dates(g: SubjectSessions): set<int> {
    set s | s in g.sessions :: s.date
  }

  ghost function DaysOfGroup(g: SubjectSessions, selected: set<string>): set<int> {
    set d | d in Dates(g) && GroupTakesDay(g, d, selected)
  }

  /** The days of one scope on which some group is wholly absent. */
  ghost function DaysOfScope(groups: seq<SubjectSessions>, selected: set<string>, scope: string): set<int> {
    if groups == [] then {}
    else
      var g := groups[|groups| - 1];
      DaysOfScope(groups[..|groups| - 1], selected, scope) + if ScopeKey(g) == scope then DaysOfGroup(g, selected) else {}
  }

  ghost function DayCount(groups: seq<SubjectSessions>, selected: set<string>, scope: string): nat {
    |DaysOfScope(groups, selected, scope)|
  }

  ghost function DaysIn(byDay: JsMap<int, seq<Session>>, selected: set<string>): set<int> {
    if byDay == [] then {}
    else
      var e := byDay[|byDay| - 1];
      DaysIn(byDay[..|byDay| - 1], selected) + if DayTaken(e.value, selected) then {e.key} else {}
  }

  lemma {:induction false} DaysInMembers(byDay: JsMap<int, seq<Session>>, selected: set<string>, d: int)
    ensures d in DaysIn(byDay, selected) <==>
            exists i :: 0 <= i < |byDay| && byDay[i].key == d && DayTaken(byDay[i].value, selected)
  {
    if byDay != [] {
      var init, n := byDay[..|byDay| - 1], |byDay| - 1;
      DaysInMembers(init, selected, d);
      if d in DaysIn(init, selected) {
        var i :| 0 <= i < n && init[i].key == d && DayTaken(init[i].value, selected);
        assert byDay[i] == init[i];
      }
      if i :| 0 <= i < |byDay| && byDay[i].key == d && DayTaken(byDay[i].value, selected) {
        assert i < n ==> init[i] == byDay[i];
      }
    }
  }

  lemma GroupedDays(g: SubjectSessions, selected: set<string>)
    ensures DaysIn(Grouped(g.sessions, DateOf), selected) == DaysOfGroup(g, selected)
  {
    var byDay, ks := Grouped(g.sessions, DateOf), KeysOf(g.sessions, DateOf);
    forall d ensures d in DaysIn(byDay, selected) <==> d in DaysOfGroup(g, selected) {
      DaysInMembers(byDay, selected, d);
      if d in Dates(g) {
        var s :| s in g.sessions && s.date == d;
        var n :| 0 <= n < |g.sessions| && g.sessions[n] == s;
        assert ks[n] == d && d in Firsts(ks);
        var i :| 0 <= i < |Firsts(ks)| && Firsts(ks)[i] == d;
        assert byDay[i] == Entry(d, Bucket(g.sessions, DateOf, d));
      }
      if i :| 0 <= i < |byDay| && byDay[i].key == d && DayTaken(byDay[i].value, selected) {
        assert Firsts(ks)[i] in ks;
        var n :| 0 <= n < |ks| && ks[n] == d;
        assert g.sessions[n] in g.sessions;
      }
    }
  }

  method CountSelectedAbsenceDaysForScope(groups: seq<SubjectSessions>, selected: set<string>, scope: string)
    returns (count: nat)
    ensures count == DayCount(groups, selected, scope)
  {
    var selectedDays: set<int> := {};
    for n := 0 to |groups|
      invariant selectedDays == DaysOfScope(groups[..n], selected, scope)
    {
      assert groups[..n + 1][..n] == groups[..n];
      if ScopeKey(groups[n]) != scope { continue; }
      var byDay := GroupItems(groups[n].sessions, DateOf);
      var here := AddDays(byDay, selected);
      GroupedDays(groups[n], selected);
      selectedDays := selectedDays + here;
    }
    assert groups[..|groups|] == groups;
    count := |selectedDays|;
  }

  method AddDays(byDay: JsMap<int, seq<Session>>, selected: set<string>) returns (days: set<int>)
    ensures days == DaysIn(byDay, selected)
  {
    days := {};
    for n := 0 to |byDay|
      invariant days == DaysIn(byDay[..n], selected)
    {
      assert byDay[..n + 1][..n] == byDay[..n];
      var activeItems := Active(byDay[n].value);
      if activeItems != [] && forall i :: 0 <= i < |activeItems| ==> activeItems[i].id in selected {
        days := days + {byDay[n].key};
      }
    }
    assert byDay[..|byDay|] == byDay;
  }

  // ---- Allowances ----

  function RemainingFor(g: SubjectSessions, maxSessions: int): int {
    if g.remainingDays.Some? then g.remainingDays.value else maxSessions
  }

  /** The largest remaining allowance of a scope, at least zero. */
  function Remaining(groups: seq<SubjectSessions>, scope: string, maxSessions: int): (r: int)
    ensures r >= 0
    ensures forall g :: g in groups && ScopeKey(g) == scope ==> RemainingFor(g, maxSessions) <= r
    ensures r == 0 || exists g :: g in groups && ScopeKey(g) == scope && RemainingFor(g, maxSessions) == r
  {
    if groups == [] then 0
    else
      var g := groups[|groups| - 1];
      var r := Remaining(groups[..|groups| - 1], scope, maxSessions);
      assert groups == groups[..|groups| - 1] + [g];
      if ScopeKey(g) == scope && RemainingFor(g, maxSessions) > r then RemainingFor(g, maxSessions) else r
  }

  ghost predicate WithinQuota(groups: seq<SubjectSessions>, selected: set<string>, scope: string, maxSessions: int) {
    && DayCount(groups, selected, scope) <= Remaining(groups, scope, maxSessions)
    && DayCount(groups, selected, scope) <= maxSessions
  }

  // ---- Toggling ----

  datatype Toggle = Toggle(scope: string, ids: set<string>)

  ghost function Next(groups: seq<SubjectSessions>, selected: set<string>, t: Toggle, maxSessions: int): set<string> {
    if t.ids <= selected then selected - t.ids
    else if WithinQuota(groups, selected + t.ids, t.scope, maxSessions) then selected + t.ids
    else selected
  }

  ghost function Run(groups: seq<SubjectSessions>, start: set<string>, toggles: seq<Toggle>, maxSessions: int): set<string> {
    if toggles == [] then start
    else Next(groups, Run(groups, start, toggles[..|toggles| - 1], maxSessions), toggles[|toggles| - 1], maxSessions)
  }

  class AbsenceForm {
    var sessions: seq<SubjectSessions>
    var selectedSessionIds: set<string>
    var sitInSelections: map<string, string>

    constructor (sessions: seq<SubjectSessions>, selected: set<string>, sitIns: map<string, string>)
      ensures this.sessions == sessions && selectedSessionIds == selected && sitInSelections == sitIns
    {
      this.sessions, selectedSessionIds, sitInSelections := sessions, selected, sitIns;
    }

    method HandleSessionGroupToggle(group: SubjectSessions, sessionIds: set<string>, maxSessions: int)
      modifies this`selectedSessionIds, this`sitInSelections
      ensures selectedSessionIds
           == Next(sessions, old(selectedSessionIds), Toggle(ScopeKey(group), sessionIds), maxSessions)
      ensures sitInSelections == if sessionIds <= old(selectedSessionIds) then old(sitInSelections) - sessionIds
                                 else old(sitInSelections)
    {
      if sessionIds <= selectedSessionIds {
        selectedSessionIds := selectedSessionIds - sessionIds;
        sitInSelections := sitInSelections - sessionIds;
        return;
      }
      var next := selectedSessionIds + sessionIds;
      var scopeKey := ScopeKey(group);
      var projectedDays := CountSelectedAbsenceDaysForScope(sessions, next, scopeKey);
      if projectedDays > Remaining(sessions, scopeKey, maxSessions) || projectedDays > maxSessions { return; }
      selectedSessionIds := next;
    }
  }

  // ---- The quota over whole runs ----

  ghost predicate HasId(g: SubjectSessions, id: string) {
    exists s :: s in g.sessions && s.id == id
  }

  /** A class session belongs to one scope, and a toggle names sessions of the
      scope it is for. */
  ghost predicate OwnScope(groups: seq<SubjectSessions>, t: Toggle) {
    forall g, id :: g in groups && HasId(g, id) && id in t.ids ==> ScopeKey(g) == t.scope
  }

  lemma {:induction false} ActiveMembers(items: seq<Session>)
    ensures forall s :: s in Active(items) ==> s in items
  {
    if items != [] { ActiveMembers(items[..|items| - 1]); }
  }

  lemma TakenSame(g: SubjectSessions, d: int, a: set<string>, b: set<string>)
    requires forall id :: HasId(g, id) ==> (id in a <==> id in b)
    ensures GroupTakesDay(g, d, a) <==> GroupTakesDay(g, d, b)
  {
    var items := Bucket(g.sessions, DateOf, d);
    BucketMembers(g.sessions, DateOf, d);
    ActiveMembers(items);
    forall i | 0 <= i < |Active(items)| ensures Active(items)[i].id in a <==> Active(items)[i].id in b {
      assert Active(items)[i] in g.sessions;
      assert HasId(g, Active(items)[i].id);
    }
  }

  lemma {:induction false} OtherScopeSame(groups: seq<SubjectSessions>, a: set<string>, b: set<string>, scope: string)
    requires forall g, id :: g in groups && ScopeKey(g) == scope && HasId(g, id) ==> (id in a <==> id in b)
    ensures DaysOfScope(groups, a, scope) == DaysOfScope(groups, b, scope)
  {
    if groups != [] {
      var init, g := groups[..|groups| - 1], groups[|groups| - 1];
      assert g in groups && forall h :: h in init ==> h in groups;
      OtherScopeSame(init, a, b, scope);
      if ScopeKey(g) == scope {
        forall d ensures d in DaysOfGroup(g, a) <==> d in DaysOfGroup(g, b) {
          TakenSame(g, d, a, b);
        }
      }
    }
  }

  /** A toggle in one scope leaves the days of every other scope as they were. */
  lemma OtherScopesUnchanged(groups: seq<SubjectSessions>, selected: set<string>, t: Toggle, scope: string, maxSessions: int)
    requires OwnScope(groups, t) && scope != t.scope
    ensures DaysOfScope(groups, Next(groups, selected, t, maxSessions), scope) == DaysOfScope(groups, selected, scope)
  {
    OtherScopeSame(groups, Next(groups, selected, t, maxSessions), selected, scope);
  }

  lemma {:induction false} FewerSelectedFewerDays(groups: seq<SubjectSessions>, a: set<string>, b: set<string>, scope: string)
    requires a <= b
    ensures DaysOfScope(groups, a, scope) <= DaysOfScope(groups, b, scope)
  {
    if groups != [] { FewerSelectedFewerDays(groups[..|groups| - 1], a, b, scope); }
  }

  /** One toggle, whatever was selected: every scope ends within its quota or
      with no more days than before. */
  lemma ToggleNeverWorsens(groups: seq<SubjectSessions>, selected: set<string>, t: Toggle, scope: string, maxSessions: int)
    requires OwnScope(groups, t)
    ensures var after := Next(groups, selected, t, maxSessions);
      WithinQuota(groups, after, scope, maxSessions) || DaysOfScope(groups, after, scope) <= DaysOfScope(groups, selected, scope)
  {
    if scope != t.scope {
      OtherScopesUnchanged(groups, selected, t, scope, maxSessions);
    } else if t.ids <= selected {
      FewerSelectedFewerDays(groups, selected - t.ids, selected, scope);
    }
  }

  lemma SubsetCount(a: set<int>, b: set<int>)
    requires a <= b
    ensures |a| <= |b|
  {
    assert b == a + (b - a);
    assert a !! (b - a);
  }

  lemma FewerDaysWithin(groups: seq<SubjectSessions>, a: set<string>, b: set<string>, scope: string, maxSessions: int)
    requires DaysOfScope(groups, a, scope) <= DaysOfScope(groups, b, scope)
    ensures DayCount(groups, a, scope) <= DayCount(groups, b, scope)
    ensures WithinQuota(groups, b, scope, maxSessions) ==> WithinQuota(groups, a, scope, maxSessions)
  {
    SubsetCount(DaysOfScope(groups, a, scope), DaysOfScope(groups, b, scope));
  }

  // ---- What is counted, and which toggles go through ----

  /** Two groups share a quota when they have one merge group, or when both have
      none and they have one course. */
  predicate SameScope(g: SubjectSessions, h: SubjectSessions) {
    if g.mergeGroupId.Some? && g.mergeGroupId.value != "" then h.mergeGroupId == g.mergeGroupId
    else (h.mergeGroupId.None? || h.mergeGroupId.value == "") && g.courseId == h.courseId
  }

  lemma ScopesExactly(g: SubjectSessions, h: SubjectSessions)
    ensures ScopeKey(g) == ScopeKey(h) <==> SameScope(g, h)
  {
    var a, b := ScopeKey(g), ScopeKey(h);
    assert a[0] == 'm' <==> g.mergeGroupId.Some? && g.mergeGroupId.value != "";
    assert b[0] == 'm' <==> h.mergeGroupId.Some? && h.mergeGroupId.value != "";
    assert a[0] == 'm' ==> a[6..] == g.mergeGroupId.value;
    assert b[0] == 'm' ==> b[6..] == h.mergeGroupId.value;
    assert a[0] != 'm' ==> a[7..] == g.courseId;
    assert b[0] != 'm' ==> b[7..] == h.courseId;
  }

  /** The group has a class on the day that is not missed yet, and all such classes
      of the day are selected. */
  ghost predicate WhollyAbsent(g: SubjectSessions, day: int, selected: set<string>) {
    && (exists s :: s in g.sessions && s.date == day && !s.alreadyAbsent)
    && forall s :: s in g.sessions && s.date == day && !s.alreadyAbsent ==> s.id in selected
  }

  /** The days that count against the quota a group shares. */
  ghost predicate CountsAgainst(groups: seq<SubjectSessions>, g: SubjectSessions, day: int, selected: set<string>) {
    exists h :: h in groups && SameScope(g, h) && WhollyAbsent(h, day, selected)
  }

  lemma {:induction false} ActiveExactly(items: seq<Session>, s: Session)
    ensures s in Active(items) <==> s in items && !s.alreadyAbsent
  {
    if items != [] {
      ActiveExactly(items[..|items| - 1], s);
      assert items == items[..|items| - 1] + [items[|items| - 1]];
    }
  }

  lemma GroupDaysExactly(g: SubjectSessions, day: int, selected: set<string>)
    ensures day in DaysOfGroup(g, selected) <==> WhollyAbsent(g, day, selected)
  {
    var items := Bucket(g.sessions, DateOf, day);
    BucketMembers(g.sessions, DateOf, day);
    forall s ensures s in Active(items) <==> s in g.sessions && s.date == day && !s.alreadyAbsent {
      ActiveExactly(items, s);
      assert s in items <==> s in g.sessions && DateOf(s) == day;
    }
    if Active(items) != [] { assert Active(items)[0] in Active(items); }
    assert AllSelected(Active(items), selected) <==> forall s :: s in Active(items) ==> s.id in selected;
  }

  lemma {:induction false} ScopeDaysExactly(groups: seq<SubjectSessions>, g: SubjectSessions, day: int, selected: set<string>)
    ensures day in DaysOfScope(groups, selected, ScopeKey(g)) <==> CountsAgainst(groups, g, day, selected)
  {
    if groups != [] {
      var init, h := groups[..|groups| - 1], groups[|groups| - 1];
      assert groups == init + [h];
      ScopeDaysExactly(init, g, day, selected);
      ScopesExactly(g, h);
      GroupDaysExactly(h, day, selected);
    }
  }

  /** The number of days that fit in the quota a group shares: one of the groups
      has that many left, by its own allowance or, without one, by the maximum. */
  ghost predicate FitsAllowance(groups: seq<SubjectSessions>, g: SubjectSessions, n: nat, maxSessions: int) {
    n == 0 || exists h :: h in groups && SameScope(g, h) && n <= if h.remainingDays.Some? then h.remainingDays.value else maxSessions
  }

  lemma FitsExactly(groups: seq<SubjectSessions>, g: SubjectSessions, n: nat, maxSessions: int)
    ensures n <= Remaining(groups, ScopeKey(g), maxSessions) <==> FitsAllowance(groups, g, n, maxSessions)
  {
    var r := Remaining(groups, ScopeKey(g), maxSessions);
    forall h ensures ScopeKey(h) == ScopeKey(g) <==> SameScope(g, h) { ScopesExactly(g, h); }
    if r > 0 {
      var h :| h in groups && ScopeKey(h) == ScopeKey(g) && RemainingFor(h, maxSessions) == r;
      assert SameScope(g, h);
    }
  }

  /** A toggle of classes that are not all selected adds them all, and nothing else,
      exactly when the days then wholly absent number at most the maximum and fit
      in the allowance; otherwise it changes nothing. A toggle of selected classes
      takes out those and nothing else. */
  lemma ToggleExactly(
      groups: seq<SubjectSessions>, selected: set<string>, g: SubjectSessions, ids: set<string>, days: set<int>, maxSessions: int)
    requires forall d :: d in days <==> CountsAgainst(groups, g, d, selected + ids)
    ensures var after := Next(groups, selected, Toggle(ScopeKey(g), ids), maxSessions);
      && (ids <= selected ==> after == selected - ids)
      && (!(ids <= selected) ==>
            if |days| <= maxSessions && FitsAllowance(groups, g, |days|, maxSessions)
            then after == selected + ids else after == selected)
  {
    forall d ensures d in days <==> d in DaysOfScope(groups, selected + ids, ScopeKey(g)) {
      ScopeDaysExactly(groups, g, d, selected + ids);
    }
    assert days == DaysOfScope(groups, selected + ids, ScopeKey(g));
    FitsExactly(groups, g, |days|, maxSessions);
  }

  /** Over any run of toggles each scope stays within its largest remaining
      allowance and the per-absence maximum, or, where a restored draft started
      above them, never exceeds what it started with. */
  lemma {:induction false} RunKeepsQuota(groups: seq<SubjectSessions>, start: set<string>, toggles: seq<Toggle>, scope: string, maxSessions: int)
    requires forall i :: 0 <= i < |toggles| ==> OwnScope(groups, toggles[i])
    ensures var after := Run(groups, start, toggles, maxSessions);
      && (WithinQuota(groups, start, scope, maxSessions) ==> WithinQuota(groups, after, scope, maxSessions))
      && (WithinQuota(groups, after, scope, maxSessions) || DayCount(groups, after, scope) <= DayCount(groups, start, scope))
  {
    if toggles != [] {
      var init, t := toggles[..|toggles| - 1], toggles[|toggles| - 1];
      var before := Run(groups, start, init, maxSessions);
      var after := Next(groups, before, t, maxSessions);
      RunKeepsQuota(groups, start, init, scope, maxSessions);
      ToggleNeverWorsens(groups, before, t, scope, maxSessions);
      if !WithinQuota(groups, after, scope, maxSessions) {
        FewerDaysWithin(groups, after, before, scope, maxSessions);
      }
    }
  }

  /** A toggle undoes an accepted one when none of its sessions was selected. */
  lemma TogglingTwiceUndoes(groups: seq<SubjectSessions>, selected: set<string>, t: Toggle, maxSessions: int)
    requires t.ids !! selected && t.ids != {}
    ensures var once := Next(groups, selected, t, maxSessions);
      once != selected ==> Next(groups, once, t, maxSessions) == selected
  {
    assert selected + t.ids - t.ids == selected;
  }
}
