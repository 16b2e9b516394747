/** Restoring a saved absence draft against what the server offers now
    (AbsenceForm restore effect, sitInResolution, absenceDraftStorage). */
module DraftRestore {
  import opened JsCollections
  import opened Text
  import opened StudentLookup

  // ---- What the server offers ----

  /** A make-up class; an empty `missedFor` offers it for every missed class. */
  datatype Offer = Offer(id: string, missedFor: string, conflict: bool)

  /** A make-up class not on offer; `used` when the student already took it. */
  datatype Unavailable = Unavailable(id: string, used: bool)

  datatype Priority = Priority(level: int, available: seq<Offer>, unavailable: seq<Unavailable>)

  datatype SitIn = SitIn(
    physical: bool, currentLevel: Option<int>, available: seq<Offer>, unavailable: seq<Unavailable>,
    priorities: seq<Priority>, byMissed: seq<Entry<string, SitIn>>)

  datatype SubjectSessions = SubjectSessions(sessions: seq<string>, sitIn: Option<SitIn>)

  /** The student found and the classes and make-ups the server lists. */
  datatype Answer = Answer(wcode: string, subjectIds: seq<string>, subjects: seq<SubjectSessions>)

  // ---- Saved values that join several session ids ----

  const SEPARATOR := '|'

  function Join(ids: seq<string>): string {
    if ids == [] then "" else if |ids| == 1 then ids[0] else ids[0] + [SEPARATOR] + Join(ids[1..])
  }

  function NonEmpty(s: string): seq<string> {
    if s == "" then [] else [s]
  }

  function SplitFrom(part: string, value: string): seq<string>
    decreases |value|
  {
    if value == "" then NonEmpty(part)
    else if value[0] == SEPARATOR then NonEmpty(part) + SplitFrom("", value[1..])
    else SplitFrom(part + [value[0]], value[1..])
  }

  function Split(value: string): seq<string> {
    SplitFrom("", value)
  }

  lemma {:induction false} SplitPlain(part: string, s: string, rest: string)
    requires SEPARATOR !in s && (rest == "" || rest[0] == SEPARATOR)
    ensures SplitFrom(part, s + rest) ==
            NonEmpty(part + s) + if rest == "" then [] else SplitFrom("", rest[1..])
    decreases |s|
  {
    if s == "" {
      assert s + rest == rest && part + s == part;
    } else {
      assert (s + rest)[1..] == s[1..] + rest;
      SplitPlain(part + [s[0]], s[1..], rest);
      assert part + [s[0]] + s[1..] == part + s;
    }
  }

  /** Splitting a joined value gives the ids back. */
  lemma {:induction false} SplitAfterJoin(ids: seq<string>)
    requires forall id :: id in ids ==> id != "" && SEPARATOR !in id
    ensures Split(Join(ids)) == ids
  {
    if ids != [] {
      assert ids[0] in ids;
      if |ids| == 1 {
        SplitPlain("", ids[0], "");
        assert ids[0] + "" == ids[0] && "" + ids[0] == ids[0];
      } else {
        var rest := [SEPARATOR] + Join(ids[1..]);
        assert Join(ids) == ids[0] + rest && rest[1..] == Join(ids[1..]);
        SplitPlain("", ids[0], rest);
        assert "" + ids[0] == ids[0];
        SplitAfterJoin(ids[1..]);
      }
    }
  }

  // ---- Make-ups offered for a missed class ----

  function Lookup(entries: seq<Entry<string, SitIn>>, key: string): Option<SitIn> {
    var i := IndexOf(entries, key);
    if i < 0 then None else Some(entries[i].value)
  }

  function SitInFor(g: SubjectSessions, missed: string): Option<SitIn> {
    if g.sitIn.None? then None
    else
      var own := Lookup(g.sitIn.value.byMissed, missed);
      if own.Some? then own else g.sitIn
  }

  /** A missed class has its own make-ups when the first entry for it says so, and
      the subject's otherwise. */
  lemma SitInForExactly(g: SubjectSessions, missed: string, i: nat)
    requires g.sitIn.Some? && i <= |g.sitIn.value.byMissed|
    requires forall j :: 0 <= j < i ==> g.sitIn.value.byMissed[j].key != missed
    ensures i < |g.sitIn.value.byMissed| && g.sitIn.value.byMissed[i].key == missed ==>
      SitInFor(g, missed) == Some(g.sitIn.value.byMissed[i].value)
    ensures i == |g.sitIn.value.byMissed| ==> SitInFor(g, missed) == g.sitIn
  {
    FirstIndex(g.sitIn.value.byMissed, missed, i);
  }

  lemma {:induction false} FirstIndex(entries: seq<Entry<string, SitIn>>, key: string, i: nat)
    requires i <= |entries| && forall j :: 0 <= j < i ==> entries[j].key != key
    ensures i < |entries| && entries[i].key == key ==> IndexOf(entries, key) == i
    ensures i == |entries| ==> IndexOf(entries, key) < 0
  {
    if entries != [] && i > 0 {
      assert forall j :: 0 <= j < i - 1 ==> entries[1..][j] == entries[j + 1];
      FirstIndex(entries[1..], key, i - 1);
    }
  }

  /** The classes of a list that are on offer for one missed class. */
  predicate OfferedFor(available: seq<Offer>, missed: string, o: Offer) {
    && o in available
    && ((forall a :: a in available ==> a.missedFor == "") || (o.missedFor != "" && o.missedFor == missed))
  }

  /** A list with some class tied to a missed class offers only those tied to this
      one; any other list offers every class it has. */
  lemma OfferedForExactly(available: seq<Offer>, missed: string, o: Offer, tied: Offer)
    ensures (forall a :: a in available ==> a.missedFor == "") ==> (OfferedFor(available, missed, o) <==> o in available)
    ensures tied in available && tied.missedFor != "" && missed != "" ==>
      (OfferedFor(available, missed, o) <==> o in available && o.missedFor == missed)
    ensures tied in available && tied.missedFor != "" && missed == "" ==> !OfferedFor(available, missed, o)
  {}

  function FirstLevel(priorities: seq<Priority>): (l: int)
    ensures priorities == [] ==> l == 1
    ensures priorities != [] ==> (exists p :: p in priorities && p.level == l) && forall p :: p in priorities ==> l <= p.level
  {
    if priorities == [] then 1
    else if |priorities| == 1 then priorities[0].level
    else
      var l := FirstLevel(priorities[1..]);
      assert priorities == [priorities[0]] + priorities[1..];
      if priorities[0].level < l then priorities[0].level else l
  }

  function LevelShown(s: SitIn, saved: Option<int>): int {
    if saved.Some? && exists p :: p in s.priorities && p.level == saved.value then saved.value
    else if s.currentLevel.Some? then s.currentLevel.value
    else FirstLevel(s.priorities)
  }

  /** The saved level is shown when some priority has it; otherwise the server's
      current level, if it names one; otherwise the lowest level there is, or 1. */
  lemma LevelShownExactly(s: SitIn, saved: Option<int>, p: Priority)
    ensures saved.Some? && p in s.priorities && p.level == saved.value ==> LevelShown(s, saved) == p.level
    ensures saved.None? || (forall q :: q in s.priorities ==> q.level != saved.value) ==>
      && (s.currentLevel.Some? ==> LevelShown(s, saved) == s.currentLevel.value)
      && (s.currentLevel.None? && p in s.priorities ==> LevelShown(s, saved) <= p.level)
      && (s.currentLevel.None? && s.priorities != [] ==> LevelShown(s, saved) in LevelsOf(s.priorities))
      && (s.currentLevel.None? && s.priorities == [] ==> LevelShown(s, saved) == 1)
  {
    var l := FirstLevel(s.priorities);
    assert s.priorities != [] ==> exists q :: q in s.priorities && q.level == l;
  }

  ghost function LevelsOf(priorities: seq<Priority>): set<int> {
    set p | p in priorities :: p.level
  }

  function AtLevel(priorities: seq<Priority>, level: int): seq<Priority> {
    if priorities == [] then []
    else (if priorities[0].level == level then [priorities[0]] else []) + AtLevel(priorities[1..], level)
  }

  lemma {:induction false} AtLevelMembers(priorities: seq<Priority>, level: int, p: Priority)
    ensures p in AtLevel(priorities, level) <==> p in priorities && p.level == level
  {
    if priorities != [] { AtLevelMembers(priorities[1..], level, p); }
  }

  /** The classes the picker shows: those of the priorities at the level shown,
      or the plain list when there is none at that level. */
  predicate Shows(s: SitIn, missed: string, saved: Option<int>, o: Offer) {
    var level := LevelShown(s, saved);
    if exists p :: p in s.priorities && p.level == level then
      exists p :: p in s.priorities && p.level == level && OfferedFor(p.available, missed, o)
    else OfferedFor(s.available, missed, o)
  }

  ghost predicate IsOffered(g: SubjectSessions, missed: string, saved: Option<int>, id: string) {
    var s := SitInFor(g, missed);
    s.Some? && s.value.physical && exists o :: Shows(s.value, missed, saved, o) && o.id == id
  }

  /** Nothing is offered for a subject without sit-ins in person. Otherwise, with
      priorities at the level shown, each class one of them has for the missed class
      is offered and no other; with none, those of the sit-in's own list. */
  lemma OfferedExactly(g: SubjectSessions, missed: string, saved: Option<int>, id: string)
    ensures var s := SitInFor(g, missed);
      && (s.None? || !s.value.physical ==> !IsOffered(g, missed, saved, id))
      && (s.Some? && s.value.physical ==>
            var level := LevelShown(s.value, saved);
            if level in LevelsOf(s.value.priorities)
            then (IsOffered(g, missed, saved, id) <==>
                    exists p, o :: p in s.value.priorities && p.level == level && OfferedFor(p.available, missed, o) && o.id == id)
            else (IsOffered(g, missed, saved, id) <==> exists o :: OfferedFor(s.value.available, missed, o) && o.id == id))
  {
    var s := SitInFor(g, missed);
    if s.Some? && s.value.physical {
      var level := LevelShown(s.value, saved);
      if level in LevelsOf(s.value.priorities) {
        if p, o :| p in s.value.priorities && p.level == level && OfferedFor(p.available, missed, o) && o.id == id {
          assert Shows(s.value, missed, saved, o);
        }
      } else {
        assert forall p :: p in s.value.priorities ==> p.level in LevelsOf(s.value.priorities);
        if o :| OfferedFor(s.value.available, missed, o) && o.id == id {
          assert Shows(s.value, missed, saved, o);
        }
      }
    }
  }

  method AvailableFor(available: seq<Offer>, missed: string) returns (r: seq<Offer>)
    ensures forall o :: o in r <==> OfferedFor(available, missed, o)
  {
    if forall i :: 0 <= i < |available| ==> available[i].missedFor == "" { return available; }
    r := [];
    for n := 0 to |available|
      invariant forall o :: o in r <==> o in available[..n] && o.missedFor != "" && o.missedFor == missed
    {
      if available[n].missedFor != "" && available[n].missedFor == missed { r := r + [available[n]]; }
      assert available[..n + 1] == available[..n] + [available[n]];
    }
    assert available[..|available|] == available;
  }

  ghost function IdsOf(offers: seq<Offer>): set<string> {
    set o | o in offers :: o.id
  }

  method AddIds(offered: set<string>, offers: seq<Offer>) returns (r: set<string>)
    ensures r == offered + IdsOf(offers)
  {
    r := offered;
    for n := 0 to |offers|
      invariant r == offered + IdsOf(offers[..n])
    {
      assert offers[..n + 1] == offers[..n] + [offers[n]];
      r := r + {offers[n].id};
    }
    assert offers[..|offers|] == offers;
  }

  ghost predicate OffersId(priorities: seq<Priority>, missed: string, id: string) {
    exists p, o :: p in priorities && OfferedFor(p.available, missed, o) && o.id == id
  }

  method AddPriorities(priorities: seq<Priority>, missed: string) returns (r: set<string>)
    ensures forall id :: id in r <==> OffersId(priorities, missed, id)
  {
    r := {};
    for n := 0 to |priorities|
      invariant forall id :: id in r <==> OffersId(priorities[..n], missed, id)
    {
      var available := AvailableFor(priorities[n].available, missed);
      ghost var before := r;
      r := AddIds(r, available);
      assert priorities[..n + 1] == priorities[..n] + [priorities[n]];
      forall id ensures id in r <==> OffersId(priorities[..n + 1], missed, id) {
        OffersOneMore(priorities[..n], priorities[n], missed, id);
        assert id in IdsOf(available) <==> exists o :: OfferedFor(priorities[n].available, missed, o) && o.id == id;
      }
    }
    assert priorities[..|priorities|] == priorities;
  }

  lemma OffersOneMore(priorities: seq<Priority>, p: Priority, missed: string, id: string)
    ensures OffersId(priorities + [p], missed, id) <==>
            OffersId(priorities, missed, id) || exists o :: OfferedFor(p.available, missed, o) && o.id == id
  {
    if OffersId(priorities, missed, id) {
      var q, o :| q in priorities && OfferedFor(q.available, missed, o) && o.id == id;
      assert q in priorities + [p];
    }
    if o :| OfferedFor(p.available, missed, o) && o.id == id {
      assert p in priorities + [p];
    }
  }

  method OfferedSitInSessionIds(g: SubjectSessions, missed: string, saved: Option<int>) returns (offered: set<string>)
    ensures forall id :: id in offered <==> IsOffered(g, missed, saved, id)
  {
    var sitIn := SitInFor(g, missed);
    if sitIn.None? || !sitIn.value.physical { return {}; }
    var s := sitIn.value;
    var level := LevelShown(s, saved);
    var priorities := AtLevel(s.priorities, level);
    forall p ensures p in priorities <==> p in s.priorities && p.level == level {
      AtLevelMembers(s.priorities, level, p);
    }
    if |priorities| > 0 {
      assert priorities[0] in priorities;
      offered := AddPriorities(priorities, missed);
    } else {
      assert forall p :: p in s.priorities && p.level == level ==> p in priorities;
      var available := AvailableFor(s.available, missed);
      offered := AddIds({}, available);
    }
  }

  // ---- Make-ups already used ----

  /** What `collect` meets, in the order it meets it. */
  datatype Seen = Conflict(id: string) | Used(id: string)

  function ConflictsIn(available: seq<Offer>): seq<Seen> {
    if available == [] then []
    else ConflictsIn(available[..|available| - 1])
         + if available[|available| - 1].conflict then [Conflict(available[|available| - 1].id)] else []
  }

  function UsedIn(unavailable: seq<Unavailable>): seq<Seen> {
    if unavailable == [] then []
    else
      var u := unavailable[|unavailable| - 1];
      UsedIn(unavailable[..|unavailable| - 1]) + if u.used && u.id != "" then [Used(u.id)] else []
  }

  function UsedInAll(priorities: seq<Priority>): seq<Seen> {
    if priorities == [] then []
    else UsedInAll(priorities[..|priorities| - 1]) + UsedIn(priorities[|priorities| - 1].unavailable)
  }

  function SeenIn(s: SitIn): seq<Seen>
    decreases s, |s.byMissed| + 1
  {
    SeenHere(s) + SeenBelow(s, |s.byMissed|)
  }

  /** The first `n` nested sit-ins. */
  function SeenBelow(s: SitIn, n: nat): seq<Seen>
    requires n <= |s.byMissed|
    decreases s, n
  {
    if n == 0 then [] else SeenBelow(s, n - 1) + SeenIn(s.byMissed[n - 1].value)
  }

  function SeenInAll(groups: seq<SubjectSessions>): seq<Seen> {
    if groups == [] then []
    else
      var g := groups[|groups| - 1];
      SeenInAll(groups[..|groups| - 1]) + if g.sitIn.Some? then SeenIn(g.sitIn.value) else []
  }

  /** A used make-up is blocked when it is met before any conflict that shows it. */
  ghost predicate BlockedBy(seen: seq<Seen>, id: string) {
    exists i :: 0 <= i < |seen| && seen[i] == Used(id) && Conflict(id) !in seen[..i]
  }

  ghost predicate IsBlockedSet(groups: seq<SubjectSessions>, blocked: set<string>) {
    forall id :: id in blocked <==> BlockedBy(SeenInAll(groups), id)
  }

  /** The two sets `collect` fills, after a stretch of the traversal. */
  ghost predicate Collected(seen: seq<Seen>, visible: set<string>, blocked: set<string>) {
    && (forall id :: id in visible <==> Conflict(id) in seen)
    && (forall id :: id in blocked <==> BlockedBy(seen, id))
  }

  lemma BlockedSnoc(seen: seq<Seen>, e: Seen, id: string)
    ensures BlockedBy(seen + [e], id) <==> BlockedBy(seen, id) || (e == Used(id) && Conflict(id) !in seen)
  {
    var t := seen + [e];
    assert forall i :: 0 <= i <= |seen| ==> t[..i] == seen[..i];
    assert seen[..|seen|] == seen;
    if BlockedBy(seen, id) {
      var i :| 0 <= i < |seen| && seen[i] == Used(id) && Conflict(id) !in seen[..i];
      assert t[i] == Used(id);
    }
    if e == Used(id) && Conflict(id) !in seen {
      assert t[|seen|] == Used(id);
    }
  }

  lemma CollectOne(seen: seq<Seen>, e: Seen, visible: set<string>, blocked: set<string>)
    requires Collected(seen, visible, blocked)
    ensures e.Conflict? ==> Collected(seen + [e], visible + {e.id}, blocked)
    ensures e.Used? ==> Collected(seen + [e], visible, if e.id in visible then blocked else blocked + {e.id})
  {
    forall id ensures BlockedBy(seen + [e], id) <==> BlockedBy(seen, id) || (e == Used(id) && Conflict(id) !in seen) {
      BlockedSnoc(seen, e, id);
    }
  }

  method CollectConflicts(available: seq<Offer>, visible0: set<string>, blocked: set<string>, ghost seen: seq<Seen>)
    returns (visible: set<string>)
    requires Collected(seen, visible0, blocked)
    ensures Collected(seen + ConflictsIn(available), visible, blocked)
  {
    visible := visible0;
    assert seen + ConflictsIn(available[..0]) == seen;
    for n := 0 to |available|
      invariant Collected(seen + ConflictsIn(available[..n]), visible, blocked)
    {
      assert available[..n + 1][..n] == available[..n];
      if available[n].conflict {
        CollectOne(seen + ConflictsIn(available[..n]), Conflict(available[n].id), visible, blocked);
        visible := visible + {available[n].id};
        assert seen + ConflictsIn(available[..n + 1])
            == seen + ConflictsIn(available[..n]) + [Conflict(available[n].id)];
      } else {
        assert ConflictsIn(available[..n + 1]) == ConflictsIn(available[..n]);
      }
    }
    assert available[..|available|] == available;
  }

  method CollectUsed(unavailable: seq<Unavailable>, visible: set<string>, blocked0: set<string>, ghost seen: seq<Seen>)
    returns (blocked: set<string>)
    requires Collected(seen, visible, blocked0)
    ensures Collected(seen + UsedIn(unavailable), visible, blocked)
  {
    blocked := blocked0;
    assert seen + UsedIn(unavailable[..0]) == seen;
    for n := 0 to |unavailable|
      invariant Collected(seen + UsedIn(unavailable[..n]), visible, blocked)
    {
      var u := unavailable[n];
      assert unavailable[..n + 1][..n] == unavailable[..n];
      if u.used && u.id != "" {
        CollectOne(seen + UsedIn(unavailable[..n]), Used(u.id), visible, blocked);
        if u.id !in visible { blocked := blocked + {u.id}; }
        assert seen + UsedIn(unavailable[..n + 1]) == seen + UsedIn(unavailable[..n]) + [Used(u.id)];
      } else {
        assert UsedIn(unavailable[..n + 1]) == UsedIn(unavailable[..n]);
      }
    }
    assert unavailable[..|unavailable|] == unavailable;
  }

  method CollectPriorities(priorities: seq<Priority>, visible: set<string>, blocked0: set<string>, ghost seen: seq<Seen>)
    returns (blocked: set<string>)
    requires Collected(seen, visible, blocked0)
    ensures Collected(seen + UsedInAll(priorities), visible, blocked)
  {
    blocked := blocked0;
    assert seen + UsedInAll(priorities[..0]) == seen;
    for n := 0 to |priorities|
      invariant Collected(seen + UsedInAll(priorities[..n]), visible, blocked)
    {
      assert priorities[..n + 1][..n] == priorities[..n];
      blocked := CollectUsed(priorities[n].unavailable, visible, blocked, seen + UsedInAll(priorities[..n]));
      assert seen + UsedInAll(priorities[..n + 1])
          == seen + UsedInAll(priorities[..n]) + UsedIn(priorities[n].unavailable);
    }
    assert priorities[..|priorities|] == priorities;
  }

  /** A sit-in's own lists, without the nested sit-ins. */
  function SeenHere(s: SitIn): seq<Seen> {
    ConflictsIn(s.available) + UsedIn(s.unavailable) + UsedInAll(s.priorities)
  }

  method CollectHere(s: SitIn, visible0: set<string>, blocked0: set<string>, ghost seen: seq<Seen>)
    returns (visible: set<string>, blocked: set<string>)
    requires Collected(seen, visible0, blocked0)
    ensures Collected(seen + SeenHere(s), visible, blocked)
  {
    visible := CollectConflicts(s.available, visible0, blocked0, seen);
    blocked := CollectUsed(s.unavailable, visible, blocked0, seen + ConflictsIn(s.available));
    ghost var done := seen + ConflictsIn(s.available) + UsedIn(s.unavailable);
    blocked := CollectPriorities(s.priorities, visible, blocked, done);
    assert seen + SeenHere(s) == done + UsedInAll(s.priorities);
  }

  // ---- Which make-ups are blocked, said without the traversal's lists ----

  ghost predicate OwnConflict(s: SitIn, id: string) {
    exists o :: o in s.available && o.conflict && o.id == id
  }

  ghost predicate UsedAmong(unavailable: seq<Unavailable>, id: string) {
    exists u :: u in unavailable && u.used && u.id == id
  }

  ghost predicate OwnUsed(s: SitIn, id: string) {
    id != "" && (UsedAmong(s.unavailable, id) || exists p :: p in s.priorities && UsedAmong(p.unavailable, id))
  }

  lemma {:induction false} ConflictsInExactly(available: seq<Offer>, e: Seen)
    ensures e in ConflictsIn(available) <==> e.Conflict? && exists o :: o in available && o.conflict && o.id == e.id
  {
    if available != [] {
      ConflictsInExactly(available[..|available| - 1], e);
      assert available == available[..|available| - 1] + [available[|available| - 1]];
    }
  }

  lemma {:induction false} UsedInExactly(unavailable: seq<Unavailable>, e: Seen)
    ensures e in UsedIn(unavailable) <==> e.Used? && e.id != "" && UsedAmong(unavailable, e.id)
  {
    if unavailable != [] {
      UsedInExactly(unavailable[..|unavailable| - 1], e);
      assert unavailable == unavailable[..|unavailable| - 1] + [unavailable[|unavailable| - 1]];
    }
  }

  lemma {:induction false} UsedInAllExactly(priorities: seq<Priority>, e: Seen)
    ensures e in UsedInAll(priorities)
            <==> e.Used? && e.id != "" && exists p :: p in priorities && UsedAmong(p.unavailable, e.id)
  {
    if priorities != [] {
      var init, p := priorities[..|priorities| - 1], priorities[|priorities| - 1];
      UsedInAllExactly(init, e);
      UsedInExactly(p.unavailable, e);
      assert priorities == init + [p];
    }
  }

  /** What is met in a first stretch decides before what is met in a second one. */
  lemma {:induction false} BlockedConcat(a: seq<Seen>, b: seq<Seen>, id: string)
    ensures BlockedBy(a + b, id) <==> BlockedBy(a, id) || (Conflict(id) !in a && BlockedBy(b, id))
  {
    if b == [] {
      assert a + b == a;
    } else {
      var init, e := b[..|b| - 1], b[|b| - 1];
      BlockedConcat(a, init, id);
      BlockedSnoc(init, e, id);
      BlockedSnoc(a + init, e, id);
      assert b == init + [e] && a + b == (a + init) + [e];
    }
  }

  lemma UsedAreBlocked(seen: seq<Seen>, id: string)
    requires Conflict(id) !in seen
    ensures BlockedBy(seen, id) <==> Used(id) in seen
  {
    if Used(id) in seen {
      var i :| 0 <= i < |seen| && seen[i] == Used(id);
      assert Conflict(id) !in seen[..i];
    }
  }

  lemma BlockedHere(s: SitIn, id: string)
    ensures BlockedBy(SeenHere(s), id) <==> !OwnConflict(s, id) && OwnUsed(s, id)
    ensures Conflict(id) in SeenHere(s) <==> OwnConflict(s, id)
  {
    var c, u := ConflictsIn(s.available), UsedIn(s.unavailable) + UsedInAll(s.priorities);
    assert SeenHere(s) == c + u;
    ConflictsInExactly(s.available, Conflict(id));
    ConflictsInExactly(s.available, Used(id));
    UsedInExactly(s.unavailable, Used(id));
    UsedInExactly(s.unavailable, Conflict(id));
    UsedInAllExactly(s.priorities, Used(id));
    UsedInAllExactly(s.priorities, Conflict(id));
    BlockedConcat(c, u, id);
    UsedAreBlocked(u, id);
    if Conflict(id) !in c { UsedAreBlocked(c, id); }
  }

  /** The `n`-th stretch blocks the make-up and none before shows it in conflict. */
  ghost predicate PartBlocks(parts: seq<seq<Seen>>, n: nat, id: string) {
    n < |parts| && BlockedBy(parts[n], id) && forall m :: 0 <= m < n ==> Conflict(id) !in parts[m]
  }

  lemma {:induction false} FlatBlocks(parts: seq<seq<Seen>>, id: string)
    ensures BlockedBy(Flatten(parts), id) <==> exists n :: 0 <= n < |parts| && PartBlocks(parts, n, id)
    ensures Conflict(id) in Flatten(parts) <==> exists n :: 0 <= n < |parts| && Conflict(id) in parts[n]
  {
    if parts != [] {
      var init, last := parts[..|parts| - 1], |parts| - 1;
      FlatBlocks(init, id);
      FlattenSnoc(init, parts[last]);
      assert parts == init + [parts[last]];
      BlockedConcat(Flatten(init), parts[last], id);
      forall n | 0 <= n < last ensures PartBlocks(parts, n, id) <==> PartBlocks(init, n, id) {
        assert forall m :: 0 <= m <= n ==> init[m] == parts[m];
      }
      assert PartBlocks(parts, last, id) <==> BlockedBy(parts[last], id) && Conflict(id) !in Flatten(init);
    }
  }

  /** What each nested sit-in meets, and each subject. */
  function Nested(s: SitIn, n: nat): seq<seq<Seen>>
    requires n <= |s.byMissed|
  {
    seq(n, i requires 0 <= i < n => SeenIn(s.byMissed[i].value))
  }

  function OfSubject(g: SubjectSessions): seq<Seen> {
    if g.sitIn.Some? then SeenIn(g.sitIn.value) else []
  }

  function OfSubjects(groups: seq<SubjectSessions>): seq<seq<Seen>> {
    seq(|groups|, i requires 0 <= i < |groups| => OfSubject(groups[i]))
  }

  lemma {:induction false} BelowIsFlat(s: SitIn, n: nat)
    requires n <= |s.byMissed|
    ensures SeenBelow(s, n) == Flatten(Nested(s, n))
  {
    if n > 0 {
      BelowIsFlat(s, n - 1);
      FlattenSnoc(Nested(s, n - 1), SeenIn(s.byMissed[n - 1].value));
      assert Nested(s, n) == Nested(s, n - 1) + [SeenIn(s.byMissed[n - 1].value)];
    }
  }

  lemma {:induction false} AllIsFlat(groups: seq<SubjectSessions>)
    ensures SeenInAll(groups) == Flatten(OfSubjects(groups))
  {
    if groups != [] {
      var init, g := groups[..|groups| - 1], groups[|groups| - 1];
      AllIsFlat(init);
      FlattenSnoc(OfSubjects(init), OfSubject(g));
      assert OfSubjects(groups) == OfSubjects(init) + [OfSubject(g)];
    }
  }

  /** A make-up is blocked by a sit-in exactly when the sit-in does not list it in
      conflict itself, and it says the make-up is used, or some nested sit-in blocks
      it before any nested one shows it in conflict. */
  lemma BlockedExactly(s: SitIn, id: string)
    ensures var nested := Nested(s, |s.byMissed|);
      && (BlockedBy(SeenIn(s), id)
          <==> !OwnConflict(s, id) && (OwnUsed(s, id) || exists n :: 0 <= n < |nested| && PartBlocks(nested, n, id)))
      && (Conflict(id) in SeenIn(s)
          <==> OwnConflict(s, id) || exists n :: 0 <= n < |nested| && Conflict(id) in nested[n])
  {
    BlockedHere(s, id);
    BelowIsFlat(s, |s.byMissed|);
    FlatBlocks(Nested(s, |s.byMissed|), id);
    BlockedConcat(SeenHere(s), SeenBelow(s, |s.byMissed|), id);
  }

  /** And by the subjects exactly when one of them blocks it before any shows it in
      conflict. */
  lemma BlockedInExactly(groups: seq<SubjectSessions>, id: string)
    ensures BlockedBy(SeenInAll(groups), id)
            <==> exists n :: 0 <= n < |groups| && PartBlocks(OfSubjects(groups), n, id)
  {
    AllIsFlat(groups);
    FlatBlocks(OfSubjects(groups), id);
  }

  lemma Reassociate(a: seq<Seen>, b: seq<Seen>, c: seq<Seen>)
    ensures a + b + c == a + (b + c)
  {}

  lemma BelowOneMore(seen: seq<Seen>, s: SitIn, n: nat)
    requires n < |s.byMissed|
    ensures seen + SeenBelow(s, n + 1) == seen + SeenBelow(s, n) + SeenIn(s.byMissed[n].value)
  {
    Reassociate(seen, SeenBelow(s, n), SeenIn(s.byMissed[n].value));
  }

  method Collect(s: SitIn, visible0: set<string>, blocked0: set<string>, ghost seen: seq<Seen>)
    returns (visible: set<string>, blocked: set<string>)
    requires Collected(seen, visible0, blocked0)
    ensures Collected(seen + SeenIn(s), visible, blocked)
    decreases s, |s.byMissed| + 1
  {
    visible, blocked := CollectHere(s, visible0, blocked0, seen);
    visible, blocked := CollectBelow(s, visible, blocked, seen + SeenHere(s));
    Reassociate(seen, SeenHere(s), SeenBelow(s, |s.byMissed|));
  }

  method CollectBelow(s: SitIn, visible0: set<string>, blocked0: set<string>, ghost seen: seq<Seen>)
    returns (visible: set<string>, blocked: set<string>)
    requires Collected(seen, visible0, blocked0)
    ensures Collected(seen + SeenBelow(s, |s.byMissed|), visible, blocked)
    decreases s, |s.byMissed|
  {
    visible, blocked := visible0, blocked0;
    ghost var done := seen;
    for n := 0 to |s.byMissed|
      invariant done == seen + SeenBelow(s, n)
      invariant Collected(done, visible, blocked)
    {
      var child := s.byMissed[n].value;
      BelowOneMore(seen, s, n);
      visible, blocked := Collect(child, visible, blocked, done);
      done := done + SeenIn(child);
    }
  }

  method BlockedSitInSessionIds(groups: seq<SubjectSessions>) returns (blocked: set<string>)
    ensures IsBlockedSet(groups, blocked)
  {
    var visible: set<string> := {};
    blocked := {};
    for n := 0 to |groups|
      invariant Collected(SeenInAll(groups[..n]), visible, blocked)
    {
      assert groups[..n + 1][..n] == groups[..n];
      if groups[n].sitIn.Some? {
        visible, blocked := Collect(groups[n].sitIn.value, visible, blocked, SeenInAll(groups[..n]));
      } else {
        assert SeenInAll(groups[..n + 1]) == SeenInAll(groups[..n]);
      }
    }
    assert groups[..|groups|] == groups;
  }

  // ---- Drafts and selections ----

  /** What the form remembers of a filled-in page. */
  datatype Draft = Draft(
    wcode: string, email: Option<string>, step: nat, subjectIds: seq<string>, sessionIds: set<string>,
    sitIns: map<string, string>, levels: map<string, int>, reason: string)

  /** What restoring puts back. */
  datatype Selection = Selection(
    subjectIds: seq<string>, sessionIds: set<string>, sitIns: map<string, string>, levels: map<string, int>)

  function SelectionOf(d: Draft): Selection {
    Selection(d.subjectIds, d.sessionIds, d.sitIns, d.levels)
  }

  /** Saving writes the whole selection into the draft. */
  function Save(d: Draft, s: Selection): Draft {
    d.(subjectIds := s.subjectIds, sessionIds := s.sessionIds, sitIns := s.sitIns, levels := s.levels)
  }

  function KeepListed(ids: seq<string>, listed: seq<string>): seq<string> {
    if ids == [] then []
    else KeepListed(ids[..|ids| - 1], listed) + if ids[|ids| - 1] in listed then [ids[|ids| - 1]] else []
  }

  /** The group a class belongs to: the last one that lists it. */
  function Owner(groups: seq<SubjectSessions>, id: string): Option<SubjectSessions> {
    if groups == [] then None
    else if id in groups[|groups| - 1].sessions then Some(groups[|groups| - 1])
    else Owner(groups[..|groups| - 1], id)
  }

  lemma {:induction false} OwnerExactly(groups: seq<SubjectSessions>, id: string, i: nat)
    requires i <= |groups| && forall j :: i <= j < |groups| ==> id !in groups[j].sessions
    ensures i == 0 ==> Owner(groups, id) == None
    ensures i > 0 && id in groups[i - 1].sessions ==> Owner(groups, id) == Some(groups[i - 1])
  {
    if groups != [] && i < |groups| {
      OwnerExactly(groups[..|groups| - 1], id, i);
    }
  }

  /** A saved make-up counts at the level saved for its class, and without a saved
      level at the one shown anyway. */
  lemma SavedLevelCounts(a: Answer, id: string, value: string, levels: map<string, int>)
    ensures id in levels ==>
      (StillOffered(a, id, value, LevelOf(levels, id)) <==> StillOffered(a, id, value, Some(levels[id])))
    ensures id !in levels ==> (StillOffered(a, id, value, LevelOf(levels, id)) <==> StillOffered(a, id, value, None))
  {}

  function LevelOf(levels: map<string, int>, id: string): Option<int> {
    if id in levels then Some(levels[id]) else None
  }

  /** A saved make-up the picker can still show: every class of it is offered at
      its level and none is blocked. */
  ghost predicate StillOffered(a: Answer, id: string, value: string, level: Option<int>) {
    && Owner(a.subjects, id).Some? && Split(value) != []
    && forall s :: s in Split(value) ==>
         IsOffered(Owner(a.subjects, id).value, id, level, s) && !BlockedBy(SeenInAll(a.subjects), s)
  }

  ghost function KeptSessions(d: Draft, a: Answer): set<string> {
    set id | id in d.sessionIds && Owner(a.subjects, id).Some?
  }

  ghost function KeptLevels(d: Draft, a: Answer): map<string, int> {
    map id | id in d.levels && id in KeptSessions(d, a) :: d.levels[id]
  }

  ghost predicate KeepsSitIn(d: Draft, a: Answer, id: string) {
    id in d.sitIns && id in KeptSessions(d, a) && StillOffered(a, id, d.sitIns[id], LevelOf(KeptLevels(d, a), id))
  }

  ghost function KeptSitIns(d: Draft, a: Answer): map<string, string> {
    map id | id in d.sitIns && KeepsSitIn(d, a, id) :: d.sitIns[id]
  }

  ghost function Restored(d: Draft, a: Answer): Selection {
    Selection(KeepListed(d.subjectIds, a.subjectIds), KeptSessions(d, a), KeptSitIns(d, a), KeptLevels(d, a))
  }

  method FilterSubjects(ids: seq<string>, listed: seq<string>) returns (r: seq<string>)
    ensures r == KeepListed(ids, listed)
  {
    r := [];
    for n := 0 to |ids|
      invariant r == KeepListed(ids[..n], listed)
    {
      assert ids[..n + 1][..n] == ids[..n];
      if ids[n] in listed { r := r + [ids[n]]; }
    }
    assert ids[..|ids|] == ids;
  }

  ghost predicate OwnersOf(groups: seq<SubjectSessions>, owners: map<string, SubjectSessions>) {
    forall id :: Owner(groups, id) == if id in owners then Some(owners[id]) else None
  }

  /** One group's classes: each is the group's from now on. */
  method ClaimSessions(owners0: map<string, SubjectSessions>, g: SubjectSessions) returns (owners: map<string, SubjectSessions>)
    ensures owners == owners0 + map id | id in g.sessions :: g
  {
    owners := owners0;
    for k := 0 to |g.sessions|
      invariant owners == owners0 + map id | id in g.sessions[..k] :: g
    {
      assert g.sessions[..k + 1] == g.sessions[..k] + [g.sessions[k]];
      owners := owners[g.sessions[k] := g];
    }
    assert g.sessions[..|g.sessions|] == g.sessions;
  }

  method MapOwners(groups: seq<SubjectSessions>) returns (owners: map<string, SubjectSessions>)
    ensures OwnersOf(groups, owners)
  {
    owners := map[];
    for n := 0 to |groups|
      invariant OwnersOf(groups[..n], owners)
    {
      var next := ClaimSessions(owners, groups[n]);
      assert groups[..n + 1][..n] == groups[..n];
      forall id ensures Owner(groups[..n + 1], id) == if id in next then Some(next[id]) else None {
        assert Owner(groups[..n], id) == if id in owners then Some(owners[id]) else None;
      }
      owners := next;
    }
    assert groups[..|groups|] == groups;
  }

  method CheckSitIn(a: Answer, owner: SubjectSessions, blocked: set<string>, id: string, value: string, level: Option<int>)
    returns (ok: bool)
    requires Owner(a.subjects, id) == Some(owner)
    requires IsBlockedSet(a.subjects, blocked)
    ensures ok <==> StillOffered(a, id, value, level)
  {
    var saved := Split(value);
    if saved == [] { return false; }
    var offered := OfferedSitInSessionIds(owner, id, level);
    ok := forall s :: s in saved ==> s in offered && s !in blocked;
  }

  method RestoreOne(d: Draft, a: Answer, owners: map<string, SubjectSessions>, blocked: set<string>, id: string)
    returns (ok: bool)
    requires id in d.sitIns && OwnersOf(a.subjects, owners)
    requires IsBlockedSet(a.subjects, blocked)
    ensures ok <==> KeepsSitIn(d, a, id)
  {
    if id !in d.sessionIds || id !in owners { return false; }
    ok := CheckSitIn(a, owners[id], blocked, id, d.sitIns[id], LevelOf(d.levels, id));
    SameLevel(d, a, id);
  }

  method RestoreSitIns(d: Draft, a: Answer, owners: map<string, SubjectSessions>, blocked: set<string>)
    returns (sitIns: map<string, string>)
    requires OwnersOf(a.subjects, owners)
    requires IsBlockedSet(a.subjects, blocked)
    ensures sitIns == KeptSitIns(d, a)
  {
    sitIns := map[];
    var todo := d.sitIns.Keys;
    while todo != {}
      invariant todo <= d.sitIns.Keys
      invariant sitIns == map id | id in d.sitIns && id !in todo && KeepsSitIn(d, a, id) :: d.sitIns[id]
      decreases |todo|
    {
      var id :| id in todo;
      todo := todo - {id};
      var ok := RestoreOne(d, a, owners, blocked, id);
      if ok { sitIns := sitIns[id := d.sitIns[id]]; }
    }
  }

  lemma SameLevel(d: Draft, a: Answer, id: string)
    requires id in KeptSessions(d, a)
    ensures LevelOf(KeptLevels(d, a), id) == LevelOf(d.levels, id)
  {}

  /** Another student's draft is left alone. */
  method RestoreDraft(d: Draft, a: Answer) returns (s: Option<Selection>)
    ensures s == if Normal(d.wcode) == a.wcode then Some(Restored(d, a)) else None
  {
    if Normal(d.wcode) != a.wcode { return None; }
    var subjectIds := FilterSubjects(d.subjectIds, a.subjectIds);
    var owners := MapOwners(a.subjects);
    var sessionIds := set id | id in d.sessionIds && id in owners;
    var levels := map id | id in d.levels && id in sessionIds :: d.levels[id];
    var blocked := BlockedSitInSessionIds(a.subjects);
    var sitIns := RestoreSitIns(d, a, owners, blocked);
    assert sessionIds == KeptSessions(d, a);
    s := Some(Selection(subjectIds, sessionIds, sitIns, levels));
  }

  // ---- What restoring promises ----

  /** Everything selected is still listed, offered at its level and not blocked. */
  ghost predicate Valid(s: Selection, a: Answer) {
    && (forall id :: id in s.subjectIds ==> id in a.subjectIds)
    && (forall id :: id in s.sessionIds ==> Owner(a.subjects, id).Some?)
    && s.levels.Keys <= s.sessionIds
    && s.sitIns.Keys <= s.sessionIds
    && forall id :: id in s.sitIns ==> StillOffered(a, id, s.sitIns[id], LevelOf(s.levels, id))
  }

  /** A selection within another, in which each class keeps its level. */
  ghost predicate Within(s: Selection, t: Selection) {
    && (exists listed :: s.subjectIds == KeepListed(t.subjectIds, listed))
    && s.sessionIds <= t.sessionIds
    && (forall id :: id in s.sessionIds ==> LevelOf(s.levels, id) == LevelOf(t.levels, id))
    && s.sitIns.Keys <= t.sitIns.Keys && forall id :: id in s.sitIns ==> s.sitIns[id] == t.sitIns[id]
  }

  lemma {:induction false} KeepListedMembers(ids: seq<string>, listed: seq<string>)
    ensures forall id :: id in KeepListed(ids, listed) <==> id in ids && id in listed
  {
    if ids != [] {
      KeepListedMembers(ids[..|ids| - 1], listed);
      assert ids == ids[..|ids| - 1] + [ids[|ids| - 1]];
    }
  }

  lemma {:induction false} KeepAllListed(ids: seq<string>, listed: seq<string>)
    requires forall id :: id in ids ==> id in listed
    ensures KeepListed(ids, listed) == ids
  {
    if ids != [] {
      KeepAllListed(ids[..|ids| - 1], listed);
      assert ids == ids[..|ids| - 1] + [ids[|ids| - 1]];
    }
  }

  /** Keeping twice is keeping what both list. */
  lemma {:induction false} KeepListedTwice(ids: seq<string>, p: seq<string>, q: seq<string>)
    requires forall id :: id in ids && id in p ==> id in q
    ensures KeepListed(ids, p) == KeepListed(KeepListed(ids, q), p)
  {
    if ids != [] {
      var init, x := ids[..|ids| - 1], ids[|ids| - 1];
      assert ids == init + [x];
      KeepListedTwice(init, p, q);
      if x in q {
        var k := KeepListed(init, q);
        assert (k + [x])[..|k|] == k;
      } else {
        assert KeepListed(ids, q) == KeepListed(init, q);
      }
    }
  }

  /** Restoring keeps only what is still valid, and only what was saved. */
  lemma RestoredIsValid(d: Draft, a: Answer)
    ensures Valid(Restored(d, a), a) && Within(Restored(d, a), SelectionOf(d))
  {
    KeepListedMembers(d.subjectIds, a.subjectIds);
    var s := Restored(d, a);
    forall id | id in s.sessionIds ensures LevelOf(s.levels, id) == LevelOf(d.levels, id) {
      SameLevel(d, a, id);
    }
  }

  /** It drops nothing that is still valid: any valid part of the saved selection
      is part of the restored one. */
  lemma RestoredIsLargest(d: Draft, a: Answer, s: Selection)
    requires Valid(s, a) && Within(s, SelectionOf(d))
    ensures Within(s, Restored(d, a))
  {
    var r := Restored(d, a);
    LargestSubjects(d, a, s);
    forall id | id in s.sessionIds ensures id in r.sessionIds && LevelOf(s.levels, id) == LevelOf(r.levels, id) {
      SameLevel(d, a, id);
    }
    forall id | id in s.sitIns ensures id in r.sitIns {
      assert StillOffered(a, id, s.sitIns[id], LevelOf(s.levels, id));
    }
  }

  lemma LargestSubjects(d: Draft, a: Answer, s: Selection)
    requires Valid(s, a) && Within(s, SelectionOf(d))
    ensures exists listed :: s.subjectIds == KeepListed(Restored(d, a).subjectIds, listed)
  {
    var listed :| s.subjectIds == KeepListed(d.subjectIds, listed);
    KeepListedMembers(d.subjectIds, listed);
    KeepListedTwice(d.subjectIds, listed, a.subjectIds);
    assert s.subjectIds == KeepListed(Restored(d, a).subjectIds, listed);
  }

  /** Saving a selection and restoring it gives it back exactly when it is valid;
      so with an unchanged answer nothing valid is lost, and restoring what was
      restored changes nothing. */
  lemma RoundTripExactly(d: Draft, a: Answer, s: Selection)
    ensures Restored(Save(d, s), a) == s <==> Valid(s, a)
  {
    var e := Save(d, s);
    if Valid(s, a) {
      KeepAllListed(s.subjectIds, a.subjectIds);
      assert KeptSessions(e, a) == s.sessionIds;
      assert KeptLevels(e, a) == s.levels;
      assert KeptSitIns(e, a) == s.sitIns;
    }
    RestoredIsValid(e, a);
  }

  lemma RestoringIsIdempotent(d: Draft, a: Answer)
    ensures Restored(Save(d, Restored(d, a)), a) == Restored(d, a)
  {
    RestoredIsValid(d, a);
    RoundTripExactly(d, a, Restored(d, a));
  }

  // ---- Through storage ----

  const MAX_REASON := 500

  function Stored(d: Draft): Draft {
    d.(wcode := Normal(d.wcode),
       email := if d.email == Some("") then None else d.email,
       reason := if |d.reason| <= MAX_REASON then d.reason else d.reason[..MAX_REASON])
  }

  predicate IsDraft(d: Draft) {
    IsWCode(d.wcode) && d.step <= 3 && |d.reason| <= MAX_REASON
  }

  function Reload(d: Draft): Option<Draft> {
    if IsDraft(Stored(d)) then Some(Stored(d).(wcode := Normal(Stored(d).wcode))) else None
  }

  lemma WCodeOfNormal(w: string)
    ensures IsWCode(Normal(w)) <==> IsWCode(w)
  {
    NormalIsTrimmed(w);
    var t, n := Trim(w), Normal(w);
    assert |n| == |t| && forall i :: 1 <= i < |t| ==> n[i] == t[i];
  }

  /** A stored draft comes back unchanged exactly when its code is a normalised
      student code, its reason fits, its step exists and its email is not blank. */
  lemma ReloadExactly(d: Draft)
    ensures Reload(d) == Some(d) <==>
            IsWCode(d.wcode) && Normal(d.wcode) == d.wcode && |d.reason| <= MAX_REASON && d.step <= 3 && d.email != Some("")
  {
    NormalIdempotent(d.wcode);
    WCodeOfNormal(d.wcode);
  }

  /** What is read back: nothing unless the code is a student code and the step is
      one of the four; else the normalised code, the first 500 characters of the
      reason, the email unless it is blank, and all the rest as it was. */
  lemma ReadBackExactly(d: Draft)
    ensures Reload(d).Some? <==> LooksLikeWCode(Trim(d.wcode)) && d.step < 4
    ensures Reload(d).Some? ==>
      var r := Reload(d).value;
      && r == d.(wcode := Normal(d.wcode), email := r.email, reason := r.reason)
      && r.email == (if d.email == Some("") then None else d.email)
      && r.reason == (if |d.reason| > 500 then d.reason[..500] else d.reason)
  {
    WCodeOfNormalExactly(d.wcode);
    NormalIdempotent(d.wcode);
  }

  /** What a reload returns is itself kept by every later reload. */
  lemma ReloadIsStable(d: Draft)
    requires Reload(d).Some?
    ensures Reload(Reload(d).value) == Reload(d)
  {
    NormalIdempotent(d.wcode);
    ReloadExactly(Reload(d).value);
  }

  /** Saving to storage, reloading and restoring gives a selection back exactly
      when it is valid; for a student code and an existing step the reload always
      succeeds, however long the reason and whatever the email. */
  lemma ThroughStorageExactly(d: Draft, a: Answer, s: Selection)
    requires IsWCode(d.wcode) && d.step <= 3
    ensures var e := Reload(Save(d, s));
      && e.Some? && Normal(e.value.wcode) == Normal(d.wcode)
      && (Restored(e.value, a) == s <==> Valid(s, a))
  {
    WCodeOfNormal(d.wcode);
    NormalIdempotent(d.wcode);
    var e := Reload(Save(d, s)).value;
    assert e == Save(e, s);
    RoundTripExactly(e, a, s);
  }
}
