/** The absence inbox: rows of one merged course and student collapse into one
    row (Absences page). */
module InboxGrouping {
  import opened JsCollections
  import opened Text

  datatype Status = Pending | Reviewed | Actioned | Cancelled | SpecialApproved

  /** A missed session, a sit-in session or an impact: an id and the rest. */
  datatype Ref = Ref(id: string, detail: string)

  datatype Absence = Absence(
    id: string, wcode: string, mergeGroupId: Option<string>, mergeGroupName: Option<string>,
    status: Status, subjectName: Option<string>,
    missedSessions: Option<seq<Ref>>, sitIns: Option<seq<Ref>>, sitInImpacts: Option<seq<Ref>>)

  datatype InboxGroup = InboxGroup(key: string, item: Absence, items: seq<Absence>)

  function TrimmedOr(s: Option<string>): string {
    if s.Some? then Trim(s.value) else ""
  }

  function MergeKey(a: Absence): string {
    var id := TrimmedOr(a.mergeGroupId);
    if id != "" then id else TrimmedOr(a.mergeGroupName)
  }

  function PersonAndMerge(a: Absence): string {
    Lower(a.wcode) + [':'] + MergeKey(a)
  }

  function Key(a: Absence): string {
    if MergeKey(a) != "" then "merge:" + PersonAndMerge(a) else "absence:" + a.id
  }

  // ---- Keys ----

  predicate NotBlank(s: Option<string>) {
    s.Some? && Trim(s.value) != ""
  }

  /** The absence is of the merged course `k`: by its group id, whatever the name,
      or by its name when the id is blank. */
  predicate OfMergedCourse(a: Absence, k: string) {
    || (NotBlank(a.mergeGroupId) && Trim(a.mergeGroupId.value) == k)
    || (!NotBlank(a.mergeGroupId) && NotBlank(a.mergeGroupName) && Trim(a.mergeGroupName.value) == k)
  }

  /** Who belongs together, said without string keys: absences of one student and
      one merged course, or the same absence of no merged course. */
  ghost predicate BelongTogether(a: Absence, b: Absence) {
    || (Lower(a.wcode) == Lower(b.wcode) && exists k :: OfMergedCourse(a, k) && OfMergedCourse(b, k))
    || (a.id == b.id && (forall k :: !OfMergedCourse(a, k)) && forall k :: !OfMergedCourse(b, k))
  }

  lemma MergeKeyExactly(a: Absence)
    ensures forall k :: OfMergedCourse(a, k) <==> k != "" && MergeKey(a) == k
  {}

  lemma TogetherByKey(a: Absence, b: Absence)
    ensures BelongTogether(a, b) <==>
      if MergeKey(a) != "" && MergeKey(b) != "" then Lower(a.wcode) == Lower(b.wcode) && MergeKey(a) == MergeKey(b)
      else MergeKey(a) == MergeKey(b) == "" && a.id == b.id
  {
    MergeKeyExactly(a);
    MergeKeyExactly(b);
    if MergeKey(a) != "" { assert OfMergedCourse(a, MergeKey(a)); }
    if MergeKey(b) != "" { assert OfMergedCourse(b, MergeKey(b)); }
  }

  /** Two group ids that are not blank decide, whatever the names. */
  lemma IdsDecide(a: Absence, b: Absence)
    requires NotBlank(a.mergeGroupId) && NotBlank(b.mergeGroupId)
    ensures BelongTogether(a, b)
            <==> Lower(a.wcode) == Lower(b.wcode) && Trim(a.mergeGroupId.value) == Trim(b.mergeGroupId.value)
  {
    assert OfMergedCourse(a, Trim(a.mergeGroupId.value)) && OfMergedCourse(b, Trim(b.mergeGroupId.value));
  }

  lemma LowerKeepsColons(s: string)
    ensures ':' in s <==> ':' in Lower(s)
  {
    forall i | 0 <= i < |s| ensures s[i] == ':' <==> Lower(s)[i] == ':' {}
    if ':' in Lower(s) {
      var i :| 0 <= i < |s| && Lower(s)[i] == ':';
      assert s[i] == ':';
    }
    if ':' in s {
      var i :| 0 <= i < |s| && s[i] == ':';
      assert Lower(s)[i] == ':';
    }
  }

  lemma MergeKeysAgree(a: Absence, b: Absence)
    requires ':' !in a.wcode && ':' !in b.wcode && MergeKey(a) != "" && MergeKey(b) != ""
    requires Key(a) == Key(b)
    ensures Lower(a.wcode) == Lower(b.wcode) && MergeKey(a) == MergeKey(b)
  {
    LowerKeepsColons(a.wcode);
    LowerKeepsColons(b.wcode);
    CancelPrefix("merge:", PersonAndMerge(a), PersonAndMerge(b));
    SplitAtSeparator(Lower(a.wcode), Lower(b.wcode), MergeKey(a), MergeKey(b), ':');
  }

  /** The string key separates exactly what does not belong together, as long
      as student codes hold no colon. */
  lemma KeyIsExact(a: Absence, b: Absence)
    requires ':' !in a.wcode && ':' !in b.wcode
    ensures Key(a) == Key(b) <==> BelongTogether(a, b)
  {
    TogetherByKey(a, b);
    if MergeKey(a) != "" && MergeKey(b) != "" {
      if Key(a) == Key(b) { MergeKeysAgree(a, b); }
    } else if MergeKey(a) == "" && MergeKey(b) == "" {
      if Key(a) == Key(b) { CancelPrefix("absence:", a.id, b.id); }
    } else {
      assert Key(a)[0] != Key(b)[0];
    }
  }

  /** With a colon in a student code two different merged courses can share a row. */
  lemma ColonsCanCollide() returns (a: Absence, b: Absence)
    ensures Key(a) == Key(b) && !BelongTogether(a, b)
  {
    a := Absence("1", "w:x", Some("y"), None, Pending, None, None, None, None);
    b := Absence("2", "w", Some("x:y"), None, Pending, None, None, None, None);
    assert Trim("y") == "y" && Trim("x:y") == "x:y";
    assert Lower("w:x") == "w:x" by {
      assert Lower("x") == "x" && Lower(":x") == ":x";
    }
    assert Lower("w") == "w";
    TogetherByKey(a, b);
    assert Key(a) == "merge:w:x:y" == Key(b);
  }

  /** One folded code and a colon begin another, and what follows could begin a
      trimmed merge key. */
  predicate PrefixClash(x: string, y: string) {
    var l := Lower(x) + ":";
    l <= Lower(y) && (|Lower(y)| > |l| ==> !IsSpace(Lower(y)[|l|]))
  }

  ghost predicate Collide(a: Absence, b: Absence) {
    Key(a) == Key(b) && !BelongTogether(a, b)
  }

  lemma TrimmedStart(s: string)
    ensures Trim(s) != "" ==> !IsSpace(Trim(s)[0])
  {
    assert Trim(s) != "" ==> Trim(s)[0] == TrimStart(s)[0];
  }

  lemma MergeKeyStart(a: Absence)
    ensures MergeKey(a) != "" ==> !IsSpace(MergeKey(a)[0])
  {
    if a.mergeGroupId.Some? { TrimmedStart(a.mergeGroupId.value); }
    if a.mergeGroupName.Some? { TrimmedStart(a.mergeGroupName.value); }
  }

  lemma LongerCodeClashes(k: string, m: string, l: string, n: string)
    requires k + [':'] + m == l + [':'] + n && |k| < |l| && m != "" && !IsSpace(m[0])
    ensures k + ":" <= l && (|l| > |k| + 1 ==> !IsSpace(l[|k| + 1]))
  {
    var t := k + [':'] + m;
    assert t[..|k| + 1] == k + ":" && t[|k| + 1] == m[0];
    assert t[..|l|] == l;
    assert l[..|k| + 1] == t[..|k| + 1];
  }

  lemma CollisionClashes(a: Absence, b: Absence)
    requires Collide(a, b)
    ensures PrefixClash(a.wcode, b.wcode) || PrefixClash(b.wcode, a.wcode)
  {
    TogetherByKey(a, b);
    SameKind(a, b);
    if MergeKey(a) != "" {
      CancelPrefix("merge:", PersonAndMerge(a), PersonAndMerge(b));
      MergeKeyStart(a);
      MergeKeyStart(b);
      var k, l := Lower(a.wcode), Lower(b.wcode);
      if |k| == |l| {
        assert PersonAndMerge(a)[..|k|] == k && PersonAndMerge(b)[..|l|] == l;
        CancelPrefix(k + [':'], MergeKey(a), MergeKey(b));
      } else if |k| < |l| {
        LongerCodeClashes(k, MergeKey(a), l, MergeKey(b));
      } else {
        LongerCodeClashes(l, MergeKey(b), k, MergeKey(a));
      }
    } else {
      CancelPrefix("absence:", a.id, b.id);
    }
  }

  lemma SameKind(a: Absence, b: Absence)
    requires Key(a) == Key(b)
    ensures MergeKey(a) == "" <==> MergeKey(b) == ""
  {
    assert Key(a)[0] == Key(b)[0];
  }

  lemma TrimmedAlready(s: string)
    requires s != "" && !IsSpace(s[0]) && !IsSpace(s[|s| - 1])
    ensures Trim(s) == s
  {}

  function Plain(wcode: string, merge: string): Absence {
    Absence("", wcode, Some(merge), None, Pending, None, None, None, None)
  }

  lemma ClashCollides(x: string, y: string) returns (a: Absence, b: Absence)
    requires PrefixClash(x, y)
    ensures a.wcode == x && b.wcode == y && Collide(a, b)
  {
    var k, l := Lower(x), Lower(y);
    var rest := l[|k| + 1..] + ":m";
    a, b := Plain(x, rest), Plain(y, "m");
    TrimmedAlready(rest);
    TrimmedAlready("m");
    assert l == k + ":" + l[|k| + 1..];
    assert PersonAndMerge(a) == PersonAndMerge(b);
    TogetherByKey(a, b);
  }

  /** Two students' rows can collide if and only if their codes clash that way. */
  lemma CodesCollideExactly(x: string, y: string)
    ensures (exists a: Absence, b: Absence :: a.wcode == x && b.wcode == y && Collide(a, b)) <==> PrefixClash(x, y) || PrefixClash(y, x)
  {
    if a: Absence, b: Absence :| a.wcode == x && b.wcode == y && Collide(a, b) {
      CollisionClashes(a, b);
    }
    if PrefixClash(x, y) {
      var a, b := ClashCollides(x, y);
    } else if PrefixClash(y, x) {
      var b, a := ClashCollides(y, x);
      TogetherByKey(a, b);
      TogetherByKey(b, a);
      assert Collide(a, b);
    }
  }

  // ---- The merged row ----

  function RefId(r: Ref): string { r.id }

  function OrEmpty(s: Option<seq<Ref>>): seq<Ref> {
    if s.Some? then s.value else []
  }

  function MissedOf(a: Absence): seq<Ref> { OrEmpty(a.missedSessions) }
  function SitInsOf(a: Absence): seq<Ref> { OrEmpty(a.sitIns) }
  function ImpactsOf(a: Absence): seq<Ref> { OrEmpty(a.sitInImpacts) }

  /** All refs of a list of absences, in order. */
  function AllRefs(items: seq<Absence>, refs: Absence -> seq<Ref>): seq<Ref> {
    if items == [] then [] else AllRefs(items[..|items| - 1], refs) + refs(items[|items| - 1])
  }

  /** The exact union by id: each id once, in order of first appearance, with
      the last version seen (JsCollections.LatestValue). */
  function UnionById(all: seq<Ref>): seq<Ref> {
    Values(Latest(all, RefId))
  }

  /** No id is lost, none is invented, and none appears twice. */
  lemma UnionIsExact(all: seq<Ref>)
    ensures KeysOf(UnionById(all), RefId) == Firsts(KeysOf(all, RefId))
    ensures forall r :: r in UnionById(all) ==> r in all
  {
    var m := Latest(all, RefId);
    LatestKeys(all, RefId);
    forall i | 0 <= i < |m| ensures UnionById(all)[i] in all && RefId(UnionById(all)[i]) == Keys(m)[i] {
      LatestValue(all, RefId, i);
      var b := Bucket(all, RefId, m[i].key);
      BucketMembers(all, RefId, m[i].key);
      assert b[|b| - 1] in b;
    }
  }

  function FirstName(items: seq<Absence>): string {
    if items == [] then ""
    else if TrimmedOr(items[0].mergeGroupName) != "" then TrimmedOr(items[0].mergeGroupName)
    else FirstName(items[1..])
  }

  function NameOr(name: string, other: Option<string>): Option<string> {
    if name != "" then Some(name) else other
  }

  predicate AnyPending(members: seq<Absence>) {
    members != [] && (AnyPending(members[..|members| - 1]) || members[|members| - 1].status == Pending)
  }

  /** What one row shows for its members. */
  ghost predicate IsMergedRow(item: Absence, members: seq<Absence>)
    requires members != []
  {
    if |members| == 1 then item == members[0]
    else
      var first, name := members[0], FirstName(members);
      && item.id == first.id && item.wcode == first.wcode && item.mergeGroupId == first.mergeGroupId
      && item.status == (if AnyPending(members) then Pending else first.status)
      && item.subjectName == NameOr(name, first.subjectName)
      && item.mergeGroupName == NameOr(name, first.mergeGroupName)
      && item.missedSessions == Some(UnionById(AllRefs(members, MissedOf)))
      && item.sitIns == Some(UnionById(AllRefs(members, SitInsOf)))
      && item.sitInImpacts == Some(UnionById(AllRefs(members, ImpactsOf)))
  }

  lemma {:induction false} AnyPendingMeaning(members: seq<Absence>)
    ensures AnyPending(members) <==> exists a :: a in members && a.status == Pending
  {
    if members != [] {
      AnyPendingMeaning(members[..|members| - 1]);
      assert members == members[..|members| - 1] + [members[|members| - 1]];
    }
  }

  /** A row is pending exactly when one of its members is. */
  lemma RowPendingExactly(item: Absence, members: seq<Absence>)
    requires members != [] && IsMergedRow(item, members)
    ensures item.status == Pending <==> exists a :: a in members && a.status == Pending
  {
    AnyPendingMeaning(members);
    assert members[0] in members;
  }

  predicate HasRef(refs: seq<Ref>, id: string) {
    exists i :: 0 <= i < |refs| && refs[i].id == id
  }

  predicate HasId(s: Option<seq<Ref>>, id: string) {
    s.Some? && HasRef(s.value, id)
  }

  lemma HasRefConcat(a: seq<Ref>, b: seq<Ref>, id: string)
    ensures HasRef(a + b, id) <==> HasRef(a, id) || HasRef(b, id)
  {
    if HasRef(a, id) {
      var i :| 0 <= i < |a| && a[i].id == id;
      assert (a + b)[i] == a[i];
    }
    if HasRef(b, id) {
      var i :| 0 <= i < |b| && b[i].id == id;
      assert (a + b)[|a| + i] == b[i];
    }
  }

  lemma {:induction false} AllRefsHasId(members: seq<Absence>, refs: Absence -> seq<Ref>, id: string)
    ensures HasRef(AllRefs(members, refs), id) <==> exists a :: a in members && HasRef(refs(a), id)
  {
    if members != [] {
      var init, last := members[..|members| - 1], members[|members| - 1];
      AllRefsHasId(init, refs, id);
      HasRefConcat(AllRefs(init, refs), refs(last), id);
      assert members == init + [last];
    }
  }

  lemma UnionHasId(all: seq<Ref>, id: string)
    ensures HasRef(UnionById(all), id) <==> HasRef(all, id)
  {
    UnionIsExact(all);
    var u := UnionById(all);
    if HasRef(u, id) {
      var i :| 0 <= i < |u| && u[i].id == id;
      assert u[i] in u && u[i] in all;
      var n :| 0 <= n < |all| && all[n] == u[i];
    }
    if HasRef(all, id) {
      var n :| 0 <= n < |all| && all[n].id == id;
      assert KeysOf(all, RefId)[n] == id;
      assert id in Firsts(KeysOf(all, RefId));
      var i :| 0 <= i < |KeysOf(u, RefId)| && KeysOf(u, RefId)[i] == id;
      assert u[i].id == id;
    }
  }

  /** The row of several absences lists a missed session, a make-up or an impact
      exactly when one of them has it, and each id once. */
  lemma RowListsExactly(item: Absence, members: seq<Absence>, id: string)
    requires |members| >= 2 && IsMergedRow(item, members)
    ensures HasId(item.missedSessions, id) <==> exists a :: a in members && HasId(a.missedSessions, id)
    ensures HasId(item.sitIns, id) <==> exists a :: a in members && HasId(a.sitIns, id)
    ensures HasId(item.sitInImpacts, id) <==> exists a :: a in members && HasId(a.sitInImpacts, id)
    ensures Distinct(KeysOf(item.missedSessions.value, RefId)) && Distinct(KeysOf(item.sitIns.value, RefId))
    ensures Distinct(KeysOf(item.sitInImpacts.value, RefId))
  {
    UnionHasId(AllRefs(members, MissedOf), id);
    UnionHasId(AllRefs(members, SitInsOf), id);
    UnionHasId(AllRefs(members, ImpactsOf), id);
    AllRefsHasId(members, MissedOf, id);
    AllRefsHasId(members, SitInsOf, id);
    AllRefsHasId(members, ImpactsOf, id);
    UnionIsExact(AllRefs(members, MissedOf));
    UnionIsExact(AllRefs(members, SitInsOf));
    UnionIsExact(AllRefs(members, ImpactsOf));
  }

  /** The row of several absences goes by the first merged name among them that is
      not blank, trimmed, and by the first absence's names when there is none. */
  lemma {:induction false} FirstNameExactly(members: seq<Absence>, i: nat)
    requires i <= |members| && forall j :: 0 <= j < i ==> !NotBlank(members[j].mergeGroupName)
    ensures i < |members| && NotBlank(members[i].mergeGroupName) ==> FirstName(members) == Trim(members[i].mergeGroupName.value)
    ensures i == |members| ==> FirstName(members) == ""
  {
    if i > 0 {
      assert forall j :: 0 <= j < i - 1 ==> members[1..][j] == members[j + 1];
      FirstNameExactly(members[1..], i - 1);
    }
  }

  /** A row goes by the id, student and group of its first absence, and a row of one
      absence is that absence. */
  lemma RowIsOfFirst(item: Absence, members: seq<Absence>)
    requires members != [] && IsMergedRow(item, members)
    ensures item.id == members[0].id && item.wcode == members[0].wcode && item.mergeGroupId == members[0].mergeGroupId
    ensures |members| == 1 ==> item == members[0]
    ensures item.status == members[0].status || item.status == Pending
  {}

  lemma RowNameExactly(item: Absence, members: seq<Absence>, i: nat)
    requires |members| >= 2 && IsMergedRow(item, members)
    requires i <= |members| && forall j :: 0 <= j < i ==> !NotBlank(members[j].mergeGroupName)
    ensures i < |members| && NotBlank(members[i].mergeGroupName) ==>
      item.subjectName == item.mergeGroupName == Some(Trim(members[i].mergeGroupName.value))
    ensures i == |members| ==>
      item.subjectName == members[0].subjectName && item.mergeGroupName == members[0].mergeGroupName
  {
    FirstNameExactly(members, i);
  }

  method AddAll(m: JsMap<string, Ref>, ghost before: seq<Ref>, refs: seq<Ref>) returns (r: JsMap<string, Ref>)
    requires m == Latest(before, RefId)
    ensures r == Latest(before + refs, RefId)
  {
    r := m;
    assert before + refs[..0] == before;
    for n := 0 to |refs|
      invariant r == Latest(before + refs[..n], RefId)
    {
      ghost var next := before + refs[..n + 1];
      assert next[..|next| - 1] == before + refs[..n];
      r := Put(r, refs[n].id, refs[n]);
    }
    assert refs[..|refs|] == refs;
  }

  method MergeRefs(members: seq<Absence>, refs: Absence -> seq<Ref>) returns (m: JsMap<string, Ref>)
    ensures m == Latest(AllRefs(members, refs), RefId)
  {
    m := [];
    for n := 0 to |members|
      invariant m == Latest(AllRefs(members[..n], refs), RefId)
    {
      assert members[..n + 1][..n] == members[..n];
      m := AddAll(m, AllRefs(members[..n], refs), refs(members[n]));
    }
    assert members[..|members|] == members;
  }

  method MergeRow(members: seq<Absence>) returns (item: Absence)
    requires members != []
    ensures IsMergedRow(item, members)
  {
    var first := members[0];
    if |members| == 1 { return first; }
    var missedSessions := MergeRefs(members, MissedOf);
    var sitInSessions := MergeRefs(members, SitInsOf);
    var impacts := MergeRefs(members, ImpactsOf);
    var name := FirstName(members);
    item := first.(status := if AnyPending(members) then Pending else first.status,
                   subjectName := NameOr(name, first.subjectName),
                   mergeGroupName := NameOr(name, first.mergeGroupName),
                   missedSessions := Some(Values(missedSessions)),
                   sitIns := Some(Values(sitInSessions)),
                   sitInImpacts := Some(Values(impacts)));
  }

  // ---- The grouping ----

  function ItemsOf(groups: seq<InboxGroup>): seq<seq<Absence>> {
    seq(|groups|, i requires 0 <= i < |groups| => groups[i].items)
  }

  ghost predicate IsInboxGrouping(items: seq<Absence>, groups: seq<InboxGroup>) {
    && |groups| == |Firsts(KeysOf(items, Key))|
    && forall i :: 0 <= i < |groups| ==>
         && groups[i].key == Firsts(KeysOf(items, Key))[i]
         && groups[i].items == Bucket(items, Key, groups[i].key)
         && groups[i].items != []
         && IsMergedRow(groups[i].item, groups[i].items)
  }

  lemma GroupHasMembers(items: seq<Absence>, k: string)
    requires k in Firsts(KeysOf(items, Key))
    ensures Bucket(items, Key, k) != []
  {
    BucketMembers(items, Key, k);
    assert k in KeysOf(items, Key);
    var n :| 0 <= n < |items| && KeysOf(items, Key)[n] == k;
    assert items[n] in Bucket(items, Key, k);
  }

  ghost predicate IsRowOf(g: InboxGroup, e: Entry<string, seq<Absence>>) {
    g.key == e.key && g.items == e.value && g.items != [] && IsMergedRow(g.item, g.items)
  }

  ghost predicate AreRowsOf(groups: seq<InboxGroup>, entries: JsMap<string, seq<Absence>>) {
    |groups| == |entries| && forall i :: 0 <= i < |groups| ==> IsRowOf(groups[i], entries[i])
  }

  lemma RowsSnoc(groups: seq<InboxGroup>, entries: JsMap<string, seq<Absence>>, g: InboxGroup, e: Entry<string, seq<Absence>>)
    requires AreRowsOf(groups, entries) && IsRowOf(g, e)
    ensures AreRowsOf(groups + [g], entries + [e])
  {}

  lemma RowsFormGrouping(items: seq<Absence>, groups: seq<InboxGroup>)
    requires AreRowsOf(groups, Grouped(items, Key))
    ensures IsInboxGrouping(items, groups)
  {
    forall i | 0 <= i < |groups|
      ensures groups[i].key == Firsts(KeysOf(items, Key))[i] && groups[i].items == Bucket(items, Key, groups[i].key)
    {
      assert IsRowOf(groups[i], Grouped(items, Key)[i]);
    }
  }

  ghost predicate NoneEmpty(entries: JsMap<string, seq<Absence>>) {
    forall i :: 0 <= i < |entries| ==> entries[i].value != []
  }

  method MergeRows(entries: JsMap<string, seq<Absence>>) returns (groups: seq<InboxGroup>)
    requires NoneEmpty(entries)
    ensures AreRowsOf(groups, entries)
  {
    groups := [];
    for n := 0 to |entries|
      invariant AreRowsOf(groups, entries[..n])
    {
      var row := MergeRow(entries[n].value);
      var g := InboxGroup(entries[n].key, row, entries[n].value);
      RowsSnoc(groups, entries[..n], g, entries[n]);
      assert entries[..n + 1] == entries[..n] + [entries[n]];
      groups := groups + [g];
    }
    assert entries[..|entries|] == entries;
  }

  method GroupInboxAbsences(items: seq<Absence>) returns (groups: seq<InboxGroup>)
    ensures IsInboxGrouping(items, groups)
  {
    var entries := GroupItems(items, Key);
    forall n | 0 <= n < |entries| ensures entries[n].value != [] {
      GroupHasMembers(items, entries[n].key);
    }
    groups := MergeRows(entries);
    RowsFormGrouping(items, groups);
  }

  /** Two absences share a row exactly when they belong together. */
  lemma ShareARowExactly(items: seq<Absence>, groups: seq<InboxGroup>, a: Absence, b: Absence)
    requires IsInboxGrouping(items, groups) && a in items && b in items
    requires ':' !in a.wcode && ':' !in b.wcode
    ensures (exists g :: g in groups && a in g.items && b in g.items) <==> BelongTogether(a, b)
  {
    KeyIsExact(a, b);
    forall g | g in groups ensures forall x :: x in g.items <==> x in items && Key(x) == g.key {
      BucketMembers(items, Key, g.key);
    }
    if Key(a) == Key(b) {
      var n :| 0 <= n < |items| && items[n] == a;
      assert KeysOf(items, Key)[n] == Key(a);
      assert Key(a) in Firsts(KeysOf(items, Key));
      var i :| 0 <= i < |groups| && Firsts(KeysOf(items, Key))[i] == Key(a);
      assert groups[i] in groups;
    }
  }

  /** The rows are a partition of the inbox: together they hold every absence
      exactly as often as the inbox does. */
  lemma RowsArePartition(items: seq<Absence>, groups: seq<InboxGroup>)
    requires IsInboxGrouping(items, groups)
    ensures multiset(Flatten(ItemsOf(groups))) == multiset(items)
    ensures forall i, j :: 0 <= i < j < |groups| ==> (forall x :: x in groups[i].items ==> x !in groups[j].items)
  {
    GroupedKeepsAll(items, Key);
    assert ItemsOf(groups) == Values(Grouped(items, Key));
    forall i, j | 0 <= i < j < |groups| ensures (forall x :: x in groups[i].items ==> x !in groups[j].items) {
      BucketMembers(items, Key, groups[i].key);
      BucketMembers(items, Key, groups[j].key);
    }
  }

  /** The header checkbox over rows equals the plain test over absences. */
  lemma SelectAllMatches(items: seq<Absence>, groups: seq<InboxGroup>, selected: set<string>)
    requires IsInboxGrouping(items, groups)
    ensures (groups != [] && forall g :: g in groups ==> forall a :: a in g.items ==> a.id in selected)
            <==> (items != [] && forall a :: a in items ==> a.id in selected)
  {
    assert |KeysOf(items, Key)| == |items|;
    forall g | g in groups ensures forall x :: x in g.items <==> x in items && Key(x) == g.key {
      BucketMembers(items, Key, g.key);
    }
    forall a | a in items ensures exists g :: g in groups && a in g.items {
      var n :| 0 <= n < |items| && items[n] == a;
      assert KeysOf(items, Key)[n] == Key(a);
      assert Key(a) in Firsts(KeysOf(items, Key));
      var i :| 0 <= i < |groups| && Firsts(KeysOf(items, Key))[i] == Key(a);
      assert groups[i] in groups;
    }
    if groups != [] {
      assert groups[0] in groups && groups[0].items[0] in groups[0].items;
    }
  }

  // ---- Selecting rows ----

  datatype Tick = TickRow(row: nat, checked: bool) | TickAll(checked: bool)

  function IdsOf(items: seq<Absence>): set<string> {
    set a | a in items :: a.id
  }

  function AfterTick(items: seq<Absence>, groups: seq<InboxGroup>, selected: set<string>, t: Tick): set<string> {
    match t
    case TickRow(row, checked) =>
      if row >= |groups| then selected
      else if checked then selected + IdsOf(groups[row].items)
      else selected - IdsOf(groups[row].items)
    case TickAll(checked) => if checked then IdsOf(items) else {}
  }

  function AfterTicks(items: seq<Absence>, groups: seq<InboxGroup>, ticks: seq<Tick>): set<string> {
    if ticks == [] then {}
    else AfterTick(items, groups, AfterTicks(items, groups, ticks[..|ticks| - 1]), ticks[|ticks| - 1])
  }

  class AbsenceInbox {
    var selected: set<string>

    constructor ()
      ensures selected == {}
    {
      selected := {};
    }

    method TickGroup(items: seq<Absence>, groups: seq<InboxGroup>, row: nat, checked: bool)
      requires row < |groups|
      modifies this
      ensures selected == AfterTick(items, groups, old(selected), TickRow(row, checked))
    {
      var members := groups[row].items;
      var next := selected;
      for n := 0 to |members|
        invariant next == if checked then selected + IdsOf(members[..n]) else selected - IdsOf(members[..n])
      {
        assert members[..n + 1] == members[..n] + [members[n]];
        next := if checked then next + {members[n].id} else next - {members[n].id};
      }
      assert members[..|members|] == members;
      selected := next;
    }

    method TickEverything(items: seq<Absence>, groups: seq<InboxGroup>, checked: bool)
      modifies this
      ensures selected == AfterTick(items, groups, old(selected), TickAll(checked))
    {
      selected := if checked then set a | a in items :: a.id else {};
    }
  }

  /** Ticking a row selects its absences besides what was selected, unticking it
      takes out those alone; the header selects all absences or none. */
  lemma TickExactly(items: seq<Absence>, groups: seq<InboxGroup>, selected: set<string>, row: nat, id: string)
    requires row < |groups|
    ensures var inRow := exists a :: a in groups[row].items && a.id == id;
      && (id in AfterTick(items, groups, selected, TickRow(row, true)) <==> id in selected || inRow)
      && (id in AfterTick(items, groups, selected, TickRow(row, false)) <==> id in selected && !inRow)
    ensures id in AfterTick(items, groups, selected, TickAll(true)) <==> exists a :: a in items && a.id == id
    ensures AfterTick(items, groups, selected, TickAll(false)) == {}
  {}

  /** Each row is selected as a whole or not at all. */
  ghost predicate RowsWhole(groups: seq<InboxGroup>, selected: set<string>) {
    forall i :: 0 <= i < |groups| ==>
      IdsOf(groups[i].items) <= selected || IdsOf(groups[i].items) !! selected
  }

  ghost predicate UniqueIds(items: seq<Absence>) {
    forall a, b :: a in items && b in items && a.id == b.id ==> a == b
  }

  lemma RowsShareNoIds(items: seq<Absence>, groups: seq<InboxGroup>, i: nat, j: nat)
    requires IsInboxGrouping(items, groups) && UniqueIds(items) && i < |groups| && j < |groups| && i != j
    ensures IdsOf(groups[i].items) !! IdsOf(groups[j].items)
  {
    BucketMembers(items, Key, groups[i].key);
    BucketMembers(items, Key, groups[j].key);
  }

  lemma RowWithinInbox(items: seq<Absence>, groups: seq<InboxGroup>, i: nat)
    requires IsInboxGrouping(items, groups) && i < |groups|
    ensures IdsOf(groups[i].items) <= IdsOf(items)
  {
    BucketMembers(items, Key, groups[i].key);
  }

  /** Any run of row and header ticks selects whole rows only, so the rows counted
      as selected are exactly the rows shown ticked. */
  lemma {:induction false} TicksSelectWholeRows(items: seq<Absence>, groups: seq<InboxGroup>, ticks: seq<Tick>)
    requires IsInboxGrouping(items, groups) && UniqueIds(items)
    ensures RowsWhole(groups, AfterTicks(items, groups, ticks))
  {
    if ticks != [] {
      var init, t := ticks[..|ticks| - 1], ticks[|ticks| - 1];
      TicksSelectWholeRows(items, groups, init);
      var before, after := AfterTicks(items, groups, init), AfterTicks(items, groups, ticks);
      forall i | 0 <= i < |groups| ensures IdsOf(groups[i].items) <= after || IdsOf(groups[i].items) !! after {
        RowWithinInbox(items, groups, i);
        if t.TickRow? && t.row < |groups| && i != t.row { RowsShareNoIds(items, groups, i, t.row); }
      }
    }
  }
}
