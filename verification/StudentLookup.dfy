/** Finding the student on the absence form: searches, edits and late answers
    (AbsenceForm.handleLookup and its neighbours, studentIdentity). */
module StudentLookup {
  import opened JsCollections
  import opened Text

  // ---- Student codes ----

  function Normal(input: string): string {
    var t := Trim(input);
    if t == "" then "" else if LowerChar(t[0]) == 'w' then ['W'] + t[1..] else t
  }

  predicate IsLineEnd(c: char) {
    c == '\n' || c == '\r' || c == '\U{2028}' || c == '\U{2029}'
  }

  predicate IsWCode(input: string) {
    var t := Trim(input);
    |t| >= 2 && LowerChar(t[0]) == 'w' && forall i :: 1 <= i < |t| ==> !IsLineEnd(t[i])
  }

  /** How the form compares a typed id with a found one. */
  function Fold(s: string): string {
    Lower(Trim(s))
  }

  lemma TrimOfTrimmed(s: string)
    requires s != [] ==> !IsSpace(s[0]) && !IsSpace(s[|s| - 1])
    ensures Trim(s) == s
  {}

  lemma TrimIsTrimmed(s: string)
    ensures var t := Trim(s); t != [] ==> !IsSpace(t[0]) && !IsSpace(t[|t| - 1])
  {
    var t := Trim(s);
    assert t != [] ==> t[0] == TrimStart(s)[0];
  }

  lemma NormalIsTrimmed(s: string)
    ensures Trim(Normal(s)) == Normal(s)
  {
    TrimIsTrimmed(s);
    var t := Trim(s);
    if t != "" && LowerChar(t[0]) == 'w' && |t| > 1 {
      assert Normal(s)[|t| - 1] == t[|t| - 1];
    }
    TrimOfTrimmed(Normal(s));
  }

  lemma NormalIdempotent(s: string)
    ensures Normal(Normal(s)) == Normal(s)
  {
    NormalIsTrimmed(s);
  }

  /** Normalising keeps what the form compares. */
  lemma NormalKeepsFold(s: string)
    ensures Fold(Normal(s)) == Fold(s)
  {
    NormalIsTrimmed(s);
    var t := Trim(s);
    if t != "" && LowerChar(t[0]) == 'w' {
      assert t == [t[0]] + t[1..];
      assert Lower(t) == Lower(Normal(s));
    }
  }

  lemma SameNormalSameFold(a: string, b: string)
    requires Normal(a) == Normal(b)
    ensures Fold(a) == Fold(b)
  {
    NormalKeepsFold(a);
    NormalKeepsFold(b);
  }

  // ---- The form ----

  /** A lookup request; `resumed` is the one sent when the page opens. */
  datatype Request = Request(id: nat, query: string, resumed: bool)

  datatype Found = Found(wcode: string, request: nat)

  datatype Form = Form(input: string, lookup: Option<Found>, requestId: nat, loading: bool)

  datatype World = World(form: Form, inFlight: set<Request>)

  datatype Step =
    | Type(next: string)
    | Search
    | ChangeStudent
    | Answer(request: Request, wcode: Option<string>)

  function Resume(wcode: Option<string>): World {
    if wcode.None? then World(Form("", None, 0, false), {})
    else World(Form(wcode.value, None, 1, true), {Request(1, wcode.value, true)})
  }

  function Typed(f: Form, next: string): Form {
    if f.loading && Normal(next) != Normal(f.input) then f.(input := next, requestId := f.requestId + 1, loading := false)
    else f.(input := next)
  }

  function SearchFor(f: Form): (Form, Option<Request>) {
    var id, cleaned := f.requestId + 1, Normal(f.input);
    if cleaned == "" || !IsWCode(cleaned) then (f.(lookup := None, requestId := id, loading := false), None)
    else (f.(lookup := None, requestId := id, loading := true), Some(Request(id, cleaned, false)))
  }

  function Changed(f: Form): Form {
    f.(lookup := None, requestId := f.requestId + 1, loading := false)
  }

  function Answered(f: Form, r: Request, wcode: Option<string>): Form {
    if r.id != f.requestId then f
    else if wcode.None? then f.(loading := false)
    else f.(lookup := Some(Found(wcode.value, r.id)), loading := false,
            input := if r.resumed then f.input else r.query)
  }

  function Next(w: World, s: Step): World {
    match s
    case Type(next) => w.(form := Typed(w.form, next))
    case Search =>
      var (form, sent) := SearchFor(w.form);
      World(form, if sent.Some? then w.inFlight + {sent.value} else w.inFlight)
    case ChangeStudent => w.(form := Changed(w.form))
    case Answer(r, wcode) =>
      if r in w.inFlight then World(Answered(w.form, r, wcode), w.inFlight - {r}) else w
  }

  function Run(w: World, steps: seq<Step>): World {
    if steps == [] then w else Next(Run(w, steps[..|steps| - 1]), steps[|steps| - 1])
  }

  /** The student the form can go on with: a result for the id now typed. */
  function CurrentLookup(f: Form): Option<Found> {
    if f.lookup.Some? && Fold(f.input) == Fold(f.lookup.value.wcode) then f.lookup else None
  }

  class AbsenceForm {
    var lookupInput: string
    var lookup: Option<Found>
    var lookupRequestId: nat
    var lookupLoading: bool

    ghost function State(): Form
      reads this
    {
      Form(lookupInput, lookup, lookupRequestId, lookupLoading)
    }

    constructor (resumeWcode: Option<string>)
      ensures State() == Resume(resumeWcode).form
    {
      lookupInput := if resumeWcode.Some? then resumeWcode.value else "";
      lookup := None;
      lookupRequestId := if resumeWcode.Some? then 1 else 0;
      lookupLoading := resumeWcode.Some?;
    }

    method OnInput(next: string)
      modifies this
      ensures State() == Typed(old(State()), next)
    {
      if lookupLoading && Normal(next) != Normal(lookupInput) {
        lookupRequestId := lookupRequestId + 1;
        lookupLoading := false;
      }
      lookupInput := next;
    }

    method HandleLookup() returns (sent: Option<Request>)
      modifies this
      ensures (State(), sent) == SearchFor(old(State()))
    {
      lookupRequestId := lookupRequestId + 1;
      var cleaned := Normal(lookupInput);
      lookup := None;
      if cleaned == "" || !IsWCode(cleaned) {
        lookupLoading := false;
        return None;
      }
      lookupLoading := true;
      return Some(Request(lookupRequestId, cleaned, false));
    }

    method OnAnswer(r: Request, wcode: Option<string>)
      modifies this
      ensures State() == Answered(old(State()), r, wcode)
    {
      if r.id != lookupRequestId { return; }
      if wcode.Some? {
        lookup := Some(Found(wcode.value, r.id));
        if !r.resumed { lookupInput := r.query; }
      }
      lookupLoading := false;
    }

    method HandleChangeStudent()
      modifies this
      ensures State() == Changed(old(State()))
    {
      lookupRequestId := lookupRequestId + 1;
      lookup := None;
      lookupLoading := false;
    }
  }

  // ---- What one handler does ----

  /** Typing shows what is typed and keeps the result found. A search under way goes
      on exactly while the text stands for the same id, and its answer is ignored
      from then on. */
  lemma TypingExactly(w: World, next: string)
    ensures var f, g := w.form, Next(w, Type(next)).form;
      && g.input == next && g.lookup == f.lookup && Next(w, Type(next)).inFlight == w.inFlight
      && (g.loading <==> f.loading && Normal(next) == Normal(f.input))
      && (g.requestId == f.requestId <==> !f.loading || Normal(next) == Normal(f.input))
      && g.requestId >= f.requestId
  {}

  /** Changing the student keeps the text, drops the result and gives the search up. */
  lemma ChangeExactly(w: World)
    ensures var v := Next(w, ChangeStudent);
      && v.form.input == w.form.input && v.form.lookup == None && !v.form.loading
      && v.form.requestId > w.form.requestId && v.inFlight == w.inFlight
  {}

  /** The newest answer ends the search; a student found is kept as the result, and
      the text becomes the id asked for unless the page asked on its own. */
  lemma AnswerExactly(w: World, r: Request, wcode: Option<string>)
    requires r in w.inFlight && r.id == w.form.requestId
    ensures var f := Next(w, Answer(r, wcode)).form;
      && !f.loading && f.requestId == w.form.requestId
      && (wcode.None? ==> f.lookup == w.form.lookup && f.input == w.form.input)
      && (wcode.Some? ==>
            && f.lookup == Some(Found(wcode.value, r.id))
            && (r.resumed ==> f.input == w.form.input) && (!r.resumed ==> f.input == r.query))
  {}

  /** A page that opens with an id searches for it at once, and otherwise is empty. */
  lemma ResumeExactly(wcode: Option<string>)
    ensures var w := Resume(wcode);
      && w.form.lookup == None
      && (wcode.None? ==> w.form.input == "" && !w.form.loading && w.inFlight == {})
      && (wcode.Some? ==> w.form.input == wcode.value && w.form.loading
                          && w.inFlight == {Request(w.form.requestId, wcode.value, true)})
  {}

  // ---- The newest lookup wins ----

  ghost predicate NewestInFlight(w: World) {
    exists r :: r in w.inFlight && r.id == w.form.requestId
  }

  ghost predicate Inv(w: World) {
    && (forall r :: r in w.inFlight ==> r.id <= w.form.requestId)
    && (forall r, s :: r in w.inFlight && s in w.inFlight && r.id == s.id ==> r == s)
    && (w.form.loading <==> NewestInFlight(w))
    && (w.form.lookup.Some? ==> !w.form.loading && w.form.lookup.value.request == w.form.requestId)
    && (forall r :: r in w.inFlight && r.id == w.form.requestId ==> Normal(w.form.input) == Normal(r.query))
  }

  lemma SearchKeeps(w: World)
    requires Inv(w)
    ensures Inv(Next(w, Search))
  {
    var (form, sent) := SearchFor(w.form);
    NormalIdempotent(w.form.input);
    if sent.Some? {
      assert sent.value in Next(w, Search).inFlight;
    }
  }

  lemma AnswerKeeps(w: World, r: Request, wcode: Option<string>)
    requires Inv(w) && r in w.inFlight
    ensures Inv(Next(w, Answer(r, wcode)))
  {
    var v := Next(w, Answer(r, wcode));
    if r.id == w.form.requestId {
      forall s | s in v.inFlight ensures s.id != v.form.requestId {
        assert s in w.inFlight;
      }
    } else if NewestInFlight(w) {
      var s :| s in w.inFlight && s.id == w.form.requestId;
      assert s in v.inFlight;
    }
  }

  lemma StepKeeps(w: World, s: Step)
    requires Inv(w)
    ensures Inv(Next(w, s))
  {
    match s
    case Type(_) =>
      if NewestInFlight(w) {
        var r :| r in w.inFlight && r.id == w.form.requestId;
        assert r in Next(w, s).inFlight;
      }
    case Search => SearchKeeps(w);
    case ChangeStudent =>
    case Answer(r, wcode) => if r in w.inFlight { AnswerKeeps(w, r, wcode); }
  }

  lemma ResumeHolds(wcode: Option<string>)
    ensures Inv(Resume(wcode))
  {
    if wcode.Some? {
      assert Request(1, wcode.value, true) in Resume(wcode).inFlight;
    }
  }

  /** Over all interleavings of searches, edits, changes of student and late
      answers: the stored lookup is never from an older request, the form shows
      itself loading exactly while the newest request is in flight, and that
      request is for the id now typed. */
  lemma {:induction false} NewestLookupWins(resume: Option<string>, steps: seq<Step>)
    ensures Inv(Run(Resume(resume), steps))
  {
    if steps == [] {
      ResumeHolds(resume);
    } else {
      NewestLookupWins(resume, steps[..|steps| - 1]);
      StepKeeps(Run(Resume(resume), steps[..|steps| - 1]), steps[|steps| - 1]);
    }
  }

  /** Any other answer changes nothing. */
  lemma LateAnswerIsIgnored(resume: Option<string>, steps: seq<Step>, r: Request, wcode: Option<string>)
    requires var w := Run(Resume(resume), steps); r in w.inFlight && (r.id != w.form.requestId || !w.form.loading)
    ensures Next(Run(Resume(resume), steps), Answer(r, wcode)).form == Run(Resume(resume), steps).form
  {
    NewestLookupWins(resume, steps);
  }

  lemma NewestAnswerDecides(w: World, r: Request, wcode: string)
    requires Inv(w) && r in w.inFlight && r.id == w.form.requestId
    ensures var f := Next(w, Answer(r, Some(wcode))).form;
      !f.loading && (CurrentLookup(f) == Some(Found(wcode, r.id)) <==> Fold(wcode) == Fold(r.query))
  {
    SameNormalSameFold(w.form.input, r.query);
  }

  /** After the newest request is answered the form can go on exactly when the
      student found has the id asked for, whatever was typed meanwhile. */
  lemma AnswerDecides(resume: Option<string>, steps: seq<Step>, r: Request, wcode: string)
    requires var w := Run(Resume(resume), steps); r in w.inFlight && r.id == w.form.requestId
    ensures var f := Next(Run(Resume(resume), steps), Answer(r, Some(wcode))).form;
      !f.loading && (CurrentLookup(f) == Some(Found(wcode, r.id)) <==> Fold(wcode) == Fold(r.query))
  {
    NewestLookupWins(resume, steps);
    NewestAnswerDecides(Run(Resume(resume), steps), r, wcode);
  }

  /** Whoever the form goes on with answers the newest request and has the id
      now typed, at every point of every run. */
  lemma ProceedsWithTypedStudent(resume: Option<string>, steps: seq<Step>)
    ensures var f := Run(Resume(resume), steps).form;
      CurrentLookup(f).Some? ==>
        !f.loading && CurrentLookup(f).value.request == f.requestId && Fold(CurrentLookup(f).value.wcode) == Fold(f.input)
  {
    NewestLookupWins(resume, steps);
  }

  /** A trimmed text that begins with w or W and goes on on the same line. */
  predicate LooksLikeWCode(t: string) {
    && |t| >= 2 && t[0] in {'w', 'W'}
    && '\n' !in t && '\r' !in t && '\U{2028}' !in t && '\U{2029}' !in t
  }

  lemma WCodeOfNormalExactly(s: string)
    ensures IsWCode(Normal(s)) <==> LooksLikeWCode(Trim(s))
  {
    NormalIsTrimmed(s);
    var t, u := Trim(s), Normal(s);
    if t != "" {
      assert forall i :: 1 <= i < |t| ==> u[i] == t[i];
      assert LowerChar(t[0]) == 'w' <==> t[0] in {'w', 'W'};
    }
  }

  /** W and any number of digits, but at least one, is asked for with the capital,
      whatever blanks are typed around it. */
  lemma DigitsAreAsked(f: Form, digits: string)
    requires Trim(f.input) in {"w" + digits, "W" + digits}
    requires digits != "" && forall c :: c in digits ==> '0' <= c <= '9'
    ensures SearchFor(f).1 == Some(Request(f.requestId + 1, "W" + digits, false))
  {
    var t := Trim(f.input);
    assert t[1..] == digits && t[0] in {'w', 'W'};
    forall c | c in t ensures c in {'w', 'W'} || '0' <= c <= '9' {
      var i :| 0 <= i < |t| && t[i] == c;
      assert i > 0 ==> c == digits[i - 1] && c in digits;
    }
    assert LooksLikeWCode(t);
    WCodeOfNormalExactly(f.input);
    assert Normal(f.input) == "W" + digits;
  }

  /** A search asks exactly for what is a student code, and clears the result. */
  lemma SearchAsks(w: World) returns (sent: Option<Request>)
    requires Inv(w)
    ensures sent.Some? <==> LooksLikeWCode(Trim(w.form.input))
    ensures Inv(Next(w, Search)) && Next(w, Search).form.lookup.None?
    ensures sent.Some? ==>
      && sent.value in Next(w, Search).inFlight && sent.value.id == Next(w, Search).form.requestId
      && Fold(sent.value.query) == Fold(w.form.input)
  {
    sent := SearchFor(w.form).1;
    WCodeOfNormalExactly(w.form.input);
    SearchKeeps(w);
    NormalKeepsFold(w.form.input);
  }

  /** A search that is answered lets the form go on exactly when the student
      found has the typed id. */
  lemma SearchFinds(w: World, wcode: string) returns (r: Request)
    requires Inv(w) && LooksLikeWCode(Trim(w.form.input))
    ensures var f := Next(Next(w, Search), Answer(r, Some(wcode))).form;
      CurrentLookup(f) == Some(Found(wcode, r.id)) <==> Fold(wcode) == Fold(w.form.input)
  {
    var sent := SearchAsks(w);
    r := sent.value;
    NewestAnswerDecides(Next(w, Search), r, wcode);
  }
}
