/** Retry-safe submission of an absence form over a network that loses, delays
    and repeats messages (AbsenceForm.handleSubmitAbsence, submitAbsenceBatch,
    the batch route and the verified session it burns). */
module AbsenceSubmission {
  import opened JsCollections
  import opened IdempotentServer

  /** A batch: the student, an optional trimmed nickname, the make-up classes it
      books, the rest. */
  datatype Body = Body(student: string, nickname: Option<string>, sitIns: set<string>, content: string)

  const BAD_NICKNAME := "bad_nickname"
  const UNAUTHORIZED := "unauthorized"
  const MAX_NICKNAME := 50

  // ---- The server ----

  /** An error the mutation checks for before or after nickname and make-ups. */
  type OtherCode = c: string | c != BAD_NICKNAME witness "bad_request"

  /** What else befalls a request: its session expired, or another check fails. */
  datatype Check = LoggedOut | RefuseFirst(code: OtherCode) | RefuseLater(code: OtherCode) | Pass

  /** `burned` names for each record the verification it burned (none for staff).
      A verification belongs to a student, a session to a verification. */
  datatype Server = Server(
    log: seq<Logged<Body>>, burned: seq<Option<nat>>, named: set<string>, booked: set<(string, string)>,
    owners: seq<string>, sessions: seq<nat>, consumed: set<nat>, revoked: set<nat>)

  predicate WellFormed(nickname: string) {
    |nickname| <= MAX_NICKNAME && '\n' !in nickname && '\r' !in nickname && '\t' !in nickname
  }

  /** A nickname may only fill an empty record. */
  predicate Barred(b: Body, named: set<string>) {
    b.nickname.Some? && (b.student in named || !WellFormed(b.nickname.value))
  }

  /** A make-up the student already uses cannot be booked again. */
  predicate Taken(b: Body, booked: set<(string, string)>) {
    exists c :: c in b.sitIns && (b.student, c) in booked
  }

  /** A request carries the session of its cookie; staff requests carry none. */
  predicate Live(s: Server, session: Option<nat>) {
    session.None? || (session.value < |s.sessions| && session.value !in s.revoked)
  }

  function VerificationOf(s: Server, session: Option<nat>): Option<nat> {
    if session.Some? && session.value < |s.sessions| then Some(s.sessions[session.value]) else None
  }

  predicate Consumed(s: Server, session: Option<nat>) {
    VerificationOf(s, session).Some? && VerificationOf(s, session).value in s.consumed
  }

  function Combined(s: Server, session: Option<nat>, b: Body, c: Check): Verdict {
    if c.LoggedOut? || !Live(s, session) then Unauthorized
    else if c.RefuseFirst? then Refuse(c.code)
    else if Barred(b, s.named) then Refuse(BAD_NICKNAME)
    else if Taken(b, s.booked) then Refuse("sit_in_session_already_used")
    else if c.RefuseLater? then Refuse(c.code)
    else if Consumed(s, session) then Refuse("internal")
    else Admit
  }

  /** A record burns the verification and the session it came with. */
  function Record(s: Server, key: nat, session: Option<nat>, b: Body): Server {
    var v := VerificationOf(s, session);
    s.(log := s.log + [Logged(key, b)], burned := s.burned + [v],
       named := if b.nickname.Some? then s.named + {b.student} else s.named,
       booked := s.booked + (set c | c in b.sitIns :: (b.student, c)),
       consumed := if v.Some? then s.consumed + {v.value} else s.consumed,
       revoked := if session.Some? then s.revoked + {session.value} else s.revoked)
  }

  predicate Records(s: Server, key: nat, session: Option<nat>, b: Body, c: Check) {
    Combined(s, session, b, c).Admit? && Find(s.log, key).None?
  }

  function Answer(s: Server, key: nat, session: Option<nat>, b: Body, c: Check): Reply<Body> {
    Handle(s.log, key, b, Combined(s, session, b, c)).reply
  }

  // ---- The form ----

  datatype Phase =
    | Idle
    | Waiting(request: nat, body: Body, retryLeft: bool, second: bool)
    | Done(body: Body)

  /** `cookie` is the browser's session, `verified` whether the form takes it as
      good for the student looked up. */
  datatype Page = Page(
    staff: bool, student: Option<string>, key: nat, cookie: Option<nat>, verified: bool, phase: Phase)

  datatype Event =
    | LookupDone(student: string)
    | Verified(session: nat)
    | SessionExpired
    | Submit(nickname: Option<string>, sitIns: set<string>, content: string)
    | NetworkFailed
    | Answered(request: nat, reply: Reply<Body>)

  /** The page after an event and the body to send under its key, if any. */
  datatype Reaction = Reaction(page: Page, send: Option<Body>)

  predicate Rotates(p: Page, e: Event) {
    && e.Answered? && p.phase.Waiting? && p.phase.request == e.request
    && e.reply == Rejected(BAD_NICKNAME) && !p.staff && !p.phase.second
  }

  function SessionOf(p: Page): Option<nat> {
    if p.staff then None else p.cookie
  }

  predicate MaySubmit(p: Page) {
    p.phase.Idle? && p.student.Some? && (p.staff || p.verified)
  }

  /** `request` numbers the next message, `newKey` is the next unused key. While
      an answer is awaited only the session's expiry can change the form besides. */
  function React(p: Page, e: Event, request: nat, newKey: nat): Reaction {
    match e
    case LookupDone(student) =>
      if p.phase.Waiting? then Reaction(p, None)
      else Reaction(p.(student := Some(student), key := newKey, verified := false, phase := Idle), None)
    case Verified(session) =>
      if p.staff || !p.phase.Idle? || p.student.None? then Reaction(p, None)
      else Reaction(p.(cookie := Some(session), verified := true), None)
    case SessionExpired => Reaction(p.(verified := false), None)
    case Submit(nickname, sitIns, content) =>
      if !MaySubmit(p) then Reaction(p, None)
      else
        var body := Body(p.student.value, if p.staff then None else nickname, sitIns, content);
        Reaction(p.(phase := Waiting(request, body, true, false)), Some(body))
    case NetworkFailed =>
      if !p.phase.Waiting? then Reaction(p, None)
      else if p.phase.retryLeft then
        Reaction(p.(phase := p.phase.(request := request, retryLeft := false)), Some(p.phase.body))
      else Reaction(p.(phase := Idle), None)
    case Answered(r, reply) =>
      if !p.phase.Waiting? || p.phase.request != r then Reaction(p, None)
      else if Rotates(p, e) then
        var body := p.phase.body.(nickname := None);
        Reaction(p.(key := newKey, phase := Waiting(request, body, true, true)), Some(body))
      else if reply.Recorded? then Reaction(p.(phase := Done(p.phase.body)), None)
      else
        Reaction(p.(phase := Idle, verified := p.verified && (p.staff || reply.code != UNAUTHORIZED)), None)
  }

  class AbsenceForm {
    const isStaff: bool
    var lookup: Option<string>
    var submissionIdempotencyKey: nat
    var cookie: Option<nat>
    var verificationSatisfied: bool
    var phase: Phase

    ghost function State(): Page
      reads this
    {
      Page(isStaff, lookup, submissionIdempotencyKey, cookie, verificationSatisfied, phase)
    }

    constructor (isStaff: bool, newKey: nat)
      ensures State() == Page(isStaff, None, newKey, None, false, Idle)
    {
      this.isStaff, lookup, submissionIdempotencyKey := isStaff, None, newKey;
      cookie, verificationSatisfied, phase := None, false, Idle;
    }

    method OnLookup(student: string, request: nat, newKey: nat)
      modifies this
      ensures State() == React(old(State()), LookupDone(student), request, newKey).page
    {
      if !phase.Waiting? {
        lookup, submissionIdempotencyKey, verificationSatisfied, phase := Some(student), newKey, false, Idle;
      }
    }

    method HandleVerificationSatisfied(session: nat, request: nat, newKey: nat)
      modifies this
      ensures State() == React(old(State()), Verified(session), request, newKey).page
    {
      if isStaff || !phase.Idle? || lookup.None? { return; }
      cookie, verificationSatisfied := Some(session), true;
    }

    method HandleStudentSessionExpired(request: nat, newKey: nat)
      modifies this
      ensures State() == React(old(State()), SessionExpired, request, newKey).page
    {
      verificationSatisfied := false;
    }

    method HandleSubmitAbsence(nickname: Option<string>, sitIns: set<string>, content: string, request: nat, newKey: nat)
      returns (sent: Option<Body>)
      modifies this
      ensures Reaction(State(), sent) == React(old(State()), Submit(nickname, sitIns, content), request, newKey)
    {
      if !phase.Idle? || lookup.None? { return None; }
      if !isStaff && !verificationSatisfied { return None; }
      var body := Body(lookup.value, if isStaff then None else nickname, sitIns, content);
      phase := Waiting(request, body, true, false);
      return Some(body);
    }

    method OnNetworkFailure(request: nat, newKey: nat) returns (sent: Option<Body>)
      modifies this
      ensures Reaction(State(), sent) == React(old(State()), NetworkFailed, request, newKey)
    {
      if !phase.Waiting? { return None; }
      if phase.retryLeft {
        phase := phase.(request := request, retryLeft := false);
        return Some(phase.body);
      }
      phase := Idle;
      return None;
    }

    method OnAnswer(answered: nat, reply: Reply<Body>, request: nat, newKey: nat) returns (sent: Option<Body>)
      modifies this
      ensures Reaction(State(), sent) == React(old(State()), Answered(answered, reply), request, newKey)
    {
      if !phase.Waiting? || phase.request != answered { return None; }
      if reply.Recorded? {
        phase := Done(phase.body);
        return None;
      }
      if reply.code == BAD_NICKNAME && !isStaff && !phase.second {
        var body := phase.body.(nickname := None);
        submissionIdempotencyKey := newKey;
        phase := Waiting(request, body, true, true);
        return Some(body);
      }
      phase := Idle;
      if !isStaff && reply.code == UNAUTHORIZED { HandleStudentSessionExpired(request, newKey); }
      return None;
    }
  }

  // ---- The form, the network and the server together ----

  /** Which successful lookup a key belongs to. */
  datatype Mint = Mint(epoch: nat, student: string)

  datatype Message =
    | Asked(request: nat, key: nat, session: Option<nat>, body: Body)
    | Replied(request: nat, reply: Reply<Body>)

  /** `minted` lists the keys made so far. With `prompt`, a request that failed
      on the client takes no effect later; without it, any request may be
      served at any time and any number of times. */
  datatype World = World(
    prompt: bool, page: Page, minted: seq<Mint>, server: Server, net: seq<Message>, sent: nat)

  /** A new verification makes a session; one not yet burned can make another,
      and the browser's session can be taken up again. Staff may file a nickname
      or cancel a student's absences, which frees the make-ups. */
  datatype Step =
    | PageEvent(event: Event)
    | Deliver(message: nat)
    | Serve(message: nat, check: Check)
    | Verify
    | Reissue(verification: nat)
    | Restore
    | NameStudent(student: string)
    | CancelAbsences(student: string)

  function Start(prompt: bool, staff: bool, named: set<string>, booked: set<(string, string)>): World {
    World(prompt, Page(staff, None, 0, None, false, Idle), [Mint(0, "")],
          Server([], [], named, booked, [], [], {}, {}), [], 0)
  }

  function MintFor(w: World, e: Event): seq<Mint>
    requires w.page.key < |w.minted|
  {
    var m := w.minted[w.page.key];
    match e
    case LookupDone(student) => if w.page.phase.Waiting? then [] else [Mint(m.epoch + 1, student)]
    case _ => if Rotates(w.page, e) then [m] else []
  }

  function Happen(w: World, e: Event): World
    requires w.page.key < |w.minted|
  {
    var r := React(w.page, e, w.sent, |w.minted|);
    var w' := w.(page := r.page, minted := w.minted + MintFor(w, e));
    if r.send.None? then w'
    else w'.(net := w.net + [Asked(w.sent, r.page.key, SessionOf(r.page), r.send.value)], sent := w.sent + 1)
  }

  predicate Servable(w: World, m: Message) {
    m.Asked? && (w.prompt ==> w.page.phase.Waiting? && w.page.phase.request == m.request)
  }

  function ServeAsked(w: World, m: Message, c: Check): World
    requires m.Asked?
  {
    w.(server := if Records(w.server, m.key, m.session, m.body, c)
                 then Record(w.server, m.key, m.session, m.body) else w.server,
       net := w.net + [Replied(m.request, Answer(w.server, m.key, m.session, m.body, c))])
  }

  predicate MayVerify(w: World) {
    !w.page.staff && w.page.phase.Idle? && w.page.student.Some?
  }

  /** A session of verification `v`, new unless it is the last one. */
  function TakeUp(w: World, owners: seq<string>, v: nat): World {
    w.(page := w.page.(cookie := Some(|w.server.sessions|), verified := true),
       server := w.server.(owners := owners, sessions := w.server.sessions + [v]))
  }

  predicate OwnSession(w: World) {
    && w.page.cookie.Some? && Live(w.server, w.page.cookie)
    && w.server.sessions[w.page.cookie.value] < |w.server.owners|
    && w.page.student == Some(w.server.owners[w.server.sessions[w.page.cookie.value]])
  }

  function Next(w: World, s: Step): (r: World)
    requires w.page.key < |w.minted|
    ensures r.page.key < |r.minted|
  {
    match s
    case PageEvent(e) => if e.Answered? || e.Verified? then w else Happen(w, e)
    case Deliver(i) =>
      if i < |w.net| && w.net[i].Replied? then Happen(w, Answered(w.net[i].request, w.net[i].reply)) else w
    case Serve(i, c) => if i < |w.net| && Servable(w, w.net[i]) then ServeAsked(w, w.net[i], c) else w
    case Verify =>
      if !MayVerify(w) then w else TakeUp(w, w.server.owners + [w.page.student.value], |w.server.owners|)
    case Reissue(v) =>
      if !MayVerify(w) || v >= |w.server.owners| || v in w.server.consumed
         || w.page.student != Some(w.server.owners[v]) then w
      else TakeUp(w, w.server.owners, v)
    case Restore =>
      if !MayVerify(w) || !OwnSession(w) then w else w.(page := w.page.(verified := true))
    case NameStudent(student) => w.(server := w.server.(named := w.server.named + {student}))
    case CancelAbsences(student) =>
      w.(server := w.server.(booked := set p | p in w.server.booked && p.0 != student))
  }

  function Run(w: World, steps: seq<Step>): (r: World)
    requires w.page.key < |w.minted|
    ensures r.page.key < |r.minted|
  {
    if steps == [] then w else Next(Run(w, steps[..|steps| - 1]), steps[|steps| - 1])
  }

  predicate RotatesAt(w: World, s: Step) {
    s.Deliver? && s.message < |w.net| && w.net[s.message].Replied?
    && Rotates(w.page, Answered(w.net[s.message].request, w.net[s.message].reply))
  }

  // ---- What the server checks and what a record does ----

  predicate NicknamePasses(b: Body, named: set<string>) {
    b.nickname.None?
    || (b.student !in named && |b.nickname.value| <= 50 && forall c :: c in b.nickname.value ==> c !in {'\n', '\r', '\t'})
  }

  predicate SessionPasses(s: Server, session: Option<nat>) {
    session.None?
    || (session.value < |s.sessions| && session.value !in s.revoked && s.sessions[session.value] !in s.consumed)
  }

  /** A batch is admitted exactly when its session lives and its verification is not
      burned, its nickname fits and fills an empty record, none of its make-ups is
      booked by the student, and nothing else befalls it. It is refused for the
      nickname exactly when that is the first thing wrong. */
  lemma VerdictExactly(s: Server, session: Option<nat>, b: Body, c: Check)
    ensures Combined(s, session, b, c) == Admit <==>
      c.Pass? && SessionPasses(s, session) && NicknamePasses(b, s.named) && forall x :: x in b.sitIns ==> (b.student, x) !in s.booked
    ensures Combined(s, session, b, c) == Unauthorized <==>
      c.LoggedOut? || (session.Some? && (session.value >= |s.sessions| || session.value in s.revoked))
    ensures Combined(s, session, b, c) == Refuse(BAD_NICKNAME) <==>
      && !c.LoggedOut? && !c.RefuseFirst? && !NicknamePasses(b, s.named)
      && (session.None? || (session.value < |s.sessions| && session.value !in s.revoked))
  {
    if b.nickname.Some? { WellFormedExactly(b.nickname.value); }
  }

  lemma WellFormedExactly(nickname: string)
    ensures WellFormed(nickname) <==> |nickname| <= 50 && forall c :: c in nickname ==> c !in {'\n', '\r', '\t'}
  {}

  /** A record logs the body under its key, ends the session it came with and no
      other, burns its verification and no other, and files the nickname and books
      the make-ups of the student. */
  lemma RecordExactly(s: Server, key: nat, session: Option<nat>, b: Body, y: Option<nat>, student: string, class_: string)
    requires session.Some? ==> session.value < |s.sessions|
    ensures var r := Record(s, key, session, b);
      && r.log == s.log + [Logged(key, b)] && r.owners == s.owners && r.sessions == s.sessions
      && r.burned == s.burned + [if session.Some? then Some(s.sessions[session.value]) else None]
      && (Live(r, y) <==> Live(s, y) && (y.None? || y != session))
      && (Consumed(r, y) <==> Consumed(s, y) || (y.Some? && y.value < |s.sessions| && session.Some?
                                                 && s.sessions[y.value] == s.sessions[session.value]))
      && (student in r.named <==> student in s.named || (student == b.student && b.nickname.Some?))
      && ((student, class_) in r.booked <==> (student, class_) in s.booked || (student == b.student && class_ in b.sitIns))
  {}

  // ---- What the form does ----

  /** A lookup that lands gives the student, a new key and no verification, unless an
      answer is awaited; a verification counts only for an idle public form with a
      student; an expiry only takes the verification. */
  lemma EntryExactly(p: Page, student: string, session: nat, request: nat, newKey: nat)
    ensures React(p, LookupDone(student), request, newKey) ==
      Reaction(if p.phase.Waiting? then p else Page(p.staff, Some(student), newKey, p.cookie, false, Idle), None)
    ensures React(p, Verified(session), request, newKey) ==
      Reaction(if !p.staff && p.phase == Idle && p.student != None then p.(cookie := Some(session), verified := true) else p, None)
    ensures React(p, SessionExpired, request, newKey) == Reaction(p.(verified := false), None)
  {}

  /** A submit goes out exactly from an idle form with a student that is staff's or
      verified, once, under the key it has, with what was entered and, from staff,
      without a nickname. */
  lemma SubmitExactly(p: Page, nickname: Option<string>, sitIns: set<string>, content: string, request: nat, newKey: nat)
    ensures var r := React(p, Submit(nickname, sitIns, content), request, newKey);
      if p.phase == Idle && p.student.Some? && (p.staff || p.verified) then
        var body := Body(p.student.value, if p.staff then None else nickname, sitIns, content);
        r == Reaction(p.(phase := Waiting(request, body, true, false)), Some(body))
      else r == Reaction(p, None)
  {}

  /** What a form that waits for `awaited` with `body` does next: the first network
      failure resends the body under the same key, the second ends the waiting. The
      awaited answer ends it, as done when recorded; only a public form's first
      refusal for the nickname takes a new key and sends the body without it, once;
      only a public logged-out answer takes the verification. */
  lemma WaitingExactly(p: Page, awaited: nat, body: Body, left: bool, second: bool, reply: Reply<Body>, request: nat, newKey: nat)
    requires p.phase == Waiting(awaited, body, left, second)
    ensures React(p, NetworkFailed, request, newKey) ==
      (if left then Reaction(p.(phase := Waiting(request, body, false, second)), Some(body)) else Reaction(p.(phase := Idle), None))
    ensures forall other :: other != awaited ==> React(p, Answered(other, reply), request, newKey) == Reaction(p, None)
    ensures reply.Recorded? ==> React(p, Answered(awaited, reply), request, newKey) == Reaction(p.(phase := Done(body)), None)
    ensures reply == Rejected("bad_nickname") && !p.staff && !second ==>
      React(p, Answered(awaited, reply), request, newKey) ==
        Reaction(p.(key := newKey, phase := Waiting(request, body.(nickname := None), true, true)), Some(body.(nickname := None)))
    ensures reply.Rejected? && (reply.code != "bad_nickname" || p.staff || second) ==>
      React(p, Answered(awaited, reply), request, newKey) ==
        Reaction(p.(phase := Idle, verified := p.verified && !(reply.code == "unauthorized" && !p.staff)), None)
  {}

  /** How an idle public form with a student gets verified: a new verification makes
      a new session; one of this student that is not burned makes another; and the
      browser's session counts again exactly when it lives and is of this student.
      No other form is. */
  lemma VerificationsExactly(w: World, v: nat, student: string)
    requires w.page.key < |w.minted|
    ensures w.page.staff || w.page.phase != Idle || w.page.student == None ==>
      Next(w, Verify) == Next(w, Reissue(v)) == Next(w, Restore) == w
    ensures !w.page.staff && w.page.phase == Idle && w.page.student == Some(student) ==>
      var s, entered := w.server, w.page.(cookie := Some(|w.server.sessions|), verified := true);
      && Next(w, Verify) ==
           w.(page := entered, server := s.(owners := s.owners + [student], sessions := s.sessions + [|s.owners|]))
      && Next(w, Reissue(v)) == (if v < |s.owners| && s.owners[v] == student && v !in s.consumed
                                 then w.(page := entered, server := s.(sessions := s.sessions + [v])) else w)
      && Next(w, Restore) == w.(page := w.page.(verified := w.page.verified || OwnLiveSession(s, w.page.cookie, student)))
  {}

  predicate OwnLiveSession(s: Server, session: Option<nat>, student: string) {
    && session.Some? && session.value < |s.sessions| && session.value !in s.revoked
    && s.sessions[session.value] < |s.owners| && s.owners[s.sessions[session.value]] == student
  }

  /** And a form that does not wait ignores failures and answers. */
  lemma NotWaitingIgnores(p: Page, e: Event, request: nat, newKey: nat)
    requires !p.phase.Waiting? && (e.NetworkFailed? || e.Answered?)
    ensures React(p, e, request, newKey) == Reaction(p, None)
  {}

  // ---- The invariant ----

  /** A key that its lookup has replaced by a later one. */
  predicate Dead(minted: seq<Mint>, key: nat) {
    key + 1 < |minted| && minted[key + 1].epoch == minted[key].epoch
  }

  /** Can never be recorded any more. */
  predicate Spent(s: Server, m: Message)
    requires m.Asked?
  {
    Barred(m.body, s.named) || !Live(s, m.session) || Consumed(s, m.session)
  }

  ghost predicate MintedOk(w: World) {
    && w.page.key == |w.minted| - 1
    && (w.page.student.Some? ==> w.page.student == Some(w.minted[w.page.key].student))
    && forall i, j :: 0 <= i < j < |w.minted| ==> w.minted[i].epoch <= w.minted[j].epoch
  }

  ghost predicate ServerOk(s: Server) {
    && (forall i :: 0 <= i < |s.sessions| ==> s.sessions[i] < |s.owners|)
    && (forall v :: v in s.consumed ==> v < |s.owners|) && (forall x :: x in s.revoked ==> x < |s.sessions|)
    && |s.burned| == |s.log| && KeysDistinct(s.log)
    && (forall i :: 0 <= i < |s.burned| && s.burned[i].Some? ==> s.burned[i].value in s.consumed)
    && (forall i, j :: 0 <= i < j < |s.burned| && s.burned[i].Some? ==> s.burned[i] != s.burned[j])
  }

  ghost predicate CookieOk(w: World) {
    && (w.page.cookie.Some? ==> w.page.cookie.value < |w.server.sessions|)
    && (w.page.verified && !w.page.staff ==>
          && w.page.cookie.Some?
          && w.server.sessions[w.page.cookie.value] < |w.server.owners|
          && w.page.student == Some(w.server.owners[w.server.sessions[w.page.cookie.value]]))
  }

  /** A request belongs to the student of its key and, unless it is from staff,
      to a session; under an abandoned key it is spent. */
  ghost predicate AskedOk(w: World, m: Message) {
    m.Asked? ==>
      && m.request < w.sent && m.key < |w.minted| && m.body.student == w.minted[m.key].student
      && (m.session.None? <==> w.page.staff)
      && (m.session.Some? ==> m.session.value < |w.server.sessions|)
      && (Dead(w.minted, m.key) ==> w.prompt || Spent(w.server, m))
  }

  ghost predicate SentAs(w: World, e: Logged<Body>, v: Option<nat>) {
    exists m :: m in w.net && m.Asked? && m.key == e.key && m.body == e.body && VerificationOf(w.server, m.session) == v
  }

  ghost predicate EntryOk(w: World, e: Logged<Body>, v: Option<nat>) {
    e.key < |w.minted| && !Dead(w.minted, e.key) && SentAs(w, e, v) && (v.None? <==> w.page.staff)
  }

  ghost predicate LogOk(w: World) {
    forall i :: 0 <= i < |w.server.log| && i < |w.server.burned| ==> EntryOk(w, w.server.log[i], w.server.burned[i])
  }

  ghost predicate KeyRecordedNameless(s: Server, key: nat) {
    forall e :: e in s.log && e.key == key ==> e.body.nickname.None?
  }

  /** Turned down for its nickname: it always will be, and what its key has
      recorded since, if anything, came without a nickname. */
  ghost predicate TurnedDown(s: Server, a: Message)
    requires a.Asked?
  {
    && Barred(a.body, s.named)
    && (WellFormed(a.body.nickname.value) ==> KeyRecordedNameless(s, a.key))
  }

  /** What an answer in flight says about the request it answers. */
  ghost predicate RepliedOk(s: Server, m: Message, a: Message) {
    m.Replied? && a.Asked? && m.request == a.request ==>
      && (m.reply.Recorded? ==> m.reply.body == a.body && Logged(a.key, a.body) in s.log)
      && (m.reply == Rejected(BAD_NICKNAME) ==> TurnedDown(s, a))
  }

  ghost predicate Unused(s: Server, key: nat) {
    forall e :: e in s.log ==> e.key != key
  }

  /** A finished form shows a record. While it waits, its request is in flight
      under its own key and session; on a prompt network a nickname refusal of
      that request means the key is unused. */
  ghost predicate AwaitedOk(w: World) {
    && (w.page.phase.Done? ==> Logged(w.page.key, w.page.phase.body) in w.server.log)
    && (w.page.phase.Waiting? ==>
          && w.page.student.Some?
          && Asked(w.page.phase.request, w.page.key, SessionOf(w.page), w.page.phase.body) in w.net
          && (w.prompt && Replied(w.page.phase.request, Rejected(BAD_NICKNAME)) in w.net ==>
                Unused(w.server, w.page.key)))
  }

  ghost predicate NetOk(w: World) {
    && (forall m :: m in w.net ==> AskedOk(w, m))
    && (forall m :: m in w.net && m.Replied? ==> m.request < w.sent)
    && (forall m, a :: m in w.net && a in w.net ==> RepliedOk(w.server, m, a))
    && (forall a, b :: a in w.net && b in w.net && a.Asked? && b.Asked? && a.request == b.request ==> a == b)
  }

  ghost predicate Inv(w: World) {
    MintedOk(w) && ServerOk(w.server) && CookieOk(w) && AwaitedOk(w) && NetOk(w) && LogOk(w)
  }

  /** Nothing sent under the page's key was recorded or still can be. */
  ghost predicate Clean(w: World) {
    && Unused(w.server, w.page.key)
    && forall m :: m in w.net && m.Asked? && m.key == w.page.key ==> w.prompt || Spent(w.server, m)
  }

  // ---- Every step keeps it ----

  /** A server that forgets nothing: same log, more named, more
      verifications and sessions. */
  ghost predicate Grows(s: Server, t: Server) {
    && t.log == s.log && t.burned == s.burned && s.named <= t.named
    && s.owners <= t.owners && s.sessions <= t.sessions
    && t.consumed == s.consumed && t.revoked == s.revoked
    && (forall i :: 0 <= i < |t.sessions| ==> t.sessions[i] < |t.owners|)
  }

  lemma SpentStays(s: Server, t: Server, m: Message)
    requires m.Asked? && Spent(s, m) && s.named <= t.named && s.consumed <= t.consumed && s.revoked <= t.revoked
    requires s.sessions <= t.sessions && (m.session.Some? ==> m.session.value < |s.sessions|)
    ensures Spent(t, m)
  {}

  lemma NetGrows(w: World, v: World)
    requires NetOk(w) && LogOk(w) && Grows(w.server, v.server)
    requires v == w.(page := v.page, server := v.server) && v.page.staff == w.page.staff
    ensures NetOk(v) && LogOk(v)
  {
    forall m | m in v.net ensures AskedOk(v, m) {
      assert AskedOk(w, m);
      if m.Asked? && Spent(w.server, m) { SpentStays(w.server, v.server, m); }
    }
    forall m, a | m in v.net && a in v.net ensures RepliedOk(v.server, m, a) { assert RepliedOk(w.server, m, a); }
    forall i | 0 <= i < |v.server.log| && i < |v.server.burned|
      ensures EntryOk(v, v.server.log[i], v.server.burned[i])
    {
      assert EntryOk(w, w.server.log[i], w.server.burned[i]);
      SentAsGrows(w, v, w.server.log[i], w.server.burned[i]);
    }
  }

  lemma SentAsGrows(w: World, v: World, e: Logged<Body>, x: Option<nat>)
    requires SentAs(w, e, x) && (forall m :: m in w.net ==> AskedOk(w, m) && m in v.net)
    requires w.server.sessions <= v.server.sessions
    ensures SentAs(v, e, x)
  {
    var m :| m in w.net && m.Asked? && m.key == e.key && m.body == e.body && VerificationOf(w.server, m.session) == x;
    assert AskedOk(w, m) && m in v.net;
    assert VerificationOf(v.server, m.session) == x;
  }

  /** Moves that send nothing and make no key. */
  lemma Moves(w: World, v: World)
    requires Inv(w) && Grows(w.server, v.server) && v == w.(page := v.page, server := v.server)
    requires v.page == w.page.(cookie := v.page.cookie, verified := v.page.verified, phase := v.page.phase)
    requires CookieOk(v)
    requires w.page.phase.Waiting? && v.page.phase.Waiting? ==>
               v.page.phase == w.page.phase && v.page.cookie == w.page.cookie
    requires v.page.phase.Waiting? ==> w.page.phase.Waiting?
    requires v.page.phase.Done? ==> Logged(w.page.key, v.page.phase.body) in w.server.log
    ensures Inv(v)
  {
    NetGrows(w, v);
  }

  lemma AskedMore(w: World, a: Message, page: Page)
    requires Inv(w) && a.Asked? && a.request == w.sent && a.key == w.page.key
    requires a.body.student == w.minted[w.page.key].student && (a.session.None? <==> w.page.staff)
    requires a.session.Some? ==> a.session.value < |w.server.sessions|
    requires page.staff == w.page.staff
    ensures var v := w.(page := page, net := w.net + [a], sent := w.sent + 1); NetOk(v) && LogOk(v)
  {
    var v := w.(page := page, net := w.net + [a], sent := w.sent + 1);
    forall m | m in v.net ensures AskedOk(v, m) { assert m == a || AskedOk(w, m); }
    forall m, b | m in v.net && b in v.net ensures RepliedOk(v.server, m, b) {
      if m.Replied? && b != a { assert RepliedOk(w.server, m, b); }
    }
    forall i | 0 <= i < |v.server.log| && i < |v.server.burned|
      ensures EntryOk(v, v.server.log[i], v.server.burned[i])
    {
      assert EntryOk(w, w.server.log[i], w.server.burned[i]);
      SentAsGrows(w, v, w.server.log[i], w.server.burned[i]);
    }
  }

  lemma Asks(w: World, phase: Phase)
    requires Inv(w) && phase.Waiting? && phase.request == w.sent && w.page.student.Some?
    requires phase.body.student == w.minted[w.page.key].student && (w.page.staff || w.page.cookie.Some?)
    ensures Inv(w.(page := w.page.(phase := phase),
                   net := w.net + [Asked(w.sent, w.page.key, SessionOf(w.page), phase.body)], sent := w.sent + 1))
  {
    AskedMore(w, Asked(w.sent, w.page.key, SessionOf(w.page), phase.body), w.page.(phase := phase));
  }

  lemma MintGrows(minted: seq<Mint>, mint: Mint, key: nat)
    requires key < |minted|
    ensures Dead(minted + [mint], key) <==>
            Dead(minted, key) || (key == |minted| - 1 && mint.epoch == minted[key].epoch)
  {}

  lemma Mints(w: World, mint: Mint, page: Page)
    requires Inv(w) && mint.epoch >= w.minted[w.page.key].epoch
    requires mint.epoch == w.minted[w.page.key].epoch ==> Clean(w)
    requires page.key == |w.minted| && page.student == Some(mint.student) && page.phase.Idle?
    requires page.staff == w.page.staff && page.cookie == w.page.cookie
    requires page.verified ==> w.page.verified && page.student == w.page.student
    ensures Inv(w.(page := page, minted := w.minted + [mint]))
  {
    var v := w.(page := page, minted := w.minted + [mint]);
    forall m | m in v.net ensures AskedOk(v, m) {
      assert AskedOk(w, m);
      if m.Asked? { MintGrows(w.minted, mint, m.key); }
    }
    forall i | 0 <= i < |v.server.log| && i < |v.server.burned|
      ensures EntryOk(v, v.server.log[i], v.server.burned[i])
    {
      assert EntryOk(w, w.server.log[i], w.server.burned[i]);
      assert v.server.log[i] in v.server.log;
      MintGrows(w.minted, mint, v.server.log[i].key);
      SentAsGrows(w, v, w.server.log[i], w.server.burned[i]);
    }
  }

  /** A further answer in flight, if it says no more than it may. */
  lemma Replies(w: World, m: Message)
    requires Inv(w) && m.Replied? && m.request < w.sent
    requires forall a :: a in w.net ==> RepliedOk(w.server, m, a)
    requires w.prompt && m.reply == Rejected(BAD_NICKNAME) && w.page.phase.Waiting? && m.request == w.page.phase.request
             ==> Unused(w.server, w.page.key)
    ensures Inv(w.(net := w.net + [m]))
  {
    var v := w.(net := w.net + [m]);
    forall b | b in v.net ensures AskedOk(v, b) { assert b == m || AskedOk(w, b); }
    forall b, a | b in v.net && a in v.net ensures RepliedOk(v.server, b, a) {
      if a.Asked? { assert RepliedOk(w.server, b, a); }
    }
    forall i | 0 <= i < |v.server.log| && i < |v.server.burned|
      ensures EntryOk(v, v.server.log[i], v.server.burned[i])
    {
      assert EntryOk(w, w.server.log[i], w.server.burned[i]);
      SentAsGrows(w, v, w.server.log[i], w.server.burned[i]);
    }
  }

  lemma RecordsWhenFit(s: Server, key: nat, session: Option<nat>, b: Body, c: Check)
    ensures Records(s, key, session, b, c) ==>
      Live(s, session) && !Consumed(s, session) && !Barred(b, s.named) && !Taken(b, s.booked) && Unused(s, key)
    ensures Records(s, key, session, b, Pass) <==>
      Live(s, session) && !Consumed(s, session) && !Barred(b, s.named) && !Taken(b, s.booked) && Unused(s, key)
  {}

  lemma RecordKeepsServer(s: Server, key: nat, session: Option<nat>, b: Body)
    requires ServerOk(s) && Live(s, session) && !Consumed(s, session) && Unused(s, key)
    ensures ServerOk(Record(s, key, session, b))
  {
    var t := Record(s, key, session, b);
    forall i | 0 <= i < |s.log| ensures s.log[i].key != key {
      assert s.log[i] in s.log;
    }
  }

  /** Recording a request whose key is unused and that is not spent. */
  lemma RecordKeeps(w: World, a: Message)
    requires Inv(w) && a in w.net && a.Asked? && Servable(w, a)
    requires Unused(w.server, a.key) && !Spent(w.server, a)
    ensures Inv(w.(server := Record(w.server, a.key, a.session, a.body)))
  {
    var s, t := w.server, Record(w.server, a.key, a.session, a.body);
    var v := w.(server := t);
    assert AskedOk(w, a);
    assert !Dead(w.minted, a.key) by {
      if w.prompt {
        assert a == Asked(w.page.phase.request, w.page.key, SessionOf(w.page), w.page.phase.body);
      }
    }
    RecordKeepsServer(s, a.key, a.session, a.body);
    forall m | m in v.net ensures AskedOk(v, m) {
      assert AskedOk(w, m);
      if m.Asked? && Spent(s, m) { SpentStays(s, t, m); }
    }
    forall m, b | m in v.net && b in v.net ensures RepliedOk(t, m, b) { RepliesAfterRecord(w, a, m, b); }
    RecordedEntries(w, a);
    if w.page.phase.Waiting? && w.prompt {
      AwaitedNotTurnedDown(w, a);
    }
  }

  lemma RecordedEntries(w: World, a: Message)
    requires Inv(w) && a in w.net && a.Asked? && !Dead(w.minted, a.key)
    ensures LogOk(w.(server := Record(w.server, a.key, a.session, a.body)))
  {
    var v := w.(server := Record(w.server, a.key, a.session, a.body));
    assert AskedOk(w, a);
    forall i | 0 <= i < |v.server.log| ensures EntryOk(v, v.server.log[i], v.server.burned[i]) {
      if i < |w.server.log| {
        assert EntryOk(w, w.server.log[i], w.server.burned[i]);
        SentAsGrows(w, v, w.server.log[i], w.server.burned[i]);
      } else {
        assert a in v.net && VerificationOf(v.server, a.session) == v.server.burned[i];
      }
    }
  }

  lemma AwaitedNotTurnedDown(w: World, a: Message)
    requires Inv(w) && a in w.net && a.Asked? && !Barred(a.body, w.server.named)
    ensures Replied(a.request, Rejected(BAD_NICKNAME)) !in w.net
  {
    assert !RepliedOk(w.server, Replied(a.request, Rejected(BAD_NICKNAME)), a);
  }

  lemma RepliesAfterRecord(w: World, a: Message, m: Message, b: Message)
    requires Inv(w) && a in w.net && a.Asked? && m in w.net && b in w.net
    requires !Barred(a.body, w.server.named)
    ensures RepliedOk(Record(w.server, a.key, a.session, a.body), m, b)
  {
    assert RepliedOk(w.server, m, b);
    assert AskedOk(w, a) && AskedOk(w, b);
  }

  lemma ServeKeeps(w: World, a: Message, c: Check)
    requires Inv(w) && a in w.net && Servable(w, a)
    ensures Inv(ServeAsked(w, a, c))
  {
    var s := w.server;
    RecordsWhenFit(s, a.key, a.session, a.body, c);
    assert AskedOk(w, a);
    var t := if Records(s, a.key, a.session, a.body, c) then Record(s, a.key, a.session, a.body) else s;
    if Records(s, a.key, a.session, a.body, c) { RecordKeeps(w, a); }
    var m := Replied(a.request, Answer(s, a.key, a.session, a.body, c));
    forall b | b in w.net ensures RepliedOk(t, m, b) {
      ReplyTellsTheTruth(w, a, c, b);
    }
    Replies(w.(server := t), m);
  }

  lemma ReplyTellsTheTruth(w: World, a: Message, c: Check, b: Message)
    requires Inv(w) && a in w.net && b in w.net && a.Asked?
    ensures var v := ServeAsked(w, a, c); RepliedOk(v.server, v.net[|w.net|], b)
  {
    RecordsWhenFit(w.server, a.key, a.session, a.body, c);
  }

  lemma TakeUpKeeps(w: World, owners: seq<string>, v: nat)
    requires Inv(w) && MayVerify(w) && w.server.owners <= owners && v < |owners| && w.page.student == Some(owners[v])
    ensures Inv(TakeUp(w, owners, v))
  {
    Moves(w, TakeUp(w, owners, v));
  }

  lemma StepKeeps(w: World, s: Step)
    requires Inv(w) && (!w.prompt && RotatesAt(w, s) ==> Clean(w))
    ensures Inv(Next(w, s))
  {
    match s
    case PageEvent(e) => if !e.Answered? && !e.Verified? { EventKeeps(w, e); }
    case Deliver(i) => if i < |w.net| && w.net[i].Replied? { AnswerKeeps(w, w.net[i]); }
    case Serve(i, c) => if i < |w.net| && Servable(w, w.net[i]) { ServeKeeps(w, w.net[i], c); }
    case Verify =>
      if MayVerify(w) { TakeUpKeeps(w, w.server.owners + [w.page.student.value], |w.server.owners|); }
    case Reissue(v) =>
      if Next(w, s) != w { TakeUpKeeps(w, w.server.owners, v); }
    case Restore => if Next(w, s) != w { Moves(w, Next(w, s)); }
    case NameStudent(_) => Moves(w, Next(w, s));
    case CancelAbsences(_) => Moves(w, Next(w, s));
  }

  lemma EventKeeps(w: World, e: Event)
    requires Inv(w) && !e.Answered? && !e.Verified?
    ensures Inv(Happen(w, e))
  {
    if e.LookupDone? && !w.page.phase.Waiting? {
      LookupKeeps(w, e.student);
    } else if e.Submit? && MaySubmit(w.page) {
      SubmitKeeps(w, e);
    } else if e.NetworkFailed? && w.page.phase.Waiting? {
      FailureKeeps(w);
    } else {
      NothingSent(w, e);
      Moves(w, Happen(w, e));
    }
  }

  lemma NothingSent(w: World, e: Event)
    requires w.page.key < |w.minted| && React(w.page, e, w.sent, |w.minted|).send.None? && !Rotates(w.page, e)
    requires e.LookupDone? ==> w.page.phase.Waiting?
    ensures Happen(w, e) == w.(page := React(w.page, e, w.sent, |w.minted|).page)
  {
    assert w.minted + [] == w.minted;
  }

  lemma LookupMints(w: World, student: string)
    requires w.page.key < |w.minted| && !w.page.phase.Waiting?
    ensures Happen(w, LookupDone(student)) ==
      w.(page := w.page.(student := Some(student), key := |w.minted|, verified := false, phase := Idle),
         minted := w.minted + [Mint(w.minted[w.page.key].epoch + 1, student)])
  {}

  lemma LookupKeeps(w: World, student: string)
    requires Inv(w) && !w.page.phase.Waiting?
    ensures Inv(Happen(w, LookupDone(student)))
  {
    var page := w.page.(student := Some(student), key := |w.minted|, verified := false, phase := Idle);
    LookupMints(w, student);
    Mints(w, Mint(w.minted[w.page.key].epoch + 1, student), page);
  }

  lemma SubmitKeeps(w: World, e: Event)
    requires Inv(w) && e.Submit? && MaySubmit(w.page)
    ensures Inv(Happen(w, e))
  {
    Asks(w, React(w.page, e, w.sent, |w.minted|).page.phase);
    assert w.minted + [] == w.minted;
  }

  lemma FailureKeeps(w: World)
    requires Inv(w) && w.page.phase.Waiting?
    ensures Inv(Happen(w, NetworkFailed))
  {
    assert w.minted + [] == w.minted;
    if w.page.phase.retryLeft {
      RetryKeeps(w);
    } else {
      Moves(w, w.(page := w.page.(phase := Idle)));
    }
  }

  lemma AwaitedBody(w: World)
    requires Inv(w) && w.page.phase.Waiting?
    ensures w.page.phase.body.student == w.minted[w.page.key].student && (w.page.staff || w.page.cookie.Some?)
  {
    assert AskedOk(w, Asked(w.page.phase.request, w.page.key, SessionOf(w.page), w.page.phase.body));
  }

  lemma RetryKeeps(w: World)
    requires Inv(w) && w.page.phase.Waiting? && w.page.phase.retryLeft
    ensures Inv(Happen(w, NetworkFailed))
  {
    AwaitedBody(w);
    assert w.minted + [] == w.minted;
    Asks(w, w.page.phase.(request := w.sent, retryLeft := false));
  }

  lemma AnswerKeeps(w: World, m: Message)
    requires Inv(w) && m in w.net && m.Replied?
    requires !w.prompt && Rotates(w.page, Answered(m.request, m.reply)) ==> Clean(w)
    ensures Inv(Happen(w, Answered(m.request, m.reply)))
  {
    var e := Answered(m.request, m.reply);
    if Rotates(w.page, e) {
      if w.prompt { PromptIsClean(w, m); }
      RotationKeeps(w, m);
    } else {
      NothingSent(w, e);
      if w.page.phase.Waiting? && w.page.phase.request == m.request {
        assert RepliedOk(w.server, m, Asked(m.request, w.page.key, SessionOf(w.page), w.page.phase.body));
      }
      Moves(w, Happen(w, e));
    }
  }

  lemma PromptIsClean(w: World, m: Message)
    requires Inv(w) && w.prompt && m in w.net && m.Replied? && Rotates(w.page, Answered(m.request, m.reply))
    ensures Clean(w)
  {}

  lemma RotationKeeps(w: World, m: Message)
    requires Inv(w) && m in w.net && m.Replied? && Rotates(w.page, Answered(m.request, m.reply)) && Clean(w)
    ensures Inv(Happen(w, Answered(m.request, m.reply)))
  {
    AwaitedBody(w);
    var mint := w.minted[w.page.key];
    var v := w.(page := w.page.(key := |w.minted|, phase := Idle), minted := w.minted + [mint]);
    Mints(w, mint, v.page);
    var body := w.page.phase.body.(nickname := None);
    Asks(v, Waiting(w.sent, body, true, true));
    RotationSends(w, m);
  }

  lemma RotationSends(w: World, m: Message)
    requires w.page.key < |w.minted| && m.Replied? && Rotates(w.page, Answered(m.request, m.reply))
    ensures var body := w.page.phase.body.(nickname := None);
      Happen(w, Answered(m.request, m.reply)) ==
      w.(page := w.page.(key := |w.minted|, phase := Waiting(w.sent, body, true, true)),
         minted := w.minted + [w.minted[w.page.key]],
         net := w.net + [Asked(w.sent, |w.minted|, SessionOf(w.page), body)], sent := w.sent + 1)
  {}

  // ---- One record per verification, whatever happens to the keys ----

  ghost predicate InRange(w: World, m: Message) {
    m.Asked? ==>
      && m.key < |w.minted| && (m.session.None? <==> w.page.staff)
      && (m.session.Some? ==> m.session.value < |w.server.sessions|)
  }

  /** Every record stems from a request in flight, and a public request from a
      session. No condition on keys. */
  ghost predicate Tracked(w: World) {
    && w.page.key < |w.minted| && ServerOk(w.server)
    && (w.page.cookie.Some? ==> w.page.cookie.value < |w.server.sessions|)
    && (!w.page.staff && (w.page.verified || w.page.phase.Waiting?) ==> w.page.cookie.Some?)
    && (forall m :: m in w.net ==> InRange(w, m))
    && (forall i :: 0 <= i < |w.server.log| ==> SentAs(w, w.server.log[i], w.server.burned[i]))
  }

  lemma TracksMore(w: World, v: World)
    requires Tracked(w) && w.minted <= v.minted && w.net <= v.net && v.server == w.server && v.page.staff == w.page.staff
    requires v.page.key < |v.minted| && v.page.cookie == w.page.cookie
    requires v.page.verified || v.page.phase.Waiting? ==> w.page.verified || w.page.phase.Waiting? || w.page.staff
    requires forall i :: |w.net| <= i < |v.net| ==> InRange(v, v.net[i])
    ensures Tracked(v)
  {
    forall m | m in v.net ensures InRange(v, m) {
      var i :| 0 <= i < |v.net| && v.net[i] == m;
      if i < |w.net| { assert w.net[i] in w.net && InRange(w, m); }
    }
    forall i | 0 <= i < |v.server.log| ensures SentAs(v, v.server.log[i], v.server.burned[i]) {
      StillSent(w, v, w.server.log[i], w.server.burned[i]);
    }
  }

  lemma StillSent(w: World, v: World, e: Logged<Body>, x: Option<nat>)
    requires SentAs(w, e, x) && (forall m :: m in w.net ==> InRange(w, m) && m in v.net)
    requires w.server.sessions <= v.server.sessions
    ensures SentAs(v, e, x)
  {
    var m :| m in w.net && m.Asked? && m.key == e.key && m.body == e.body && VerificationOf(w.server, m.session) == x;
    assert InRange(w, m) && m in v.net;
    assert VerificationOf(v.server, m.session) == x;
  }

  lemma TracksServer(w: World, v: World)
    requires Tracked(w) && v == w.(page := v.page, server := v.server)
    requires ServerOk(v.server) && v.server.log == w.server.log && v.server.burned == w.server.burned
    requires w.server.sessions <= v.server.sessions
    requires v.page == w.page.(cookie := v.page.cookie, verified := v.page.verified)
    requires v.page.cookie.Some? ==> v.page.cookie.value < |v.server.sessions|
    requires !v.page.staff && (v.page.verified || v.page.phase.Waiting?) ==> v.page.cookie.Some?
    ensures Tracked(v)
  {
    forall m | m in v.net ensures InRange(v, m) { assert InRange(w, m); }
    forall i | 0 <= i < |v.server.log| ensures SentAs(v, v.server.log[i], v.server.burned[i]) {
      StillSent(w, v, w.server.log[i], w.server.burned[i]);
    }
  }

  lemma ServeTracked(w: World, m: Message, c: Check)
    requires Tracked(w) && m in w.net && m.Asked?
    ensures Tracked(ServeAsked(w, m, c))
  {
    var v := ServeAsked(w, m, c);
    var x := VerificationOf(w.server, m.session);
    RecordsWhenFit(w.server, m.key, m.session, m.body, c);
    assert InRange(w, m);
    if v.server != w.server { RecordKeepsServer(w.server, m.key, m.session, m.body); }
    forall a | a in v.net ensures InRange(v, a) { assert a in w.net ==> InRange(w, a); }
    forall i | 0 <= i < |v.server.log| ensures SentAs(v, v.server.log[i], v.server.burned[i]) {
      if i < |w.server.log| {
        StillSent(w, v, w.server.log[i], w.server.burned[i]);
      } else {
        assert m in v.net && VerificationOf(v.server, m.session) == x;
      }
    }
  }

  lemma HappenTracked(w: World, e: Event)
    requires Tracked(w) && !e.Verified?
    ensures Tracked(Happen(w, e))
  {
    var v := Happen(w, e);
    TracksMore(w, v);
  }

  lemma StepTracked(w: World, s: Step)
    requires Tracked(w)
    ensures Tracked(Next(w, s))
  {
    match s
    case PageEvent(e) => if !e.Answered? && !e.Verified? { HappenTracked(w, e); }
    case Deliver(i) =>
      if i < |w.net| && w.net[i].Replied? { HappenTracked(w, Answered(w.net[i].request, w.net[i].reply)); }
    case Serve(i, c) => if i < |w.net| && Servable(w, w.net[i]) { ServeTracked(w, w.net[i], c); }
    case _ => TracksServer(w, Next(w, s));
  }

  lemma StaffStays(w: World, s: Step)
    requires w.page.key < |w.minted|
    ensures Next(w, s).page.staff == w.page.staff && Next(w, s).prompt == w.prompt
  {}

  lemma {:induction false} RunTracked(w: World, steps: seq<Step>)
    requires Tracked(w)
    ensures Tracked(Run(w, steps)) && Run(w, steps).page.staff == w.page.staff && Run(w, steps).prompt == w.prompt
  {
    if steps != [] {
      RunTracked(w, steps[..|steps| - 1]);
      StepTracked(Run(w, steps[..|steps| - 1]), steps[|steps| - 1]);
      StaffStays(Run(w, steps[..|steps| - 1]), steps[|steps| - 1]);
    }
  }

  /** On the public form each verification drives at most one record and each
      key holds at most one, over all runs and whatever keys are abandoned. */
  lemma OneRecordPerVerification(prompt: bool, named: set<string>, booked: set<(string, string)>, steps: seq<Step>, i: nat, j: nat)
    requires i < j < |Run(Start(prompt, false, named, booked), steps).server.log|
    ensures var s := Run(Start(prompt, false, named, booked), steps).server;
      && |s.burned| == |s.log| && s.burned[i].Some? && s.burned[j].Some? && s.burned[i] != s.burned[j]
      && s.log[i].key != s.log[j].key
  {
    RunTracked(Start(prompt, false, named, booked), steps);
    var w := Run(Start(prompt, false, named, booked), steps);
    PublicBurns(w, i);
    PublicBurns(w, j);
  }

  lemma PublicBurns(w: World, i: nat)
    requires Tracked(w) && !w.page.staff && i < |w.server.log|
    ensures w.server.burned[i].Some?
  {
    var e := w.server.log[i];
    assert SentAs(w, e, w.server.burned[i]);
    var m :| m in w.net && m.Asked? && m.key == e.key && m.body == e.body
      && VerificationOf(w.server, m.session) == w.server.burned[i];
    assert InRange(w, m);
  }

  /** All that was sent for one lookup came with one verification. */
  ghost predicate VerifiedOnce(w: World, epoch: nat) {
    forall a, b :: a in w.net && b in w.net && SentFor(w, a, epoch) && SentFor(w, b, epoch) ==>
      VerificationOf(w.server, a.session) == VerificationOf(w.server, b.session)
  }

  ghost predicate SentFor(w: World, a: Message, epoch: nat) {
    a.Asked? && a.key < |w.minted| && w.minted[a.key].epoch == epoch
  }

  /** So a lookup whose student verified once has at most one record, with no
      condition on keys or network. */
  lemma OncePerLookupVerifiedOnce(
      prompt: bool, named: set<string>, booked: set<(string, string)>, steps: seq<Step>, i: nat, j: nat)
    requires var w := Run(Start(prompt, false, named, booked), steps);
      i < j < |w.server.log| && w.server.log[i].key < |w.minted| && VerifiedOnce(w, w.minted[w.server.log[i].key].epoch)
    ensures var w := Run(Start(prompt, false, named, booked), steps);
      DifferentLookups(w.minted, w.server.log[i].key, w.server.log[j].key)
  {
    var w := Run(Start(prompt, false, named, booked), steps);
    RunTracked(Start(prompt, false, named, booked), steps);
    OneRecordPerVerification(prompt, named, booked, steps, i, j);
    var a := RequestOf(w, i);
    var b := RequestOf(w, j);
  }

  lemma RequestOf(w: World, i: nat) returns (m: Message)
    requires Tracked(w) && i < |w.server.log|
    ensures m in w.net && m.Asked? && m.key == w.server.log[i].key && m.key < |w.minted|
    ensures VerificationOf(w.server, m.session) == w.server.burned[i]
  {
    var e := w.server.log[i];
    assert SentAs(w, e, w.server.burned[i]);
    m :| m in w.net && m.Asked? && m.key == e.key && m.body == e.body
      && VerificationOf(w.server, m.session) == w.server.burned[i];
    assert InRange(w, m);
  }

  // ---- One record per lookup when abandoned keys are clean ----

  /** On a network that may deliver late, every change of key finds nothing
      recorded or recordable under the old one. */
  ghost predicate CleanRun(w: World, steps: seq<Step>)
    requires w.page.key < |w.minted|
  {
    steps != [] ==>
      var init, s := steps[..|steps| - 1], steps[|steps| - 1];
      CleanRun(w, init) && (!w.prompt && RotatesAt(Run(w, init), s) ==> Clean(Run(w, init)))
  }

  lemma StartHolds(prompt: bool, staff: bool, named: set<string>, booked: set<(string, string)>)
    ensures Inv(Start(prompt, staff, named, booked))
  {}

  lemma {:induction false} RunKeeps(w: World, steps: seq<Step>)
    requires Inv(w) && CleanRun(w, steps)
    ensures Inv(Run(w, steps)) && Run(w, steps).prompt == w.prompt
  {
    if steps != [] {
      var n := |steps| - 1;
      RunKeeps(w, steps[..n]);
      StepKeeps(Run(w, steps[..n]), steps[n]);
      StaffStays(Run(w, steps[..n]), steps[n]);
    }
  }

  lemma {:induction false} PromptRunsAreClean(w: World, steps: seq<Step>)
    requires w.page.key < |w.minted| && w.prompt
    ensures CleanRun(w, steps)
  {
    if steps != [] { PromptRunsAreClean(w, steps[..|steps| - 1]); }
  }

  predicate DifferentLookups(minted: seq<Mint>, a: nat, b: nat) {
    a < |minted| && b < |minted| && minted[a].epoch != minted[b].epoch
  }

  ghost predicate OncePerLookup(w: World) {
    forall i, j :: 0 <= i < j < |w.server.log| ==>
      DifferentLookups(w.minted, w.server.log[i].key, w.server.log[j].key)
  }

  /** At most one batch is recorded between two successful lookups, over all
      retries, verifications and the retry under a new key, on any network, when
      no key is abandoned while it may still record. */
  lemma AtMostOncePerLookup(prompt: bool, staff: bool, named: set<string>, booked: set<(string, string)>, steps: seq<Step>)
    requires CleanRun(Start(prompt, staff, named, booked), steps)
    ensures var w := Run(Start(prompt, staff, named, booked), steps);
      OncePerLookup(w) && (w.page.phase.Done? ==> Logged(w.page.key, w.page.phase.body) in w.server.log)
  {
    StartHolds(prompt, staff, named, booked);
    RunKeeps(Start(prompt, staff, named, booked), steps);
    OnePerEpoch(Run(Start(prompt, staff, named, booked), steps));
  }

  /** A failed request that takes no effect later leaves nothing to condition on. */
  lemma AtMostOncePromptly(staff: bool, named: set<string>, booked: set<(string, string)>, steps: seq<Step>)
    ensures OncePerLookup(Run(Start(true, staff, named, booked), steps))
  {
    PromptRunsAreClean(Start(true, staff, named, booked), steps);
    AtMostOncePerLookup(true, staff, named, booked, steps);
  }

  /** The staff form never abandons a key, so it needs no condition either. */
  lemma {:induction false} StaffRunsAreClean(w: World, steps: seq<Step>)
    requires w.page.key < |w.minted| && w.page.staff
    ensures CleanRun(w, steps) && Run(w, steps).page.staff
  {
    if steps != [] {
      StaffRunsAreClean(w, steps[..|steps| - 1]);
      StaffStays(Run(w, steps[..|steps| - 1]), steps[|steps| - 1]);
    }
  }

  lemma OnePerEpoch(w: World)
    requires Inv(w)
    ensures OncePerLookup(w)
  {
    forall i, j | 0 <= i < j < |w.server.log|
      ensures DifferentLookups(w.minted, w.server.log[i].key, w.server.log[j].key)
    {
      var a, b := w.server.log[i].key, w.server.log[j].key;
      assert EntryOk(w, w.server.log[i], w.server.burned[i]) && EntryOk(w, w.server.log[j], w.server.burned[j]);
      var lo, hi := if a < b then a else b, if a < b then b else a;
      assert w.minted[lo].epoch <= w.minted[lo + 1].epoch <= w.minted[hi].epoch;
    }
  }

  /** If everything sent under a key carried a nickname the input field lets
      through, abandoning it on a nickname refusal is clean. */
  lemma NicknamedKeyIsClean(w: World, s: Step)
    requires Inv(w) && RotatesAt(w, s)
    requires forall m :: m in w.net && m.Asked? && m.key == w.page.key ==>
               m.body.nickname.Some? && WellFormed(m.body.nickname.value)
    ensures Clean(w)
  {
    var a := Asked(w.page.phase.request, w.page.key, SessionOf(w.page), w.page.phase.body);
    assert a in w.net && RepliedOk(w.server, w.net[s.message], a);
    forall e | e in w.server.log ensures e.key != w.page.key {
      var i :| 0 <= i < |w.server.log| && w.server.log[i] == e;
      assert EntryOk(w, e, w.server.burned[i]);
      var m :| m in w.net && m.Asked? && m.key == e.key && m.body == e.body
        && VerificationOf(w.server, m.session) == w.server.burned[i];
    }
    forall m | m in w.net && m.Asked? && m.key == w.page.key ensures Spent(w.server, m) {
      assert AskedOk(w, m) && AskedOk(w, a);
    }
  }

  // ---- The condition is exact ----

  lemma {:induction false} RunConcat(w: World, a: seq<Step>, b: seq<Step>)
    requires w.page.key < |w.minted|
    ensures Run(w, a + b) == Run(Run(w, a), b)
  {
    if b == [] {
      assert a + b == a;
    } else {
      assert (a + b)[..|a + b| - 1] == a + b[..|b| - 1];
      RunConcat(w, a, b[..|b| - 1]);
    }
  }

  lemma RunOne(w: World, s: Step)
    requires w.page.key < |w.minted|
    ensures Run(w, [s]) == Next(w, s)
  {
    assert [s][..0] == [];
  }

  lemma RunThree(w: World, a: Step, b: Step, c: Step)
    requires w.page.key < |w.minted|
    ensures Run(w, [a, b, c]) == Next(Next(Next(w, a), b), c)
  {
    assert [a, b, c] == [a, b] + [c] && [a, b] == [a] + [b];
    RunConcat(w, [a, b], [c]);
    RunConcat(w, [a], [b]);
    RunOne(w, a);
    RunOne(Next(w, a), b);
    RunOne(Next(Next(w, a), b), c);
  }

  /** Giving up on the awaited request after its resend. */
  lemma GivesUp(w: World)
    requires w.page.key < |w.minted| && w.page.phase.Waiting? && w.page.phase.retryLeft
    ensures var v := Next(Next(w, PageEvent(NetworkFailed)), PageEvent(NetworkFailed));
      v == w.(page := w.page.(phase := Idle), sent := w.sent + 1,
              net := w.net + [Asked(w.sent, w.page.key, SessionOf(w.page), w.page.phase.body)])
  {
    assert w.minted + [] == w.minted;
  }

  /** An idle form whose key is unused records after a new verification. */
  lemma VerifiedSubmitRecords(w: World, content: string) returns (steps: seq<Step>)
    requires w.page.key < |w.minted| && ServerOk(w.server) && !w.prompt && MayVerify(w)
    requires Unused(w.server, w.page.key)
    ensures |steps| == 3
    ensures var v := Run(w, steps);
      v.minted == w.minted
      && v.server.log == w.server.log + [Logged(w.page.key, Body(w.page.student.value, None, {}, content))]
  {
    var body := Body(w.page.student.value, None, {}, content);
    steps := [Verify, PageEvent(Submit(None, {}, content)), Serve(|w.net|, Pass)];
    RunThree(w, steps[0], steps[1], steps[2]);
    var v := Next(w, Verify);
    var u := Next(v, steps[1]);
    assert w.minted + [] == w.minted;
    assert u.net == w.net + [Asked(w.sent, w.page.key, v.page.cookie, body)] && u.server == v.server;
    NewSessionIsGood(w, w.page.student.value);
    RecordsWhenFit(u.server, w.page.key, v.page.cookie, body, Pass);
  }

  lemma NewSessionIsGood(w: World, student: string)
    requires ServerOk(w.server)
    ensures var t := TakeUp(w, w.server.owners + [student], |w.server.owners|).server;
      Live(t, Some(|w.server.sessions|)) && !Consumed(t, Some(|w.server.sessions|))
      && VerificationOf(t, Some(|w.server.sessions|)) == Some(|w.server.owners|)
  {}

  /** What is not spent can be recorded once the student's make-ups are free. */
  lemma UnspentRecords(w: World, i: nat)
    requires w.page.key < |w.minted| && !w.prompt && i < |w.net| && w.net[i].Asked?
    requires !Spent(w.server, w.net[i]) && Unused(w.server, w.net[i].key)
    ensures var v := Next(Next(w, CancelAbsences(w.net[i].body.student)), Serve(i, Pass));
      && v.server.log == w.server.log + [Logged(w.net[i].key, w.net[i].body)]
      && v.minted == w.minted && v.page == w.page && !v.prompt
  {
    var m := w.net[i];
    var u := Next(w, CancelAbsences(m.body.student));
    assert !Taken(m.body, u.server.booked);
    RecordsWhenFit(u.server, m.key, m.session, m.body, Pass);
  }

  /** Abandoning any other key lets a network that delivers late record two
      batches for the one lookup, once the student verifies again. */
  lemma UncleanRotationDuplicates(w: World, s: Step, content: string) returns (steps: seq<Step>)
    requires Inv(w) && !w.prompt && RotatesAt(w, s) && !Clean(w)
    ensures steps != [] && steps[0] == s && !OncePerLookup(Run(w, steps))
  {
    var key := w.page.key;
    RotationSends(w, w.net[s.message]);
    var w1 := Next(w, s);
    GivesUp(w1);
    var w2 := Next(Next(w1, PageEvent(NetworkFailed)), PageEvent(NetworkFailed));
    var first := [s, PageEvent(NetworkFailed), PageEvent(NetworkFailed)];
    RunThree(w, s, PageEvent(NetworkFailed), PageEvent(NetworkFailed));
    assert w2.server == w.server && w.net <= w2.net;
    NewKeyUnused(w);
    var older, w3 := OldKeyRecords(w, w2);
    RunConcat(w, first, older);
    var last := VerifiedSubmitRecords(w3, content);
    RunConcat(w, first + older, last);
    steps := first + older + last;
    var v := Run(w, steps);
    var e :| e in w3.server.log && e.key == key;
    assert v.server.log[|w3.server.log|].key == |w.minted|;
    assert v.minted[key] == v.minted[|w.minted|];
    TwoEntries(v, e, v.server.log[|w3.server.log|]);
  }

  lemma NewKeyUnused(w: World)
    requires Inv(w)
    ensures Unused(w.server, |w.minted|)
  {
    forall e | e in w.server.log ensures e.key != |w.minted| {
      var i :| 0 <= i < |w.server.log| && w.server.log[i] == e;
      assert EntryOk(w, e, w.server.burned[i]);
    }
  }

  /** The old key of an unclean change of key ends up in the log. */
  lemma OldKeyRecords(w: World, w2: World) returns (steps: seq<Step>, w3: World)
    requires Inv(w) && !w.prompt && !Clean(w) && Unused(w.server, |w.minted|)
    requires w2.server == w.server && w.net <= w2.net && !w2.prompt && w2.page.key == |w.minted| < |w2.minted|
    requires MayVerify(w2)
    ensures w3 == Run(w2, steps) && w3.minted == w2.minted && w3.page == w2.page && !w3.prompt
    ensures ServerOk(w3.server) && Unused(w3.server, |w.minted|)
    ensures exists e :: e in w3.server.log && e.key == w.page.key
  {
    if !Unused(w.server, w.page.key) {
      return [], w2;
    }
    var m :| m in w.net && m.Asked? && m.key == w.page.key && !Spent(w.server, m);
    var i :| 0 <= i < |w.net| && w.net[i] == m;
    assert w2.net[i] == m;
    UnspentRecords(w2, i);
    steps := [CancelAbsences(m.body.student)] + [Serve(i, Pass)];
    RunConcat(w2, [CancelAbsences(m.body.student)], [Serve(i, Pass)]);
    RunOne(w2, CancelAbsences(m.body.student));
    RunOne(Next(w2, CancelAbsences(m.body.student)), Serve(i, Pass));
    w3 := Next(Next(w2, CancelAbsences(m.body.student)), Serve(i, Pass));
    UnspentKeepsServer(w2, i);
    assert w3.server.log[|w.server.log|].key == w.page.key;
  }

  lemma UnspentKeepsServer(w: World, i: nat)
    requires w.page.key < |w.minted| && !w.prompt && i < |w.net| && w.net[i].Asked? && ServerOk(w.server)
    requires !Spent(w.server, w.net[i]) && Unused(w.server, w.net[i].key)
    ensures ServerOk(Next(Next(w, CancelAbsences(w.net[i].body.student)), Serve(i, Pass)).server)
  {
    var m := w.net[i];
    var u := Next(w, CancelAbsences(m.body.student));
    RecordKeepsServer(u.server, m.key, m.session, m.body);
  }

  lemma TwoEntries(w: World, e: Logged<Body>, f: Logged<Body>)
    requires e in w.server.log && f in w.server.log && e != f
    requires e.key < |w.minted| && f.key < |w.minted| && w.minted[e.key].epoch == w.minted[f.key].epoch
    ensures !OncePerLookup(w)
  {
    var i :| 0 <= i < |w.server.log| && w.server.log[i] == e;
    var j :| 0 <= j < |w.server.log| && w.server.log[j] == f;
    assert i < j || j < i;
  }

  // ---- Submissions get through ----

  /** The form can submit `body` and nothing is recorded under its key. */
  ghost predicate ReadyFor(w: World, body: Body) {
    && Inv(w) && w.page.phase.Idle? && w.page.student == Some(body.student)
    && (if w.page.staff then body.nickname.None? else w.page.verified) && Unused(w.server, w.page.key)
  }

  /** The page's session is good and the make-ups are free. */
  ghost predicate Welcome(w: World, body: Body) {
    Live(w.server, SessionOf(w.page)) && !Consumed(w.server, SessionOf(w.page)) && !Taken(body, w.server.booked)
  }

  lemma SubmitSends(w: World, body: Body)
    requires w.page.key < |w.minted| && MaySubmit(w.page) && w.page.student == Some(body.student)
    requires w.page.staff ==> body.nickname.None?
    ensures Next(w, PageEvent(Submit(body.nickname, body.sitIns, body.content))) ==
      w.(page := w.page.(phase := Waiting(w.sent, body, true, false)),
         net := w.net + [Asked(w.sent, w.page.key, SessionOf(w.page), body)], sent := w.sent + 1)
  {
    assert w.minted + [] == w.minted;
  }

  lemma AwaitedIsRecorded(w: World, i: nat)
    requires w.page.key < |w.minted| && i < |w.net| && w.net[i].Asked? && Servable(w, w.net[i])
    requires !Spent(w.server, w.net[i]) && !Taken(w.net[i].body, w.server.booked) && Unused(w.server, w.net[i].key)
    ensures var a := w.net[i];
      Next(w, Serve(i, Pass)) == w.(server := Record(w.server, a.key, a.session, a.body),
                                    net := w.net + [Replied(a.request, Recorded(a.body))])
  {
    RecordsWhenFit(w.server, w.net[i].key, w.net[i].session, w.net[i].body, Pass);
  }

  /** Delivering the answer that a batch was recorded finishes the form. */
  lemma RecordedIsShown(w: World, i: nat)
    requires w.page.key < |w.minted| && w.page.phase.Waiting? && i < |w.net|
    requires w.net[i] == Replied(w.page.phase.request, Recorded(w.page.phase.body))
    ensures Next(w, Deliver(i)) == w.(page := w.page.(phase := Done(w.page.phase.body)))
  {
    assert w.minted + [] == w.minted;
  }

  lemma ServedFromLog(w: World, i: nat, body: Body, c: Check)
    requires w.page.key < |w.minted| && i < |w.net| && w.net[i].Asked? && Servable(w, w.net[i])
    requires Find(w.server.log, w.net[i].key) == Some(body)
    ensures Next(w, Serve(i, c)) == w.(net := w.net + [Replied(w.net[i].request,
      if c.LoggedOut? || !Live(w.server, w.net[i].session) then Rejected(UNAUTHORIZED)
      else if w.net[i].body == body then Recorded(body) else Rejected("idempotency_key_reuse"))])
  {}

  lemma Resends(w: World)
    requires w.page.key < |w.minted| && w.page.phase.Waiting? && w.page.phase.retryLeft
    ensures Next(w, PageEvent(NetworkFailed)) ==
      w.(page := w.page.(phase := w.page.phase.(request := w.sent, retryLeft := false)),
         net := w.net + [Asked(w.sent, w.page.key, SessionOf(w.page), w.page.phase.body)], sent := w.sent + 1)
  {
    assert w.minted + [] == w.minted;
  }

  /** The page waits, its batch is the last record, and the answer is lost. */
  ghost predicate AnswerLost(w: World, n: nat, body: Body) {
    && w.page.key < |w.minted| && |w.net| == n + 2
    && w.page.phase.Waiting? && w.page.phase.body == body && w.page.phase.retryLeft
    && w.server.log != [] && w.server.log[|w.server.log| - 1] == Logged(w.page.key, body)
  }

  lemma SubmittedAndRecorded(w: World, body: Body)
    requires ReadyFor(w, body) && Welcome(w, body) && !Barred(body, w.server.named)
    ensures var served := Next(Next(w, PageEvent(Submit(body.nickname, body.sitIns, body.content))), Serve(|w.net|, Pass));
      && AnswerLost(served, |w.net|, body)
      && served.page == w.page.(phase := Waiting(w.sent, body, true, false)) && served.minted == w.minted
      && served.server == Record(w.server, w.page.key, SessionOf(w.page), body)
  {
    SubmitSends(w, body);
    AwaitedIsRecorded(Next(w, PageEvent(Submit(body.nickname, body.sitIns, body.content))), |w.net|);
  }

  /** Staff form: when the answer to a recorded batch is lost the resend gets the
      stored answer, the form finishes and the log grew by that one batch. */
  lemma StaffLostAnswerIsRecovered(w: World, body: Body, c: Check)
    requires ReadyFor(w, body) && w.page.staff && !Taken(body, w.server.booked) && !c.LoggedOut?
    ensures var n := |w.net|;
      var served := Next(Next(w, PageEvent(Submit(body.nickname, body.sitIns, body.content))), Serve(n, Pass));
      var end := Next(Next(Next(served, PageEvent(NetworkFailed)), Serve(n + 2, c)), Deliver(n + 3));
      end.page.phase == Done(body) && end.server.log == w.server.log + [Logged(w.page.key, body)]
  {
    var n := |w.net|;
    SubmittedAndRecorded(w, body);
    var served := Next(Next(w, PageEvent(Submit(body.nickname, body.sitIns, body.content))), Serve(n, Pass));
    Resends(served);
    var resent := Next(served, PageEvent(NetworkFailed));
    ServedFromLog(resent, n + 2, body, c);
    RecordedIsShown(Next(resent, Serve(n + 2, c)), n + 3);
  }

  /** Public form: the record burned the session, so the resend is logged out and
      the form asks for a new verification, keeping its key. */
  lemma PublicResendIsLoggedOut(w: World, body: Body, c: Check)
    requires ReadyFor(w, body) && !w.page.staff && Welcome(w, body) && !Barred(body, w.server.named)
    ensures var n := |w.net|;
      var served := Next(Next(w, PageEvent(Submit(body.nickname, body.sitIns, body.content))), Serve(n, Pass));
      var out := Next(Next(Next(served, PageEvent(NetworkFailed)), Serve(n + 2, c)), Deliver(n + 3));
      && out.page == w.page.(verified := false) && out.minted == w.minted
      && out.server == Record(w.server, w.page.key, w.page.cookie, body)
  {
    var n := |w.net|;
    SubmittedAndRecorded(w, body);
    var served := Next(Next(w, PageEvent(Submit(body.nickname, body.sitIns, body.content))), Serve(n, Pass));
    Resends(served);
    var resent := Next(served, PageEvent(NetworkFailed));
    ServedFromLog(resent, n + 2, body, c);
    LoggedOutIsShown(Next(resent, Serve(n + 2, c)), n + 3);
  }

  lemma LoggedOutIsShown(w: World, i: nat)
    requires w.page.key < |w.minted| && !w.page.staff && w.page.phase.Waiting? && i < |w.net|
    requires w.net[i] == Replied(w.page.phase.request, Rejected(UNAUTHORIZED))
    ensures Next(w, Deliver(i)) == w.(page := w.page.(phase := Idle, verified := false))
  {
    assert w.minted + [] == w.minted;
  }

  /** After a new verification the same key and body get the stored answer and
      nothing more is recorded; another body under that key is refused. */
  lemma ReverifiedSubmitReplays(w: World, recorded: Body, body: Body, c: Check)
    requires w.page.key < |w.minted| && ServerOk(w.server) && MayVerify(w) && !c.LoggedOut?
    requires Find(w.server.log, w.page.key) == Some(recorded) && w.page.student == Some(body.student)
    ensures var n := |w.net|;
      var asked := Next(Next(w, Verify), PageEvent(Submit(body.nickname, body.sitIns, body.content)));
      var end := Next(Next(asked, Serve(n, c)), Deliver(n + 1));
      && end.server.log == w.server.log && end.page.key == w.page.key
      && end.page.phase == if body == recorded then Done(body) else Idle
  {
    var n := |w.net|;
    var verified := Next(w, Verify);
    SubmitSends(verified, body);
    var asked := Next(verified, PageEvent(Submit(body.nickname, body.sitIns, body.content)));
    NewSessionIsGood(w, w.page.student.value);
    ServedFromLog(asked, n, recorded, c);
    var served := Next(asked, Serve(n, c));
    if body == recorded {
      RecordedIsShown(served, n + 1);
    } else {
      assert w.minted + [] == w.minted;
    }
  }

  /** The whole way on the public form: answer lost, resend logged out, verified
      again, submitted again, finished with one record. */
  lemma PublicLostAnswerIsRecovered(w: World, body: Body, c: Check, d: Check)
    requires ReadyFor(w, body) && !w.page.staff && Welcome(w, body) && !Barred(body, w.server.named) && !d.LoggedOut?
    ensures var n := |w.net|;
      var served := Next(Next(w, PageEvent(Submit(body.nickname, body.sitIns, body.content))), Serve(n, Pass));
      var out := Next(Next(Next(served, PageEvent(NetworkFailed)), Serve(n + 2, c)), Deliver(n + 3));
      var asked := Next(Next(out, Verify), PageEvent(Submit(body.nickname, body.sitIns, body.content)));
      var end := Next(Next(asked, Serve(|out.net|, d)), Deliver(|out.net| + 1));
      end.page.phase == Done(body) && end.server.log == w.server.log + [Logged(w.page.key, body)]
  {
    var n := |w.net|;
    PublicResendIsLoggedOut(w, body, c);
    var served := Next(Next(w, PageEvent(Submit(body.nickname, body.sitIns, body.content))), Serve(n, Pass));
    var out := Next(Next(Next(served, PageEvent(NetworkFailed)), Serve(n + 2, c)), Deliver(n + 3));
    CookieIsThere(w);
    RecordKeepsServer(w.server, w.page.key, w.page.cookie, body);
    ReverifiedSubmitReplays(out, body, body, d);
  }

  lemma CookieIsThere(w: World)
    requires Inv(w) && !w.page.staff && w.page.verified
    ensures w.page.cookie.Some? && w.page.cookie.value < |w.server.sessions| && VerificationOf(w.server, w.page.cookie).Some?
  {}

  /** A batch turned down for its nickname burns nothing and is recorded without
      it under a new key, and nothing else is. */
  lemma NicknameRefusalIsRecovered(w: World, body: Body)
    requires ReadyFor(w, body) && Welcome(w, body) && Barred(body, w.server.named)
    ensures var n := |w.net|;
      var refused := Next(Next(w, PageEvent(Submit(body.nickname, body.sitIns, body.content))), Serve(n, Pass));
      var end := Next(Next(Next(refused, Deliver(n + 1)), Serve(n + 2, Pass)), Deliver(n + 3));
      && end.page.phase == Done(body.(nickname := None))
      && end.server.log == w.server.log + [Logged(|w.minted|, body.(nickname := None))]
  {
    var n := |w.net|;
    SubmitSends(w, body);
    NewKeyUnused(w);
    var w1 := Next(w, PageEvent(Submit(body.nickname, body.sitIns, body.content)));
    AwaitedIsTurnedDown(w1, n);
    NamelessIsTaken(Next(w1, Serve(n, Pass)), n, body);
  }

  lemma AwaitedIsTurnedDown(w: World, i: nat)
    requires w.page.key < |w.minted| && i < |w.net| && w.net[i].Asked? && Servable(w, w.net[i])
    requires Barred(w.net[i].body, w.server.named) && Live(w.server, w.net[i].session) && Unused(w.server, w.net[i].key)
    ensures Next(w, Serve(i, Pass)) == w.(net := w.net + [Replied(w.net[i].request, Rejected(BAD_NICKNAME))])
  {}

  lemma NamelessIsTaken(w: World, n: nat, body: Body)
    requires w.page.key < |w.minted| && |w.net| == n + 2 && !w.page.staff && Unused(w.server, |w.minted|)
    requires w.page.phase.Waiting? && w.page.phase.body == body && !w.page.phase.second && Welcome(w, body)
    requires w.net[n + 1] == Replied(w.page.phase.request, Rejected(BAD_NICKNAME))
    ensures var end := Next(Next(Next(w, Deliver(n + 1)), Serve(n + 2, Pass)), Deliver(n + 3));
      && end.page.phase == Done(body.(nickname := None))
      && end.server.log == w.server.log + [Logged(|w.minted|, body.(nickname := None))]
  {
    RotationSends(w, w.net[n + 1]);
    var w1 := Next(w, Deliver(n + 1));
    AwaitedIsRecorded(w1, n + 2);
    RecordedIsShown(Next(w1, Serve(n + 2, Pass)), n + 3);
  }

  // ---- A double submission ----

  /** The first attempt, without a nickname, is cut off and may still arrive. */
  lemma CutOff(w: World, body: Body)
    requires w.page.key < |w.minted| && MaySubmit(w.page) && w.page.student == Some(body.student) && !w.page.staff
    ensures var sent := Next(w, PageEvent(Submit(body.nickname, body.sitIns, body.content)));
      var lost := Next(Next(sent, PageEvent(NetworkFailed)), PageEvent(NetworkFailed));
      && lost == w.(net := lost.net, sent := lost.sent) && |lost.net| == |w.net| + 2
      && lost.net[|w.net|] == Asked(w.sent, w.page.key, w.page.cookie, body)
  {
    SubmitSends(w, body);
    GivesUp(Next(w, PageEvent(Submit(body.nickname, body.sitIns, body.content))));
  }

  /** The student verified again and a nickname was put on file meanwhile. */
  function VerifiedAndNamed(w: World, student: string): World
    requires w.page.key < |w.minted|
  {
    Next(Next(w, Verify), NameStudent(student))
  }

  /** A new verification leaves an older session as good as it was, and differs. */
  lemma TakenUpApart(w: World, session: Option<nat>, student: string)
    requires w.page.key < |w.minted| && ServerOk(w.server) && MayVerify(w)
    requires session.Some? && session.value < |w.server.sessions|
    requires Live(w.server, session) && !Consumed(w.server, session)
    ensures var v := VerifiedAndNamed(w, student);
      && v == w.(page := w.page.(cookie := Some(|w.server.sessions|), verified := true), server := v.server)
      && v.server.log == w.server.log && v.server.booked == w.server.booked && student in v.server.named
      && Live(v.server, session) && !Consumed(v.server, session)
      && Live(v.server, v.page.cookie) && !Consumed(v.server, v.page.cookie)
      && VerificationOf(v.server, session) != VerificationOf(v.server, v.page.cookie)
  {
    NewSessionIsGood(w, w.page.student.value);
  }

  /** The second attempt, with a nickname, is refused. */
  lemma SecondAttemptRefused(w: World, body: Body, nickname: string)
    requires w.page.key < |w.minted| && !w.page.staff && MaySubmit(w.page) && w.page.student == Some(body.student)
    requires !w.prompt && body.student in w.server.named && Live(w.server, w.page.cookie) && Unused(w.server, w.page.key)
    ensures var named := body.(nickname := Some(nickname));
      Next(Next(w, PageEvent(Submit(Some(nickname), body.sitIns, body.content))), Serve(|w.net|, Pass)) ==
      w.(page := w.page.(phase := Waiting(w.sent, named, true, false)), sent := w.sent + 1,
         net := w.net + [Asked(w.sent, w.page.key, w.page.cookie, named), Replied(w.sent, Rejected(BAD_NICKNAME))])
  {
    var named := body.(nickname := Some(nickname));
    SubmitSends(w, named);
    var asked := Next(w, PageEvent(Submit(Some(nickname), body.sitIns, body.content)));
    AwaitedIsTurnedDown(asked, |w.net|);
    assert w.net + [Asked(w.sent, w.page.key, w.page.cookie, named)] + [Replied(w.sent, Rejected(BAD_NICKNAME))]
        == w.net + [Asked(w.sent, w.page.key, w.page.cookie, named), Replied(w.sent, Rejected(BAD_NICKNAME))];
  }

  /** With the first attempt still in flight under its own verification, the key
      that is now abandoned is not clean, and the same batch is recorded twice. */
  lemma DoubleSubmission(w: World, n: nat, body: Body)
    requires w.page.key < |w.minted| && !w.prompt && RotatesAt(w, Deliver(n + 3)) && |w.net| == n + 4
    requires w.net[n].Asked? && w.net[n].key == w.page.key && w.net[n].body == body
    requires body.nickname.None? && body.sitIns == {} && w.page.phase.body.(nickname := None) == body
    requires !Spent(w.server, w.net[n]) && Unused(w.server, w.page.key) && Unused(w.server, |w.minted|)
    requires Welcome(w, body) && VerificationOf(w.server, w.net[n].session) != VerificationOf(w.server, w.page.cookie)
    ensures !Clean(w)
    ensures var end := Next(Next(Next(w, Deliver(n + 3)), Serve(n + 4, Pass)), Serve(n, Pass));
      end.server.log == w.server.log + [Logged(|w.minted|, body), Logged(w.page.key, body)]
  {
    assert w.net[n] in w.net;
    RotationSends(w, w.net[n + 3]);
    var w1 := Next(w, Deliver(n + 3));
    AwaitedIsRecorded(w1, n + 4);
    var w2 := Next(w1, Serve(n + 4, Pass));
    OtherVerificationUnburned(w1.server, |w.minted|, w.page.cookie, body, w.net[n]);
    AwaitedIsRecorded(w2, n);
  }

  lemma OtherVerificationUnburned(s: Server, key: nat, session: Option<nat>, b: Body, m: Message)
    requires m.Asked? && !Spent(s, m) && m.body == b && b.nickname.None? && b.sitIns == {}
    requires VerificationOf(s, m.session) != VerificationOf(s, session) && Unused(s, m.key) && key != m.key
    ensures var t := Record(s, key, session, b);
      !Spent(t, m) && !Taken(b, t.booked) && Unused(t, m.key)
  {}

  /** All of it from a verified form: the promise that a retry creates no
      duplicate fails when the first attempt outlives a new verification. */
  lemma DoubleSubmissionIsReached(w: World, body: Body, nickname: string)
    requires ReadyFor(w, body) && !w.prompt && !w.page.staff && Welcome(w, body)
    requires body.nickname.None? && body.sitIns == {}
    ensures var n := |w.net|;
      var sent := Next(w, PageEvent(Submit(body.nickname, body.sitIns, body.content)));
      var lost := Next(Next(sent, PageEvent(NetworkFailed)), PageEvent(NetworkFailed));
      var asked := Next(VerifiedAndNamed(lost, body.student), PageEvent(Submit(Some(nickname), body.sitIns, body.content)));
      var rotated := Next(Next(asked, Serve(n + 2, Pass)), Deliver(n + 3));
      var end := Next(Next(rotated, Serve(n + 4, Pass)), Serve(n, Pass));
      end.server.log == w.server.log + [Logged(|w.minted|, body), Logged(w.page.key, body)]
  {
    CutOff(w, body);
    CookieIsThere(w);
    NewKeyUnused(w);
    var sent := Next(w, PageEvent(Submit(body.nickname, body.sitIns, body.content)));
    SecondAttemptDoubles(Next(Next(sent, PageEvent(NetworkFailed)), PageEvent(NetworkFailed)), |w.net|, w.page.cookie, body, nickname);
  }

  lemma SecondAttemptDoubles(w: World, n: nat, session: Option<nat>, body: Body, nickname: string)
    requires w.page.key < |w.minted| && ServerOk(w.server) && !w.prompt && MayVerify(w) && w.page.student == Some(body.student)
    requires Unused(w.server, w.page.key) && Unused(w.server, |w.minted|)
    requires |w.net| == n + 2 && w.net[n].Asked? && w.net[n] == Asked(w.net[n].request, w.page.key, session, body)
    requires session.Some? && session.value < |w.server.sessions| && Live(w.server, session) && !Consumed(w.server, session)
    requires body.nickname.None? && body.sitIns == {}
    ensures var asked := Next(VerifiedAndNamed(w, body.student), PageEvent(Submit(Some(nickname), body.sitIns, body.content)));
      var rotated := Next(Next(asked, Serve(n + 2, Pass)), Deliver(n + 3));
      var end := Next(Next(rotated, Serve(n + 4, Pass)), Serve(n, Pass));
      end.server.log == w.server.log + [Logged(|w.minted|, body), Logged(w.page.key, body)]
  {
    TakenUpApart(w, session, body.student);
    var known := VerifiedAndNamed(w, body.student);
    SecondAttemptRefused(known, body, nickname);
    var refused := Next(Next(known, PageEvent(Submit(Some(nickname), body.sitIns, body.content))), Serve(n + 2, Pass));
    DoubleSubmission(refused, n, body);
  }
}
