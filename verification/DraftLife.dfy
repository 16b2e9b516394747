/** The life of an absence draft over page loads: resume, save effect, debounced
    write, reload, restore (AbsenceForm effects, useAbsenceDraft). One student. */
module DraftLife {
  import opened JsCollections
  import opened StudentLookup
  import opened DraftRestore

  const EMPTY := Selection([], {}, map[], map[])

  // ---- The debounced slot ----

  /** Values waiting to be written, and what the storage slot holds. */
  datatype Slot = Slot(pending: Option<Draft>, stored: Option<Draft>)

  function Saved(s: Slot, d: Draft): Slot {
    s.(pending := Some(d))
  }

  function Flushed(s: Slot): Slot {
    if s.pending.Some? then Slot(None, Some(Stored(s.pending.value))) else s
  }

  function Read(s: Slot): Option<Draft> {
    if s.stored.Some? then DraftRestore.Reload(s.stored.value) else None
  }

  class UseAbsenceDraft {
    var pendingRef: Option<Draft>
    var storage: Option<Draft>

    ghost function State(): Slot
      reads this
    {
      Slot(pendingRef, storage)
    }

    constructor (storage: Option<Draft>)
      ensures State() == Slot(None, storage)
    {
      pendingRef, this.storage := None, storage;
    }

    method SaveDraft(values: Draft)
      modifies this
      ensures State() == Saved(old(State()), values)
    {
      pendingRef := Some(values);
    }

    /** Run by the timer, on pagehide and on a change of visibility. */
    method FlushPending()
      modifies this
      ensures State() == Flushed(old(State()))
    {
      if pendingRef.None? { return; }
      storage := Some(Stored(pendingRef.value));
      pendingRef := None;
    }

    method ClearDraft()
      modifies this
      ensures State() == Slot(None, None)
    {
      pendingRef, storage := None, None;
    }
  }

  // ---- The page ----

  /** `memory` is the draft read when the page opened and not yet restored. */
  datatype Page = Page(
    memory: Option<Draft>, lookup: Option<string>, form: Selection, reason: string, email: Option<string>, step: nat,
    slot: Slot)

  /** The lookup lands, the timer fires, the user moves, types, opens the classes
      step (whose answer arrives) or edits the selection there, the page reloads. */
  datatype Event =
    | Land(wcode: string)
    | Timer
    | Move(step: nat)
    | Type(reason: string)
    | Classes(answer: Answer)
    | Edit(selection: Selection)
    | Reload

  function Open(slot: Slot): Page {
    var d := Read(slot);
    Page(d, None, EMPTY, if d.Some? then d.value.reason else "", if d.Some? then d.value.email else None, 0, slot)
  }

  /** A page that opens shows the reason and email of the draft it read, if any, and
      nothing of its selection yet. */
  lemma OpenShowsDraft(slot: Slot)
    ensures var p := Open(slot);
      && p.memory == Read(slot) && p.form == EMPTY && p.lookup == None && p.slot == slot && p.step == 0
      && (Read(slot).Some? ==> p.reason == Read(slot).value.reason && p.email == Read(slot).value.email)
      && (Read(slot).None? ==> p.reason == "" && p.email == None)
  {}

  /** The save effect: it runs after every change once a lookup has landed. */
  function SaveEffect(p: Page): Page {
    if p.lookup.None? then p
    else
      p.(slot := Saved(p.slot, Draft(p.lookup.value, p.email, p.step, p.form.subjectIds, p.form.sessionIds,
                                     p.form.sitIns, p.form.levels, p.reason)))
  }

  ghost function Next(p: Page, e: Event): Page {
    match e
    case Land(wcode) => if p.lookup.Some? then p else SaveEffect(p.(lookup := Some(wcode), form := EMPTY))
    case Timer => p.(slot := Flushed(p.slot))
    case Move(step) => if p.lookup.None? || step > 3 then p else SaveEffect(p.(step := step))
    case Type(reason) => if p.lookup.None? then p else SaveEffect(p.(reason := reason))
    case Classes(a) =>
      if p.lookup != Some(a.wcode) then p
      else if p.memory.Some? && Normal(p.memory.value.wcode) == a.wcode then
        SaveEffect(p.(form := Restored(p.memory.value, a), memory := None))
      else SaveEffect(p.(form := p.form.(subjectIds := KeepListed(p.form.subjectIds, a.subjectIds))))
    case Edit(s) => if p.lookup.None? || p.memory.Some? then p else SaveEffect(p.(form := s))
    case Reload => Open(Flushed(p.slot))
  }

  ghost function Run(p: Page, events: seq<Event>): Page {
    if events == [] then p else Next(Run(p, events[..|events| - 1]), events[|events| - 1])
  }

  /** The selection the page shows or can still give back. */
  function Held(p: Page): Selection {
    if p.memory.Some? then SelectionOf(p.memory.value) else p.form
  }

  // ---- What every run keeps ----

  ghost predicate Own(d: Draft, wcode: string) {
    d.wcode == wcode && d.step <= 3
  }

  ghost predicate OwnSlot(s: Slot, wcode: string) {
    (s.pending.Some? ==> Own(s.pending.value, wcode)) && (s.stored.Some? ==> Own(s.stored.value, wcode))
  }

  /** Before the lookup lands nothing is written, so memory is the slot; after
      it, what is written or waiting is the form, even while the form is still
      empty because the draft in memory waits for the classes step. */
  ghost predicate Inv(p: Page, wcode: string) {
    && IsWCode(wcode) && Normal(wcode) == wcode && p.step <= 3
    && OwnSlot(p.slot, wcode) && (p.memory.Some? ==> Own(p.memory.value, wcode))
    && (p.lookup.None? ==>
          && p.form == EMPTY && p.slot.pending.None? && (p.memory.None? <==> p.slot.stored.None?)
          && (p.memory.Some? ==> SelectionOf(p.memory.value) == SelectionOf(p.slot.stored.value)))
    && (p.lookup.Some? ==>
          && p.lookup.value == wcode && (p.memory.Some? ==> p.form == EMPTY)
          && (p.slot.pending.Some? ==> SelectionOf(p.slot.pending.value) == p.form)
          && (p.slot.pending.None? ==> p.slot.stored.Some? && SelectionOf(p.slot.stored.value) == p.form))
  }

  lemma ReadsBack(s: Slot, wcode: string)
    requires OwnSlot(s, wcode) && IsWCode(wcode) && Normal(wcode) == wcode
    ensures s.stored.Some? ==>
      Read(s).Some? && Own(Read(s).value, wcode) && SelectionOf(Read(s).value) == SelectionOf(s.stored.value)
  {}

  /** The save effect after any change of form, step or text. */
  lemma SaveEffectKeeps(p: Page, wcode: string)
    requires IsWCode(wcode) && Normal(wcode) == wcode && p.step <= 3 && p.lookup == Some(wcode)
    requires OwnSlot(p.slot, wcode) && (p.memory.Some? ==> Own(p.memory.value, wcode) && p.form == EMPTY)
    ensures Inv(SaveEffect(p), wcode)
  {}

  lemma ReloadKeeps(p: Page, wcode: string)
    requires Inv(p, wcode)
    ensures Inv(Next(p, Reload), wcode)
  {
    assert OwnSlot(Flushed(p.slot), wcode);
    ReadsBack(Flushed(p.slot), wcode);
  }

  lemma StepKeeps(p: Page, e: Event, wcode: string)
    requires Inv(p, wcode) && (e.Land? ==> e.wcode == wcode)
    ensures Inv(Next(p, e), wcode)
  {
    match e
    case Land(_) => if p.lookup.None? { SaveEffectKeeps(p.(lookup := Some(wcode), form := EMPTY), wcode); }
    case Timer => assert OwnSlot(Flushed(p.slot), wcode);
    case Move(step) => if p.lookup.Some? && step <= 3 { SaveEffectKeeps(p.(step := step), wcode); }
    case Type(reason) => if p.lookup.Some? { SaveEffectKeeps(p.(reason := reason), wcode); }
    case Classes(a) => ClassesKeep(p, a, wcode);
    case Edit(s) => if p.lookup.Some? && p.memory.None? { SaveEffectKeeps(p.(form := s), wcode); }
    case Reload => ReloadKeeps(p, wcode);
  }

  lemma ClassesKeep(p: Page, a: Answer, wcode: string)
    requires Inv(p, wcode)
    ensures Inv(Next(p, Classes(a)), wcode)
  {
    if p.lookup == Some(a.wcode) {
      if p.memory.Some? {
        SaveEffectKeeps(p.(form := Restored(p.memory.value, a), memory := None), wcode);
      } else {
        SaveEffectKeeps(p.(form := p.form.(subjectIds := KeepListed(p.form.subjectIds, a.subjectIds))), wcode);
      }
    }
  }

  ghost predicate SameStudent(events: seq<Event>, wcode: string) {
    forall i :: 0 <= i < |events| && events[i].Land? ==> events[i].wcode == wcode
  }

  lemma {:induction false} RunKeeps(p: Page, events: seq<Event>, wcode: string)
    requires Inv(p, wcode) && SameStudent(events, wcode)
    ensures Inv(Run(p, events), wcode)
  {
    if events != [] {
      RunKeeps(p, events[..|events| - 1], wcode);
      StepKeeps(Run(p, events[..|events| - 1]), events[|events| - 1], wcode);
    }
  }

  lemma OpenHolds(stored: Option<Draft>, wcode: string)
    requires IsWCode(wcode) && Normal(wcode) == wcode && (stored.Some? ==> Own(stored.value, wcode))
    ensures Inv(Open(Slot(None, stored)), wcode)
    ensures stored.Some? ==> Held(Open(Slot(None, stored))) == SelectionOf(stored.value)
  {
    ReadsBack(Slot(None, stored), wcode);
  }

  // ---- The rest of the draft ----

  /** What the save effect would write now. */
  function DraftOf(p: Page): Draft
    requires p.lookup.Some?
  {
    Draft(p.lookup.value, p.email, p.step, p.form.subjectIds, p.form.sessionIds, p.form.sitIns, p.form.levels, p.reason)
  }

  ghost predicate WrittenIsPage(p: Page) {
    p.lookup.Some? ==>
      || p.slot.pending == Some(DraftOf(p))
      || (p.slot.pending == None && p.slot.stored == Some(Stored(DraftOf(p))))
  }

  lemma EffectWrites(p: Page)
    ensures WrittenIsPage(SaveEffect(p))
  {}

  lemma StepWrites(p: Page, e: Event)
    requires WrittenIsPage(p)
    ensures WrittenIsPage(Next(p, e))
  {
    match e
    case Land(wcode) => if p.lookup.None? { EffectWrites(p.(lookup := Some(wcode), form := EMPTY)); }
    case Timer =>
    case Move(step) => if p.lookup.Some? && step <= 3 { EffectWrites(p.(step := step)); }
    case Type(reason) => if p.lookup.Some? { EffectWrites(p.(reason := reason)); }
    case Classes(a) =>
      if p.lookup == Some(a.wcode) {
        if p.memory.Some? && Normal(p.memory.value.wcode) == a.wcode {
          EffectWrites(p.(form := Restored(p.memory.value, a), memory := None));
        } else {
          EffectWrites(p.(form := p.form.(subjectIds := KeepListed(p.form.subjectIds, a.subjectIds))));
        }
      }
    case Edit(s) => if p.lookup.Some? && p.memory.None? { EffectWrites(p.(form := s)); }
    case Reload =>
  }

  lemma {:induction false} RunWrites(p: Page, events: seq<Event>)
    requires WrittenIsPage(p)
    ensures WrittenIsPage(Run(p, events))
  {
    if events != [] {
      RunWrites(p, events[..|events| - 1]);
      StepWrites(Run(p, events[..|events| - 1]), events[|events| - 1]);
    }
  }

  /** Over every run, once a lookup has landed a reload at any moment gives back the
      first 500 characters of the reason and the email unless it is blank, and the
      draft read holds the step. */
  lemma TextSurvives(start: Option<Draft>, events: seq<Event>, wcode: string)
    requires IsWCode(wcode) && Normal(wcode) == wcode && (start.Some? ==> Own(start.value, wcode))
    requires SameStudent(events, wcode) && Run(Open(Slot(None, start)), events).lookup.Some?
    ensures var p := Run(Open(Slot(None, start)), events);
      var q := Next(p, Reload);
      && q.reason == (if |p.reason| > 500 then p.reason[..500] else p.reason)
      && q.email == (if p.email == Some("") then None else p.email)
      && q.memory.Some? && q.memory.value.step == p.step
  {
    OpenHolds(start, wcode);
    RunKeeps(Open(Slot(None, start)), events, wcode);
    RunWrites(Open(Slot(None, start)), events);
    var p := Run(Open(Slot(None, start)), events);
    ReadBackExactly(DraftOf(p));
    ReadBackExactly(Stored(DraftOf(p)));
    NormalIdempotent(wcode);
    WCodeOfNormalExactly(wcode);
  }

  /** Before a lookup only it, the timer and a reload do anything; afterwards the
      user's steps, texts and edits are shown as given, an edit only once the draft
      read has been restored. The timer writes what waits and shows the same. */
  lemma EventsExactly(p: Page, step: nat, reason: string, s: Selection, wcode: string)
    ensures p.lookup.None? ==> Next(p, Move(step)) == Next(p, Event.Type(reason)) == Next(p, Edit(s)) == p
    ensures p.lookup.None? ==> Next(p, Land(wcode)) == p.(lookup := Some(wcode), form := EMPTY, slot := Next(p, Land(wcode)).slot)
    ensures p.lookup.Some? ==>
      && Next(p, Land(wcode)) == p
      && Next(p, Event.Type(reason)) == p.(reason := reason, slot := Next(p, Event.Type(reason)).slot)
      && Next(p, Move(step)) == (if step <= 3 then p.(step := step, slot := Next(p, Move(step)).slot) else p)
      && Next(p, Edit(s)) == (if p.memory.None? then p.(form := s, slot := Next(p, Edit(s)).slot) else p)
    ensures Next(p, Timer) == p.(slot := Next(p, Timer).slot) && Next(p, Timer).slot.pending == None
    ensures p.slot.pending.None? ==> Next(p, Timer) == p
    ensures p.slot.pending.Some? ==> Next(p, Timer).slot.stored == Some(Stored(p.slot.pending.value))
  {}

  // ---- When a selection survives ----

  /** The lookup has landed but the classes step has not been opened yet. */
  predicate Waiting(p: Page) {
    p.lookup.Some? && p.memory.Some?
  }

  /** A reload keeps the selection exactly when it does not fall between the
      lookup and the classes step, or there is nothing to keep: the save effect
      has an empty form waiting there, and the reload writes it. */
  lemma ReloadKeepsExactly(p: Page, wcode: string)
    requires Inv(p, wcode)
    ensures Held(Next(p, Reload)) == if Waiting(p) then EMPTY else Held(p)
  {
    ReadsBack(Flushed(p.slot), wcode);
  }

  /** What the user would have with no page ever reloading: the stored selection,
      as the server's answers cut it and edits change it. */
  ghost function Owed(p: Page, events: seq<Event>): Selection {
    if events == [] then Held(p)
    else
      var init, e := events[..|events| - 1], events[|events| - 1];
      var q, s := Run(p, init), Owed(p, init);
      match e
      case Edit(t) => if q.lookup.None? || q.memory.Some? then s else t
      case Classes(a) =>
        if q.lookup != Some(a.wcode) then s
        else if q.memory.Some? then Restored(Save(q.memory.value, s), a)
        else s.(subjectIds := KeepListed(s.subjectIds, a.subjectIds))
      case _ => s
  }

  /** Some reload falls between a lookup and the classes step. */
  ghost predicate ReloadsWaiting(p: Page, events: seq<Event>) {
    events != [] &&
      var init, e := events[..|events| - 1], events[|events| - 1];
      ReloadsWaiting(p, init) || (e.Reload? && Waiting(Run(p, init)))
  }

  /** One step short of the classes step. */
  lemma HeldAfter(p: Page, e: Event, wcode: string)
    requires Inv(p, wcode) && (e.Land? ==> e.wcode == wcode) && !e.Classes?
    ensures Held(Next(p, e)) ==
      if e.Reload? && Waiting(p) then EMPTY
      else if e.Edit? && p.lookup.Some? && p.memory.None? then e.selection
      else Held(p)
    ensures p.memory.Some? ==> Next(p, e).memory.Some?
  {
    if e.Reload? {
      ReloadKeepsExactly(p, wcode);
      ReadsBack(Flushed(p.slot), wcode);
    }
  }

  lemma RestoredBySelection(d: Draft, a: Answer)
    ensures Restored(Save(d, SelectionOf(d)), a) == Restored(d, a)
  {
    assert Save(d, SelectionOf(d)) == d;
  }

  /** Over every run without such a reload the page holds exactly what the user
      is owed, through any number of reloads, timers and edits. */
  lemma {:induction false} SelectionSurvives(p: Page, events: seq<Event>, wcode: string)
    requires Inv(p, wcode) && SameStudent(events, wcode) && !ReloadsWaiting(p, events)
    ensures Held(Run(p, events)) == Owed(p, events)
  {
    if events != [] {
      var init, e := events[..|events| - 1], events[|events| - 1];
      SelectionSurvives(p, init, wcode);
      RunKeeps(p, init, wcode);
      var q := Run(p, init);
      if !e.Classes? {
        HeldAfter(q, e, wcode);
      } else if q.memory.Some? {
        RestoredBySelection(q.memory.value, e.answer);
      }
    }
  }

  ghost predicate Waits(events: seq<Event>) {
    forall i :: 0 <= i < |events| ==> !events[i].Classes?
  }

  /** Until the classes step is opened, a stored selection is still there after a
      run exactly when no reload came after a lookup had landed. */
  lemma {:induction false} StoredSurvivesExactly(p: Page, events: seq<Event>, wcode: string)
    requires Inv(p, wcode) && p.memory.Some? && Held(p) != EMPTY
    requires SameStudent(events, wcode) && Waits(events)
    ensures Run(p, events).memory.Some?
    ensures Held(Run(p, events)) == if ReloadsWaiting(p, events) then EMPTY else Held(p)
  {
    if events != [] {
      var init, e := events[..|events| - 1], events[|events| - 1];
      StoredSurvivesExactly(p, init, wcode);
      RunKeeps(p, init, wcode);
      HeldAfter(Run(p, init), e, wcode);
    }
  }

  /** After a landed lookup a reload reads the form back, full or empty. */
  lemma ReloadedForm(p: Page, wcode: string)
    requires Inv(p, wcode) && p.lookup.Some?
    ensures var q := Next(p, Reload);
      q.lookup.None? && q.memory.Some? && q.memory.value.wcode == wcode && SelectionOf(q.memory.value) == p.form
  {
    ReadsBack(Flushed(p.slot), wcode);
  }

  lemma LandsAndRestores(q: Page, a: Answer)
    requires q.lookup.None? && q.memory.Some? && q.memory.value.wcode == a.wcode == Normal(a.wcode)
    ensures Next(Next(q, Land(a.wcode)), Classes(a)).form == Restored(q.memory.value, a)
  {}

  lemma SameSelectionSameRestore(d: Draft, a: Answer, s: Selection)
    requires SelectionOf(d) == s && Valid(s, a)
    ensures Restored(d, a) == s
  {
    RoundTripExactly(d, a, s);
    assert Save(d, s) == d;
  }

  /** After the classes step: reload, lookup and classes with the same answer give
      a valid selection back. */
  lemma ResumeIsSeamless(p: Page, a: Answer, wcode: string)
    requires Inv(p, wcode) && p.lookup.Some? && p.memory.None? && a.wcode == wcode && Valid(p.form, a)
    ensures Next(Next(Next(p, Reload), Land(wcode)), Classes(a)).form == p.form
  {
    ReloadedForm(p, wcode);
    LandsAndRestores(Next(p, Reload), a);
    SameSelectionSameRestore(Next(p, Reload).memory.value, a, p.form);
  }

  /** Before it: the same steps show an empty selection, whatever was stored. */
  lemma EarlyReloadLoses(p: Page, a: Answer, wcode: string)
    requires Inv(p, wcode) && Waiting(p) && a.wcode == wcode
    ensures Next(Next(Next(p, Reload), Land(wcode)), Classes(a)).form == EMPTY
  {
    ReloadedForm(p, wcode);
    LandsAndRestores(Next(p, Reload), a);
    SameSelectionSameRestore(Next(p, Reload).memory.value, a, EMPTY);
  }
}
