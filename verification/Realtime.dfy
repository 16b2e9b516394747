/** The debounced event coalescer (useRealtime): a pending map and one timer. */
module Realtime {
  import opened JsCollections
  import Text

  datatype Event = Event(kind: string, channel: string, id: Option<string>, payload: int)

  function IdOrKind(e: Event): string {
    if e.id.Some? then e.id.value else e.kind
  }

  function EventKey(e: Event): string {
    e.channel + ['\0'] + IdOrKind(e)
  }

  /** Both have one id, or one type where both have none, or the one's id is the
      type of the other, which has none. */
  predicate SameSubject(a: Event, b: Event) {
    || (a.id.Some? && b.id.Some? && a.id == b.id)
    || (a.id.None? && b.id.None? && a.kind == b.kind)
    || (a.id.Some? && b.id.None? && a.id.value == b.kind)
    || (a.id.None? && b.id.Some? && b.id.value == a.kind)
  }

  /** On channels without a NUL, events share a key exactly when they share the
      channel and the subject. */
  lemma EventKeyExactly(a: Event, b: Event)
    requires '\0' !in a.channel && '\0' !in b.channel
    ensures EventKey(a) == EventKey(b) <==> a.channel == b.channel && SameSubject(a, b)
  {
    if EventKey(a) == EventKey(b) {
      Text.SplitAtSeparator(a.channel, b.channel, IdOrKind(a), IdOrKind(b), '\0');
    }
  }

  // ---- The implementation ----

  /** The pending map, the time the timer is due, and the events handed over. */
  datatype Coalescer = Coalescer(pending: JsMap<string, Event>, due: Option<int>, delivered: seq<Event>)

  datatype Input = Arrive(event: Event, at: int) | Tick(at: int) | Cleanup

  function Next(c: Coalescer, debounceMs: int, i: Input): Coalescer {
    match i
    case Arrive(e, at) =>
      if debounceMs <= 0 then c.(delivered := c.delivered + [e])
      else c.(pending := Put(c.pending, EventKey(e), e), due := Some(at + debounceMs))
    case Tick(at) =>
      if c.due.Some? && at >= c.due.value then Coalescer([], None, c.delivered + Values(c.pending)) else c
    case Cleanup => Coalescer([], None, c.delivered)
  }

  function Run(debounceMs: int, inputs: seq<Input>): Coalescer {
    if inputs == [] then Coalescer([], None, [])
    else Next(Run(debounceMs, inputs[..|inputs| - 1]), debounceMs, inputs[|inputs| - 1])
  }

  class UseRealtime {
    const debounceMs: int
    var pendingEvents: JsMap<string, Event>
    var timer: Option<int>
    var onEventCalls: seq<Event>

    ghost function State(): Coalescer
      reads this
    {
      Coalescer(pendingEvents, timer, onEventCalls)
    }

    constructor (debounceMs: int)
      ensures State() == Coalescer([], None, []) && this.debounceMs == debounceMs
    {
      this.debounceMs, pendingEvents, timer, onEventCalls := debounceMs, [], None, [];
    }

    method HandleEvent(event: Event, now: int)
      modifies this
      ensures State() == Next(old(State()), debounceMs, Arrive(event, now))
    {
      if debounceMs <= 0 {
        onEventCalls := onEventCalls + [event];
        return;
      }
      pendingEvents := Put(pendingEvents, EventKey(event), event);
      timer := Some(now + debounceMs);
    }

    method OnTimer(now: int)
      modifies this
      ensures State() == Next(old(State()), debounceMs, Tick(now))
    {
      if timer.None? || now < timer.value { return; }
      timer := None;
      var events := Values(pendingEvents);
      pendingEvents := [];
      for n := 0 to |events|
        invariant pendingEvents == [] && timer == None
        invariant onEventCalls == old(onEventCalls) + events[..n]
      {
        onEventCalls := onEventCalls + [events[n]];
      }
      assert events[..|events|] == events;
    }

    method OnCleanup()
      modifies this
      ensures State() == Next(old(State()), debounceMs, Cleanup)
    {
      timer, pendingEvents := None, [];
    }
  }

  // ---- The simple form ----

  /** The events since the last flush or cleanup, the flushed and the dropped
      stretches before, and the time of the last arrival. */
  datatype Ideal = Ideal(window: seq<Event>, flushed: seq<seq<Event>>, dropped: seq<seq<Event>>, last: int)

  function NextIdeal(s: Ideal, debounceMs: int, i: Input): Ideal {
    match i
    case Arrive(e, at) =>
      if debounceMs <= 0 then s.(flushed := s.flushed + [[e]]) else s.(window := s.window + [e], last := at)
    case Tick(at) =>
      if s.window != [] && at >= s.last + debounceMs then s.(window := [], flushed := s.flushed + [s.window]) else s
    case Cleanup => s.(window := [], dropped := s.dropped + [s.window])
  }

  function RunIdeal(debounceMs: int, inputs: seq<Input>): Ideal {
    if inputs == [] then Ideal([], [], [], 0)
    else NextIdeal(RunIdeal(debounceMs, inputs[..|inputs| - 1]), debounceMs, inputs[|inputs| - 1])
  }

  /** The last event per key, in order of first arrival (LatestKeys, LatestValue). */
  function Coalesced(window: seq<Event>): seq<Event> {
    Values(Latest(window, EventKey))
  }

  function AllCoalesced(flushed: seq<seq<Event>>): seq<Event> {
    if flushed == [] then [] else AllCoalesced(flushed[..|flushed| - 1]) + Coalesced(flushed[|flushed| - 1])
  }

  lemma AllCoalescedSnoc(flushed: seq<seq<Event>>, w: seq<Event>)
    ensures AllCoalesced(flushed + [w]) == AllCoalesced(flushed) + Coalesced(w)
  {
    assert (flushed + [w])[..|flushed|] == flushed;
  }

  lemma CoalescedSingle(e: Event)
    ensures Coalesced([e]) == [e]
  {
    assert Latest([], EventKey) == [];
    assert [e][..0] == [];
    assert Latest([e], EventKey) == [Entry(EventKey(e), e)];
  }

  ghost predicate Refines(c: Coalescer, s: Ideal, debounceMs: int) {
    && c.pending == Latest(s.window, EventKey)
    && c.due == (if s.window == [] then None else Some(s.last + debounceMs))
    && c.delivered == AllCoalesced(s.flushed)
  }

  lemma ArriveRefines(c: Coalescer, s: Ideal, debounceMs: int, e: Event, at: int)
    requires Refines(c, s, debounceMs)
    ensures Refines(Next(c, debounceMs, Arrive(e, at)), NextIdeal(s, debounceMs, Arrive(e, at)), debounceMs)
  {
    if debounceMs <= 0 {
      AllCoalescedSnoc(s.flushed, [e]);
      CoalescedSingle(e);
    } else {
      assert (s.window + [e])[..|s.window|] == s.window;
    }
  }

  lemma TickRefines(c: Coalescer, s: Ideal, debounceMs: int, at: int)
    requires Refines(c, s, debounceMs)
    ensures Refines(Next(c, debounceMs, Tick(at)), NextIdeal(s, debounceMs, Tick(at)), debounceMs)
  {
    AllCoalescedSnoc(s.flushed, s.window);
  }

  /** For every input sequence: the timer is armed exactly while events are
      pending and due one delay after the last arrival, and each flush hands
      over the last event per key in order of first arrival since the last. */
  lemma {:induction false} RunRefines(debounceMs: int, inputs: seq<Input>)
    ensures Refines(Run(debounceMs, inputs), RunIdeal(debounceMs, inputs), debounceMs)
  {
    if inputs != [] {
      RunRefines(debounceMs, inputs[..|inputs| - 1]);
      var c, s := Run(debounceMs, inputs[..|inputs| - 1]), RunIdeal(debounceMs, inputs[..|inputs| - 1]);
      match inputs[|inputs| - 1]
      case Arrive(e, at) => ArriveRefines(c, s, debounceMs, e, at);
      case Tick(at) => TickRefines(c, s, debounceMs, at);
      case Cleanup =>
    }
  }

  /** An event that arrives alone is held back for exactly the delay: a tick before
      that delivers nothing, a tick from then on delivers it and everything pending
      since the last delivery, and a cleanup drops it. */
  lemma DelayExactly(debounceMs: int, inputs: seq<Input>, e: Event, at: int, now: int)
    requires debounceMs > 0
    ensures var c := Run(debounceMs, inputs);
      var d := Next(c, debounceMs, Arrive(e, at));
      && d.delivered == c.delivered && e in Values(d.pending)
      && Next(d, debounceMs, Cleanup).delivered == c.delivered && Next(d, debounceMs, Cleanup).pending == []
      && if now < at + debounceMs then Next(d, debounceMs, Tick(now)) == d
         else Next(d, debounceMs, Tick(now)) == Coalescer([], None, c.delivered + Values(d.pending))
  {
    var c := Run(debounceMs, inputs);
    var d := Next(c, debounceMs, Arrive(e, at));
    PutThenFind(c.pending, EventKey(e), e, EventKey(e));
    assert Values(d.pending)[IndexOf(d.pending, EventKey(e))] == e;
  }

  /** Without a delay every event is delivered as it arrives. */
  lemma NoDelayDelivers(debounceMs: int, inputs: seq<Input>, e: Event, at: int)
    requires debounceMs <= 0
    ensures var c := Run(debounceMs, inputs);
      Next(c, debounceMs, Arrive(e, at)) == c.(delivered := c.delivered + [e])
  {}

  lemma {:induction false} LatestEmptyExactly(window: seq<Event>)
    ensures Latest(window, EventKey) == [] <==> window == []
  {
    LatestKeys(window, EventKey);
    if window != [] {
      assert KeysOf(window, EventKey)[0] in Firsts(KeysOf(window, EventKey));
    }
  }

  /** The timer is armed exactly when the pending map is non-empty. */
  lemma ArmedWhenPending(debounceMs: int, inputs: seq<Input>)
    ensures Run(debounceMs, inputs).due.Some? <==> Run(debounceMs, inputs).pending != []
  {
    RunRefines(debounceMs, inputs);
    LatestEmptyExactly(RunIdeal(debounceMs, inputs).window);
  }

  // ---- No event goes missing ----

  function Arrivals(inputs: seq<Input>): seq<Event> {
    if inputs == [] then []
    else
      var i := inputs[|inputs| - 1];
      Arrivals(inputs[..|inputs| - 1]) + if i.Arrive? then [i.event] else []
  }

  /** Everything a state accounts for. */
  function Accounted(s: Ideal): multiset<Event> {
    multiset(Flatten(s.flushed)) + multiset(Flatten(s.dropped)) + multiset(s.window)
  }

  lemma StepAccounts(s: Ideal, debounceMs: int, i: Input)
    ensures Accounted(NextIdeal(s, debounceMs, i)) == if i.Arrive? then Accounted(s) + multiset{i.event} else Accounted(s)
  {
    match i
    case Arrive(e, at) => if debounceMs <= 0 { FlattenSnoc(s.flushed, [e]); }
    case Tick(at) => FlattenSnoc(s.flushed, s.window);
    case Cleanup => FlattenSnoc(s.dropped, s.window);
  }

  /** Every arrival lies in exactly one flushed stretch, one dropped stretch, or
      the pending window. */
  lemma {:induction false} EveryArrivalIsSomewhere(debounceMs: int, inputs: seq<Input>)
    ensures multiset(Arrivals(inputs)) == Accounted(RunIdeal(debounceMs, inputs))
  {
    if inputs != [] {
      EveryArrivalIsSomewhere(debounceMs, inputs[..|inputs| - 1]);
      StepAccounts(RunIdeal(debounceMs, inputs[..|inputs| - 1]), debounceMs, inputs[|inputs| - 1]);
    }
  }

  ghost predicate Superseded(window: seq<Event>, n: nat)
    requires n < |window|
  {
    exists j :: n < j < |window| && EventKey(window[j]) == EventKey(window[n])
  }

  /** Where the coalesced stretch shows the key of its `n`-th event. */
  function Slot(window: seq<Event>, n: nat): int
    requires n < |window|
  {
    IndexOf(Latest(window, EventKey), EventKey(window[n]))
  }

  /** Every key of a stretch is handed over, and an event with no later one of
      its key is the one handed over for it; so each arrival is delivered,
      superseded, pending or dropped. */
  lemma {:induction false} DeliveredUnlessSuperseded(window: seq<Event>, n: nat)
    requires n < |window|
    ensures 0 <= Slot(window, n) < |Coalesced(window)|
    ensures !Superseded(window, n) ==> Coalesced(window)[Slot(window, n)] == window[n]
  {
    var last := |window| - 1;
    var init, x := window[..last], window[last];
    PutThenFind(Latest(init, EventKey), EventKey(x), x, EventKey(window[n]));
    if n < last {
      DeliveredUnlessSuperseded(init, n);
      if !Superseded(window, n) {
        assert EventKey(x) != EventKey(window[n]);
        StillUnsuperseded(window, n);
      }
    }
  }

  lemma StillUnsuperseded(window: seq<Event>, n: nat)
    requires n < |window| - 1 && !Superseded(window, n)
    ensures !Superseded(window[..|window| - 1], n)
  {
    var init := window[..|window| - 1];
    forall j | n < j < |init| ensures EventKey(init[j]) != EventKey(init[n]) {
      assert window[j] == init[j];
    }
  }

  lemma {:induction false} PutThenFind(m: JsMap<string, Event>, k: string, x: Event, q: string)
    ensures var r := Put(m, k, x);
      && (q == k ==> IndexOf(r, q) >= 0 && r[IndexOf(r, q)].value == x)
      && (q != k && IndexOf(m, q) >= 0 ==> IndexOf(r, q) == IndexOf(m, q) && r[IndexOf(r, q)] == m[IndexOf(m, q)])
  {
    if m != [] {
      var i := IndexOf(m, k);
      PutThenFind(m[1..], k, x, q);
      if m[0].key == k {
        assert Put(m, k, x)[1..] == m[1..];
      } else {
        assert Put(m, k, x)[1..] == Put(m[1..], k, x);
      }
    }
  }
}
