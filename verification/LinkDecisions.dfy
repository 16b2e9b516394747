/** Confirming and dismissing course link suggestions: the page keeps one key per
    decision across failures (CourseLinkSuggestionsPanel). */
module LinkDecisions {
  import opened JsCollections
  import opened IdempotentServer
  import Text

  datatype Kind = Confirm | Dismiss

  datatype Decision = Decision(source: string, partial: string, fingerprint: string, kind: Kind)

  function KindName(k: Kind): string {
    if k.Confirm? then "confirm" else "dismiss"
  }

  function ActionKey(d: Decision): string {
    d.source + [':'] + (d.partial + [':'] + (d.fingerprint + ":" + KindName(d.kind)))
  }

  /** Course ids are UUIDs; all that matters is that they hold no colon. */
  predicate Plain(d: Decision) {
    ':' !in d.source && ':' !in d.partial
  }

  lemma TailsAgree(f: string, g: string, k: Kind, l: Kind)
    requires f + ":" + KindName(k) == g + ":" + KindName(l)
    ensures f == g && k == l
  {
    var x, y := f + ":" + KindName(k), g + ":" + KindName(l);
    assert |x| == |f| + 8 && |y| == |g| + 8;
    assert x[|f| + 1] == KindName(k)[0] && y[|g| + 1] == KindName(l)[0];
    assert f == x[..|f|] && g == y[..|g|];
  }

  lemma ActionKeyInjective(d: Decision, e: Decision)
    requires Plain(d) && Plain(e) && ActionKey(d) == ActionKey(e)
    ensures d == e
  {
    var x, y := d.fingerprint + ":" + KindName(d.kind), e.fingerprint + ":" + KindName(e.kind);
    Text.SplitAtSeparator(d.source, e.source, d.partial + [':'] + x, e.partial + [':'] + y, ':');
    Text.SplitAtSeparator(d.partial, e.partial, x, y, ':');
    TailsAgree(d.fingerprint, e.fingerprint, d.kind, e.kind);
  }

  // ---- The panel ----

  datatype Action = Attempt(decision: Decision) | Conclude(decision: Decision) | Fail(decision: Decision)

  datatype Event = Sent(decision: Decision, key: nat) | Concluded(decision: Decision) | Failed(decision: Decision)

  /** The remembered keys, the supply of new ones, and what has happened. */
  datatype Panel = Panel(keys: map<string, nat>, next: nat, trace: seq<Event>)

  function KeyFor(p: Panel, d: Decision): nat {
    if ActionKey(d) in p.keys then p.keys[ActionKey(d)] else p.next
  }

  /** A success or `suggestion_changed` concludes; any other answer, or none, fails. */
  function Apply(p: Panel, a: Action): Panel {
    match a
    case Attempt(d) =>
      var key := KeyFor(p, d);
      Panel(p.keys[ActionKey(d) := key], if key == p.next then p.next + 1 else p.next, p.trace + [Sent(d, key)])
    case Conclude(d) => p.(keys := p.keys - {ActionKey(d)}, trace := p.trace + [Concluded(d)])
    case Fail(d) => p.(trace := p.trace + [Failed(d)])
  }

  function Run(actions: seq<Action>): Panel {
    if actions == [] then Panel(map[], 0, []) else Apply(Run(actions[..|actions| - 1]), actions[|actions| - 1])
  }

  class CourseLinkSuggestionsPanel {
    var mutationKeys: map<string, nat>

    constructor ()
      ensures mutationKeys == map[]
    {
      mutationKeys := map[];
    }

    /** The start of `confirmSuggestion` and `dismissSuggestion`. */
    method BeginDecision(d: Decision, newKey: nat) returns (key: nat)
      modifies this
      ensures forall trace :: var p := Panel(old(mutationKeys), newKey, trace);
                key == KeyFor(p, d) && mutationKeys == Apply(p, Attempt(d)).keys
    {
      key := if ActionKey(d) in mutationKeys then mutationKeys[ActionKey(d)] else newKey;
      mutationKeys := mutationKeys[ActionKey(d) := key];
    }

    method EndDecision(d: Decision, conclusive: bool)
      modifies this
      ensures forall trace, next :: var p := Panel(old(mutationKeys), next, trace);
                mutationKeys == Apply(p, if conclusive then Conclude(d) else Fail(d)).keys
    {
      if conclusive {
        mutationKeys := mutationKeys - {ActionKey(d)};
      }
    }
  }

  // ---- Keys over whole runs ----

  /** A conclusive answer for `d` lies between two points of the trace. */
  ghost predicate ConcludedBetween(t: seq<Event>, d: Decision, i: nat, j: nat) {
    exists n :: i < n < j <= |t| && t[n] == Concluded(d)
  }

  /** Two attempts carry the same key exactly when they are for the same
      decision with no conclusive answer between them. */
  ghost predicate KeysTellDecisions(t: seq<Event>) {
    forall i, j :: 0 <= i < j < |t| && t[i].Sent? && t[j].Sent? ==>
      (t[i].key == t[j].key <==> t[i].decision == t[j].decision && !ConcludedBetween(t, t[i].decision, i, j))
  }

  /** The last attempt for `d` that no conclusive answer follows, if any. */
  function Open(t: seq<Event>, d: Decision): (r: int)
    ensures -1 <= r < |t|
    ensures r >= 0 ==> t[r].Sent? && t[r].decision == d
  {
    if t == [] then -1
    else
      var n := |t| - 1;
      if t[n].decision != d then Open(t[..n], d)
      else if t[n].Sent? then n
      else if t[n].Concluded? then -1
      else Open(t[..n], d)
  }

  lemma BetweenLast(t: seq<Event>, d: Decision, i: nat)
    requires i < |t|
    ensures ConcludedBetween(t, d, i, |t|) <==>
            ConcludedBetween(t[..|t| - 1], d, i, |t| - 1) || (i < |t| - 1 && t[|t| - 1] == Concluded(d))
  {
    var u := t[..|t| - 1];
    if ConcludedBetween(t, d, i, |t|) {
      var n :| i < n < |t| && t[n] == Concluded(d);
      assert n < |u| ==> u[n] == Concluded(d);
    }
    if ConcludedBetween(u, d, i, |u|) {
      var n :| i < n < |u| && u[n] == Concluded(d);
      assert t[n] == Concluded(d);
    }
  }

  lemma {:induction false} OpenMeaning(t: seq<Event>, d: Decision, i: nat)
    requires i < |t| && t[i].Sent? && t[i].decision == d
    ensures Open(t, d) < 0 ==> ConcludedBetween(t, d, i, |t|)
    ensures Open(t, d) >= 0 ==> !ConcludedBetween(t, d, Open(t, d), |t|) && i <= Open(t, d)
  {
    var n := |t| - 1;
    BetweenLast(t, d, i);
    if Open(t, d) >= 0 { BetweenLast(t, d, Open(t, d)); }
    if i < n && !(t[n].decision == d && (t[n].Sent? || t[n].Concluded?)) {
      OpenMeaning(t[..n], d, i);
    }
  }

  /** The map holds the key of each open attempt and nothing else. */
  ghost predicate MapIsOpen(p: Panel, d: Decision) {
    && (ActionKey(d) in p.keys <==> Open(p.trace, d) >= 0)
    && (Open(p.trace, d) >= 0 ==> p.keys[ActionKey(d)] == p.trace[Open(p.trace, d)].key)
  }

  ghost predicate UsedBelow(p: Panel) {
    forall i :: 0 <= i < |p.trace| && p.trace[i].Sent? ==> p.trace[i].key < p.next
  }

  lemma MapStaysOpen(p: Panel, a: Action, d: Decision)
    requires MapIsOpen(p, d) && Plain(d) && Plain(a.decision)
    ensures MapIsOpen(Apply(p, a), d)
  {
    var q := Apply(p, a);
    assert q.trace[..|p.trace|] == p.trace;
    if a.decision != d {
      assert ActionKey(a.decision) != ActionKey(d) by {
        if ActionKey(a.decision) == ActionKey(d) { ActionKeyInjective(a.decision, d); }
      }
      assert Open(q.trace, d) == Open(p.trace, d);
    }
  }

  lemma OpenBelow(p: Panel, d: Decision)
    requires MapIsOpen(p, d) && UsedBelow(p) && ActionKey(d) in p.keys
    ensures p.keys[ActionKey(d)] < p.next
  {
    assert p.trace[Open(p.trace, d)].Sent?;
  }

  /** One more attempt against an earlier one. */
  lemma NewAttempt(p: Panel, d: Decision, i: nat)
    requires KeysTellDecisions(p.trace) && MapIsOpen(p, d) && UsedBelow(p)
    requires i < |p.trace| && p.trace[i].Sent?
    ensures p.trace[i].key == KeyFor(p, d) <==>
            p.trace[i].decision == d && !ConcludedBetween(p.trace, d, i, |p.trace|)
  {
    var t := p.trace;
    var o := Open(t, d);
    if o < 0 {
      if t[i].decision == d { OpenMeaning(t, d, i); }
    } else {
      OpenMeaning(t, d, o);
      OpenBelow(p, d);
      if t[i].decision == d { OpenMeaning(t, d, i); }
      if i > o {
        assert t[i].decision != d;
        assert t[o].key != t[i].key;
      } else if i < o {
        assert t[i].key == t[o].key <==> t[i].decision == d && !ConcludedBetween(t, t[i].decision, i, o);
        SplitGap(t, d, i, o);
      }
    }
  }

  lemma SplitGap(t: seq<Event>, d: Decision, i: nat, o: nat)
    requires i < o < |t| && t[o].Sent? && !ConcludedBetween(t, d, o, |t|)
    ensures ConcludedBetween(t, d, i, o) <==> ConcludedBetween(t, d, i, |t|)
  {
    if ConcludedBetween(t, d, i, |t|) {
      var n :| i < n < |t| && t[n] == Concluded(d);
      assert n < o;
    }
  }

  lemma BetweenSnoc(t: seq<Event>, e: Event, d: Decision, i: nat, j: nat)
    requires j <= |t|
    ensures ConcludedBetween(t + [e], d, i, j) <==> ConcludedBetween(t, d, i, j)
  {
    if ConcludedBetween(t + [e], d, i, j) {
      var n :| i < n < j && (t + [e])[n] == Concluded(d);
      assert t[n] == Concluded(d);
    }
    if ConcludedBetween(t, d, i, j) {
      var n :| i < n < j && t[n] == Concluded(d);
      assert (t + [e])[n] == Concluded(d);
    }
  }

  lemma StepKeepsKeys(p: Panel, a: Action)
    requires KeysTellDecisions(p.trace) && UsedBelow(p) && MapIsOpen(p, a.decision)
    ensures KeysTellDecisions(Apply(p, a).trace) && UsedBelow(Apply(p, a))
  {
    var t, u := p.trace, Apply(p, a).trace;
    if ActionKey(a.decision) in p.keys { OpenBelow(p, a.decision); }
    forall i, j | 0 <= i < j < |u| && u[i].Sent? && u[j].Sent?
      ensures u[i].key == u[j].key <==> u[i].decision == u[j].decision && !ConcludedBetween(u, u[i].decision, i, j)
    {
      BetweenSnoc(t, u[|t|], u[i].decision, i, j);
      if j == |t| {
        NewAttempt(p, a.decision, i);
      }
    }
  }

  ghost predicate AllPlain(actions: seq<Action>) {
    forall i :: 0 <= i < |actions| ==> Plain(actions[i].decision)
  }

  lemma {:induction false} MapIsOpenAlways(actions: seq<Action>, d: Decision)
    requires AllPlain(actions) && Plain(d)
    ensures MapIsOpen(Run(actions), d)
  {
    if actions != [] {
      MapIsOpenAlways(actions[..|actions| - 1], d);
      MapStaysOpen(Run(actions[..|actions| - 1]), actions[|actions| - 1], d);
    }
  }

  /** In every run of attempts, failures and conclusive answers: one key per
      decision between two conclusive answers, a new one after each, and never
      one key for two decisions. */
  lemma {:induction false} OneKeyPerDecision(actions: seq<Action>)
    requires AllPlain(actions)
    ensures KeysTellDecisions(Run(actions).trace) && UsedBelow(Run(actions))
  {
    if actions != [] {
      var init, a := actions[..|actions| - 1], actions[|actions| - 1];
      OneKeyPerDecision(init);
      MapIsOpenAlways(init, a.decision);
      StepKeepsKeys(Run(init), a);
    }
  }

  /** What happened at one action. */
  predicate Tells(e: Event, a: Action) {
    && e.decision == a.decision
    && (a.Attempt? <==> e.Sent?) && (a.Conclude? <==> e.Concluded?) && (a.Fail? <==> e.Failed?)
  }

  /** The trace tells of every action, in order. */
  lemma {:induction false} TraceIsComplete(actions: seq<Action>, i: nat)
    requires i < |actions|
    ensures |Run(actions).trace| == |actions| && Tells(Run(actions).trace[i], actions[i])
  {
    var n := |actions| - 1;
    if n > 0 { TraceIsComplete(actions[..n], if i < n then i else 0); }
  }

  // ---- With the replaying server ----

  datatype Body = Body(decision: Decision, content: string)

  /** Requests that reach the server were sent by the page, in any order, late,
      repeated or not at all. */
  ghost predicate SentByPage(trace: seq<Event>, requests: seq<Request<Body>>) {
    forall n :: 0 <= n < |requests| ==> Sent(requests[n].body.decision, requests[n].key) in trace
  }

  lemma {:induction false} LogComesFromPage(trace: seq<Event>, requests: seq<Request<Body>>)
    requires SentByPage(trace, requests)
    ensures forall e :: e in Serve([], requests) ==> Sent(e.body.decision, e.key) in trace
  {
    if requests != [] {
      LogComesFromPage(trace, requests[..|requests| - 1]);
    }
  }

  lemma EntryWasSent(trace: seq<Event>, requests: seq<Request<Body>>, e: Logged<Body>) returns (i: nat)
    requires SentByPage(trace, requests) && e in Serve([], requests)
    ensures i < |trace| && trace[i] == Sent(e.body.decision, e.key)
  {
    LogComesFromPage(trace, requests);
    i :| 0 <= i < |trace| && trace[i] == Sent(e.body.decision, e.key);
  }

  lemma DifferentKeysAreApart(t: seq<Event>, i: nat, j: nat)
    requires KeysTellDecisions(t) && i < |t| && j < |t| && t[i].Sent? && t[j].Sent?
    requires t[i].decision == t[j].decision && t[i].key != t[j].key
    ensures ConcludedBetween(t, t[i].decision, i, j) || ConcludedBetween(t, t[i].decision, j, i)
  {
    if i < j {
      assert t[i].key == t[j].key <==> t[i].decision == t[j].decision && !ConcludedBetween(t, t[i].decision, i, j);
    } else {
      assert t[j].key == t[i].key <==> t[j].decision == t[i].decision && !ConcludedBetween(t, t[j].decision, j, i);
    }
  }

  /** A decision is recorded at most once between two conclusive answers: two
      records of it stem from two attempts with such an answer between them. */
  lemma RecordedAtMostOnce(actions: seq<Action>, requests: seq<Request<Body>>, a: nat, b: nat) returns (i: nat, j: nat)
    requires AllPlain(actions) && SentByPage(Run(actions).trace, requests)
    requires a < b < |Serve([], requests)|
    requires Serve([], requests)[a].body.decision == Serve([], requests)[b].body.decision
    ensures var t, e, f := Run(actions).trace, Serve([], requests)[a], Serve([], requests)[b];
      && i < |t| && j < |t| && t[i] == Sent(e.body.decision, e.key) && t[j] == Sent(f.body.decision, f.key)
      && (ConcludedBetween(t, e.body.decision, i, j) || ConcludedBetween(t, e.body.decision, j, i))
  {
    var t, log := Run(actions).trace, Serve([], requests);
    i := EntryWasSent(t, requests, log[a]);
    j := EntryWasSent(t, requests, log[b]);
    EachKeyRecordsOnce<Body>([], requests);
    assert log[a].key != log[b].key;
    OneKeyPerDecision(actions);
    DifferentKeysAreApart(t, i, j);
  }
}
