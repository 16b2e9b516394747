/** The bounded undo history of level edits (useLevelHistory). */
module LevelHistory {
  import opened JsCollections

  const MAX_DEPTH := 20

  datatype Snapshot = Snapshot(id: nat, description: string, before: map<string, Option<int>>, after: map<string, Option<int>>)

  datatype Action = Push(snapshot: Snapshot) | Undo

  function LastOf(s: seq<Snapshot>, n: nat): seq<Snapshot> {
    if |s| <= n then s else s[|s| - n..]
  }

  function Next(s: seq<Snapshot>, a: Action): seq<Snapshot> {
    match a
    case Push(x) => LastOf(s + [x], MAX_DEPTH)
    case Undo => if s == [] then s else s[..|s| - 1]
  }

  function Run(start: seq<Snapshot>, actions: seq<Action>): seq<Snapshot> {
    if actions == [] then start else Next(Run(start, actions[..|actions| - 1]), actions[|actions| - 1])
  }

  // ---- The simple form: an unbounded stack that pops while the capped one can ----

  function RunUnbounded(start: seq<Snapshot>, actions: seq<Action>): seq<Snapshot> {
    if actions == [] then start
    else
      var init, a := actions[..|actions| - 1], actions[|actions| - 1];
      var s := RunUnbounded(start, init);
      match a
      case Push(x) => s + [x]
      case Undo => if Run(start, init) == [] || s == [] then s else s[..|s| - 1]
  }

  ghost predicate IsTop(capped: seq<Snapshot>, full: seq<Snapshot>) {
    |capped| <= |full| && capped == full[|full| - |capped|..]
  }

  /** The capped history is always the top of the unbounded stack, at most
      twenty entries of it. */
  lemma {:induction false} CappedIsTop(start: seq<Snapshot>, actions: seq<Action>)
    requires |start| <= MAX_DEPTH
    ensures |Run(start, actions)| <= MAX_DEPTH
    ensures IsTop(Run(start, actions), RunUnbounded(start, actions))
  {
    if actions != [] {
      var init, a := actions[..|actions| - 1], actions[|actions| - 1];
      CappedIsTop(start, init);
      var capped, full := Run(start, init), RunUnbounded(start, init);
      match a
      case Push(x) => assert (full + [x])[|full| - |capped|..] == capped + [x];
      case Undo =>
    }
  }

  function Pushes(xs: seq<Snapshot>): seq<Action> {
    seq(|xs|, i requires 0 <= i < |xs| => Push(xs[i]))
  }

  lemma {:induction false} AfterPushes(start: seq<Snapshot>, xs: seq<Snapshot>)
    requires |start| <= MAX_DEPTH
    ensures Run(start, Pushes(xs)) == LastOf(start + xs, MAX_DEPTH)
  {
    if xs == [] {
      assert start + xs == start;
    } else {
      var init, x := xs[..|xs| - 1], xs[|xs| - 1];
      assert Pushes(xs)[..|xs| - 1] == Pushes(init);
      AfterPushes(start, init);
      assert start + xs == (start + init) + [x];
    }
  }

  function Undone(s: seq<Snapshot>, k: nat): seq<Snapshot> {
    if k == 0 then s else Next(Undone(s, k - 1), Undo)
  }

  lemma LastOfFromTop(xs: seq<Snapshot>, n: nat, k: nat)
    requires k < n && k < |xs|
    ensures var kept := LastOf(xs, n); k < |kept| && kept[|kept| - 1 - k] == xs[|xs| - 1 - k]
  {}

  /** After any pushes, the k-th undo (k up to twenty) finds the k-th last push on
      top; later undos find nothing. */
  lemma UndoReturnsLastPushes(xs: seq<Snapshot>, k: nat)
    ensures var s := Undone(Run([], Pushes(xs)), k);
      if k < 20 && k < |xs| then s != [] && s[|s| - 1] == xs[|xs| - 1 - k] else s == []
  {
    var kept := LastOf(xs, MAX_DEPTH);
    assert Run([], Pushes(xs)) == kept by {
      AfterPushes([], xs);
      assert [] + xs == xs;
    }
    UndoneIsPrefix(kept, k);
    if k < MAX_DEPTH && k < |xs| { LastOfFromTop(xs, MAX_DEPTH, k); }
  }

  lemma {:induction false} UndoneIsPrefix(s: seq<Snapshot>, k: nat)
    ensures Undone(s, k) == if k <= |s| then s[..|s| - k] else []
  {
    if k > 0 { UndoneIsPrefix(s, k - 1); }
  }

  // ---- Storage ----

  /** What the storage slot may hold: nothing, text that is no JSON array, or one. */
  datatype Stored = Absent | NotAnArray | Items(items: seq<Snapshot>)

  function Load(s: Stored): (r: seq<Snapshot>)
    ensures |r| <= MAX_DEPTH
  {
    if s.Items? then LastOf(s.items, MAX_DEPTH) else []
  }

  /** Whatever the slot held at the start, saving and reloading the history at
      any later point gives it back. */
  lemma SaveThenReload(slot: Stored, actions: seq<Action>)
    ensures Load(Items(Run(Load(slot), actions))) == Run(Load(slot), actions)
  {
    CappedIsTop(Load(slot), actions);
  }

  class UseLevelHistory {
    var snapshots: seq<Snapshot>
    var storage: Stored

    constructor (storage: Stored)
      ensures snapshots == Load(storage) && this.storage == Items(snapshots)
    {
      snapshots := Load(storage);
      this.storage := Items(Load(storage));
    }

    method PushSnapshot(snapshot: Snapshot)
      modifies this
      ensures snapshots == Next(old(snapshots), Push(snapshot)) && storage == Items(snapshots)
    {
      var next := snapshots + [snapshot];
      snapshots := if |next| > MAX_DEPTH then next[|next| - MAX_DEPTH..] else next;
      storage := Items(snapshots);
    }

    /** The value handed back is set inside the state updater, so it is there only
        if the updater runs during the call. */
    method UndoLast(ranAtOnce: bool) returns (restored: Option<map<string, Option<int>>>)
      modifies this
      ensures snapshots == Next(old(snapshots), Undo) && storage == Items(snapshots)
      ensures restored == if ranAtOnce && old(snapshots) != [] then Some(old(snapshots)[|old(snapshots)| - 1].before) else None
    {
      restored := None;
      if |snapshots| > 0 {
        if ranAtOnce { restored := Some(snapshots[|snapshots| - 1].before); }
        snapshots := snapshots[..|snapshots| - 1];
      }
      storage := Items(snapshots);
    }
  }
}
