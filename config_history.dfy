/**
 * The configuration history behind undo and redo: every committed update is
 * appended after the current position (dropping any redo branch), the list
 * is capped at 30 entries by dropping the oldest, and undo/redo move the
 * position and show the entry there.
 */
module ConfigHistory {
  import opened Wrappers
  import C = Config

  /** `MAX_HISTORY_SIZE` */
  const MaxHistory: nat := 30

  /** The shown configuration, the history list and the position in it */
  datatype State = State(config: C.Config, history: seq<C.Config>, index: nat)

  /** What every operation keeps once the history is non-empty: 1 to 30 entries, position inside */
  predicate Bounded(s: State) {
    1 <= |s.history| <= MaxHistory && s.index < |s.history|
  }

  /** What every operation keeps, including a restored snapshot with an empty history */
  predicate Reachable(s: State) {
    s.index < |s.history| || (s.history == [] && s.index == 0)
  }

  /** The shown configuration is the entry at the position */
  predicate Synced(s: State) {
    s.index < |s.history| && s.config == s.history[s.index]
  }

  /** A restorable snapshot; a missing history list or a non-numeric index makes it unusable */
  datatype SnapshotInput = SnapshotInput(config: C.Config, history: Option<seq<C.Config>>, historyIndex: Option<int>)

  /** The history after committing `updated`: redo branch dropped, appended, the oldest shifted off past the cap */
  function Pushed(h: seq<C.Config>, index: nat, updated: C.Config): seq<C.Config> {
    var kept := if index < |h| - 1 then h[..index + 1] else h;
    var grown := kept + [updated];
    if |grown| > MaxHistory then grown[1..] else grown
  }

  /** `updateConfig(partial, pushToHistory)` */
  function UpdateSpec(s: State, partial: C.Config, pushToHistory: bool): State {
    var updated := C.Merge(s.config, partial);
    if pushToHistory then
      var h := Pushed(s.history, s.index, updated);
      State(updated, h, if |h| == 0 then 0 else |h| - 1)
    else s.(config := updated)
  }

  /** `undo`: step back when not at the first entry */
  function UndoSpec(s: State): State
    requires Reachable(s)
  {
    if s.index > 0 then State(s.history[s.index - 1], s.history, s.index - 1) else s
  }

  /** `redo`: step forward when not at the last entry */
  function RedoSpec(s: State): State
    requires Reachable(s)
  {
    if s.index < |s.history| - 1 then State(s.history[s.index + 1], s.history, s.index + 1) else s
  }

  /** `setFromSnapshot`: the position clamped into the list, the entry there or the snapshot's own configuration */
  function RestoreSpec(s: State, snap: SnapshotInput): State {
    match (snap.history, snap.historyIndex)
    case (Some(h), Some(i)) =>
      var index: nat := if i > |h| - 1 then (if |h| - 1 > 0 then |h| - 1 else 0) else if i > 0 then i else 0;
      State(if index < |h| then h[index] else snap.config, h, index)
    case _ => s
  }

  /** `reset(next)` */
  function ResetSpec(next: C.Config): State {
    State(next, [next], 0)
  }

  /** `getSnapshot` */
  function SnapshotOf(s: State): SnapshotInput {
    SnapshotInput(s.config, Some(s.history), Some(s.index))
  }

  // ---------------------------------------------------------------------

  /** The history hook's state, as the component holding it sees it */
  class History {
    var config: C.Config
    var history: seq<C.Config>
    var index: nat

    function Current(): State
      reads this
    {
      State(config, history, index)
    }

    constructor (initial: C.Config)
      ensures Current() == State(initial, [initial], 0)
    {
      config := initial;
      history := [initial];
      index := 0;
    }

    method UpdateConfig(partial: C.Config, pushToHistory: bool)
      modifies this
      ensures Current() == UpdateSpec(old(Current()), partial, pushToHistory)
    {
      var updated := C.Merge(config, partial);
      if pushToHistory {
        if index < |history| - 1 {
          history := history[..index + 1];
        }
        history := history + [updated];
        if |history| > MaxHistory {
          history := history[1..];
        }
        index := |history| - 1;
      }
      config := updated;
    }

    method Undo()
      requires Reachable(Current())
      modifies this
      ensures Current() == UndoSpec(old(Current()))
    {
      if index > 0 {
        index := index - 1;
        config := history[index];
      }
    }

    method Redo()
      requires Reachable(Current())
      modifies this
      ensures Current() == RedoSpec(old(Current()))
    {
      if index < |history| - 1 {
        index := index + 1;
        config := history[index];
      }
    }

    method GetSnapshot() returns (snap: SnapshotInput)
      ensures snap == SnapshotOf(Current())
    {
      snap := SnapshotInput(config, Some(history), Some(index));
    }

    method SetFromSnapshot(snap: SnapshotInput)
      modifies this
      ensures Current() == RestoreSpec(old(Current()), snap)
    {
      if snap.history.None? || snap.historyIndex.None? {
        return;
      }
      history := snap.history.value;
      var i := snap.historyIndex.value;
      var upper := |history| - 1;
      var clamped := if i > upper then upper else i;
      index := if clamped > 0 then clamped else 0;
      config := if index < |history| then history[index] else snap.config;
    }

    method Reset(next: C.Config)
      modifies this
      ensures Current() == ResetSpec(next)
    {
      history := [next];
      index := 0;
      config := next;
    }
  }

  // ---------------------------------------------------------------------

  /** The updated configuration is the current one with the partial's keys winning */
  lemma UpdateMerges(s: State, partial: C.Config, pushToHistory: bool)
    ensures UpdateSpec(s, partial, pushToHistory).config.Keys == s.config.Keys + partial.Keys
    ensures forall k :: k in partial ==> UpdateSpec(s, partial, pushToHistory).config[k] == partial[k]
    ensures forall k :: k in s.config && k !in partial ==> UpdateSpec(s, partial, pushToHistory).config[k] == s.config[k]
    ensures !pushToHistory ==>
      UpdateSpec(s, partial, pushToHistory).history == s.history && UpdateSpec(s, partial, pushToHistory).index == s.index
  {
  }

  /** A committed update ends the history with the new configuration, at the last position, in sync */
  lemma UpdateAppends(s: State, partial: C.Config)
    requires Reachable(s)
    ensures
      var t := UpdateSpec(s, partial, true);
      |t.history| >= 1 && t.index == |t.history| - 1 && t.history[t.index] == t.config && Synced(t)
  {
  }

  /** A committed update keeps the entries up to the position, oldest dropped only past the cap */
  lemma UpdateKeepsPast(s: State, partial: C.Config)
    requires Bounded(s)
    ensures
      var t := UpdateSpec(s, partial, true);
      && (s.index + 2 <= MaxHistory ==> t.history == s.history[..s.index + 1] + [t.config])
      && (s.index + 2 > MaxHistory ==> t.history == s.history[1..s.index + 1] + [t.config])
  {
  }

  /** Every operation keeps the history bounded and the position inside it */
  lemma BoundedPreserved(s: State, partial: C.Config, pushToHistory: bool, next: C.Config)
    requires Bounded(s)
    ensures Bounded(UpdateSpec(s, partial, pushToHistory))
    ensures Bounded(UndoSpec(s)) && Bounded(RedoSpec(s))
    ensures Bounded(ResetSpec(next))
  {
  }

  /** Restoring a snapshot whose list holds 1 to 30 entries is bounded again; an empty list is not */
  lemma RestoreBounded(s: State, snap: SnapshotInput)
    requires snap.history.Some? && snap.historyIndex.Some?
    ensures 1 <= |snap.history.value| <= MaxHistory ==> Bounded(RestoreSpec(s, snap)) && Synced(RestoreSpec(s, snap))
    ensures snap.history.value == [] ==>
      var t := RestoreSpec(s, snap);
      !Bounded(t) && Reachable(t) && t.config == snap.config
  {
  }

  /** Every operation keeps the weaker reachability invariant, whatever the snapshot */
  lemma ReachablePreserved(s: State, partial: C.Config, pushToHistory: bool, next: C.Config, snap: SnapshotInput)
    requires Reachable(s)
    ensures Reachable(UpdateSpec(s, partial, pushToHistory))
    ensures Reachable(UndoSpec(s)) && Reachable(RedoSpec(s))
    ensures Reachable(ResetSpec(next)) && Reachable(RestoreSpec(s, snap))
  {
  }

  /** Undo at the first entry and redo at the last do nothing; otherwise they move by one and show that entry */
  lemma UndoRedoMoves(s: State)
    requires Bounded(s)
    ensures s.index == 0 ==> UndoSpec(s) == s
    ensures s.index == |s.history| - 1 ==> RedoSpec(s) == s
    ensures s.index > 0 ==> UndoSpec(s).index == s.index - 1 && Synced(UndoSpec(s))
    ensures s.index < |s.history| - 1 ==> RedoSpec(s).index == s.index + 1 && Synced(RedoSpec(s))
  {
  }

  /** Redo after undo returns to a synced state */
  lemma RedoUndoes(s: State)
    requires Bounded(s) && Synced(s) && s.index > 0
    ensures RedoSpec(UndoSpec(s)) == s
  {
  }

  /** An update, then undo, then redo shows the updated configuration again; the undo shows the one before */
  lemma UpdateUndoRedo(s: State, partial: C.Config)
    requires Bounded(s) && Synced(s)
    ensures
      var t := UpdateSpec(s, partial, true);
      && UndoSpec(t).config == s.config
      && RedoSpec(UndoSpec(t)).config == C.Merge(s.config, partial)
  {
    var t := UpdateSpec(s, partial, true);
    UpdateKeepsPast(s, partial);
    assert t.history[t.index - 1] == s.history[s.index];
  }

  /** A snapshot of a synced state restores its configuration after a reset */
  lemma ResetThenRestore(s: State, next: C.Config)
    requires Synced(s)
    ensures RestoreSpec(ResetSpec(next), SnapshotOf(s)) == s
  {
  }
}
