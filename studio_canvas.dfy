/**
 * The studio paint canvas around the particle engine: every user splat and
 * clear is recorded in an action log, the canvas keeps a list of captured
 * images for visual undo and redo, and when the image history runs out undo
 * and redo redraw the log from scratch.
 */
module StudioCanvas {
  import opened Wrappers
  import C = Config
  import PF = ParticleFluid

  /** A recorded user action */
  datatype PaintAction = SplatAction(x: real, y: real, radius: real, color: string) | ClearAction

  /** How a splat picks its colour */
  datatype Behavior = Blend | Alternate | Sequence

  /** The random draws one engine splat consumes: one for the lifetime, one per particle */
  datatype SplatDraws = SplatDraws(life: real, spawns: seq<PF.SpawnDraw>)

  predicate ValidDraws(rs: seq<SplatDraws>) {
    forall i :: 0 <= i < |rs| ==> |rs[i].spawns| == PF.TuningOf(PF.Studio).burst
  }

  /** Recording an action: the log is cut at the index, the action appended and the index moved past it */
  function Record(log: seq<PaintAction>, index: nat, a: PaintAction): (r: (seq<PaintAction>, nat))
    requires index <= |log|
  {
    (log[..index] + [a], index + 1)
  }

  /** `commitSnapshot`: an empty capture is dropped; otherwise the redo tail is cut and the capture appended */
  function Commit(snaps: seq<string>, index: nat, url: string): (r: (seq<string>, nat))
    requires index <= |snaps|
  {
    if url == "" then (snaps, index) else (snaps[..index] + [url], index + 1)
  }

  /** Visual undo: step back and show the previous image, or `None` when the history is down to the first image */
  function UndoSnap(snaps: seq<string>, index: nat): (r: Option<(nat, string)>)
    requires index <= |snaps|
  {
    if index > 1 then Some((index - 1, snaps[index - 2])) else None
  }

  /** Visual redo: show the next image and step forward, or `None` at the end */
  function RedoSnap(snaps: seq<string>, index: nat): (r: Option<(nat, string)>)
    requires index <= |snaps|
  {
    if index < |snaps| then Some((index + 1, snaps[index])) else None
  }

  /**
   * The colour of a splat and the next rotation index: `'blend'` paints the
   * active colour (or white when that entry is missing or empty); the other
   * behaviours walk the palette with the rotation index.
   */
  function ChooseColor(colors: seq<string>, active: int, behavior: Behavior, rotate: nat): (string, nat)
    requires |colors| > 0
  {
    if behavior == Blend then
      (if 0 <= active < |colors| && colors[active] != "" then colors[active] else "#ffffff", rotate)
    else
      (colors[rotate % |colors|], (rotate + 1) % |colors|)
  }

  /** One logged action replayed on the particle list */
  function ApplyAction(ps: seq<PF.Particle>, a: PaintAction, hasContext: bool, dpr: real, d: SplatDraws): seq<PF.Particle>
  {
    var t := PF.TuningOf(PF.Studio);
    match a
    case ClearAction => if hasContext then [] else ps
    case SplatAction(x, y, radius, color) =>
      PF.KeepNewest(ps + PF.Burst(x, y, radius, color, dpr, PF.MaxLife(t, d.life), d.spawns), t.cap)
  }

  /** The actions replayed in order over `ps` */
  function Replayed(ps: seq<PF.Particle>, acts: seq<PaintAction>, hasContext: bool, dpr: real, rs: seq<SplatDraws>): seq<PF.Particle>
    requires |rs| == |acts|
    decreases |acts|
  {
    if acts == [] then ps
    else
      var n := |acts| - 1;
      ApplyAction(Replayed(ps, acts[..n], hasContext, dpr, rs[..n]), acts[n], hasContext, dpr, rs[n])
  }

  // ---------------------------------------------------------------------

  class Canvas {
    const engine: PF.FluidEngine
    const behavior: Behavior
    /** Whether an `onFirstPaint` callback was passed */
    const hasFirstPaint: bool
    /** The canvas width in CSS pixels */
    const clientWidth: real
    var config: C.Config
    var activeColorIndex: int
    var isDemoMode: bool
    var isPointerDown: bool
    var hasPainted: bool
    /** How many times `onFirstPaint` was called */
    var firstPaintCalls: nat
    var rotateIndex: nat
    var actions: seq<PaintAction>
    var actionIndex: nat
    var snapshots: seq<string>
    var snapshotIndex: nat
    /** The last captured image handed to `drawSnapshot`, if any */
    var shown: Option<string>

    ghost predicate Valid()
      reads this, engine
    {
      && engine.Valid() && engine.variant == PF.Studio
      && actionIndex == |actions|
      && snapshotIndex <= |snapshots|
      && firstPaintCalls <= (if hasPainted then 1 else 0)
    }

    constructor (engine: PF.FluidEngine, behavior: Behavior, hasFirstPaint: bool, clientWidth: real,
                 config: C.Config, activeColorIndex: int, isDemoMode: bool)
      requires engine.Valid() && engine.variant == PF.Studio
      ensures Valid() && this.engine == engine && this.behavior == behavior && this.hasFirstPaint == hasFirstPaint
      ensures this.clientWidth == clientWidth && this.config == config && this.activeColorIndex == activeColorIndex
      ensures this.isDemoMode == isDemoMode && !isPointerDown && !hasPainted && firstPaintCalls == 0 && rotateIndex == 0
      ensures actions == [] && actionIndex == 0 && snapshots == [] && snapshotIndex == 0 && shown == None
    {
      this.engine := engine;
      this.behavior := behavior;
      this.hasFirstPaint := hasFirstPaint;
      this.clientWidth := clientWidth;
      this.config := config;
      this.activeColorIndex := activeColorIndex;
      this.isDemoMode := isDemoMode;
      isPointerDown, hasPainted, firstPaintCalls, rotateIndex := false, false, 0, 0;
      actions, actionIndex, snapshots, snapshotIndex, shown := [], 0, [], 0, None;
    }

    /** Truncate-and-append on the action log */
    method RecordAction(a: PaintAction)
      requires actionIndex <= |actions|
      modifies this`actions, this`actionIndex
      ensures (actions, actionIndex) == Record(old(actions), old(actionIndex), a)
    {
      actions := actions[..actionIndex];
      actions := actions + [a];
      actionIndex := |actions|;
    }

    /** `commitSnapshot` with the capture `url` (`''` when capturing failed) */
    method CommitSnapshot(url: string)
      requires snapshotIndex <= |snapshots|
      modifies this`snapshots, this`snapshotIndex
      ensures snapshotIndex <= |snapshots|
      ensures (snapshots, snapshotIndex) == Commit(old(snapshots), old(snapshotIndex), url)
    {
      if url == "" {
        return;
      }
      snapshots := snapshots[..snapshotIndex];
      snapshots := snapshots + [url];
      snapshotIndex := |snapshots|;
    }

    /**
     * `splat`: nothing in demo mode or with an empty palette; otherwise the
     * engine splats in the chosen colour with radius
     * `clientWidth * 0.05 * splatRadius`, the action is logged and
     * `onFirstPaint` fires if nothing was painted before.
     */
    method Splat(x: real, y: real, dpr: real, d: SplatDraws)
      requires Valid() && |d.spawns| == PF.TuningOf(PF.Studio).burst
      modifies this`rotateIndex, this`actions, this`actionIndex, this`hasPainted, this`firstPaintCalls, engine`particles
      ensures Valid()
      ensures isDemoMode || |C.ColorsOf(config)| == 0 ==>
        actions == old(actions) && actionIndex == old(actionIndex) && rotateIndex == old(rotateIndex)
        && engine.particles == old(engine.particles) && hasPainted == old(hasPainted) && firstPaintCalls == old(firstPaintCalls)
      ensures !isDemoMode && |C.ColorsOf(config)| > 0 ==>
        rotateIndex == ChooseColor(C.ColorsOf(config), activeColorIndex, behavior, old(rotateIndex)).1
      ensures !isDemoMode && |C.ColorsOf(config)| > 0 ==>
        engine.particles == ApplyAction(old(engine.particles), UserSplat(x, y, old(rotateIndex)), engine.hasContext, dpr, d)
      ensures !isDemoMode && |C.ColorsOf(config)| > 0 ==>
        (actions, actionIndex) == Record(old(actions), old(actionIndex), UserSplat(x, y, old(rotateIndex)))
      ensures !isDemoMode && |C.ColorsOf(config)| > 0 ==>
        hasPainted && firstPaintCalls == old(firstPaintCalls) + (if !old(hasPainted) && hasFirstPaint then 1 else 0)
    {
      var colors := C.ColorsOf(config);
      if isDemoMode || |colors| == 0 {
        return;
      }
      var radius := PF.SplatRadius(config, clientWidth);
      ghost var a := UserSplat(x, y, rotateIndex);
      var color := PickColor(colors);
      engine.Splat(x, y, radius, color, dpr, d.life, d.spawns);
      assert engine.particles == ApplyAction(old(engine.particles), a, engine.hasContext, dpr, d);
      RecordAction(SplatAction(x, y, radius, color));
      MarkPainted();
    }

    /** The action a user splat at (x, y) records, given the rotation index before it */
    ghost function UserSplat(x: real, y: real, rotate: nat): PaintAction
      reads this
      requires |C.ColorsOf(config)| > 0
    {
      SplatAction(x, y, PF.SplatRadius(config, clientWidth), ChooseColor(C.ColorsOf(config), activeColorIndex, behavior, rotate).0)
    }

    /** The colour choice inside `splat`, advancing the rotation in the rotating behaviours */
    method PickColor(colors: seq<string>) returns (color: string)
      requires |colors| > 0
      modifies this`rotateIndex
      ensures (color, rotateIndex) == ChooseColor(colors, activeColorIndex, behavior, old(rotateIndex))
    {
      color := if 0 <= activeColorIndex < |colors| && colors[activeColorIndex] != "" then colors[activeColorIndex] else "#ffffff";
      if behavior != Blend {
        color := colors[rotateIndex % |colors|];
        rotateIndex := (rotateIndex + 1) % |colors|;
      }
    }

    /** The first paint notifies `onFirstPaint`, once */
    method MarkPainted()
      requires firstPaintCalls <= (if hasPainted then 1 else 0)
      modifies this`hasPainted, this`firstPaintCalls
      ensures hasPainted && firstPaintCalls <= 1
      ensures firstPaintCalls == old(firstPaintCalls) + (if !old(hasPainted) && hasFirstPaint then 1 else 0)
    {
      if !hasPainted {
        hasPainted := true;
        if hasFirstPaint {
          firstPaintCalls := firstPaintCalls + 1;
        }
      }
    }

    /** The clear callback: capture, log the clear, clear the engine, capture again */
    method DoClear(before: string, after: string)
      requires Valid()
      modifies this`actions, this`actionIndex, this`snapshots, this`snapshotIndex, engine`particles
      ensures Valid()
      ensures (actions, actionIndex) == Record(old(actions), old(actionIndex), ClearAction)
      ensures engine.particles == ApplyAction(old(engine.particles), ClearAction, engine.hasContext, 0.0, SplatDraws(0.0, []))
      ensures var mid := Commit(old(snapshots), old(snapshotIndex), before);
        (snapshots, snapshotIndex) == Commit(mid.0, mid.1, after)
    {
      CommitSnapshot(before);
      RecordAction(ClearAction);
      engine.Clear();
      CommitSnapshot(after);
    }

    /** `replay`: clear, then re-apply the logged actions up to the index in order */
    method Replay(dpr: real, rs: seq<SplatDraws>)
      requires Valid() && |rs| == actionIndex && ValidDraws(rs)
      modifies engine`particles
      ensures Valid()
      ensures engine.particles ==
        Replayed(ApplyAction(old(engine.particles), ClearAction, engine.hasContext, dpr, SplatDraws(0.0, [])),
                 actions[..actionIndex], engine.hasContext, dpr, rs)
    {
      engine.Clear();
      ghost var start := engine.particles;
      var upto := actionIndex;
      var i := 0;
      while i < upto
        invariant 0 <= i <= upto && engine.Valid()
        invariant engine.particles == Replayed(start, actions[..i], engine.hasContext, dpr, rs[..i])
      {
        assert actions[..i + 1][..i] == actions[..i] && rs[..i + 1][..i] == rs[..i];
        var a := actions[i];
        match a {
          case ClearAction => engine.Clear();
          case SplatAction(x, y, radius, color) => engine.Splat(x, y, radius, color, dpr, rs[i].life, rs[i].spawns);
        }
        i := i + 1;
      }
      assert rs[..i] == rs;
    }

    /** `undo`: step the image history back when it holds more than one image, else replay */
    method Undo(dpr: real, rs: seq<SplatDraws>)
      requires Valid() && |rs| == actionIndex && ValidDraws(rs)
      modifies this`snapshotIndex, this`shown, engine`particles
      ensures Valid()
      ensures UndoSnap(snapshots, old(snapshotIndex)).Some? ==>
        shown.Some? && (snapshotIndex, shown.value) == UndoSnap(snapshots, old(snapshotIndex)).value
        && engine.particles == old(engine.particles)
      ensures UndoSnap(snapshots, old(snapshotIndex)).None? ==>
        snapshotIndex == old(snapshotIndex) && shown == old(shown)
        && engine.particles ==
          Replayed(ApplyAction(old(engine.particles), ClearAction, engine.hasContext, dpr, SplatDraws(0.0, [])),
                   actions, engine.hasContext, dpr, rs)
    {
      if snapshotIndex > 1 {
        snapshotIndex := snapshotIndex - 1;
        shown := Some(snapshots[snapshotIndex - 1]);
      } else {
        Replay(dpr, rs);
        assert actions[..actionIndex] == actions;
      }
    }

    /** `redo`: show the next image when there is one, else replay */
    method Redo(dpr: real, rs: seq<SplatDraws>)
      requires Valid() && |rs| == actionIndex && ValidDraws(rs)
      modifies this`snapshotIndex, this`shown, engine`particles
      ensures Valid()
      ensures RedoSnap(snapshots, old(snapshotIndex)).Some? ==>
        shown.Some? && (snapshotIndex, shown.value) == RedoSnap(snapshots, old(snapshotIndex)).value
        && engine.particles == old(engine.particles)
      ensures RedoSnap(snapshots, old(snapshotIndex)).None? ==>
        snapshotIndex == old(snapshotIndex) && shown == old(shown)
        && engine.particles ==
          Replayed(ApplyAction(old(engine.particles), ClearAction, engine.hasContext, dpr, SplatDraws(0.0, [])),
                   actions, engine.hasContext, dpr, rs)
    {
      if snapshotIndex < |snapshots| {
        shown := Some(snapshots[snapshotIndex]);
        snapshotIndex := snapshotIndex + 1;
      } else {
        Replay(dpr, rs);
        assert actions[..actionIndex] == actions;
      }
    }

    /** `handlePointerDown`: a splat */
    method PointerDown(x: real, y: real, dpr: real, d: SplatDraws)
      requires Valid() && |d.spawns| == PF.TuningOf(PF.Studio).burst
      modifies this`isPointerDown, this`rotateIndex, this`actions, this`actionIndex, this`hasPainted,
               this`firstPaintCalls, engine`particles
      ensures Valid() && isPointerDown
      ensures isDemoMode || |C.ColorsOf(config)| == 0 ==>
        actions == old(actions) && actionIndex == old(actionIndex) && rotateIndex == old(rotateIndex)
        && engine.particles == old(engine.particles) && hasPainted == old(hasPainted) && firstPaintCalls == old(firstPaintCalls)
      ensures !isDemoMode && |C.ColorsOf(config)| > 0 ==>
        && rotateIndex == ChooseColor(C.ColorsOf(config), activeColorIndex, behavior, old(rotateIndex)).1
        && engine.particles == ApplyAction(old(engine.particles), UserSplat(x, y, old(rotateIndex)), engine.hasContext, dpr, d)
        && (actions, actionIndex) == Record(old(actions), old(actionIndex), UserSplat(x, y, old(rotateIndex)))
        && hasPainted && firstPaintCalls == old(firstPaintCalls) + (if !old(hasPainted) && hasFirstPaint then 1 else 0)
    {
      isPointerDown := true;
      Splat(x, y, dpr, d);
    }

    /** `handlePointerMove`: a splat while pressed */
    method PointerMove(x: real, y: real, dpr: real, d: SplatDraws)
      requires Valid() && |d.spawns| == PF.TuningOf(PF.Studio).burst
      modifies this`rotateIndex, this`actions, this`actionIndex, this`hasPainted, this`firstPaintCalls, engine`particles
      ensures Valid()
      ensures !isPointerDown || isDemoMode || |C.ColorsOf(config)| == 0 ==>
        actions == old(actions) && actionIndex == old(actionIndex) && rotateIndex == old(rotateIndex)
        && engine.particles == old(engine.particles) && hasPainted == old(hasPainted) && firstPaintCalls == old(firstPaintCalls)
      ensures isPointerDown && !isDemoMode && |C.ColorsOf(config)| > 0 ==>
        && rotateIndex == ChooseColor(C.ColorsOf(config), activeColorIndex, behavior, old(rotateIndex)).1
        && engine.particles == ApplyAction(old(engine.particles), UserSplat(x, y, old(rotateIndex)), engine.hasContext, dpr, d)
        && (actions, actionIndex) == Record(old(actions), old(actionIndex), UserSplat(x, y, old(rotateIndex)))
        && hasPainted && firstPaintCalls == old(firstPaintCalls) + (if !old(hasPainted) && hasFirstPaint then 1 else 0)
    {
      if isPointerDown {
        Splat(x, y, dpr, d);
      }
    }

    /** `handlePointerUp`: the stroke's final image is captured */
    method PointerUp(url: string)
      requires Valid()
      modifies this`isPointerDown, this`snapshots, this`snapshotIndex
      ensures Valid() && !isPointerDown
      ensures (snapshots, snapshotIndex) == Commit(old(snapshots), old(snapshotIndex), url)
    {
      isPointerDown := false;
      CommitSnapshot(url);
    }
  }

  // ---------------------------------------------------------------------

  /** Recording keeps the log up to the index, puts the action last and leaves the index at the end */
  lemma RecordShape(log: seq<PaintAction>, index: nat, a: PaintAction)
    requires index <= |log|
    ensures var r := Record(log, index, a);
      && |r.0| == index + 1 && r.0[..index] == log[..index] && r.0[index] == a && r.1 == |r.0|
  {
  }

  /** A non-empty capture becomes the last image and the index points past it; an empty one changes nothing */
  lemma CommitShape(snaps: seq<string>, index: nat, url: string)
    requires index <= |snaps|
    ensures url == "" ==> Commit(snaps, index, url) == (snaps, index)
    ensures url != "" ==>
      var r := Commit(snaps, index, url);
      |r.0| == index + 1 && r.0[..index] == snaps[..index] && r.0[index] == url && r.1 == |r.0|
  {
  }

  /** Undo then redo returns to the same index and shows the image that index stood on */
  lemma UndoThenRedo(snaps: seq<string>, index: nat)
    requires index <= |snaps| && index > 1
    ensures UndoSnap(snaps, index).Some?
    ensures var u := UndoSnap(snaps, index).value;
      RedoSnap(snaps, u.0).Some? && RedoSnap(snaps, u.0).value == (index, snaps[index - 1])
  {
  }

  /** Redo then undo returns to the same index */
  lemma RedoThenUndo(snaps: seq<string>, index: nat)
    requires index < |snaps| && index >= 1
    ensures RedoSnap(snaps, index).Some?
    ensures var r := RedoSnap(snaps, index).value;
      UndoSnap(snaps, r.0).Some? && UndoSnap(snaps, r.0).value == (index, snaps[index - 1])
  {
  }

  /** Visual undo never goes below the first image and redo never past the last */
  lemma SnapIndexBounds(snaps: seq<string>, index: nat)
    requires index <= |snaps|
    ensures UndoSnap(snaps, index).Some? ==> 1 <= UndoSnap(snaps, index).value.0 < index
    ensures RedoSnap(snaps, index).Some? ==> index < RedoSnap(snaps, index).value.0 <= |snaps|
    ensures UndoSnap(snaps, index).None? <==> index <= 1
    ensures RedoSnap(snaps, index).None? <==> index == |snaps|
  {
  }

  /**
   * The colour choice: blending paints the active colour (white for a
   * missing or empty entry) and keeps the rotation; the rotating behaviours
   * paint the palette entry under the rotation index and move it on by one,
   * wrapping at the palette length.
   */
  lemma ColorChoice(colors: seq<string>, active: int, behavior: Behavior, rotate: nat)
    requires |colors| > 0
    ensures var (color, next) := ChooseColor(colors, active, behavior, rotate);
      && (behavior == Blend ==> next == rotate && (color in colors || color == "#ffffff"))
      && (behavior == Blend && 0 <= active < |colors| && colors[active] != "" ==> color == colors[active])
      && (behavior != Blend ==> color in colors && next < |colors| && (rotate + 1 < |colors| ==> next == rotate + 1))
      && (behavior != Blend && rotate == |colors| - 1 ==> next == 0)
  {
    if behavior != Blend {
      var len := |colors|;
      RotateStep(rotate, len);
      var i := rotate % len;
      assert colors[i] in colors;
    }
  }

  /** The rotation index wraps round the palette length */
  lemma RotateStep(rotate: nat, len: nat)
    requires len > 0
    ensures 0 <= rotate % len < len && 0 <= (rotate + 1) % len < len
    ensures rotate + 1 < len ==> (rotate + 1) % len == rotate + 1
    ensures rotate == len - 1 ==> (rotate + 1) % len == 0
  {
  }

  /** With a context, replaying a log gives the same particles as replaying only what follows its last clear */
  lemma {:induction false} ReplayAfterClear(ps: seq<PF.Particle>, acts: seq<PaintAction>, dpr: real, rs: seq<SplatDraws>, j: nat)
    requires |rs| == |acts| && j < |acts| && acts[j] == ClearAction
    ensures Replayed(ps, acts, true, dpr, rs) == Replayed([], acts[j + 1..], true, dpr, rs[j + 1..])
    decreases |acts|
  {
    var n := |acts| - 1;
    if j == n {
      assert acts[j + 1..] == [];
    } else {
      ReplayAfterClear(ps, acts[..n], dpr, rs[..n], j);
      var tail, rtail := acts[j + 1..], rs[j + 1..];
      assert tail[..|tail| - 1] == acts[..n][j + 1..] && tail[|tail| - 1] == acts[n];
      assert rtail[..|rtail| - 1] == rs[..n][j + 1..] && rtail[|rtail| - 1] == rs[n];
      ReplayedLast(ps, acts, true, dpr, rs);
      ReplayedLast([], tail, true, dpr, rtail);
    }
  }

  /** Replaying a non-empty list is replaying all but the last action, then applying the last */
  lemma ReplayedLast(ps: seq<PF.Particle>, acts: seq<PaintAction>, hasContext: bool, dpr: real, rs: seq<SplatDraws>)
    requires |rs| == |acts| && acts != []
    ensures var n := |acts| - 1;
      Replayed(ps, acts, hasContext, dpr, rs) == ApplyAction(Replayed(ps, acts[..n], hasContext, dpr, rs[..n]), acts[n], hasContext, dpr, rs[n])
  {
  }

  /** Replaying never takes the list past the cap when it starts within it: clears empty it and each splat is capped */
  lemma {:induction false} ReplayBounded(ps: seq<PF.Particle>, acts: seq<PaintAction>, hasContext: bool, dpr: real, rs: seq<SplatDraws>)
    requires |rs| == |acts| && |ps| <= PF.TuningOf(PF.Studio).cap
    ensures |Replayed(ps, acts, hasContext, dpr, rs)| <= PF.TuningOf(PF.Studio).cap
    decreases |acts|
  {
    if acts != [] {
      var n := |acts| - 1;
      ReplayBounded(ps, acts[..n], hasContext, dpr, rs[..n]);
    }
  }
}
