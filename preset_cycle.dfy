/**
 * The preset cycle index engine: which entry of the selected preset list a
 * stroke applies next, in sequential, ping-pong or random order.
 */
module PresetCycle {
  import Js

  datatype CycleMode = Sequential | PingPong | Random

  /** The position within the selected list, and the ping-pong direction (+1 or -1) */
  datatype CycleState = CycleState(current: int, dir: int)

  predicate ValidDir(s: CycleState) {
    s.dir == 1 || s.dir == -1
  }

  /** `Math.floor(Math.random() * listLen)` for a draw `r` in [0, 1) */
  function RandomPick(r: real, listLen: int): (n: int)
    requires 0.0 <= r < 1.0 && listLen > 0
    ensures 0 <= n < listLen
  {
    var x := r * listLen as real;
    assert x < listLen as real by { MulBelow(r, listLen); }
    x.Floor
  }

  lemma MulBelow(r: real, n: int)
    requires 0.0 <= r < 1.0 && n > 0
    ensures 0.0 <= r * n as real < n as real
  {
  }

  /**
   * `nextIndex`. An empty list leaves the state as it is. Random mode draws
   * an index and steps past the current one when it repeats; sequential mode
   * wraps around; ping-pong mode bounces off both ends.
   */
  function NextIndex(mode: CycleMode, state: CycleState, listLen: int, r: real): (next: CycleState)
    requires 0.0 <= r < 1.0
  {
    if listLen <= 0 then state
    else match mode
      case Random =>
        var pick := RandomPick(r, listLen);
        var n := if listLen > 1 && pick == state.current then Js.IRem(pick + 1, listLen) else pick;
        CycleState(n, state.dir)
      case Sequential =>
        CycleState(Js.IRem(state.current + 1, listLen), 1)
      case PingPong =>
        var n := state.current + state.dir;
        if n >= listLen then CycleState(if listLen - 2 >= 0 then listLen - 2 else 0, -1)
        else if n < 0 then CycleState(if listLen > 1 then 1 else 0, 1)
        else CycleState(n, state.dir)
  }

  /** An empty (or negative-length) selection never moves the state */
  lemma EmptyListKeepsState(mode: CycleMode, state: CycleState, listLen: int, r: real)
    requires 0.0 <= r < 1.0 && listLen <= 0
    ensures NextIndex(mode, state, listLen, r) == state
  {
  }

  /** Every mode keeps an in-range index in range, and ping-pong keeps a valid direction */
  lemma NextInRange(mode: CycleMode, state: CycleState, listLen: int, r: real)
    requires 0.0 <= r < 1.0 && 0 <= state.current < listLen
    requires mode == PingPong ==> ValidDir(state)
    ensures 0 <= NextIndex(mode, state, listLen, r).current < listLen
    ensures ValidDir(state) ==> ValidDir(NextIndex(mode, state, listLen, r))
  {
  }

  /** Random mode never repeats the current entry when there is another to pick, and keeps the direction */
  lemma RandomAvoidsRepeat(state: CycleState, listLen: int, r: real)
    requires 0.0 <= r < 1.0 && listLen > 1
    ensures NextIndex(Random, state, listLen, r).current != state.current
    ensures NextIndex(Random, state, listLen, r).dir == state.dir
  {
  }

  /** Sequential mode is addition modulo the list length, with direction +1 */
  lemma SequentialStep(state: CycleState, listLen: int, r: real)
    requires 0.0 <= r < 1.0 && listLen > 0 && 0 <= state.current
    ensures NextIndex(Sequential, state, listLen, r) == CycleState((state.current + 1) % listLen, 1)
  {
  }

  /** The indices `k` successive calls visit, drawing from `rs` in random mode */
  function Visit(mode: CycleMode, state: CycleState, listLen: int, rs: seq<real>): (path: seq<int>)
    requires forall i :: 0 <= i < |rs| ==> 0.0 <= rs[i] < 1.0
    ensures |path| == |rs|
    decreases |rs|
  {
    if rs == [] then []
    else
      var next := NextIndex(mode, state, listLen, rs[0]);
      [next.current] + Visit(mode, next, listLen, rs[1..])
  }

  /** `k` deterministic calls (the draw is irrelevant outside random mode) */
  function Zeros(k: nat): (rs: seq<real>)
    ensures |rs| == k && forall i :: 0 <= i < k ==> rs[i] == 0.0
  {
    seq(k, _ => 0.0)
  }

  /** Sequential from 0 over three entries: 1, 2, 0, 1, 2 */
  lemma SequentialThree()
    ensures Visit(Sequential, CycleState(0, 1), 3, Zeros(5)) == [1, 2, 0, 1, 2]
  {
    var z := Zeros(5);
    assert z[1..][1..][1..][1..][1..] == [];
  }

  /** Ping-pong from 0 over three entries: 1, 2, 1, 0, 1, 2 */
  lemma PingPongThree()
    ensures Visit(PingPong, CycleState(0, 1), 3, Zeros(6)) == [1, 2, 1, 0, 1, 2]
  {
    var z := Zeros(6);
    assert z[1..][1..][1..][1..][1..][1..] == [];
  }

  /** `k` sequential steps from an in-range index land on `(current + k) mod listLen` */
  lemma {:induction false} SequentialLands(state: CycleState, listLen: int, k: nat)
    requires listLen > 0 && 0 <= state.current < listLen
    ensures k > 0 ==> Visit(Sequential, state, listLen, Zeros(k))[k - 1] == (state.current + k) % listLen
    decreases k
  {
    if k > 1 {
      var next := NextIndex(Sequential, state, listLen, 0.0);
      assert next.current == (state.current + 1) % listLen;
      assert 0 <= next.current < listLen;
      assert Zeros(k)[1..] == Zeros(k - 1);
      SequentialLands(next, listLen, k - 1);
      assert Visit(Sequential, state, listLen, Zeros(k))[k - 1]
          == Visit(Sequential, next, listLen, Zeros(k - 1))[k - 2];
      ModAddOne(state.current, listLen, k - 1);
    }
  }

  lemma ModAddOne(c: int, n: int, k: nat)
    requires n > 0 && 0 <= c
    ensures ((c + 1) % n + k) % n == (c + k + 1) % n
  {
    var q, r := (c + 1) / n, (c + 1) % n;
    var q2, r2 := (r + k) / n, (r + k) % n;
    assert c + k + 1 == (q + q2) * n + r2 by {
      assert c + 1 == q * n + r && r + k == q2 * n + r2;
      assert (q + q2) * n == q * n + q2 * n;
    }
    Js.ModUnique(c + k + 1, n, q + q2, r2);
  }

  /** Over a list of length `n`, `n` sequential steps return to the starting index */
  lemma SequentialPeriod(state: CycleState, listLen: int)
    requires listLen > 0 && 0 <= state.current < listLen
    ensures Visit(Sequential, state, listLen, Zeros(listLen))[listLen - 1] == state.current
  {
    WrapOnce(state.current, listLen);
    LandsAfterLength(state, listLen);
  }

  lemma LandsAfterLength(state: CycleState, listLen: int)
    requires listLen > 0 && 0 <= state.current < listLen
    ensures Visit(Sequential, state, listLen, Zeros(listLen))[listLen - 1] == (state.current + listLen) % listLen
  {
    SequentialLands(state, listLen, listLen);
  }

  lemma WrapOnce(c: int, n: int)
    requires 0 <= c < n
    ensures (c + n) % n == c
  {
    Js.ModUnique(c + n, n, 1, c);
  }
}
