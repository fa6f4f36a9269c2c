/**
 * The palette edits both colour editors perform on the `colors` list: write
 * one entry, append white, remove one entry, and shuffle. The shuffle sorts
 * with a random comparator, whose outcome depends on the engine's sort; it is
 * given here as the sequence of exchanges the sort performs, which can express
 * every reordering.
 */
module PaletteEdits {
  import Hex

  const White := "#ffffff"

  /** `next = [...colors]; next[index] = value`: in range it replaces, one past the end it appends */
  function SetAt(colors: seq<string>, index: nat, value: string): (r: seq<string>)
    requires index <= |colors|
    ensures |r| == if index < |colors| then |colors| else |colors| + 1
    ensures r[index] == value
    ensures forall k :: 0 <= k < |colors| && k != index ==> r[k] == colors[k]
  {
    if index < |colors| then colors[index := value] else colors + [value]
  }

  /** `/^#([0-9a-fA-F]{3}){1,2}$/i`: a hash and three or six hexadecimal digits of either case */
  predicate IsHexColor(s: string) {
    (|s| == 4 || |s| == 7) && s[0] == '#' && Hex.AllHex(s[1..])
  }

  /** `[...colors, '#ffffff']` */
  function Added(colors: seq<string>): seq<string> {
    colors + [White]
  }

  /** `colors.filter((_, idx) => idx !== i)`, walking the list in order */
  function WithoutIndex(colors: seq<string>, i: int): seq<string> {
    if colors == [] then []
    else WithoutIndex(colors[..|colors| - 1], i) + (if |colors| - 1 == i then [] else [colors[|colors| - 1]])
  }

  /** The remove handlers: nothing when at most one colour is left, else the filter */
  function Removed(colors: seq<string>, i: int): (r: seq<string>)
    ensures |colors| <= 1 ==> r == colors
    ensures |colors| >= 1 ==> |r| >= 1
  {
    if |colors| <= 1 then colors
    else
      WithoutIndexSplice(colors, i);
      WithoutIndex(colors, i)
  }

  /** An exchange of two entries, one step of the engine's sort */
  datatype Exchange = Exchange(i: nat, j: nat)

  predicate InRange(exchanges: seq<Exchange>, n: nat) {
    forall k :: 0 <= k < |exchanges| ==> exchanges[k].i < n && exchanges[k].j < n
  }

  function Exchanged(s: seq<string>, e: Exchange): seq<string>
    requires e.i < |s| && e.j < |s|
  {
    s[e.i := s[e.j]][e.j := s[e.i]]
  }

  /** `[...colors].sort(() => Math.random() - 0.5)`, the sort's exchanges given */
  function Shuffled(colors: seq<string>, exchanges: seq<Exchange>): seq<string>
    requires InRange(exchanges, |colors|)
    decreases |exchanges|
  {
    if exchanges == [] then colors
    else
      var next := Exchanged(colors, exchanges[0]);
      Shuffled(next, exchanges[1..])
  }

  // ---------------------------------------------------------------------

  /** The filter removes exactly index `i` when it is in range and nothing otherwise */
  lemma {:induction false} WithoutIndexSplice(colors: seq<string>, i: int)
    ensures 0 <= i < |colors| ==> WithoutIndex(colors, i) == colors[..i] + colors[i + 1..]
    ensures !(0 <= i < |colors|) ==> WithoutIndex(colors, i) == colors
  {
    if colors != [] {
      var init := colors[..|colors| - 1];
      WithoutIndexSplice(init, i);
      if i == |colors| - 1 {
        assert colors[..i] == init;
        assert colors[i + 1..] == [];
      } else if 0 <= i < |colors| - 1 {
        assert colors[..i] == init[..i];
        assert init[i + 1..] + [colors[|colors| - 1]] == colors[i + 1..];
      } else {
        assert init + [colors[|colors| - 1]] == colors;
      }
    }
  }

  /** Removing takes out exactly one entry, keeping the others in order, unless one colour or fewer is left */
  lemma RemovedExactly(colors: seq<string>, i: int)
    requires |colors| >= 2 && 0 <= i < |colors|
    ensures Removed(colors, i) == colors[..i] + colors[i + 1..]
    ensures |Removed(colors, i)| == |colors| - 1
    ensures multiset(Removed(colors, i)) + multiset{colors[i]} == multiset(colors)
  {
    WithoutIndexSplice(colors, i);
    assert colors == colors[..i] + [colors[i]] + colors[i + 1..];
  }

  /** Adding white and removing the last entry gives the palette back */
  lemma AddThenRemove(colors: seq<string>)
    requires |colors| >= 1
    ensures Removed(Added(colors), |colors|) == colors
    ensures Added(colors)[|colors|] == White && Added(colors)[..|colors|] == colors
  {
    RemovedExactly(Added(colors), |colors|);
    assert Added(colors)[..|colors|] == colors;
  }

  /** Writing a value and reading it back, and writing what is there, change nothing else */
  lemma SetAtIdempotent(colors: seq<string>, index: nat)
    requires index < |colors|
    ensures SetAt(colors, index, colors[index]) == colors
  {
  }

  lemma ExchangePermutes(s: seq<string>, e: Exchange)
    requires e.i < |s| && e.j < |s|
    ensures |Exchanged(s, e)| == |s| && multiset(Exchanged(s, e)) == multiset(s)
  {
    var t := s[e.i := s[e.j]];
    assert multiset(t) == multiset(s) - multiset{s[e.i]} + multiset{s[e.j]};
    assert multiset(t[e.j := s[e.i]]) == multiset(t) - multiset{t[e.j]} + multiset{s[e.i]};
  }

  /** A shuffle is a permutation: same length, same colours with the same multiplicities */
  lemma {:induction false} ShufflePermutes(colors: seq<string>, exchanges: seq<Exchange>)
    requires InRange(exchanges, |colors|)
    ensures |Shuffled(colors, exchanges)| == |colors|
    ensures multiset(Shuffled(colors, exchanges)) == multiset(colors)
    decreases |exchanges|
  {
    if exchanges != [] {
      var next := Exchanged(colors, exchanges[0]);
      ExchangePermutes(colors, exchanges[0]);
      ShufflePermutes(next, exchanges[1..]);
    }
  }
}
