/** The playlist of stimulus indices: index i repeated by its frequency, the
    groups laid end to end in stimulus order, then optionally shuffled. */
module Playlist {
  import opened Wrappers

  /** `np.repeat(i, n)`: the index i, n times. */
  function Repeat(i: nat, n: nat): seq<nat>
  {
    seq(n, _ => i)
  }

  function Sum(f: seq<nat>): nat
  {
    if f == [] then 0 else Sum(f[..|f| - 1]) + f[|f| - 1]
  }

  /** The rows `np.repeat(i, f[i])` appended one per stimulus. */
  function Rows(f: seq<nat>): seq<seq<nat>>
  {
    seq(|f|, i requires 0 <= i < |f| => Repeat(i, f[i]))
  }

  function Concat(rows: seq<seq<nat>>): seq<nat>
  {
    if rows == [] then [] else Concat(rows[..|rows| - 1]) + rows[|rows| - 1]
  }

  /** The intended playlist: the rows laid end to end, in stimulus order.
      Every entry names one of the stimuli. */
  function Grouped(f: seq<nat>): (r: seq<nat>)
    ensures |r| == Sum(f)
    ensures forall k :: 0 <= k < |r| ==> r[k] < |f|
  {
    if f == [] then [] else Grouped(f[..|f| - 1]) + Repeat(|f| - 1, f[|f| - 1])
  }

  lemma {:induction false} RepeatCount(i: nat, n: nat, x: nat)
    ensures multiset(Repeat(i, n))[x] == if x == i then n else 0
  {
    if n > 0 {
      assert Repeat(i, n) == Repeat(i, n - 1) + [i];
      RepeatCount(i, n - 1, x);
    } else {
      assert Repeat(i, n) == [];
    }
  }

  /** Index x occurs in the playlist exactly as often as its frequency says,
      and an index past the last stimulus does not occur at all. */
  lemma {:induction false} GroupedCount(f: seq<nat>, x: nat)
    ensures multiset(Grouped(f))[x] == if x < |f| then f[x] else 0
  {
    if f != [] {
      var pre := f[..|f| - 1];
      GroupedCount(pre, x);
      RepeatCount(|f| - 1, f[|f| - 1], x);
      assert Grouped(f) == Grouped(pre) + Repeat(|f| - 1, f[|f| - 1]);
      if x < |pre| {
        assert pre[x] == f[x];
      }
    }
  }

  /** The groups keep stimulus order: the unshuffled playlist never steps back
      to a smaller index. */
  lemma {:induction false} GroupedSorted(f: seq<nat>)
    ensures forall a, b :: 0 <= a <= b < |Grouped(f)| ==> Grouped(f)[a] <= Grouped(f)[b]
  {
    if f != [] {
      var pre := f[..|f| - 1];
      GroupedSorted(pre);
      var g, tail := Grouped(pre), Repeat(|f| - 1, f[|f| - 1]);
      assert Grouped(f) == g + tail;
      forall a, b | 0 <= a <= b < |g + tail|
        ensures (g + tail)[a] <= (g + tail)[b]
      {
        if b < |g| {
          assert (g + tail)[a] == g[a] && (g + tail)[b] == g[b];
        } else if a < |g| {
          assert (g + tail)[a] == g[a] < |pre|;
        }
      }
    }
  }

  /** The group of stimulus i starts after all earlier groups: position
      Sum(f[..i]) + j holds i for every j below f[i]. */
  lemma {:induction false} GroupedAt(f: seq<nat>, i: nat, j: nat)
    requires i < |f| && j < f[i]
    ensures Sum(f[..i]) + j < |Grouped(f)|
    ensures Grouped(f)[Sum(f[..i]) + j] == i
  {
    var pre := f[..|f| - 1];
    assert Grouped(f) == Grouped(pre) + Repeat(|f| - 1, f[|f| - 1]);
    if i == |f| - 1 {
      assert f[..i] == pre;
    } else {
      assert pre[..i] == f[..i] && pre[i] == f[i];
      GroupedAt(pre, i, j);
    }
  }

  /** Laying the rows end to end is the intended playlist. */
  lemma {:induction false} ConcatRows(f: seq<nat>)
    ensures Concat(Rows(f)) == Grouped(f)
  {
    if f != [] {
      var pre := f[..|f| - 1];
      assert Rows(f)[..|f| - 1] == Rows(pre);
      ConcatRows(pre);
    }
  }

  predicate Rectangular(rows: seq<seq<nat>>)
  {
    forall a, b :: 0 <= a < |rows| && 0 <= b < |rows| ==> |rows[a]| == |rows[b]|
  }

  /** `np.array(rows).flatten()` as the code writes it: rows of one common length
      form a two-dimensional array that flattens row by row; rows of different
      lengths do not form an array of integers, and the construction fails. */
  function FlattenAsWritten(rows: seq<seq<nat>>): (r: Option<seq<nat>>)
  {
    if Rectangular(rows) then Some(Concat(rows)) else None
  }

  /** With equal frequencies the code as written builds the intended playlist. */
  lemma EqualFrequenciesFlatten(f: seq<nat>)
    requires forall a, b :: 0 <= a < |f| && 0 <= b < |f| ==> f[a] == f[b]
    ensures FlattenAsWritten(Rows(f)) == Some(Grouped(f))
  {
    ConcatRows(f);
  }

  /** Two different frequencies make the code as written fail, although the
      intended playlist exists and counts every index correctly. */
  lemma RaggedFlattenFails(f: seq<nat>, a: nat, b: nat)
    requires a < |f| && b < |f| && f[a] != f[b]
    ensures FlattenAsWritten(Rows(f)).None?
    ensures multiset(Grouped(f))[a] == f[a] && multiset(Grouped(f))[b] == f[b]
  {
    assert |Rows(f)[a]| != |Rows(f)[b]|;
    GroupedCount(f, a);
    GroupedCount(f, b);
  }

  /** The concrete case: frequencies 1 and 2 should give [0, 1, 1]. */
  lemma RaggedExample()
    ensures FlattenAsWritten(Rows([1, 2])).None?
    ensures Grouped([1, 2]) == [0, 1, 1]
  {
    RaggedFlattenFails([1, 2], 0, 1);
    assert [1, 2][..1] == [1];
    assert Grouped([1]) == [0] by {
      assert [1][..0] == [];
    }
  }

  /** numpy's in-place shuffle (Fisher–Yates from the back): for each position i
      from the last down to 1, swap it with a position j in [0, i]; `draw(i)`
      stands for the random generator's choice at position i. */
  method Shuffle(a: array<nat>, draw: nat -> nat)
    modifies a
    ensures multiset(a[..]) == old(multiset(a[..]))
  {
    var i := a.Length;
    while i > 1
      invariant 0 <= i <= a.Length
      invariant multiset(a[..]) == old(multiset(a[..]))
    {
      i := i - 1;
      var j := draw(i) % (i + 1);
      a[i], a[j] := a[j], a[i];
    }
  }
}
