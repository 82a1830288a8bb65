/** Per-bus, per-time-step tables and the index selections made over them. */
module Tensors {

  /** `g[i][t]` is the value at bus `i` and time step `t`. */
  type Grid = seq<seq<real>>

  /** `g` has `rows` rows of `cols` entries each (a numpy array of shape (rows, cols)). */
  predicate Shaped(g: Grid, rows: nat, cols: nat) {
    |g| == rows && forall i :: 0 <= i < rows ==> |g[i]| == cols
  }

  function Zeros(n: nat): seq<real> {
    seq(n, _ => 0.0)
  }

  /** The all-zero table of shape (rows, cols), as `np.zeros((rows, cols))` builds it. */
  function ZeroGrid(rows: nat, cols: nat): Grid {
    seq(rows, _ => Zeros(cols))
  }

  /** Element-wise negation, `-g`. */
  function Negate(g: Grid): Grid {
    seq(|g|, i requires 0 <= i < |g| => seq(|g[i]|, t requires 0 <= t < |g[i]| => -g[i][t]))
  }

  /** Column `t` of `g`: the values of every row at time step `t`. */
  function Column(g: Grid, t: nat): seq<real>
    requires forall i :: 0 <= i < |g| ==> t < |g[i]|
  {
    seq(|g|, i requires 0 <= i < |g| => g[i][t])
  }

  /**
   * `np.where(p(v))[0]`: the indices of `v` whose entry satisfies `p`, in
   * increasing order, each exactly once.
   */
  function IndicesWhere(v: seq<real>, p: real -> bool): (r: seq<nat>)
    ensures forall j :: 0 <= j < |r| ==> r[j] < |v| && p(v[r[j]])
    ensures forall i :: 0 <= i < |v| && p(v[i]) ==> i in r
    ensures forall j, k :: 0 <= j < k < |r| ==> r[j] < r[k]
  {
    if |v| == 0 then []
    else IndicesWhere(v[..|v| - 1], p) + (if p(v[|v| - 1]) then [|v| - 1] else [])
  }

  /** The contents of a two-dimensional array, as a table. */
  function Snapshot(a: array2<real>): (g: Grid)
    reads a
    ensures Shaped(g, a.Length0, a.Length1)
    ensures forall i, t :: 0 <= i < a.Length0 && 0 <= t < a.Length1 ==> g[i][t] == a[i, t]
  {
    seq(a.Length0, i reads a requires 0 <= i < a.Length0 =>
      seq(a.Length1, t reads a requires 0 <= t < a.Length1 => a[i, t]))
  }

  /** Two tables of the same shape with the same entries are equal. */
  lemma SameEntries(g: Grid, h: Grid, rows: nat, cols: nat)
    requires Shaped(g, rows, cols) && Shaped(h, rows, cols)
    requires forall i, t :: 0 <= i < rows && 0 <= t < cols ==> g[i][t] == h[i][t]
    ensures g == h
  {
    forall i | 0 <= i < rows
      ensures g[i] == h[i]
    {
      assert forall t :: 0 <= t < cols ==> g[i][t] == h[i][t];
    }
  }

  /** Negation keeps the shape of a table. */
  lemma NegatePreservesShape(g: Grid, rows: nat, cols: nat)
    requires Shaped(g, rows, cols)
    ensures Shaped(Negate(g), rows, cols)
  {
  }

  /** Negating twice gives back the table: the stored duals determine the returned ones. */
  lemma NegateInvolutive(g: Grid)
    ensures Negate(Negate(g)) == g
  {
    var n := Negate(Negate(g));
    assert |n| == |g|;
    forall i | 0 <= i < |g|
      ensures n[i] == g[i]
    {
      assert |n[i]| == |g[i]|;
    }
  }
}
