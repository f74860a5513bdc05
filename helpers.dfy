/** The array helpers of src/Support/helpers.php that fix buffer shapes, plus
    the contracts of the two helpers that read random state (the random
    values are parameters here). */
module Helpers {

  datatype Option<+T> = None | Some(value: T)
  {
    function GetOr(default: T): T
    {
      match this
      case Some(v) => v
      case None => default
    }
  }

  /** PHP's array_fill(0, n, v). */
  function Fill<T>(n: nat, v: T): (r: seq<T>)
    ensures |r| == n
    ensures forall i | 0 <= i < n :: r[i] == v
  {
    if n == 0 then [] else Fill(n - 1, v) + [v]
  }

  /** A rows x cols matrix, as a sequence of rows. */
  predicate IsMatrix<T>(w: seq<seq<T>>, rows: nat, cols: nat)
  {
    |w| == rows && forall j | 0 <= j < rows :: |w[j]| == cols
  }

  /** matrix_fill(rows, columns, value): every row is array_fill(0, columns, value). */
  function MatrixFill<T>(rows: nat, cols: nat, v: T): (r: seq<seq<T>>)
    ensures IsMatrix(r, rows, cols)
    ensures forall j | 0 <= j < rows :: r[j] == Fill(cols, v)
  {
    if rows == 0 then [] else MatrixFill(rows - 1, cols, v) + [Fill(cols, v)]
  }

  /** array_last: PHP's end() yields false on an empty array, None here. */
  function ArrayLast<T>(a: seq<T>): (r: Option<T>)
    ensures r.None? <==> |a| == 0
    ensures |a| > 0 ==> r == Some(a[|a| - 1])
  {
    if |a| == 0 then None else Some(a[|a| - 1])
  }

  /** array_keys of a list: 0, 1, ..., n-1. */
  function Keys(n: nat): (r: seq<nat>)
    ensures |r| == n
  {
    if n == 0 then [] else Keys(n - 1) + [n - 1]
  }

  /** Entry i of array_keys is i. */
  lemma {:induction false} KeysAt(n: nat, i: nat)
    requires i < n
    ensures Keys(n)[i] == i
  {
    if i < n - 1 {
      KeysAt(n - 1, i);
    }
  }

  /** `order` lists every index below n exactly once. */
  predicate IsPermutation(order: seq<nat>, n: nat)
  {
    && |order| == n
    && (forall i | 0 <= i < n :: order[i] < n)
    && (forall i, j | 0 <= i < j < n :: order[i] != order[j])
  }

  /** The sequence with the elements at i and j exchanged. */
  function Swap<T>(a: seq<T>, i: nat, j: nat): (r: seq<T>)
    requires i < |a| && j < |a|
    ensures |r| == |a| && multiset(r) == multiset(a)
    ensures r[i] == a[j] && r[j] == a[i]
    ensures forall k | 0 <= k < |a| && k != i && k != j :: r[k] == a[k]
  {
    a[i := a[j]][j := a[i]]
  }

  /** The random choices of shuffle(): picks[i] <= i is the position that
      position i is exchanged with. */
  predicate Picks(picks: seq<nat>, n: nat)
  {
    |picks| == n && forall i | 0 <= i < n :: picks[i] <= i
  }

  /** What shuffle() leaves once it has gone down from position i - 1 to
      position 1, exchanging each position k with picks[k]. */
  function ShuffleDown<T>(a: seq<T>, picks: seq<nat>, i: nat): (r: seq<T>)
    requires Picks(picks, |a|) && i <= |a|
    ensures |r| == |a| && multiset(r) == multiset(a)
    decreases i
  {
    if i <= 1 then a else ShuffleDown(Swap(a, i - 1, picks[i - 1]), picks, i - 1)
  }

  /** shuffle() of the whole array: positions |a| - 1 down to 1. */
  function Shuffled<T>(a: seq<T>, picks: seq<nat>): (r: seq<T>)
    requires Picks(picks, |a|)
    ensures |r| == |a| && multiset(r) == multiset(a)
  {
    ShuffleDown(a, picks, |a|)
  }

  /** array_shuffle: shuffle() on a local copy, so the caller's sequence is
      never touched (PHP arrays are values). The random choices are the
      parameter `picks`. */
  method ArrayShuffle<T>(values: seq<T>, picks: seq<nat>) returns (r: seq<T>)
    requires Picks(picks, |values|)
    ensures r == Shuffled(values, picks)
    ensures |r| == |values| && multiset(r) == multiset(values)
  {
    r := values;
    var i := |r|;
    while i > 1
      invariant 0 <= i <= |r| == |values|
      invariant ShuffleDown(r, picks, i) == Shuffled(values, picks)
    {
      i := i - 1;
      var j := picks[i];
      r := r[i := r[j]][j := r[i]];
    }
  }

  /** A value of mt_rand() / mt_getrandmax(): a real in [0, 1]. */
  type Uniform = r: real | 0.0 <= r <= 1.0

  /** binary_rand(p): 1 when the uniform draw (the parameter `draw`) is at
      most p, else 0. */
  function BinaryRand(p: real, draw: Uniform): (r: int)
    requires 0.0 <= p <= 1.0
    ensures r == 0 || r == 1
    ensures p == 1.0 ==> r == 1
    ensures r == 1 <==> draw <= p
  {
    if draw <= p then 1 else 0
  }

  lemma {:induction false} KeysOccurOnce(n: nat, x: nat)
    ensures multiset(Keys(n))[x] == if x < n then 1 else 0
  {
    if n > 0 {
      KeysOccurOnce(n - 1, x);
      assert multiset(Keys(n)) == multiset(Keys(n - 1)) + multiset{(n - 1) as nat};
    }
  }

  lemma TwoPositionsCountTwice<T>(s: seq<T>, i: nat, j: nat)
    requires i < j < |s| && s[i] == s[j]
    ensures multiset(s)[s[i]] >= 2
  {
    assert s == s[..j] + [s[j]] + s[j + 1..];
    assert s[..j][i] == s[i];
    assert s[i] in multiset(s[..j]);
  }

  /** A shuffle of the keys 0..n-1 (array_shuffle(array_keys(...)) in the
      training loop) is a permutation of the indices. */
  lemma ShuffledKeysArePermutation(order: seq<nat>, n: nat)
    requires multiset(order) == multiset(Keys(n))
    ensures IsPermutation(order, n)
  {
    assert |order| == |multiset(order)| == |multiset(Keys(n))| == n;
    forall i | 0 <= i < n
      ensures order[i] < n
    {
      assert order[i] in multiset(order);
      KeysOccurOnce(n, order[i]);
    }
    forall i, j | 0 <= i < j < n
      ensures order[i] != order[j]
    {
      if order[i] == order[j] {
        TwoPositionsCountTwice(order, i, j);
        KeysOccurOnce(n, order[i]);
      }
    }
  }

  /** array_shuffle(array_keys(...)) of an n-element list: the order in which
      train() visits the samples. */
  function ShuffledKeys(n: nat, picks: seq<nat>): (order: seq<nat>)
    requires Picks(picks, n)
    ensures IsPermutation(order, n)
  {
    var order := Shuffled(Keys(n), picks);
    ShuffledKeysArePermutation(order, n);
    order
  }
}
