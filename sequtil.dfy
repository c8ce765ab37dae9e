/** Small facts about sequences that the tensor bookkeeping relies on. */
module SeqUtil {

  /** The largest entry of a non-empty sequence (`tensor.max()`). */
  function Max(s: seq<int>): (m: int)
    requires |s| > 0
    ensures forall i :: 0 <= i < |s| ==> s[i] <= m
    ensures exists i :: 0 <= i < |s| && s[i] == m
  {
    if |s| == 1 then s[0]
    else
      var rest := Max(s[1..]);
      assert forall i :: 1 <= i < |s| ==> s[i] == s[1..][i - 1];
      if s[0] >= rest then s[0] else rest
  }

  /** The number of true cells of a boolean row (`mask.sum()`). */
  function Count(m: seq<bool>): (n: nat)
    ensures n <= |m|
  {
    if |m| == 0 then 0 else (if m[0] then 1 else 0) + Count(m[1..])
  }

  /** The number of true cells of a boolean matrix. */
  function Total(m: seq<seq<bool>>): nat {
    if |m| == 0 then 0 else Count(m[0]) + Total(m[1..])
  }

  /** Row-major concatenation of a matrix (`tensor.flatten`). */
  function Flatten<E>(m: seq<seq<E>>): seq<E> {
    if |m| == 0 then [] else m[0] + Flatten(m[1..])
  }

  /** Negate every cell of a boolean matrix (`~mask`). */
  function Invert(m: seq<seq<bool>>): (r: seq<seq<bool>>)
    ensures |r| == |m|
    ensures forall i :: 0 <= i < |m| ==> |r[i]| == |m[i]|
    ensures forall i, j :: 0 <= i < |m| && 0 <= j < |m[i]| ==> r[i][j] == !m[i][j]
  {
    seq(|m|, i requires 0 <= i < |m| => seq(|m[i]|, j requires 0 <= j < |m[i]| => !m[i][j]))
  }

  lemma {:induction false} CountAppend(a: seq<bool>, b: seq<bool>)
    ensures Count(a + b) == Count(a) + Count(b)
  {
    if |a| == 0 {
      assert a + b == b;
    } else {
      assert (a + b)[1..] == a[1..] + b;
      CountAppend(a[1..], b);
    }
  }

  lemma {:induction false} TotalAppend(a: seq<seq<bool>>, b: seq<seq<bool>>)
    ensures Total(a + b) == Total(a) + Total(b)
  {
    if |a| == 0 {
      assert a + b == b;
    } else {
      assert (a + b)[1..] == a[1..] + b;
      TotalAppend(a[1..], b);
    }
  }

  /** Prefix counts: the count of `m[..k+1]` adds the k-th cell to the count of `m[..k]`. */
  lemma CountPrefixStep(m: seq<bool>, k: nat)
    requires k < |m|
    ensures Count(m[..k + 1]) == Count(m[..k]) + (if m[k] then 1 else 0)
  {
    assert m[..k + 1] == m[..k] + [m[k]];
    CountAppend(m[..k], [m[k]]);
  }

  lemma TotalPrefixStep(m: seq<seq<bool>>, k: nat)
    requires k < |m|
    ensures Total(m[..k + 1]) == Total(m[..k]) + Count(m[k])
  {
    assert m[..k + 1] == m[..k] + [m[k]];
    TotalAppend(m[..k], [m[k]]);
  }
}
