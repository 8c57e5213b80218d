/** One-hot encoding of a label map: a zero (n, h, w) tensor whose plane c is
    set to 1 exactly where the label is c. Labels outside [0, n) match no
    plane, so their pixel is left all-zero. */
module OneHotEncoding {
  import opened Grids

  /** The one-hot tensor of the label map with n class planes. */
  function OneHot(labels: seq<seq<int>>, n: nat, h: nat, w: nat): (t: seq<seq<seq<int>>>)
    requires IsGrid(labels, h, w)
    ensures IsTensor3(t, n, h, w)
    ensures forall c, y, x :: 0 <= c < n && 0 <= y < h && 0 <= x < w ==>
              (t[c][y][x] == 0 || t[c][y][x] == 1)
    ensures forall c, y, x :: 0 <= c < n && 0 <= y < h && 0 <= x < w ==>
              (t[c][y][x] == 1 <==> labels[y][x] == c)
  {
    seq(n, c requires 0 <= c < n =>
      seq(h, y requires 0 <= y < h =>
        seq(w, x requires 0 <= x < w => if labels[y][x] == c then 1 else 0)))
  }

  /** The sum of t[c][y][x] over the first k planes c. */
  function ClassSum(t: seq<seq<seq<int>>>, k: nat, y: nat, x: nat): int
    requires |t| >= k
    requires forall c :: 0 <= c < k ==> y < |t[c]| && x < |t[c][y]|
  {
    if k == 0 then 0 else ClassSum(t, k - 1, y, x) + t[k - 1][y][x]
  }

  /** Summed over its first k planes, a one-hot column counts 1 exactly when
      the label lies in [0, k). */
  lemma {:induction false} ClassSumPrefix(labels: seq<seq<int>>, n: nat, h: nat, w: nat, k: nat, y: nat, x: nat)
    requires IsGrid(labels, h, w)
    requires k <= n && y < h && x < w
    ensures ClassSum(OneHot(labels, n, h, w), k, y, x) == if 0 <= labels[y][x] < k then 1 else 0
  {
    if k > 0 {
      ClassSumPrefix(labels, n, h, w, k - 1, y, x);
    }
  }

  /** Each pixel's column sums to 1 when its label is a class in [0, n), and to
      0 when the label is negative or at least n (the silently all-zero case). */
  lemma OneHotColumnSum(labels: seq<seq<int>>, n: nat, h: nat, w: nat, y: nat, x: nat)
    requires IsGrid(labels, h, w)
    requires y < h && x < w
    ensures ClassSum(OneHot(labels, n, h, w), n, y, x) == if 0 <= labels[y][x] < n then 1 else 0
  {
    ClassSumPrefix(labels, n, h, w, n, y, x);
  }

  /** The entries of an (n, h, w) array as nested sequences of planes and rows. */
  function Planes(a: array3<int>): (t: seq<seq<seq<int>>>)
    reads a
    ensures IsTensor3(t, a.Length0, a.Length1, a.Length2)
    ensures forall c, y, x :: 0 <= c < a.Length0 && 0 <= y < a.Length1 && 0 <= x < a.Length2 ==>
              t[c][y][x] == a[c, y, x]
  {
    seq(a.Length0, c requires 0 <= c < a.Length0 reads a =>
      seq(a.Length1, y requires 0 <= y < a.Length1 reads a =>
        seq(a.Length2, x requires 0 <= x < a.Length2 reads a => a[c, y, x])))
  }

  /** The masked assignment target[c][label == c] = 1: plane c gets a 1 at every
      pixel labelled c and keeps its other entries; the other planes are untouched. */
  method SetClassPlane(target: array3<int>, labels: seq<seq<int>>, c: nat)
    requires c < target.Length0
    requires IsGrid(labels, target.Length1, target.Length2)
    modifies target
    ensures forall y, x :: 0 <= y < target.Length1 && 0 <= x < target.Length2 ==>
              target[c, y, x] == if labels[y][x] == c then 1 else old(target[c, y, x])
    ensures forall c', y, x :: 0 <= c' < target.Length0 && c' != c && 0 <= y < target.Length1 && 0 <= x < target.Length2 ==>
              target[c', y, x] == old(target[c', y, x])
  {
    var h, w := target.Length1, target.Length2;
    for y := 0 to h
      invariant forall y', x :: 0 <= y' < y && 0 <= x < w ==>
                  target[c, y', x] == if labels[y'][x] == c then 1 else old(target[c, y', x])
      invariant forall y', x :: y <= y' < h && 0 <= x < w ==> target[c, y', x] == old(target[c, y', x])
      invariant forall c', y', x :: 0 <= c' < target.Length0 && c' != c && 0 <= y' < h && 0 <= x < w ==>
                  target[c', y', x] == old(target[c', y', x])
    {
      for x := 0 to w
        invariant forall y', x' :: 0 <= y' < y && 0 <= x' < w ==>
                    target[c, y', x'] == if labels[y'][x'] == c then 1 else old(target[c, y', x'])
        invariant forall x' :: 0 <= x' < x ==>
                    target[c, y, x'] == if labels[y][x'] == c then 1 else old(target[c, y, x'])
        invariant forall y', x' :: (y < y' < h && 0 <= x' < w) || (y' == y && x <= x' < w) ==>
                    target[c, y', x'] == old(target[c, y', x'])
        invariant forall c', y', x' :: 0 <= c' < target.Length0 && c' != c && 0 <= y' < h && 0 <= x' < w ==>
                    target[c', y', x'] == old(target[c', y', x'])
      {
        if labels[y][x] == c {
          target[c, y, x] := 1;
        }
      }
    }
  }

  /** Builds the one-hot target as the loader does: a zero (n, h, w) array,
      then for each class c in turn, the masked assignment of 1 to plane c. */
  method BuildOneHot(labels: seq<seq<int>>, n: nat, h: nat, w: nat) returns (target: array3<int>)
    requires IsGrid(labels, h, w)
    ensures fresh(target)
    ensures target.Length0 == n && target.Length1 == h && target.Length2 == w
    ensures Planes(target) == OneHot(labels, n, h, w)
  {
    target := new int[n, h, w]((c, y, x) => 0);
    for c := 0 to n
      invariant forall c', y, x :: 0 <= c' < n && 0 <= y < h && 0 <= x < w ==>
                  target[c', y, x] == if c' < c && labels[y][x] == c' then 1 else 0
    {
      SetClassPlane(target, labels, c);
    }
    ghost var t, o := Planes(target), OneHot(labels, n, h, w);
    forall c | 0 <= c < n
      ensures t[c] == o[c]
    {
      forall y | 0 <= y < h
        ensures t[c][y] == o[c][y]
      {
        assert forall x :: 0 <= x < w ==> t[c][y][x] == o[c][y][x];
      }
    }
  }
}
