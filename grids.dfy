/** Index-level transforms on rectangular grids: the window slice, the
    left-right mirror and the (h, w, c) -> (c, h, w) axis permutation that
    the CamVid sample pipeline applies to images and label maps. A grid is a
    sequence of rows; an image is a grid whose entries are channel vectors. */
module Grids {

  /** An unsigned 8-bit intensity, as decoded from an RGB file. */
  newtype uint8 = x: int | 0 <= x < 256

  /** g has h rows of w entries each. */
  predicate IsGrid<T>(g: seq<seq<T>>, h: nat, w: nat) {
    |g| == h && forall y :: 0 <= y < h ==> |g[y]| == w
  }

  /** t has shape (d0, d1, d2). */
  predicate IsTensor3<T>(t: seq<seq<seq<T>>>, d0: nat, d1: nat, d2: nat) {
    IsGrid(t, d0, d1) && forall i, j :: 0 <= i < d0 && 0 <= j < d1 ==> |t[i][j]| == d2
  }

  /** The window of ch rows and cw columns whose top-left corner is (top, left):
      the two-axis slice g[top:top+ch, left:left+cw] taken inside the grid. */
  function Crop<T>(g: seq<seq<T>>, h: nat, w: nat, top: nat, left: nat, ch: nat, cw: nat): (r: seq<seq<T>>)
    requires IsGrid(g, h, w)
    requires top + ch <= h && left + cw <= w
    ensures IsGrid(r, ch, cw)
    ensures forall y, x :: 0 <= y < ch && 0 <= x < cw ==> r[y][x] == g[top + y][left + x]
  {
    seq(ch, y requires 0 <= y < ch => g[top + y][left .. left + cw])
  }

  /** The row s read back to front. */
  function Reversed<T>(s: seq<T>): (r: seq<T>)
    ensures |r| == |s|
    ensures forall k :: 0 <= k < |s| ==> r[k] == s[|s| - 1 - k]
  {
    if s == [] then [] else Reversed(s[1..]) + [s[0]]
  }

  /** The left-right mirror (flip along the width axis): every row reversed,
      whatever the entries are, so an image's pixels keep their channels. */
  function FlipLR<T>(g: seq<seq<T>>, h: nat, w: nat): (r: seq<seq<T>>)
    requires IsGrid(g, h, w)
    ensures IsGrid(r, h, w)
    ensures forall y, x :: 0 <= y < h && 0 <= x < w ==> r[y][x] == g[y][w - 1 - x]
  {
    seq(h, y requires 0 <= y < h => Reversed(g[y]))
  }

  /** Mirroring twice gives back the grid. */
  lemma FlipLRTwice<T>(g: seq<seq<T>>, h: nat, w: nat)
    requires IsGrid(g, h, w)
    ensures FlipLR(FlipLR(g, h, w), h, w) == g
  {
    var r := FlipLR(FlipLR(g, h, w), h, w);
    forall y | 0 <= y < h
      ensures r[y] == g[y]
    {
      assert forall x :: 0 <= x < w ==> r[y][x] == g[y][x];
    }
  }

  /** The grid of pairs (a[y][x], b[y][x]): a pixel of one grid together with
      the entry of the other that sits at the same place. */
  function Zip<A, B>(a: seq<seq<A>>, b: seq<seq<B>>, h: nat, w: nat): (r: seq<seq<(A, B)>>)
    requires IsGrid(a, h, w) && IsGrid(b, h, w)
    ensures IsGrid(r, h, w)
    ensures forall y, x :: 0 <= y < h && 0 <= x < w ==> r[y][x] == (a[y][x], b[y][x])
  {
    seq(h, y requires 0 <= y < h => seq(w, x requires 0 <= x < w => (a[y][x], b[y][x])))
  }

  /** Slicing two grids with the same window keeps them aligned: it is the
      same as slicing the grid of their pairs. */
  lemma CropKeepsAlignment<A, B>(a: seq<seq<A>>, b: seq<seq<B>>, h: nat, w: nat,
                                 top: nat, left: nat, ch: nat, cw: nat)
    requires IsGrid(a, h, w) && IsGrid(b, h, w)
    requires top + ch <= h && left + cw <= w
    ensures Crop(Zip(a, b, h, w), h, w, top, left, ch, cw)
         == Zip(Crop(a, h, w, top, left, ch, cw), Crop(b, h, w, top, left, ch, cw), ch, cw)
  {
    var p := Crop(Zip(a, b, h, w), h, w, top, left, ch, cw);
    var q := Zip(Crop(a, h, w, top, left, ch, cw), Crop(b, h, w, top, left, ch, cw), ch, cw);
    forall y | 0 <= y < ch
      ensures p[y] == q[y]
    {
      assert forall x :: 0 <= x < cw ==> p[y][x] == q[y][x];
    }
  }

  /** Mirroring two grids together keeps them aligned. */
  lemma FlipKeepsAlignment<A, B>(a: seq<seq<A>>, b: seq<seq<B>>, h: nat, w: nat)
    requires IsGrid(a, h, w) && IsGrid(b, h, w)
    ensures FlipLR(Zip(a, b, h, w), h, w) == Zip(FlipLR(a, h, w), FlipLR(b, h, w), h, w)
  {
    var p := FlipLR(Zip(a, b, h, w), h, w);
    var q := Zip(FlipLR(a, h, w), FlipLR(b, h, w), h, w);
    forall y | 0 <= y < h
      ensures p[y] == q[y]
    {
      assert forall x :: 0 <= x < w ==> p[y][x] == q[y][x];
    }
  }

  /** The permutation (2, 0, 1): an (h, w, k) image becomes k planes of h x w. */
  function ChannelsFirst<T>(img: seq<seq<seq<T>>>, h: nat, w: nat, k: nat): (r: seq<seq<seq<T>>>)
    requires IsTensor3(img, h, w, k)
    ensures IsTensor3(r, k, h, w)
    ensures forall c, y, x :: 0 <= c < k && 0 <= y < h && 0 <= x < w ==> r[c][y][x] == img[y][x][c]
  {
    seq(k, c requires 0 <= c < k =>
      seq(h, y requires 0 <= y < h =>
        seq(w, x requires 0 <= x < w => img[y][x][c])))
  }

  /** The permutation (1, 2, 0): k planes of h x w become an (h, w, k) image. */
  function ChannelsLast<T>(t: seq<seq<seq<T>>>, k: nat, h: nat, w: nat): (r: seq<seq<seq<T>>>)
    requires IsTensor3(t, k, h, w)
    ensures IsTensor3(r, h, w, k)
    ensures forall c, y, x :: 0 <= c < k && 0 <= y < h && 0 <= x < w ==> r[y][x][c] == t[c][y][x]
  {
    seq(h, y requires 0 <= y < h =>
      seq(w, x requires 0 <= x < w =>
        seq(k, c requires 0 <= c < k => t[c][y][x])))
  }

  /** Channels-first loses nothing: moving the channel axis back restores the image. */
  lemma ChannelsRoundTrip<T>(img: seq<seq<seq<T>>>, h: nat, w: nat, k: nat)
    requires IsTensor3(img, h, w, k)
    ensures ChannelsLast(ChannelsFirst(img, h, w, k), k, h, w) == img
  {
    var r := ChannelsLast(ChannelsFirst(img, h, w, k), k, h, w);
    forall y | 0 <= y < h
      ensures r[y] == img[y]
    {
      forall x | 0 <= x < w
        ensures r[y][x] == img[y][x]
      {
        assert forall c :: 0 <= c < k ==> r[y][x][c] == img[y][x][c];
      }
    }
  }
}
