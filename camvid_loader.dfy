/** The CamVid sample provider: a dataset over a manifest of (image, label map)
    file pairs that, for one index, crops both arrays at a random window,
    mirrors both on one shared random draw, moves the image's channel axis to
    the front and one-hot encodes the label map.

    Reading the manifest, decoding the files and drawing the random numbers
    happen outside this model: the decoded arrays and the draws are arguments. */
module CamVidLoader {
  import opened Grids
  import opened OneHotEncoding

  /** Default number of classes. */
  const NumClass: nat := 32

  /** Native resolution of the dataset's images. */
  const SourceH: nat := 720
  const SourceW: nat := 960

  /** The crop side derived from a native side, int(int(dim) / 32 * 32 * 2 / 3),
      read with Python 3 true division: dividing by 32 and multiplying back is
      exact in floating point, so the value is two thirds of dim rounded down.
      This model assumes that reading. */
  function CropSize(dim: nat): (r: nat)
    ensures 3 * r <= 2 * dim < 3 * r + 3
  {
    2 * dim / 3
  }

  /** The same expression read with Python 2 integer division, where dim is
      first rounded down to a multiple of 32. */
  function CropSizeIntDiv(dim: nat): (r: nat)
    ensures 3 * r <= 2 * (dim - dim % 32) < 3 * r + 3
    ensures r <= CropSize(dim)
  {
    dim / 32 * 32 * 2 / 3
  }

  /** The two readings agree on every side that is already a multiple of 32. */
  lemma CropSizeReadingsAgree(dim: nat)
    requires dim % 32 == 0
    ensures CropSizeIntDiv(dim) == CropSize(dim)
  {
  }

  /** The constants of the loader: 480 x 640 under Python 3; under Python 2
      the height would be 469, the width is 640 either way. */
  lemma DerivedCropSizes()
    ensures CropSize(SourceH) == 480 && CropSize(SourceW) == 640
    ensures CropSizeIntDiv(SourceH) == 469 && CropSizeIntDiv(SourceW) == 640
  {
  }

  const CropH: nat := CropSize(SourceH)
  const CropW: nat := CropSize(SourceW)

  /** One manifest row: where the image and the label map of a sample are stored. */
  datatype ManifestRow = ManifestRow(imageName: string, labelName: string)

  /** What one retrieval returns: the channels-first image ('X', before the
      float normalisation), the one-hot target ('Y') and the label map ('l'). */
  datatype Sample = Sample(image: seq<seq<seq<uint8>>>, target: seq<seq<seq<int>>>, labels: seq<seq<int>>)

  /** How a retrieval fails: the index names no manifest row, a crop offset is
      drawn from an empty range, or the one-hot target would have a negative
      number of planes. */
  datatype LoadError = MissingRow | EmptyCropRange | NegativeClassCount

  datatype Result<T> = Ok(value: T) | Err(error: LoadError)

  /** The mirror decision for a draw in [0, 1): whether it falls below the flip
      rate. A rate of 0 or less never mirrors, a rate of 1 or more always does. */
  function Flips(draw: real, flipRate: real): (b: bool)
    requires 0.0 <= draw < 1.0
    ensures flipRate <= 0.0 ==> !b
    ensures 1.0 <= flipRate ==> b
  {
    draw < flipRate
  }

  class CamVidDataset {
    const rows: seq<ManifestRow>
    const nClass: int
    const crop: bool
    const cropH: nat
    const cropW: nat
    const flipRate: real

    /** A dataset over the given manifest rows; the crop size is the loader's
        fixed constant and is not a parameter. */
    constructor (rows: seq<ManifestRow>, nClass: int := NumClass, crop: bool := true, flipRate: real := 0.5)
      ensures this.rows == rows && this.nClass == nClass
      ensures this.crop == crop && this.flipRate == flipRate
      ensures cropH == CropH && cropW == CropW
    {
      this.rows := rows;
      this.nClass := nClass;
      this.crop := crop;
      this.cropH := CropH;
      this.cropW := CropW;
      this.flipRate := flipRate;
    }

    /** The number of samples: one per manifest row. */
    function Len(): (n: nat)
      ensures n == |rows|
    {
      |rows|
    }

    /** Height and width of a sample taken from an h x w source. */
    function OutH(h: nat): nat { if crop then cropH else h }
    function OutW(w: nat): nat { if crop then cropW else w }

    /** Both crop offsets can be drawn: randint(0, n) needs n > 0. */
    predicate CropPossible(h: nat, w: nat) {
      cropH < h && cropW < w
    }

    /** The spatial augmentation, applied alike to the image and to the label
        map: the crop window at (top, left) when cropping is on, then the
        mirror when flip holds. Each output entry is the source entry at the
        window offset, read from the right when mirrored. */
    function Augment<T>(g: seq<seq<T>>, h: nat, w: nat, top: nat, left: nat, flip: bool): (r: seq<seq<T>>)
      requires IsGrid(g, h, w)
      requires crop ==> top + cropH <= h && left + cropW <= w
      ensures IsGrid(r, OutH(h), OutW(w))
      ensures forall y, x :: 0 <= y < OutH(h) && 0 <= x < OutW(w) ==>
                r[y][x] == g[(if crop then top else 0) + y]
                            [(if crop then left else 0) + (if flip then OutW(w) - 1 - x else x)]
    {
      var g1 := if crop then Crop(g, h, w, top, left, cropH, cropW) else g;
      if flip then FlipLR(g1, OutH(h), OutW(w)) else g1
    }

    /** Image and label map stay pixel-aligned: augmenting them separately with
        the same offsets and the same flip decision is augmenting their pairs. */
    lemma AugmentKeepsAlignment<A, B>(a: seq<seq<A>>, b: seq<seq<B>>, h: nat, w: nat,
                                      top: nat, left: nat, flip: bool)
      requires IsGrid(a, h, w) && IsGrid(b, h, w)
      requires crop ==> top + cropH <= h && left + cropW <= w
      ensures Augment(Zip(a, b, h, w), h, w, top, left, flip)
           == Zip(Augment(a, h, w, top, left, flip), Augment(b, h, w, top, left, flip), OutH(h), OutW(w))
    {
      if crop {
        CropKeepsAlignment(a, b, h, w, top, left, cropH, cropW);
        if flip {
          FlipKeepsAlignment(Crop(a, h, w, top, left, cropH, cropW),
                             Crop(b, h, w, top, left, cropH, cropW), cropH, cropW);
        }
      } else if flip {
        FlipKeepsAlignment(a, b, h, w);
      }
    }

    /** Without cropping and with a flip rate of 0 or less, the label map and
        image come through unchanged, whatever the draws. */
    lemma NoAugmentation<T>(g: seq<seq<T>>, h: nat, w: nat, top: nat, left: nat, draw: real)
      requires IsGrid(g, h, w)
      requires !crop && flipRate <= 0.0 && 0.0 <= draw < 1.0
      ensures Augment(g, h, w, top, left, Flips(draw, flipRate)) == g
    {
    }

    /** __getitem__ for the row idx, given the decoded image and label map of
        that row (both h x w), the crop offsets and the mirror draw. The
        offsets are taken from [0, h - cropH) and [0, w - cropW) whenever those
        ranges are not empty. */
    method GetItem(idx: int, img: seq<seq<seq<uint8>>>, labels: seq<seq<int>>, h: nat, w: nat,
                   top: nat, left: nat, draw: real) returns (r: Result<Sample>)
      requires IsTensor3(img, h, w, 3) && IsGrid(labels, h, w)
      requires crop && CropPossible(h, w) ==> top < h - cropH && left < w - cropW
      requires 0.0 <= draw < 1.0
      ensures r == Err(MissingRow) <==> !(0 <= idx < |rows|)
      ensures r == Err(EmptyCropRange) <==> 0 <= idx < |rows| && crop && !CropPossible(h, w)
      ensures r == Err(NegativeClassCount) <==>
                0 <= idx < |rows| && (!crop || CropPossible(h, w)) && nClass < 0
      ensures r.Ok? ==>
                var flip := Flips(draw, flipRate);
                && 0 <= nClass
                && IsTensor3(r.value.image, 3, OutH(h), OutW(w))
                && IsTensor3(r.value.target, nClass, OutH(h), OutW(w))
                && IsGrid(r.value.labels, OutH(h), OutW(w))
                && r.value.labels == Augment(labels, h, w, top, left, flip)
                && r.value.image == ChannelsFirst(Augment(img, h, w, top, left, flip), OutH(h), OutW(w), 3)
                && r.value.target == OneHot(r.value.labels, nClass, OutH(h), OutW(w))
    {
      if !(0 <= idx < |rows|) {
        return Err(MissingRow);
      }
      var image, labelMap, sh, sw := img, labels, h, w;
      if crop {
        if !CropPossible(h, w) {
          return Err(EmptyCropRange);
        }
        image := Crop(image, h, w, top, left, cropH, cropW);
        labelMap := Crop(labelMap, h, w, top, left, cropH, cropW);
        sh, sw := cropH, cropW;
      }
      if Flips(draw, flipRate) {
        image := FlipLR(image, sh, sw);
        labelMap := FlipLR(labelMap, sh, sw);
      }
      if nClass < 0 {
        return Err(NegativeClassCount);
      }
      var x := ChannelsFirst(image, sh, sw, 3);
      var target := BuildOneHot(labelMap, nClass, sh, sw);
      r := Ok(Sample(x, Planes(target), labelMap));
    }
  }
}
