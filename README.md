# CamVid sample loader, modelled in Dafny

This project models the per-sample pipeline of the CamVid semantic-segmentation
data loader (`CamVidDataset` in `python/CamVid_loader.py`). The loader holds a
manifest of (image file, label-map file) rows and a fixed configuration. For one
index it:

1. looks up the manifest row;
2. crops the image and the label map to the same `crop_h x crop_w` window at
   random offsets `(top, left)`;
3. mirrors both left-right when one shared random draw falls below `flip_rate`;
4. moves the image's channel axis to the front, from `(h, w, 3)` to `(3, h, w)`;
5. builds a one-hot target of shape `(n_class, h, w)` from a zero array, with
   one masked assignment per class.

Images and label maps are integer grids (`seq<seq<...>>`); the one-hot target
is built in place in an `array3<int>`, as the source fills a zero tensor. The
random draws are arguments whose ranges are stated as preconditions.

Files:

- `grids.dfy` (module `Grids`) holds the generic index transforms: crop window,
  left-right mirror, channel permutation, and the pairing (`Zip`) used to state
  image/label alignment.
- `one_hot.dfy` (module `OneHotEncoding`) holds the one-hot specification, its
  per-pixel class sum, and the imperative builder.
- `camvid_loader.dfy` (module `CamVidLoader`) holds the crop-size constants,
  the `CamVidDataset` class (constructor, `Len` for `__len__`, `GetItem` for
  `__getitem__`) and the composed augmentation.

Crop size. Line 24 computes `int(int(h) / 32 * 32 * 2 / 3)`. The file imports
only `print_function` from `__future__`, so the value depends on the interpreter.
Under Python 3 true division, `/ 32 * 32` is exact and the value is
`floor(2 * dim / 3)`: 480 for 720 and 640 for 960. This model assumes Python 3
(`CropSize`). The Python 2 reading rounds down to a multiple of 32 first and gives
469 and 640 (`CropSizeIntDiv`). Some descriptions of this loader give the
rounding-down formula together with the value 480. Those two do not agree, and
this model follows the code under Python 3.

Retrieval errors, in the order the source meets them:

- `MissingRow`: the index is not a manifest row. `.ix` does a label-based
  lookup on the default row index and fails.
- `EmptyCropRange`: cropping is on and `h <= crop_h` or `w <= crop_w`. Then
  `randint(0, n)` is called with `n <= 0` and fails.
- `NegativeClassCount`: `n_class < 0`. Then the zero target cannot be allocated.

Because the upper bound of `randint` is exclusive, a window never reaches the
last row or column of the source. `GetItem`'s precondition on `top` and `left`
states exactly that range.

## Model

| member | source | states |
|---|---|---|
| `CamVidLoader.CropSize` | python/CamVid_loader.py:24-25 | the crop side under Python 3 division is two thirds of the native side rounded down: `3r <= 2·dim < 3r + 3` |
| `CamVidLoader.CropSizeIntDiv` | python/CamVid_loader.py:24-25 | under Python 2 integer division the side is two thirds of `dim` rounded down to a multiple of 32, floored, and never more than the Python 3 value |
| `CamVidLoader.CropSizeReadingsAgree` | python/CamVid_loader.py:24-25 | the two readings agree whenever the native side is a multiple of 32 |
| `CamVidLoader.DerivedCropSizes` | python/CamVid_loader.py:23-25 | for 720 x 960 the crop is 480 x 640 under Python 3; under Python 2 it is 469 x 640, so the width is 640 either way |
| `CamVidLoader.Flips` | python/CamVid_loader.py:57 | mirror iff the draw in [0, 1) is below the flip rate; a rate <= 0 never mirrors, a rate >= 1 always does |
| `CamVidLoader.CamVidDataset.constructor` | python/CamVid_loader.py:30-39 | stores the manifest rows, `n_class` (default 32), `crop` (default true) and `flip_rate` (default 0.5); the crop size is the fixed 480 x 640 constant |
| `CamVidLoader.CamVidDataset.Len` | python/CamVid_loader.py:41-42 | the sample count is the manifest row count; `GetItem` fails with `MissingRow` for exactly the indices outside `[0, Len())` |
| `CamVidLoader.CamVidDataset.Augment` | python/CamVid_loader.py:50-59 | crop then optional mirror, applied to any grid: the output is `OutH x OutW`, and entry (y, x) is the source entry at row `top + y` and at column `left + x`, or `left + OutW - 1 - x` when mirrored (offsets 0 when cropping is off) |
| `CamVidLoader.CamVidDataset.AugmentKeepsAlignment` | python/CamVid_loader.py:50-59 | the same offsets and the same flip decision on image and label map keep them pixel-aligned: augmenting the grid of pairs equals pairing the augmented grids |
| `CamVidLoader.CamVidDataset.NoAugmentation` | python/CamVid_loader.py:50-59 | with cropping off and a flip rate <= 0, the grid comes through unchanged for every draw |
| `CamVidLoader.CamVidDataset.GetItem` | python/CamVid_loader.py:44-76 | fails with `MissingRow`, `EmptyCropRange` or `NegativeClassCount` exactly in their cases, and succeeds otherwise. On success: the image is `3 x OutH x OutW` and is the channels-first form of the augmented image; the label map is `OutH x OutW` and is the augmented label map, untouched by the encoding; the target is `n_class x OutH x OutW` and is the one-hot encoding of that returned label map. The dataset is not modified |
| `Grids.Crop` | python/CamVid_loader.py:54-55 | the window is `ch x cw` with `out[y][x] == in[top + y][left + x]` |
| `Grids.CropKeepsAlignment` | python/CamVid_loader.py:54-55 | slicing image and label with one window equals slicing the grid of their pairs |
| `Grids.Reversed` | python/CamVid_loader.py:58-59 | a mirrored row has the same length and entry k is the source entry `len - 1 - k` |
| `Grids.FlipLR` | python/CamVid_loader.py:58-59 | the left-right mirror keeps the shape and `out[y][x] == in[y][w - 1 - x]` |
| `Grids.FlipLRTwice` | python/CamVid_loader.py:58-59 | mirroring twice is the identity |
| `Grids.FlipKeepsAlignment` | python/CamVid_loader.py:57-59 | one flip decision applied to both grids keeps them aligned |
| `Grids.ChannelsFirst` | python/CamVid_loader.py:62-63 | `permute(2, 0, 1)`: shape `(k, h, w)` with `X[c][y][x] == img[y][x][c]` |
| `Grids.ChannelsLast` | python/CamVid_loader.py:63 | the inverse permutation: shape `(h, w, k)` with `img[y][x][c] == X[c][y][x]` |
| `Grids.ChannelsRoundTrip` | python/CamVid_loader.py:63 | the permutation loses nothing: moving the channel axis back restores the image |
| `OneHotEncoding.OneHot` | python/CamVid_loader.py:70-72 | shape `(n, h, w)`, every entry 0 or 1, and `t[c][y][x] == 1` iff `label[y][x] == c` |
| `OneHotEncoding.ClassSumPrefix` | python/CamVid_loader.py:70-72 | summed over the first k planes, a pixel's column is 1 iff its label lies in `[0, k)`, and 0 otherwise |
| `OneHotEncoding.OneHotColumnSum` | python/CamVid_loader.py:70-72 | each pixel's class-axis sum is 1 for a label in `[0, n)`, and 0 for a negative label or a label `>= n` (silently all-zero) |
| `OneHotEncoding.SetClassPlane` | python/CamVid_loader.py:72 | the masked assignment `target[c][label == c] = 1` sets plane c to 1 where the label is c, keeps its other entries, and leaves the other planes untouched |
| `OneHotEncoding.BuildOneHot` | python/CamVid_loader.py:70-72 | a fresh zero `(n, h, w)` array, filled class by class, ends up equal to `OneHot` of the label map |

## Left out

- Manifest and file I/O (`pd.read_csv`, `scipy.misc.imread`, `np.load`, the path lookup with `.ix`) are foreign library calls. The dataset is given its rows, and `GetItem` is given the decoded image and label map of the row. The model cannot tie those arrays to the row's file names, and it has no decode errors.
- Randomness (`np.random.randint`, `random.random`): the crop offsets and the mirror draw are arguments, constrained to the ranges those calls draw from.
- The float normalisation (`.float().div(255)`, the per-channel `sub_`/`div_` with `means` and `stds`) and the `means`/`stds` fields are floating-point arithmetic. The modelled image is the `uint8` tensor just before `.float()`.
- The one-hot target is a float tensor of 0.0 and 1.0 in the source; here it holds the integers 0 and 1.
- `show_batch`, the `DataLoader` with worker processes and the `__main__` demo are plotting, batching and concurrency in external libraries.
- Torch/numpy mechanics (`torch.from_numpy`, `.copy()`, `.long()`, subclassing `Dataset`) are modelled as plain integer sequences.
- GetItem: requires the label map to have the image's height and width (the dataset's pairing invariant). The source never checks this. With mismatched shapes, numpy slicing would clamp silently or the torch mask would fail, and the model does not capture either.
- Numpy's clamping of slices that run past the edge is not modelled. It cannot occur, because the offsets are drawn from ranges that keep the window inside.
