# CSPSTiff layer store, modelled in Dafny

`cspstiff.py` assembles in-memory raster layers into a layered TIFF that image
editors open as separate, named, alpha-blended layers. Its own logic is the
class `CSPSTiff`:

- `add_layer` widens an RGB block to RGBA with alpha 128, fixes the canvas shape
  from the first layer when none was given, reports (but keeps) a layer of another
  size, and appends `(image, offset)`.
- `_prep_layers` walks the stored layers and builds one PSD layer record per layer:
  positional name `layer_<i>`, bounding rectangle, four ZIP-with-prediction channels
  (alpha, R, G, B) and fixed blending constants.
- `write` refuses an empty store. It then puts the layer block into the module-level
  `TIFFIMAGESOURCEDATA_PARAMS_DICT["layers"]`, calls the compositor and the TIFF
  writer, and resets that entry to `None`.

The Dafny project models exactly that:

- `wrappers.dfy`: `Option` and `Result`.
- `raster.dfy`: images as values of shape (height, width, depth) with samples 0..255.
  It holds the RGB→RGBA widening (`AddAlphaPlane`, specified by `IsRgbaOf`) and
  channel planes (`img[..., c]`).
- `decimal.dfy`: the decimal rendering of a layer number, with its parser.
- `layer_records.dfy`: the abstract layer records. `RecordFor(i, layer)` is the
  record at position `i`. `Prepare` is the whole walk as a recursive specification
  function.
- `cspstiff.dfy`: the class `CSPSTiff` (fields `shape`, `layers`; ghost `log` of the
  printed diagnostics). It also has the class `SourceDataParams` for the shared
  dictionary's `layers` entry, and a client method `CanvasScenario`.

`Valid()` is the store's invariant:

- no stored layer has exactly three channels;
- the canvas shape is the one given to the constructor or, failing that, that of
  the first layer.

`AddLayer` keeps it and states the whole new state. `PrepLayers` is the source's
counting loop, proved equal to `Prepare`. `Write` states every outcome and its
effect on the shared entry.

Behaviour of `cspstiff.py` worth knowing:

- A block with a channel count other than 3 is stored without any check.
- A block with fewer than four channels (0, 1 or 2) makes `_prep_layers` fail when
  it reads `layer[..., 3]`. The model returns `MissingAlphaPlane(i)` for the first
  such layer, and `Write` reports it before touching the shared entry.
- `write` has no `try`/`finally`. If compositing or file output fails after the
  entry was set, the entry stays set. The model's `Write` says so.

## Model

| member | source | states |
|---|---|---|
| Raster.AddAlphaPlane | cspstiff.py:66-72 | a 3-channel image becomes a well-formed 4-channel image of the same height and width; channels 0-2 equal the input sample for sample and every sample of channel 3 is 128 |
| Raster.RgbaOfUnique | cspstiff.py:68-72 | the widened image is fully determined by the input: any two images meeting the widening contract are equal |
| Raster.RgbaPlanes | cspstiff.py:68-72 | planes 0-2 of the widened image are the input's planes and plane 3 is constant 128 |
| Decimal.NatToString | cspstiff.py:90 | the rendering of a layer number is non-empty and all decimal digits, with no leading zero: a leading '0' occurs only as the whole rendering "0" of 0 |
| Decimal.ParseNatToString | cspstiff.py:90 | parsing the digits of a layer number gives the number back |
| Decimal.NatToStringInjective | cspstiff.py:90 | different layer numbers render to different strings |
| LayerRecords.LayerName | cspstiff.py:90 | the name of position i is `layer_` followed by decimal digits, without leading zeros, that read back as i |
| LayerRecords.RecordFor | cspstiff.py:90-129 | the record for position i carries that position's name, also as its Unicode-name entry; its rectangle starts at the layer's offset and spans the block's height and width; its four channels have distinct ids and read four distinct planes among 0-3 |
| LayerRecords.LayerNamesDistinct | cspstiff.py:90 | `layer_i` and `layer_j` are equal exactly when i = j |
| LayerRecords.RecordLayout | cspstiff.py:99-127 | four channels in the order transparency mask, CHANNEL0, CHANNEL1, CHANNEL2 taken from planes 3, 0, 1, 2, all ZIP_PREDICTED; an empty layer mask, opacity 255, NORMAL blending, no blending ranges, BASE clipping, flags PHOTOSHOP5 and TRANSPARENCY_PROTECTED |
| LayerRecords.PrepareFrom | cspstiff.py:87-133 | walking layers k.. succeeds iff each has at least four channels; then record j is the record for position k+j; otherwise it fails at the first layer without plane 3 |
| LayerRecords.Prepare | cspstiff.py:87-133 | one record per stored layer, in order, record i built for position i; or failure naming the first layer that has no plane 3 |
| LayerRecords.PreparedNamesDistinct | cspstiff.py:87-133 | the names of the prepared records are pairwise distinct |
| LayerRecords.PreparedPlanesExist | cspstiff.py:99-119 | every channel of a prepared record reads a plane its layer has |
| LayerRecords.WidenedRecordData | cspstiff.py:66-119 | for a layer widened from RGB, its record's transparency mask is 128 everywhere and its colour channels are the input's planes |
| LayeredTiff.SourceDataParams.constructor | cspstiff.py:29-46 | the shared parameters start with no layer block |
| LayeredTiff.CanvasShape | cspstiff.py:75-76 | a given canvas shape is kept as it is; otherwise the shape is unknown while no layer is stored, and then it is the first layer's (height, width) |
| LayeredTiff.CanvasShapeStable | cspstiff.py:75-78 | once the canvas shape is known, storing further layers never changes it |
| LayeredTiff.CSPSTiff.constructor | cspstiff.py:50-56 | the store starts with the given shape (default none), no layers and the invariant |
| LayeredTiff.CSPSTiff.ShapeKnownOnceLayered | cspstiff.py:74-78 | once a layer is stored the canvas shape is set, and it is the first layer's when none was given |
| LayeredTiff.CSPSTiff.AddLayer | cspstiff.py:59-80 | appends exactly one (stored image, offset) after the untouched earlier layers; offset defaults to (0, 0); an RGB block is stored widened, any other block unchanged; an unset shape becomes the layer's (height, width), a set one never changes; a missing-alpha and a shape-mismatch notice are logged but never prevent the append |
| LayeredTiff.CSPSTiff.PrepLayers | cspstiff.py:83-133 | the counting loop returns exactly `Prepare(layers)` |
| LayeredTiff.CSPSTiff.Write | cspstiff.py:135-174 | an empty store fails with nothing changed; a failed preparation fails before the shared entry is set; otherwise the canvas shape and layer block are handed on and the shared entry ends as none (or stays set to the block when the foreign writer fails); the store's layers and shape are never modified |

## Left out

- Compositing (`overlay`, cspstiff.py:153): foreign library code whose blending and clipping are not visible. `Write` only hands over the canvas shape it would composite onto.
- TIFF output (`tifffile.imwrite`, cspstiff.py:155-172): tags, resolution, deflate compression and file I/O. Their success or failure is the parameter `encoderOk`, and the file path is not used.
- Channel compression and the binary layout of `PsdLayers`/`TiffImageSourceData` (cspstiff.py:144-151): library encoders. A record channel names the plane it encodes instead of carrying compressed bytes.
- The ICC profile bytes (cspstiff.py:170): an opaque foreign blob.
- The constant entries of the shared parameter dictionary (cspstiff.py:29-46): only its `layers` entry is modelled.
- Console output of the two diagnostics (cspstiff.py:67, 78): modelled as the ghost list `log`.
- Aliasing: the source stores the caller's array by reference when it is not widened, so later changes by the caller show through. Images are values here.
- numpy details: inputs must be 3-D arrays of 8-bit samples, since `img.shape[2]` assumes a third axis. A shape given as something other than a pair (a list, say) would compare unequal to every layer in Python; here a shape is always a pair of naturals.
- `TiffImageSourceData(**...)` (cspstiff.py:151) can only fail inside the library. That failure is folded into `encoderOk`.
