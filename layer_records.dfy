/**
 * The per-layer records that the layer store hands to the PSD encoder: an
 * abstract view of psdtags' PsdLayer with its rectangle, its four channels
 * and its fixed blending constants. A channel names the plane of the layer's
 * pixel block it is taken from instead of carrying the samples.
 */
module LayerRecords {
  import opened Wrappers
  import opened Raster
  import Decimal

  datatype ChannelId = TransparencyMask | Channel0 | Channel1 | Channel2
  datatype Compression = ZipPredicted
  datatype BlendMode = Normal
  datatype Clipping = Base
  datatype LayerFlag = TransparencyProtected | Photoshop5
  datatype InfoItem = UnicodeLayerName(value: string)
  /** The default, empty layer mask. */
  datatype LayerMask = NoMask

  /** A bounding box in canvas coordinates; bottom and right are exclusive. */
  datatype Rectangle = Rectangle(top: int, left: int, bottom: int, right: int)

  /** One channel of a record: its id, its compression and the plane `layer[..., plane]` it encodes. */
  datatype Channel = Channel(id: ChannelId, compression: Compression, plane: nat)

  datatype LayerRecord = LayerRecord(
    name: string,
    rectangle: Rectangle,
    channels: seq<Channel>,
    mask: LayerMask,
    opacity: nat,
    blendMode: BlendMode,
    blendingRanges: seq<int>,
    clipping: Clipping,
    flags: set<LayerFlag>,
    info: seq<InfoItem>)

  /** The layer block placed in the image-source-data parameters: key LAYER, no transparency flag. */
  datatype LayersKey = LayerKey
  datatype PsdLayers = PsdLayers(key: LayersKey, hasTransparency: bool, layers: seq<LayerRecord>)

  /** Reading `layer[..., 3]` from a block with fewer than four channels fails (numpy's IndexError). */
  datatype PrepError = MissingAlphaPlane(layer: nat)

  /** The plane read as a record's transparency mask. */
  const AlphaPlane: nat := 3
  const FullOpacity: nat := 255

  /** Every record name starts with this prefix. */
  const NamePrefix: string := "layer_"

  /**
   * The name of the record at position i: the prefix followed by i in
   * decimal, so that the digits after the prefix read back as i.
   */
  function LayerName(i: nat): (name: string)
    ensures |name| > |NamePrefix| && name[..|NamePrefix|] == NamePrefix
    ensures forall k :: |NamePrefix| <= k < |name| ==> Decimal.IsDigit(name[k])
    ensures Decimal.ParseDigits(name[|NamePrefix|..]) == i
    ensures name[|NamePrefix|] == '0' ==> name == NamePrefix + "0"
  {
    var digits := Decimal.NatToString(i);
    Decimal.ParseNatToString(i);
    assert (NamePrefix + digits)[|NamePrefix|..] == digits;
    NamePrefix + digits
  }

  /**
   * The record built for the layer at position i: it carries the name of its
   * position (also as its Unicode name), its rectangle spans the layer's block
   * placed at its offset, and its four channels have distinct ids and read
   * four distinct planes among 0-3, that is each plane once.
   */
  function RecordFor(i: nat, layer: Layer): (rec: LayerRecord)
    ensures rec.name == LayerName(i) && rec.info == [UnicodeLayerName(rec.name)]
    ensures (rec.rectangle.top, rec.rectangle.left) == layer.offset
    ensures rec.rectangle.bottom - rec.rectangle.top == layer.image.height
    ensures rec.rectangle.right - rec.rectangle.left == layer.image.width
    ensures |rec.channels| == 4
    ensures forall a, b :: 0 <= a < b < 4 ==> rec.channels[a].id != rec.channels[b].id
    ensures forall a, b :: 0 <= a < b < 4 ==> rec.channels[a].plane != rec.channels[b].plane
    ensures forall a :: 0 <= a < 4 ==> rec.channels[a].plane < 4
  {
    var name := LayerName(i);
    var (top, left) := layer.offset;
    LayerRecord(
      name,
      Rectangle(top, left, top + layer.image.height, left + layer.image.width),
      [ Channel(TransparencyMask, ZipPredicted, AlphaPlane),
        Channel(Channel0, ZipPredicted, 0),
        Channel(Channel1, ZipPredicted, 1),
        Channel(Channel2, ZipPredicted, 2) ],
      NoMask,
      FullOpacity,
      Normal,
      [],
      Base,
      {Photoshop5, TransparencyProtected},
      [UnicodeLayerName(name)])
  }

  /** The samples a channel of a record stands for. */
  function ChannelData(layer: Layer, ch: Channel): seq<seq<Sample>>
    requires layer.image.WellFormed() && ch.plane < layer.image.depth
  {
    Plane(layer.image, ch.plane)
  }

  /**
   * The records for layers[k..], numbered from k, built in order; the first
   * layer with fewer than four channels stops the walk.
   */
  function PrepareFrom(layers: seq<Layer>, k: nat): (r: Result<seq<LayerRecord>, PrepError>)
    requires k <= |layers|
    ensures r.Success? <==> forall j :: k <= j < |layers| ==> layers[j].image.depth >= 4
    ensures r.Success? ==>
              |r.value| == |layers| - k &&
              forall j :: 0 <= j < |r.value| ==> r.value[j] == RecordFor(k + j, layers[k + j])
    ensures r.Failure? ==>
              k <= r.error.layer < |layers| &&
              layers[r.error.layer].image.depth < 4 &&
              forall j :: k <= j < r.error.layer ==> layers[j].image.depth >= 4
    decreases |layers| - k
  {
    if k == |layers| then Success([])
    else if layers[k].image.depth <= AlphaPlane then Failure(MissingAlphaPlane(k))
    else
      match PrepareFrom(layers, k + 1)
      case Success(rest) => Success([RecordFor(k, layers[k])] + rest)
      case Failure(e) => Failure(e)
  }

  /**
   * All records for a layer list: one per layer, in order, record i built by
   * RecordFor(i, layers[i]); or the first layer that lacks an alpha plane.
   */
  function Prepare(layers: seq<Layer>): (r: Result<seq<LayerRecord>, PrepError>)
    ensures r.Success? <==> forall j :: 0 <= j < |layers| ==> layers[j].image.depth >= 4
    ensures r.Success? ==>
              |r.value| == |layers| &&
              forall j :: 0 <= j < |layers| ==> r.value[j] == RecordFor(j, layers[j])
    ensures r.Failure? ==>
              r.error.layer < |layers| &&
              layers[r.error.layer].image.depth < 4 &&
              forall j :: 0 <= j < r.error.layer ==> layers[j].image.depth >= 4
  {
    PrepareFrom(layers, 0)
  }

  /** Two positions never share a name. */
  lemma LayerNamesDistinct(i: nat, j: nat)
    ensures LayerName(i) == LayerName(j) <==> i == j
  {
    if LayerName(i) == LayerName(j) {
      assert LayerName(i)[|NamePrefix|..] == LayerName(j)[|NamePrefix|..];
    }
  }

  /**
   * Every record has four ZIP-with-prediction channels in the order
   * transparency mask, channel 0, 1, 2, taken from planes 3, 0, 1, 2,
   * and the fixed constants: no layer mask, full opacity, normal blending,
   * no blending ranges, base clipping, and the Photoshop-5 and
   * transparency-protected flags.
   */
  lemma RecordLayout(i: nat, layer: Layer)
    ensures var rec := RecordFor(i, layer);
            |rec.channels| == 4 &&
            rec.channels[0].id == TransparencyMask && rec.channels[0].plane == AlphaPlane &&
            rec.channels[1].id == Channel0 && rec.channels[1].plane == 0 &&
            rec.channels[2].id == Channel1 && rec.channels[2].plane == 1 &&
            rec.channels[3].id == Channel2 && rec.channels[3].plane == 2 &&
            (forall c :: 0 <= c < 4 ==> rec.channels[c].compression == ZipPredicted) &&
            rec.mask == NoMask && rec.opacity == FullOpacity && rec.blendMode == Normal &&
            rec.blendingRanges == [] && rec.clipping == Base &&
            rec.flags == {Photoshop5, TransparencyProtected}
  {
  }

  /** The records of a successful preparation carry pairwise distinct names. */
  lemma PreparedNamesDistinct(layers: seq<Layer>)
    requires Prepare(layers).Success?
    ensures var recs := Prepare(layers).value;
            forall i, j :: 0 <= i < j < |recs| ==> recs[i].name != recs[j].name
  {
    var recs := Prepare(layers).value;
    forall i, j | 0 <= i < j < |recs|
      ensures recs[i].name != recs[j].name
    {
      LayerNamesDistinct(i, j);
    }
  }

  /** Every channel of a successfully prepared record names a plane its layer has. */
  lemma PreparedPlanesExist(layers: seq<Layer>)
    requires Prepare(layers).Success?
    ensures var recs := Prepare(layers).value;
            forall i, c :: 0 <= i < |recs| && 0 <= c < |recs[i].channels| ==>
              recs[i].channels[c].plane < layers[i].image.depth
  {
  }

  /**
   * For a layer that was widened from RGB, the record's transparency mask
   * is DefaultAlpha everywhere and its colour channels are the input's planes.
   */
  lemma WidenedRecordData(i: nat, rgb: Image, rgba: Image, offset: (int, int))
    requires rgb.WellFormed() && rgb.depth == 3 && IsRgbaOf(rgb, rgba)
    ensures var layer := Layer(rgba, offset);
            var rec := RecordFor(i, layer);
            ChannelData(layer, rec.channels[0]) == seq(rgb.height, r => seq(rgb.width, c => DefaultAlpha)) &&
            forall k :: 1 <= k < 4 ==> ChannelData(layer, rec.channels[k]) == Plane(rgb, k - 1)
  {
    RgbaPlanes(rgb, rgba);
  }
}
