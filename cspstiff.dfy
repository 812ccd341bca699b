/**
 * The layer store CSPSTiff: collects positioned layers, fixes the canvas
 * shape, builds the per-layer records and hands them, through the shared
 * image-source-data parameters, to the TIFF writer.
 */
module LayeredTiff {
  import opened Wrappers
  import opened Raster
  import opened LayerRecords

  /** Diagnostics add_layer prints; they never stop it. */
  datatype Notice =
    | MissingAlpha
    | ShapeMismatch(got: (nat, nat), existing: (nat, nat))

  datatype WriteError =
    | NotEnoughLayers
    | PrepFailed(cause: PrepError)
    | EncoderFailed

  /**
   * What write hands to the foreign libraries: the canvas shape the composite
   * is drawn on and the layer block of the image source data.
   */
  datatype Handoff = Handoff(canvas: (nat, nat), block: PsdLayers)

  /**
   * The module-level parameter dictionary of TiffImageSourceData; only its
   * `layers` entry is modelled, the other entries are constants.
   */
  class SourceDataParams {
    var layers: Option<PsdLayers>

    constructor ()
      ensures layers == None
    {
      layers := None;
    }
  }

  /**
   * The canvas shape a store must have: the one it was given, else that of
   * its first layer. It is unknown only while no shape was given and no
   * layer is stored.
   */
  function CanvasShape(given: Option<(nat, nat)>, layers: seq<Layer>): (s: Option<(nat, nat)>)
    ensures given.Some? ==> s == given
    ensures s.None? <==> given.None? && layers == []
    ensures s.Some? && given.None? ==> layers != [] && s.value == layers[0].image.Dims()
  {
    if given.Some? then given
    else if layers == [] then None
    else Some(layers[0].image.Dims())
  }

  /** Once known, the canvas shape stays the same however many layers follow. */
  lemma CanvasShapeStable(given: Option<(nat, nat)>, layers: seq<Layer>, more: seq<Layer>)
    requires CanvasShape(given, layers).Some?
    ensures CanvasShape(given, layers + more) == CanvasShape(given, layers)
  {
    if given.None? {
      assert (layers + more)[0] == layers[0];
    }
  }

  class CSPSTiff {
    var shape: Option<(nat, nat)>
    var layers: seq<Layer>
    /** The shape passed to the constructor. */
    ghost const given: Option<(nat, nat)>
    /** The diagnostics printed so far, in order. */
    ghost var log: seq<Notice>

    /**
     * Every stored block is a 3-D array that does not have exactly three
     * channels, and the canvas shape is the given one or the first layer's.
     */
    ghost predicate Valid()
      reads this
    {
      (forall k :: 0 <= k < |layers| ==> layers[k].image.WellFormed() && layers[k].image.depth != 3) &&
      shape == CanvasShape(given, layers)
    }

    constructor (shape: Option<(nat, nat)> := None)
      ensures Valid()
      ensures this.shape == shape && layers == [] && given == shape && log == []
    {
      this.shape := shape;
      layers := [];
      given := shape;
      log := [];
    }

    /** Once a layer is stored the canvas shape is known. */
    lemma ShapeKnownOnceLayered()
      requires Valid() && layers != []
      ensures shape.Some?
      ensures given.None? ==> shape.value == layers[0].image.Dims()
    {
    }

    /**
     * Appends (img, offset), with an RGB block widened to RGBA first. The
     * canvas shape is set from the first layer when unset and never changes
     * afterwards; a layer of another size is reported and still appended.
     */
    method AddLayer(img: Image, offset: (int, int) := (0, 0))
      requires Valid() && img.WellFormed()
      modifies this
      ensures Valid()
      ensures |layers| == |old(layers)| + 1 && layers[..|old(layers)|] == old(layers)
      ensures layers[|layers| - 1].offset == offset
      ensures img.depth == 3 ==> IsRgbaOf(img, layers[|layers| - 1].image)
      ensures img.depth != 3 ==> layers[|layers| - 1].image == img
      ensures shape == if old(shape).None? then Some(img.Dims()) else old(shape)
      ensures log == old(log)
                     + (if img.depth == 3 then [MissingAlpha] else [])
                     + (if old(shape).Some? && img.Dims() != old(shape).value
                        then [ShapeMismatch(img.Dims(), old(shape).value)] else [])
    {
      var stored := img;
      if img.depth == 3 {
        log := log + [MissingAlpha];
        stored := AddAlphaPlane(img);
      }
      if shape.None? {
        shape := Some(stored.Dims());
      } else if stored.Dims() != shape.value {
        log := log + [ShapeMismatch(stored.Dims(), shape.value)];
      }
      layers := layers + [Layer(stored, offset)];
    }

    /**
     * Builds the records for the stored layers, numbering them from 0 in
     * order, and stops at the first layer that has no plane 3.
     */
    method PrepLayers() returns (r: Result<seq<LayerRecord>, PrepError>)
      ensures r == Prepare(layers)
    {
      var records: seq<LayerRecord> := [];
      var layerNum := 0;
      while layerNum < |layers|
        invariant layerNum <= |layers|
        invariant |records| == layerNum
        invariant forall k :: 0 <= k < layerNum ==> layers[k].image.depth >= 4
        invariant forall k :: 0 <= k < layerNum ==> records[k] == RecordFor(k, layers[k])
      {
        var Layer(layer, offset) := layers[layerNum];
        var layerName := LayerName(layerNum);
        if layer.depth <= AlphaPlane {
          return Failure(MissingAlphaPlane(layerNum));
        }
        var newLayer := LayerRecord(
          layerName,
          Rectangle(offset.0, offset.1, offset.0 + layer.height, offset.1 + layer.width),
          [ Channel(TransparencyMask, ZipPredicted, AlphaPlane),
            Channel(Channel0, ZipPredicted, 0),
            Channel(Channel1, ZipPredicted, 1),
            Channel(Channel2, ZipPredicted, 2) ],
          NoMask,
          FullOpacity,
          Normal,
          [],
          Base,
          {Photoshop5, TransparencyProtected},
          [UnicodeLayerName(layerName)]);
        records := records + [newLayer];
        layerNum := layerNum + 1;
      }
      assert records == Prepare(layers).value;
      return Success(records);
    }

    /**
     * Refuses an empty store; otherwise builds the layer block, puts it in
     * the shared parameters' `layers` entry, hands it with the canvas shape
     * to the encoder and clears the entry again. `encoderOk` stands for the
     * outcome of the foreign compositing and file writing; when they fail the
     * entry is left set, as nothing restores it on that path. The store itself
     * is never changed.
     */
    method Write(filepath: string, params: SourceDataParams, encoderOk: bool) returns (r: Result<Handoff, WriteError>)
      requires Valid()
      modifies params
      ensures old(layers) == [] ==> r == Failure(NotEnoughLayers) && params.layers == old(params.layers)
      ensures old(layers) != [] && Prepare(layers).Failure? ==>
                r == Failure(PrepFailed(Prepare(layers).error)) && params.layers == old(params.layers)
      ensures old(layers) != [] && Prepare(layers).Success? ==>
                var block := PsdLayers(LayerKey, false, Prepare(layers).value);
                shape.Some? &&
                (encoderOk ==> r == Success(Handoff(shape.value, block)) && params.layers == None) &&
                (!encoderOk ==> r == Failure(EncoderFailed) && params.layers == Some(block))
    {
      if |layers| == 0 {
        return Failure(NotEnoughLayers);
      }
      var prepared := PrepLayers();
      if prepared.Failure? {
        return Failure(PrepFailed(prepared.error));
      }
      var ll := PsdLayers(LayerKey, false, prepared.value);
      params.layers := Some(ll);
      if !encoderOk {
        return Failure(EncoderFailed);
      }
      var canvas := shape.value;
      params.layers := None;
      return Success(Handoff(canvas, ll));
    }
  }

  /**
   * A client: a 10x10 opaque grey RGBA layer, then a 10x10 white RGB layer at
   * (2, 2). The canvas becomes 10x10, the second layer gets alpha 128 and the
   * records are named layer_0 and layer_1.
   */
  method CanvasScenario() {
    var grey := Image(10, 10, 4, seq(10, i => seq(10, j => [128, 128, 128, 255])));
    var white := Image(10, 10, 3, seq(10, i => seq(10, j => [255, 255, 255])));
    var store := new CSPSTiff();
    store.AddLayer(grey);
    store.AddLayer(white, (2, 2));
    assert store.shape == Some((10, 10));
    assert store.log == [MissingAlpha];
    assert store.layers[0] == Layer(grey, (0, 0));
    assert store.layers[1].image.data[9][9] == [255, 255, 255, 128];
    var prepared := store.PrepLayers();
    assert prepared.Success?;
    assert prepared.value[1].name == "layer_" + ['1'];
    assert prepared.value[1].rectangle == Rectangle(2, 2, 12, 12);

    var params := new SourceDataParams();
    var written := store.Write("layers.tif", params, true);
    assert written.Success? && written.value.canvas == (10, 10);
    assert |written.value.block.layers| == 2 && params.layers == None;

    var empty := new CSPSTiff(Some((10, 10)));
    written := empty.Write("empty.tif", params, true);
    assert written == Failure(NotEnoughLayers) && params.layers == None;
  }
}
