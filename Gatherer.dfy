/** The surface gatherer's query parameters as the binding drives them: a reset to the
    gatherer's defaults followed by setter calls. The gather run itself belongs to the
    geometry engine and is not part of this model. */
module Gatherer {

  /** How matching geometry is grouped into output surfaces. */
  datatype SplitType = SplitNone | SplitBrush | SplitEntity

  datatype GatherParams = GatherParams(
    splitType: SplitType,
    textureFilter: string,
    brushFilterTexture: string,
    faceFilterTexture: string,
    entityFilter: int,
    filterWorldspawnLayers: bool)

  const INT32_MIN: int := -0x8000_0000
  const INT32_MAX: int := 0x7fff_ffff
  const INT64_MIN: int := -0x8000_0000_0000_0000
  const INT64_MAX: int := 0x7fff_ffff_ffff_ffff

  /** The C++ cast `(int)x` from a 64-bit integer: two's-complement truncation to 32 bits. */
  function ToInt32(x: int): (r: int)
    ensures INT32_MIN <= r <= INT32_MAX
    ensures (x - r) % 0x1_0000_0000 == 0
    ensures INT32_MIN <= x <= INT32_MAX ==> r == x
  {
    (x - INT32_MIN) % 0x1_0000_0000 + INT32_MIN
  }

  class SurfaceGatherer {
    /** What `surface_gatherer_reset_params` restores. */
    const resetParams: GatherParams

    var splitType: SplitType
    var textureFilter: string
    var brushFilterTexture: string
    var faceFilterTexture: string
    var entityFilter: int
    var filterWorldspawnLayers: bool

    function Params(): GatherParams
      reads this
    {
      GatherParams(splitType, textureFilter, brushFilterTexture, faceFilterTexture, entityFilter, filterWorldspawnLayers)
    }

    constructor (resetParams: GatherParams)
      ensures this.resetParams == resetParams && Params() == resetParams
    {
      this.resetParams := resetParams;
      splitType := resetParams.splitType;
      textureFilter := resetParams.textureFilter;
      brushFilterTexture := resetParams.brushFilterTexture;
      faceFilterTexture := resetParams.faceFilterTexture;
      entityFilter := resetParams.entityFilter;
      filterWorldspawnLayers := resetParams.filterWorldspawnLayers;
    }

    method ResetParams()
      modifies this
      ensures Params() == resetParams
    {
      splitType := resetParams.splitType;
      textureFilter := resetParams.textureFilter;
      brushFilterTexture := resetParams.brushFilterTexture;
      faceFilterTexture := resetParams.faceFilterTexture;
      entityFilter := resetParams.entityFilter;
      filterWorldspawnLayers := resetParams.filterWorldspawnLayers;
    }

    method SetSplitType(splitType: SplitType)
      modifies this
      ensures Params() == old(Params()).(splitType := splitType)
    {
      this.splitType := splitType;
    }

    method SetTextureFilter(textureName: string)
      modifies this
      ensures Params() == old(Params()).(textureFilter := textureName)
    {
      textureFilter := textureName;
    }

    method SetBrushFilterTexture(textureName: string)
      modifies this
      ensures Params() == old(Params()).(brushFilterTexture := textureName)
    {
      brushFilterTexture := textureName;
    }

    method SetFaceFilterTexture(textureName: string)
      modifies this
      ensures Params() == old(Params()).(faceFilterTexture := textureName)
    {
      faceFilterTexture := textureName;
    }

    method SetEntityIndexFilter(entityIdx: int)
      modifies this
      ensures Params() == old(Params()).(entityFilter := entityIdx)
    {
      entityFilter := entityIdx;
    }

    method SetWorldspawnLayerFilter(filterLayers: bool)
      modifies this
      ensures Params() == old(Params()).(filterWorldspawnLayers := filterLayers)
    {
      filterWorldspawnLayers := filterLayers;
    }
  }
}
