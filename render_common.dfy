/** The part of the render-common header that has behaviour: the byte size of each vertex
    format, the clear-bit constants and the default vertex component. */
module RenderCommon {

  /** Size of `f32`, `c8`, `uc8` and `ui16` on the engine's targets. */
  const SizeOfF32: nat := 4
  const SizeOfC8: nat := 1
  const SizeOfUc8: nat := 1
  const SizeOfU16: nat := 2

  datatype VertexFormat =
    | Float | Float2 | Float3 | Float4
    | Byte4 | UByte4 | Short2 | Short4
    | NumVertexFormats | InvalidVertexFormat
  {
    /** The two enumerators that do not name a real format. */
    predicate IsSentinel() {
      this == NumVertexFormats || this == InvalidVertexFormat
    }

    /** Number of components a real format carries. */
    function ComponentCount(): nat {
      match this
      case Float => 1
      case Float2 => 2
      case Float3 => 3
      case Float4 => 4
      case Byte4 => 4
      case UByte4 => 4
      case Short2 => 2
      case Short4 => 4
      case NumVertexFormats => 0
      case InvalidVertexFormat => 0
    }
  }

  datatype VertexAttribute =
    | Position | Normal | TexCoord0 | TexCoord1 | TexCoord2 | TexCoord3
    | Tangent | Binormal | Weights | Indices | Color0 | Color1
    | Instance0 | Instance1 | Instance2 | Instance3
    | NumVertexAttrs | InvalidVertexAttr

  /** `getVertexFormatSize`: one constant per case of the switch; the sentinels fall through
      with the initial size 0. */
  function GetVertexFormatSize(format: VertexFormat): (size: nat)
    ensures size % 4 == 0 && size <= 16
    ensures size == 0 <==> format.IsSentinel()
  {
    match format
    case Float => SizeOfF32
    case Float2 => SizeOfF32 * 2
    case Float3 => SizeOfF32 * 3
    case Float4 => SizeOfF32 * 4
    case Byte4 => SizeOfC8 * 4
    case UByte4 => SizeOfUc8 * 4
    case Short2 => SizeOfU16 * 2
    case Short4 => SizeOfU16 * 4
    case NumVertexFormats => 0
    case InvalidVertexFormat => 0
  }

  /** The float formats take four bytes per component. */
  lemma FloatFormatSizes()
    ensures GetVertexFormatSize(Float) == 4 && GetVertexFormatSize(Float2) == 8
    ensures GetVertexFormatSize(Float3) == 12 && GetVertexFormatSize(Float4) == 16
    ensures forall f: VertexFormat :: f in {Float, Float2, Float3, Float4} ==>
      GetVertexFormatSize(f) == SizeOfF32 * f.ComponentCount()
  {
  }

  /** The packed formats: four bytes for `Byte4`, `UByte4` and `Short2`, eight for `Short4`. */
  lemma PackedFormatSizes()
    ensures GetVertexFormatSize(Byte4) == 4 && GetVertexFormatSize(UByte4) == 4
    ensures GetVertexFormatSize(Short2) == 4 && GetVertexFormatSize(Short4) == 8
  {
  }

  /** Every real format has a size between 4 and 16 bytes that is a multiple of 4. */
  lemma RealFormatSizeBounds(format: VertexFormat)
    requires !format.IsSentinel()
    ensures 4 <= GetVertexFormatSize(format) <= 16 && GetVertexFormatSize(format) % 4 == 0
  {
  }

  /** `ClearBitType`. */
  const ColorBit: bv32 := 1 << 0
  const DepthBit: bv32 := 1 << 1
  const StencilBit: bv32 := 1 << 2

  /** A single set bit. */
  predicate IsSingleBit(b: bv32) {
    b != 0 && b & (b - 1) == 0
  }

  /** The three clear bits are the values 1, 2 and 4, each a single bit, pairwise disjoint. */
  lemma ClearBitsDistinct()
    ensures ColorBit == 1 && DepthBit == 2 && StencilBit == 4
    ensures IsSingleBit(ColorBit) && IsSingleBit(DepthBit) && IsSingleBit(StencilBit)
    ensures ColorBit & DepthBit == 0 && ColorBit & StencilBit == 0 && DepthBit & StencilBit == 0
  {
  }

  datatype VertComponent = VertComponent(attrib: VertexAttribute, format: VertexFormat)

  /** The default constructor of `VertComponent`. */
  function DefaultVertComponent(): (c: VertComponent)
    ensures c.attrib == InvalidVertexAttr && c.format == InvalidVertexFormat
  {
    VertComponent(InvalidVertexAttr, InvalidVertexFormat)
  }

  /** A default component occupies no bytes in a vertex. */
  lemma DefaultComponentHasNoSize()
    ensures GetVertexFormatSize(DefaultVertComponent().format) == 0
  {
  }
}
