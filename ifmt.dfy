/** The pixel-format registry: packed format descriptors, the closed set of
    formats an Image can hold, and their OpenCL and QImage equivalents. */
module Ifmt {

  /** ifmt_t: a format packed as type << 16 | bpp << 8 | chanCount. */
  type FmtCode = bv32

  /** iFmtPack. The three 8-bit fields land in disjoint bytes, so the three
      unpack functions read them back and the top byte stays clear. */
  function Pack(fmtType: bv8, bpp: bv8, chanCount: bv8): (f: FmtCode)
    ensures f >> 24 == 0
    ensures UnpackType(f) == fmtType && UnpackBpp(f) == bpp && UnpackChanCount(f) == chanCount
  {
    (fmtType as bv32 << 16) | (bpp as bv32 << 8) | chanCount as bv32
  }

  /** iFmtType: bits 16..23. The 0xFF mask is what makes the narrowing to 8 bits safe. */
  function UnpackType(f: FmtCode): bv8 {
    ((f >> 16) & 0xFF) as bv8
  }

  /** iFmtBPP: bits 8..15. */
  function UnpackBpp(f: FmtCode): bv8 {
    ((f >> 8) & 0xFF) as bv8
  }

  /** iFmtChanCount: bits 0..7. */
  function UnpackChanCount(f: FmtCode): bv8 {
    (f & 0xFF) as bv8
  }

  /** Packing the three unpacked fields of a code whose top byte is clear
      gives the code back. */
  lemma UnpackPack(f: FmtCode)
    requires f >> 24 == 0
    ensures Pack(UnpackType(f), UnpackBpp(f), UnpackChanCount(f)) == f
  {
  }

  /** The IFmt enumeration, in declaration order. */
  datatype IFmt = ARGB | ARGB16 | ARGB16F | ARGB32F | LUMA | LUMA16 | LUMA16F | LUMA32F

  /** The underlying ifmt_t value of each enumerator. */
  function Code(fmt: IFmt): FmtCode {
    match fmt
    case ARGB    => Pack(0,  24, 4)
    case ARGB16  => Pack(1,  48, 4)
    case ARGB16F => Pack(2,  48, 4)
    case ARGB32F => Pack(3, 128, 4)
    case LUMA    => Pack(4,   8, 1)
    case LUMA16  => Pack(5,  16, 1)
    case LUMA16F => Pack(6,  16, 1)
    case LUMA32F => Pack(7,  32, 1)
  }

  const Declared: seq<IFmt> := [ARGB, ARGB16, ARGB16F, ARGB32F, LUMA, LUMA16, LUMA16F, LUMA32F]

  predicate IsArgb(fmt: IFmt) {
    fmt.ARGB? || fmt.ARGB16? || fmt.ARGB16F? || fmt.ARGB32F?
  }

  /** Bits per pixel as stored in the code, as an integer. */
  function Bpp(fmt: IFmt): nat {
    UnpackBpp(Code(fmt)) as nat
  }

  /** Every format is declared once, and the enumerators carry the type ids
      0..7 in declaration order together with the stored bpp and channel
      counts of the header. */
  lemma DeclaredTable()
    ensures forall fmt: IFmt :: fmt in Declared
    ensures forall i, j :: 0 <= i < j < |Declared| ==> Declared[i] != Declared[j]
    ensures forall i :: 0 <= i < |Declared| ==> UnpackType(Code(Declared[i])) as int == i
    ensures forall i :: 0 <= i < |Declared| ==> Bpp(Declared[i]) == [24, 48, 48, 128, 8, 16, 16, 32][i]
    ensures forall fmt :: UnpackChanCount(Code(fmt)) == if IsArgb(fmt) then 4 else 1
  {
    forall fmt: IFmt ensures fmt in Declared {
      match fmt
      case ARGB => assert Declared[0] == fmt;
      case ARGB16 => assert Declared[1] == fmt;
      case ARGB16F => assert Declared[2] == fmt;
      case ARGB32F => assert Declared[3] == fmt;
      case LUMA => assert Declared[4] == fmt;
      case LUMA16 => assert Declared[5] == fmt;
      case LUMA16F => assert Declared[6] == fmt;
      case LUMA32F => assert Declared[7] == fmt;
    }
  }

  /** The eight codes are pairwise distinct: the type id alone tells them apart. */
  lemma CodeInjective(f: IFmt, g: IFmt)
    ensures Code(f) == Code(g) ==> f == g
  {
    if Code(f) == Code(g) {
      assert UnpackType(Code(f)) == UnpackType(Code(g));
    }
  }

  /** cl_channel_order values used by the registry (OpenCL 1.2, section 5.3.1.1). */
  datatype ChannelOrder = CL_ARGB | CL_LUMINANCE

  /** cl_channel_type values used by the registry (OpenCL 1.2, section 5.3.1.1). */
  datatype ChannelType = CL_UNORM_INT8 | CL_UNORM_INT16 | CL_HALF_FLOAT | CL_FLOAT

  /** cl_image_format. */
  datatype ImageFormat = ImageFormat(order: ChannelOrder, dataType: ChannelType)

  /** Number of channels an OpenCL channel order describes. */
  function Channels(order: ChannelOrder): nat {
    match order
    case CL_ARGB => 4
    case CL_LUMINANCE => 1
  }

  /** Size in bits of one channel of an OpenCL channel type. */
  function ChannelBits(t: ChannelType): nat {
    match t
    case CL_UNORM_INT8 => 8
    case CL_UNORM_INT16 => 16
    case CL_HALF_FLOAT => 16
    case CL_FLOAT => 32
  }

  /** toCLFormat: every format has an OpenCL equivalent; ARGB* formats map
      to the ARGB order, LUMA* formats to luminance, and the component type
      follows the suffix (none: 8-bit, 16: 16-bit, 16F: half, 32F: float). */
  function ToCLFormat(fmt: IFmt): (r: ImageFormat)
    ensures r.order == CL_ARGB <==> IsArgb(fmt)
    ensures r.order == CL_LUMINANCE <==> !IsArgb(fmt)
    ensures r.dataType == CL_UNORM_INT8 <==> fmt == ARGB || fmt == LUMA
    ensures r.dataType == CL_UNORM_INT16 <==> fmt == ARGB16 || fmt == LUMA16
    ensures r.dataType == CL_HALF_FLOAT <==> fmt == ARGB16F || fmt == LUMA16F
    ensures r.dataType == CL_FLOAT <==> fmt == ARGB32F || fmt == LUMA32F
  {
    match fmt
    case ARGB    => ImageFormat(CL_ARGB, CL_UNORM_INT8)
    case ARGB16  => ImageFormat(CL_ARGB, CL_UNORM_INT16)
    case ARGB16F => ImageFormat(CL_ARGB, CL_HALF_FLOAT)
    case ARGB32F => ImageFormat(CL_ARGB, CL_FLOAT)
    case LUMA    => ImageFormat(CL_LUMINANCE, CL_UNORM_INT8)
    case LUMA16  => ImageFormat(CL_LUMINANCE, CL_UNORM_INT16)
    case LUMA16F => ImageFormat(CL_LUMINANCE, CL_HALF_FLOAT)
    case LUMA32F => ImageFormat(CL_LUMINANCE, CL_FLOAT)
  }

  /** No two formats share an OpenCL descriptor. */
  lemma ToCLFormatInjective(f: IFmt, g: IFmt)
    ensures ToCLFormat(f) == ToCLFormat(g) ==> f == g
  {
  }

  /** The OpenCL descriptor can be read off the packed type id alone: the
      id divided by 4 selects the order, the id modulo 4 the component type. */
  lemma ToCLFormatByTypeId(fmt: IFmt)
    ensures ToCLFormat(fmt).order == if UnpackType(Code(fmt)) < 4 then CL_ARGB else CL_LUMINANCE
    ensures ToCLFormat(fmt).dataType
         == [CL_UNORM_INT8, CL_UNORM_INT16, CL_HALF_FLOAT, CL_FLOAT][UnpackType(Code(fmt)) as int % 4]
  {
  }

  /** The channel count stored in the code agrees with the OpenCL order. */
  lemma ChanCountMatchesCLOrder(fmt: IFmt)
    ensures UnpackChanCount(Code(fmt)) as nat == Channels(ToCLFormat(fmt).order)
  {
  }

  /** The stored bpp equals channels x channel bits of the OpenCL descriptor
      for every format except ARGB, ARGB16 and ARGB16F, whose literals
      (24, 48, 48) count three channels instead of four. */
  lemma BppMatchesCLFormat(fmt: IFmt)
    ensures Bpp(fmt) == Channels(ToCLFormat(fmt).order) * ChannelBits(ToCLFormat(fmt).dataType)
        <==> fmt != ARGB && fmt != ARGB16 && fmt != ARGB16F
    ensures IsArgb(fmt) ==> Bpp(fmt) == 3 * ChannelBits(ToCLFormat(fmt).dataType) || fmt == ARGB32F
  {
  }

  /** QImage::Format, reduced to the tags the registry tells apart; every
      other enumerator is FormatOther. */
  datatype QtFormat = FormatInvalid | FormatARGB32 | FormatRGB32 | FormatOther(tag: nat)

  /** toQtFormat: only ARGB has a direct QImage equivalent. */
  function ToQtFormat(fmt: IFmt): (r: QtFormat)
    ensures r == FormatARGB32 <==> fmt == ARGB
    ensures r == FormatInvalid <==> fmt != ARGB
  {
    if fmt == ARGB then FormatARGB32 else FormatInvalid
  }

  /** The `bool* error` out-parameter: a null pointer, or a pointer to a flag. */
  datatype ErrorOut = NoErrorOut | ErrorFlag(error: bool)

  /** fromQtFormat(src, error): always answers ARGB; through a non-null
      pointer it reports an error unless src is ARGB32 or RGB32, and through
      a null pointer it reports nothing. */
  function FromQtFormat(src: QtFormat, error: ErrorOut): (r: (IFmt, ErrorOut))
    ensures r.0 == ARGB
    ensures error.NoErrorOut? ==> r.1 == NoErrorOut
    ensures error.ErrorFlag? ==> r.1.ErrorFlag? && (r.1.error <==> src != FormatARGB32 && src != FormatRGB32)
  {
    if error.ErrorFlag? then
      (ARGB, ErrorFlag(src != FormatARGB32 && src != FormatRGB32))
    else
      (ARGB, error)
  }

  /** Round trip: a format with a QImage equivalent comes back from that
      equivalent unchanged and without an error. */
  lemma QtRoundTrip(fmt: IFmt, flag: bool)
    requires ToQtFormat(fmt) != FormatInvalid
    ensures FromQtFormat(ToQtFormat(fmt), ErrorFlag(flag)) == (fmt, ErrorFlag(false))
  {
  }
}
