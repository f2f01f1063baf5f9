/** The dual-buffer Image: a host copy and a device copy of one picture,
    each with its own validity flag. The template parameter `format` of the
    C++ class is an immutable field here. */
module Images {
  import opened OpenCL
  import opened Ifmt

  datatype QSize = QSize(width: int, height: int)

  /** QImage as the Image class sees it. An image with a side that is not
      positive or with the Invalid format is null, and a null image reports size 0x0, format Invalid
      and no pixel data. */
  datatype QImage = NullImage | QImage(w: int, h: int, fmt: QtFormat, bits: seq<bv8>)
  {
    predicate IsNull() {
      NullImage? || w <= 0 || h <= 0 || fmt == FormatInvalid
    }

    function Size(): QSize {
      if IsNull() then QSize(0, 0) else QSize(w, h)
    }

    function Format(): QtFormat {
      if IsNull() then FormatInvalid else fmt
    }

    function ConstBits(): seq<bv8> {
      if IsNull() then [] else bits
    }

    /** convertToFormat: a null image stays null; the re-encoding of the
        pixel data of a real image is not modelled, only its format tag. */
    function ConvertToFormat(target: QtFormat): QImage {
      if IsNull() then NullImage else QImage(w, h, target, bits)
    }
  }

  /** The host buffer pointer: nullptr or a block of bytes. */
  datatype HostMem = NoHost | Host(data: seq<bv8>)

  /** Outcome of one realloc call: nullptr, or a block whose bytes past the
      preserved prefix hold the indeterminate values `junk`. */
  datatype Realloc = ReallocFails | Reallocated(junk: nat -> bv8)

  /** realloc(prev, n): on failure the pointer becomes nullptr (the old block
      is lost); on success the block has n bytes and keeps the old prefix. */
  function Reallocate(prev: HostMem, n: nat, outcome: Realloc): (r: HostMem)
    ensures r.NoHost? <==> outcome.ReallocFails?
    ensures r.Host? ==> |r.data| == n
    ensures r.Host? && prev.Host? ==> forall i :: 0 <= i < n && i < |prev.data| ==> r.data[i] == prev.data[i]
  {
    match outcome
    case ReallocFails => NoHost
    case Reallocated(junk) =>
      var kept := if prev.Host? then prev.data else [];
      Host(seq(n, i requires 0 <= i < n => if i < |kept| then kept[i] else junk(i)))
  }

  function Zeros(n: nat): seq<bv8> {
    seq(n, _ => 0)
  }

  /** _bytes as image.cpp computes it: width * height * iFmtBPP(format).
      iFmtBPP counts bits, so the value is the size in bits. */
  function ByteCount(format: IFmt, width: int, height: int): int {
    width * height * Bpp(format)
  }

  class Image {
    const format: IFmt
    const width: int
    const height: int

    // Host buffer
    var hostBuffer: HostMem
    var hostValid: bool
    // Device buffer
    var devBuffer: Handle
    var devValid: bool
    // Device conversion buffer; image.cpp never allocates it
    var convBuffer: Handle

    var bytes: int
    var queue: Handle
    const origin: seq<nat> := [0, 0, 0]

    /** Device buffers handed to clReleaseMemObject, oldest first. */
    ghost var released: seq<Handle>

    /** width(): the width the Image was constructed with. */
    function Width(): (w: int)
      ensures w == width
    {
      width
    }

    /** height(): the height the Image was constructed with. */
    function Height(): (h: int)
      ensures h == height
    {
      height
    }

    function Extent(): int {
      ByteCount(format, width, height)
    }

    /** Consistency of the sizes: _bytes is 0 until a buffer has been
        allocated, and every allocated buffer has the image's extent. */
    ghost predicate Valid()
      reads this
    {
      && width >= 0 && height >= 0
      && (bytes == 0 || bytes == Extent())
      && (hostBuffer.Host? ==> bytes == Extent() && |hostBuffer.data| == Extent())
      && (devBuffer != Null ==> bytes == Extent())
    }

    /** Every validity flag that is set stands for an allocated buffer. */
    predicate Backed()
      reads this
    {
      (hostValid ==> hostBuffer.Host?) && (devValid ==> devBuffer != Null)
    }

    /** The state the (width, height, setBlack, allocHost, allocDev)
        constructor leaves: the device buffer is the created one exactly when
        it was asked for and the create succeeded, the host buffer exists
        exactly when it was asked for and realloc succeeded, _bytes is the
        extent once anything was allocated, and the copies are valid exactly
        when setBlack cleared them, a cleared host buffer holding zeros. */
    ghost predicate Built(host: Realloc, dev: Created, setBlack: bool, allocHost: bool, allocDev: bool)
      reads this
    {
      && Extent() >= 0
      && devBuffer == (if allocDev && !CheckCLError(dev.err) then dev.handle else Null)
      && (hostBuffer.Host? <==> allocHost && host.Reallocated?)
      && (!setBlack ==> hostBuffer == (if allocHost then Reallocate(NoHost, Extent(), host) else NoHost))
      && bytes == (if allocHost || allocDev then Extent() else 0)
      && hostValid == (setBlack && hostBuffer.Host?)
      && devValid == (setBlack && devBuffer != Null)
      && (setBlack && hostBuffer.Host? ==> hostBuffer.data == Zeros(Extent()))
      && convBuffer == Null && queue == Null && released == []
    }

    /** The member defaults every constructor starts from. */
    ghost predicate Unallocated()
      reads this
    {
      && hostBuffer == NoHost && !hostValid && devBuffer == Null && !devValid
      && convBuffer == Null && bytes == 0 && queue == Null && released == []
    }

    /** The body shared by the sized constructors: the device buffer is
        allocated before the host buffer, then the allocated buffers are
        optionally cleared. */
    method Build(host: Realloc, dev: Created, setBlack: bool, allocHost: bool, allocDev: bool)
      requires width > 0 && height > 0 && Unallocated()
      modifies this
      ensures Valid() && Backed()
      ensures Built(host, dev, setBlack, allocHost, allocDev)
    {
      assert width * height >= 0;
      if allocDev {
        var ok := AllocDev(dev);
      }
      if allocHost {
        var ok := AllocHost(host);
      }
      if setBlack {
        SetBlack(allocHost, allocDev);
      }
    }

    /** Image(width, height, setBlack, allocHost, allocDev). */
    constructor (format: IFmt, host: Realloc, dev: Created, width: int, height: int,
                 setBlack: bool := false, allocHost: bool := false, allocDev: bool := false)
      requires width > 0 && height > 0
      requires setBlack ==> allocHost || allocDev
      ensures this.format == format && Width() == width && Height() == height
      ensures Valid() && Backed() && Built(host, dev, setBlack, allocHost, allocDev)
    {
      this.format := format;
      this.width := width;
      this.height := height;
      hostBuffer, hostValid := NoHost, false;
      devBuffer, devValid := Null, false;
      convBuffer, bytes, queue := Null, 0, Null;
      released := [];
      new;
      Build(host, dev, setBlack, allocHost, allocDev);
    }

    /** Image(QSize, devId, setBlack = true, allocHost, allocDev): forwards
        the size's sides and the flags to the (width, height, ...) constructor.
        devId has no counterpart in that constructor and is dropped. */
    constructor FromSize(format: IFmt, host: Realloc, dev: Created, size: QSize, devId: int := 0,
                         setBlack: bool := true, allocHost: bool := false, allocDev: bool := false)
      requires size.width > 0 && size.height > 0
      requires setBlack ==> allocHost || allocDev
      ensures this.format == format && Width() == size.width && Height() == size.height
      ensures Valid() && Backed() && Built(host, dev, setBlack, allocHost, allocDev)
    {
      this.format := format;
      this.width := size.width;
      this.height := size.height;
      hostBuffer, hostValid := NoHost, false;
      devBuffer, devValid := Null, false;
      convBuffer, bytes, queue := Null, 0, Null;
      released := [];
      new;
      Build(host, dev, setBlack, allocHost, allocDev);
    }

    /** Image(QImage, allocDev, upload): takes the QImage's size, optionally
        allocates the device buffer, then loads the pixels with fromImage,
        which rejects the (non-null) image, so no host data is loaded. */
    constructor FromQImage(format: IFmt, host: Realloc, dev: Created, image: QImage,
                           allocDev: bool := false, upload: bool := false)
      requires !image.IsNull()
      requires upload ==> allocDev
      ensures Valid() && Backed()
      ensures this.format == format && Width() == image.Size().width && Height() == image.Size().height
      ensures hostBuffer == NoHost && !hostValid && !devValid
      ensures devBuffer == (if allocDev && !CheckCLError(dev.err) then dev.handle else Null)
      ensures bytes == (if allocDev then Extent() else 0)
      ensures convBuffer == Null && queue == Null && released == []
    {
      this.format := format;
      this.width := image.Size().width;
      this.height := image.Size().height;
      hostBuffer, hostValid := NoHost, false;
      devBuffer, devValid := Null, false;
      convBuffer, bytes, queue := Null, 0, Null;
      released := [];
      new;
      assert width * height >= 0;
      if allocDev {
        var ok := AllocDev(dev);
      }
      var loaded := FromImage(image, upload, host, dev);
    }

    /** ~Image: releases the device buffer if there is one and frees the
        host buffer; the validity flags are left as they were. */
    method Destroy()
      modifies this`devBuffer, this`hostBuffer, this`released
      ensures devBuffer == Null && hostBuffer == NoHost
      ensures released == old(released) + (if old(devBuffer) != Null then [old(devBuffer)] else [])
      ensures hostValid == old(hostValid) && devValid == old(devValid) && bytes == old(bytes)
    {
      if devBuffer != Null {
        released := released + [devBuffer];
        devBuffer := Null;
      }
      hostBuffer := NoHost;
    }

    /** fromImage(image, upload): the guard rejects every image that is not
        null, and a null image too unless this Image is 0x0, which the
        constructors rule out. Past the guard the host buffer is allocated
        if missing, the pixels are copied when the format has a QImage
        equivalent, the host copy becomes the valid one and is optionally
        uploaded. */
    method FromImage(image: QImage, upload: bool, host: Realloc, dev: Created) returns (ok: bool)
      requires Valid()
      modifies this`hostBuffer, this`hostValid, this`devValid, this`bytes, this`devBuffer, this`released
      ensures Valid()
      ensures !image.IsNull() || image.Size() != QSize(width, height) ==> !ok && unchanged(this)
      ensures width > 0 || height > 0 ==> !ok && unchanged(this)
      ensures ok ==> hostBuffer.Host? && hostValid && devValid == upload
      ensures !ok ==> devValid == old(devValid) && devBuffer == old(devBuffer)
      ensures !ok && !unchanged(this) ==> hostBuffer == NoHost && !hostValid
      ensures old(Backed()) && !upload ==> Backed()
      ensures released == old(released)
      ensures ok && (!upload || old(devBuffer) != Null) ==> devBuffer == old(devBuffer)
      ensures ok && upload && old(devBuffer) == Null ==>
        devBuffer == (if CheckCLError(dev.err) then Null else dev.handle)
    {
      if !image.IsNull() || image.Size() != QSize(width, height) {
        return false;
      }
      if hostBuffer.NoHost? {
        var hostOk := AllocHost(host);
        if !hostOk {
          return false;
        }
      }
      var img := image;
      // The test holds for every format: no format is both ARGB32 and RGB32.
      if img.Format() != FormatARGB32 || img.Format() != FormatRGB32 {
        img := img.ConvertToFormat(FormatARGB32);
      }
      if ToQtFormat(format) != FormatInvalid {
        // memcpy(_hostBuffer, constBits(), _bytes)
        hostBuffer := Host(img.ConstBits()[..bytes] + hostBuffer.data[bytes..]);
      }
      hostValid := true;
      devValid := false;
      if upload {
        Upload(dev);
      }
      ok := true;
    }

    /** _allocHost: marks the host copy invalid, sets _bytes and reallocs
        the host buffer; fails exactly when the buffer ends up null. The
        device side is outside its frame. */
    method AllocHost(host: Realloc) returns (ok: bool)
      requires Valid()
      modifies this`hostValid, this`bytes, this`hostBuffer
      ensures Valid()
      ensures !hostValid && bytes == Extent()
      ensures hostBuffer == Reallocate(old(hostBuffer), Extent(), host)
      ensures ok <==> hostBuffer.Host?
      ensures devBuffer == old(devBuffer) && devValid == old(devValid)
      ensures old(Backed()) ==> Backed()
    {
      assert width * height >= 0;
      hostValid := false;
      bytes := Extent();
      hostBuffer := Reallocate(hostBuffer, bytes, host);
      ok := hostBuffer.Host?;
    }

    /** _allocDev: marks the device copy invalid, sets _bytes, releases the
        current device buffer if any and creates a new one; on a create
        error the buffer is left null and the call fails. The host side is
        outside its frame. */
    method AllocDev(dev: Created) returns (ok: bool)
      requires Valid()
      modifies this`devValid, this`bytes, this`devBuffer, this`released
      ensures Valid()
      ensures !devValid && bytes == Extent()
      ensures released == old(released) + (if old(devBuffer) != Null then [old(devBuffer)] else [])
      ensures ok <==> !CheckCLError(dev.err)
      ensures devBuffer == (if ok then dev.handle else Null)
      ensures hostBuffer == old(hostBuffer) && hostValid == old(hostValid)
      ensures old(Backed()) ==> Backed()
    {
      devValid := false;
      bytes := Extent();
      if devBuffer != Null {
        // clReleaseMemObject; its status is only reported
        released := released + [devBuffer];
      }
      devBuffer := dev.handle;
      if CheckCLError(dev.err) {
        devBuffer := Null;
        return false;
      }
      ok := true;
    }

    /** _setBlack(host, dev): with neither flag nothing happens; otherwise
        the requested buffers that exist are cleared and the validity flags
        become exactly "requested and allocated". The device clear itself is
        not implemented in image.cpp; only its flag is set. */
    method SetBlack(host: bool, dev: bool)
      requires Valid()
      modifies this`hostBuffer, this`hostValid, this`devValid
      ensures Valid()
      ensures !host && !dev ==> hostBuffer == old(hostBuffer) && hostValid == old(hostValid) && devValid == old(devValid)
      ensures host || dev ==> hostValid == (host && hostBuffer.Host?) && devValid == (dev && devBuffer != Null)
      ensures hostBuffer == if host && old(hostBuffer).Host? then Host(Zeros(Extent())) else old(hostBuffer)
      ensures host || dev ==> Backed()
      ensures old(Backed()) ==> Backed()
    {
      if !host && !dev {
        return;
      }
      var wroteHost := false;
      var wroteDev := false;
      if host && hostBuffer.Host? {
        // memset(_hostBuffer, 0, _bytes)
        hostBuffer := Host(Zeros(bytes));
        wroteHost := true;
      }
      if dev && devBuffer != Null {
        wroteDev := true;
      }
      hostValid := wroteHost;
      devValid := wroteDev;
    }

    /** _upload: needs a host buffer; allocates the device buffer if there
        is none and then marks the device copy valid, whether or not that
        allocation succeeded. The host side is untouched. */
    method Upload(dev: Created)
      requires Valid() && hostBuffer.Host?
      modifies this`devValid, this`bytes, this`devBuffer, this`released
      ensures Valid() && devValid
      ensures hostBuffer == old(hostBuffer) && hostValid == old(hostValid) && bytes == old(bytes)
      ensures old(devBuffer) != Null ==> devBuffer == old(devBuffer) && released == old(released)
      ensures old(devBuffer) == Null ==> released == old(released)
      ensures old(devBuffer) == Null ==> devBuffer == (if CheckCLError(dev.err) then Null else dev.handle)
      ensures Backed() <==> (hostValid ==> hostBuffer.Host?) && devBuffer != Null
    {
      if devBuffer == Null {
        var ok := AllocDev(dev);
      }
      devValid := true;
    }

    /** _download: empty in image.cpp. */
    method Download()
      ensures unchanged(this)
    {
    }
  }
}
