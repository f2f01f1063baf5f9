# libqcli core in Dafny

This project models the core of libqcli, a small Qt/OpenCL image-processing
library. It covers five parts:

- **Pixel-format registry** (`ifmt.dfy`, module `Ifmt`). A format is packed
  into a 32-bit code as `type << 16 | bpp << 8 | chanCount`. There are eight
  `IFmt` formats. Each has an OpenCL image format, and ARGB also has a QImage
  format.
- **Image** (`image.dfy`, module `Images`). One picture with a host buffer and
  a device buffer, each with a validity flag. It covers the constructors,
  `fromImage`, the host and device allocators, `_setBlack`, `_upload` and
  `_download`.
- **DeviceManager** (`devices.dfy`, module `Devices`). It enumerates the
  platform's devices once. The caller picks devices by index or by type, and
  `setQueues` locks in the pick.
- **Context** (`context.dfy`, module `Contexts`). `init` runs at most once and
  succeeds only when all four native calls succeed. `context()` initialises
  on demand.
- **Kernel** (`kernel.dfy`, module `Kernels`). The kernel can be loaded only
  once. `setArg`, `setLayout`, the recursive `setArguments` and
  `operator()` are modelled.

`opencl.dfy` (module `OpenCL`) holds the conventions shared by all five
parts:

- A status is an error exactly when it is not `CL_SUCCESS`. This is the
  `checkCLError`/`checkerr` convention.
- A handle is a number, and 0 stands for `nullptr`.
- A device list is fetched in two steps: resize the vector, then fill it.

Native OpenCL calls are not modelled. Each one becomes a parameter that
carries its outcome: `DeviceQuery`, `Created`, and `Realloc` for `realloc`.
Side effects that cannot be observed are ghost logs: released buffers, bound
arguments, enqueues and created contexts.

The model follows the `.cpp` definitions as written, where they differ from
the headers or the comments:

- `Image::fromImage` returns false for every non-null image. Its guard is
  `!image.isNull() or size mismatch`. The constructors require positive
  sides, so the rest of the function is reachable only for a 0x0 Image.
  `Images.Image.FromImage` states both facts.
- The conversion test in `fromImage`, "not ARGB32 or not RGB32", holds for
  every format.
- `_upload` marks the device copy valid even when allocating the device
  buffer failed. `Images.Image.Upload` states that the flags are backed by
  buffers exactly when a device buffer exists.
- `_setBlack` sets the device flag without clearing the device buffer.
- The QSize constructor defaults to `setBlack = true` and no allocation,
  which breaks the constructor's own `assert`. `Images.Image.FromSize`
  requires what that assert requires.
- `_bytes` is `width * height * iFmtBPP`, so it counts bits, not bytes. The
  ARGB, ARGB16 and ARGB16F bpp literals (24, 48, 48) describe three channels,
  although the channel count and the OpenCL order give four.
  `Ifmt.BppMatchesCLFormat` states exactly which formats are affected.
- `devicesOfType(type)` sizes the vector with a query for `type` but fills it
  with a query for all devices.
- A selection can be redone any number of times until `setQueues` locks it.
  An empty selection never locks.
- `Context::context()` is declared `const` but calls `init()`.
- `Kernel::isNull()` returns the loaded flag itself. So `setArg` and
  `operator()` refuse a kernel that is loaded and go ahead on one that is
  not.
- `checkCLError` answers true on an error. So `setArg` and `operator()`
  report true exactly when the native call failed. The short-circuit `and`
  in `setArguments` goes on binding while binds fail and stops after the
  first bind that succeeds.

## Model

| member | source | states |
|---|---|---|
| Ifmt.Pack | libqcli/src/ifmt.h:28-43 | the top byte of a packed code is clear and each unpack function returns the field that was packed |
| Ifmt.UnpackPack | libqcli/src/ifmt.h:28-43 | packing the three unpacked fields of a code with a clear top byte gives the code back |
| Ifmt.DeclaredTable | libqcli/src/ifmt.h:46-56 | every format is declared exactly once, type ids run 0..7 in declaration order, bpp is 24,48,48,128,8,16,16,32, and the channel count is 4 for ARGB* and 1 for LUMA* |
| Ifmt.CodeInjective | libqcli/src/ifmt.h:46-56 | two different formats never share a code |
| Ifmt.ToCLFormat | libqcli/src/ifmt.cpp:7-27 | the order is ARGB exactly for ARGB* and luminance exactly for LUMA*; each channel type is chosen exactly by its suffix |
| Ifmt.ToCLFormatInjective | libqcli/src/ifmt.cpp:12-21 | no two formats map to the same OpenCL image format |
| Ifmt.ToCLFormatByTypeId | libqcli/src/ifmt.cpp:12-21 | the OpenCL format can be read off the type id: id < 4 selects ARGB, and id mod 4 selects the channel type |
| Ifmt.ChanCountMatchesCLOrder | libqcli/src/ifmt.h:48-55 | the stored channel count equals the channel count of the OpenCL order |
| Ifmt.BppMatchesCLFormat | libqcli/src/ifmt.h:48-55 | stored bpp equals channels times channel bits exactly for formats other than ARGB, ARGB16 and ARGB16F, whose bpp counts three channels |
| Ifmt.ToQtFormat | libqcli/src/ifmt.cpp:29-33 | the answer is ARGB32 exactly for ARGB and Invalid for every other format |
| Ifmt.FromQtFormat | libqcli/src/ifmt.cpp:35-41 | the answer is always ARGB; through a non-null pointer the error flag is set exactly when the source is neither ARGB32 nor RGB32; a null pointer gets nothing written |
| Ifmt.QtRoundTrip | libqcli/src/ifmt.cpp:29-41 | a format with a QImage equivalent comes back unchanged and without an error from fromQtFormat(toQtFormat) |
| OpenCL.Resize | libqcli/src/opencl/context.cpp:61 | a resized vector has the new length, keeps its old prefix and pads with the fill value |
| OpenCL.Overwrite | libqcli/src/opencl/context.cpp:62 | filling a buffer keeps its length; the first entries are the written ids and the rest are unchanged |
| OpenCL.Enumerated | libqcli/src/opencl/context.cpp:56-64 | after the two-step enumeration the buffer has the reported count, starts with the listed ids, keeps older entries after them and holds nullptr beyond those |
| Images.Reallocate | libqcli/src/image.cpp:109 | realloc yields null exactly when it fails; otherwise the block has the requested size and keeps the old prefix |
| Images.Image.Build | libqcli/src/image.cpp:35-39 | from the member defaults, leaves the state `Built` describes: the device buffer is the created one exactly when allocation was asked for and succeeded; the host buffer exists exactly when asked for and realloc succeeded; _bytes is the extent once anything was allocated; the copies are valid exactly when setBlack cleared them, and a cleared host buffer holds zeros |
| Images.Image.constructor | libqcli/src/image.cpp:27-40 | records the format and the sides and leaves the `Built` state for its flags, with every set validity flag backed by a buffer |
| Images.Image.FromSize | libqcli/src/image.h:41-43 | forwards the size's sides and the flags to the (width, height) constructor and leaves the same `Built` state; devId is dropped |
| Images.Image.FromQImage | libqcli/src/image.cpp:42-52 | takes the QImage's size and optionally allocates the device buffer; fromImage then refuses, so no host buffer exists and neither copy is valid |
| Images.Image.Destroy | libqcli/src/image.cpp:54-63 | an existing device buffer is released and nulled, and the host buffer is freed |
| Images.Image.FromImage | libqcli/src/image.cpp:69-100 | a non-null or wrongly sized image, and any image when the Image is not 0x0, is refused with nothing changed; on success the host copy exists and is valid, and the device copy is valid exactly when uploaded; no device buffer is ever released; the device buffer is kept unless an upload finds none, in which case it is the create outcome |
| Images.Image.Width | libqcli/src/image.h:54 | answers the width the Image was constructed with |
| Images.Image.Height | libqcli/src/image.h:55 | answers the height the Image was constructed with |
| Images.Image.AllocHost | libqcli/src/image.cpp:102-115 | the host copy becomes invalid, _bytes becomes the extent, the buffer is the realloc result, and the call succeeds exactly when the buffer is non-null |
| Images.Image.AllocDev | libqcli/src/image.cpp:117-136 | the device copy becomes invalid and _bytes becomes the extent; any old buffer is released; the call succeeds exactly when the create status is not an error, and the buffer is the new handle then and null otherwise |
| Images.Image.SetBlack | libqcli/src/image.cpp:138-164 | with neither flag nothing changes; otherwise a requested existing host buffer is zeroed, and each validity flag becomes "requested and allocated" |
| Images.Image.Upload | libqcli/src/image.cpp:166-177 | a missing device buffer is allocated, and the device copy is marked valid even when that allocation failed |
| Images.Image.Download | libqcli/src/image.cpp:179-182 | changes nothing |
| Devices.IndexOf | libqcli/src/opencl/devicemanager.cpp:82 | the answer is -1 exactly when the device is absent; otherwise it is the position of the first occurrence |
| Devices.CountedOnceIffDistinct | libqcli/src/opencl/devicemanager.cpp:103 | every id occurring at most once is the same as the list having no repeats |
| Devices.NegativeIdPassesAsWritten | libqcli/src/opencl/devicemanager.cpp:103 | with one device enumerated, the id -1 passes the check as written but not the corrected check |
| Devices.DeviceManager.constructor | libqcli/src/opencl/devicemanager.cpp:23-39 | a platform error leaves no platform, no devices and the init error set; otherwise all devices are enumerated, and the init error is set exactly when none were found |
| Devices.DeviceManager.DevicesOfType | libqcli/src/opencl/devicemanager.cpp:47-70 | empty after an init error or a failed query; otherwise the buffer sized by the first query and filled by the second |
| Devices.DeviceManager.SelectDevices | libqcli/src/opencl/devicemanager.cpp:91-111 | succeeds exactly when there is no init error, no locked selection, and the list is non-empty, in range and has no repeats; the selection is then the designated devices in list order; on a refused id the devices before it are stored |
| Devices.DeviceManager.SelectDevicesOfType | libqcli/src/opencl/devicemanager.cpp:72-89 | succeeds exactly when the listed devices are non-empty, all enumerated and distinct; the selection is then exactly the listed devices; a refusal for an init error, a locked selection, an empty list or a device missing from the enumeration leaves the selection unchanged; a refusal for a repeated device leaves the partial selection selectDevices stores for their positions |
| Devices.DeviceManager.SetQueues | libqcli/src/opencl/devicemanager.cpp:113-121 | installs the queues and locks the selection with its size |
| Contexts.Context.constructor | libqcli/src/opencl/context.h:66-78 | no devices, no OpenGL, all device types, not initialised, no context |
| Contexts.Context.Initialized | libqcli/src/opencl/context.h:52 | answers whether init has succeeded |
| Contexts.Context.DeviceCount | libqcli/src/opencl/context.h:56 | answers the number of devices of the context |
| Contexts.Context.SupportsGL | libqcli/src/opencl/context.h:58 | answers the OpenGL flag init recorded |
| Contexts.Context.Init | libqcli/src/opencl/context.cpp:32-107 | refused without any change once initialised; otherwise succeeds exactly when all four native calls succeed and every requested device was enumerated; a failed platform or count query leaves the devices and the context; a failed list query leaves the devices resized; a missing requested device leaves the enumeration; past the device check the devices are the request if non-empty, else the enumeration, and one context is created and stored whatever its status |
| Contexts.Context.GetContext | libqcli/src/opencl/context.cpp:124-131 | answers the stored context; when not initialised, runs init with the defaults and ends initialised exactly when the queries and the create succeed; after a failed query the answer is the old context and the devices are as init left them; once the queries succeed the answer is the created handle, the devices are the enumeration and one more context is created, even when the create then fails |
| Kernels.BindLog | libqcli/src/opencl/kernel.cpp:109-116 | the binds setArguments makes are at most one per argument |
| Kernels.BindLogShape | libqcli/src/opencl/kernel.cpp:109-116 | arguments are bound at argN, argN+1, ... in pack order; binding goes on past a bind only when its check holds and stops after the first bind whose check fails; a pack whose checks all hold is bound completely |
| Kernels.Kernel.IsNull | libqcli/src/opencl/kernel.h:54 | answers the loaded flag itself, so it holds exactly for a loaded kernel |
| Kernels.Kernel.constructor | libqcli/src/opencl/kernel.h:87-93 | not loaded, not compiled, null kernel, local work size {8, 8}, global work size of two entries |
| Kernels.Kernel.FromFile | libqcli/src/opencl/kernel.cpp:22-25 | the kernel is loaded, so every later load is refused |
| Kernels.Kernel.FromSource | libqcli/src/opencl/kernel.cpp:27-30 | the kernel is loaded, so every later load is refused |
| Kernels.Kernel.LoadProgram | libqcli/src/opencl/kernel.cpp:32-49 | succeeds exactly when no kernel was loaded; afterwards a kernel is loaded |
| Kernels.Kernel.LoadSource | libqcli/src/opencl/kernel.cpp:51-68 | succeeds exactly when no kernel was loaded; afterwards a kernel is loaded |
| Kernels.Kernel.SetArg | libqcli/src/opencl/kernel.cpp:70-83 | refuses and binds nothing while isNull() holds; otherwise makes one bind at the index and answers the check on its status |
| Kernels.Kernel.SetLayout | libqcli/src/opencl/kernel.cpp:85-94 | always succeeds and changes nothing |
| Kernels.Kernel.GetImageSize | libqcli/src/opencl/kernel.cpp:96-107 | changes nothing, including the work sizes |
| Kernels.Kernel.SetArguments | libqcli/src/opencl/kernel.cpp:109-116 | answers true exactly when every check holds; the binds made are exactly those of BindLog from argN |
| Kernels.Kernel.Invoke | libqcli/src/opencl/kernel.cpp:118-140 | refuses with nothing bound or enqueued while isNull() holds; otherwise binds the pack from index 0, refuses before enqueueing when a check fails, and else enqueues once and answers the check on the enqueue status |
| Kernels.Kernel.Destroy | libqcli/src/opencl/kernel.cpp:143-147 | releases the kernel handle |

## Left out

- Threads: the mutexes, the atomic flags and the singleton accessors (`ctx()`, `clctx()`, `Context::instance()`). Every operation is modelled as one atomic step.
- `qDebug` logging, and the status messages passed to `checkCLError`/`checkerr`. `utils.h` declares `checkCLError` (and `clErrorToString`) without a definition; `checkerr`, called by `Context::init`, is declared nowhere. The model gives both the convention "true exactly on error".
- `Image::fromImage` calls `qtFormat(format)`, which nothing declares; the model uses `toQtFormat`, the registry function `ifmt.h` declares.
- `Context::init` assigns `devs.toVector().toStdVector()`, a `std::vector`, to the `QVector` `_devices`, which does not compile; the model assigns the requested list itself.
- The OpenGL context properties built by `Context::init`. They are platform plumbing and do not affect the result. Only `useOpenGL` is recorded.
- Pixel data: the model's `ConvertToFormat` is an abstraction of `QImage::convertToFormat` that keeps the pixel bytes and changes only the format tag; Qt's re-encoding of the pixels is not modelled. The ARGB32-to-format conversion that `image.cpp` leaves as TODO is not modelled either.
- TODO bodies in the source: the device clear in `_setBlack`, the transfer in `_upload`, `_download`, kernel compilation and program loading, the `setLayout` work sizes, and the commented-out `roundUp` in `getImageSize`. The model keeps only the state changes the source makes.
- `Images.Image.AllocHost`, `Images.Image.AllocDev`: `_bytes` is an `int` in the source, and the product `width * height * bpp` they compute can overflow it. The model computes it with `Images.ByteCount` on unbounded integers.
- `Images.Image.FromImage`: `memcpy` copies `_bytes` bytes. The model copies the first `_bytes` entries of the pixel data. That is reachable only for a 0x0 image, where `_bytes` is 0.
- `_allocConv`, `_convBuffer`, `_devId`, `_region`, `_queue` and the `freeConvBuffer` parameters: they are declared in `image.h` but never defined or used in `image.cpp`. `_convBuffer` and `_queue` exist in the model as `convBuffer` and `queue` and stay null; `_devId`, `_region` and `_allocConv` are not modelled.
- `image.h` declares `fromQImage` and a `devId` parameter on each constructor, which `image.cpp` does not define. The model follows `image.cpp`, where the function is `fromImage` and the constructors take no `devId`.
- `Context::devices()`: its body returns `devices`, which names the member function itself rather than the field `_devices`, so it does not compile. The device count is modelled by `DeviceCount`.
- `fromQtFormat`: `ifmt.h` declares it as `bool fromQtFormat(QImage::Format, IFmt&)`, while `ifmt.cpp` defines `IFmt fromQtFormat(QImage::Format, bool*)`. The model follows `ifmt.cpp`.
- `Kernel::operator()()`, the overload with no arguments, is declared but never defined. `Kernels.Kernel.Invoke` with an empty pack stands for it.
- `Kernels.Kernel.SetArguments`: the source has no base case for an empty pack, so it does not compile for the last argument. The model answers true for an empty pack, the neutral value of the `and` chain.
- `Kernels.Kernel.Invoke`: the command queue is an uninitialised local in the source. Its value is not modelled; only the enqueue status is.
- `Kernels.Kernel.constructor`: `_globalWorkSize` is never initialised in the source. The model fills it with zeros.
- `_compiled` is never set by the source and stays false in the model.
- `clctx()` is called inside `_allocDev`, which can initialise the Context as a hidden side effect. The model passes the create outcome in as a parameter and does not touch the Context.
- `OpenCL.Overwrite`: the query may report more ids than the buffer holds, since the buffer was sized by an earlier query, and the source then writes past the end. The model drops those ids. The 32-entry cap `maxDevices` is not modelled.
- `Images.Reallocate`: when realloc fails, the old host block leaks in the source. The model only records that the pointer becomes null.
- Return values of `clReleaseMemObject`, `clReleaseCommandQueue`, `clReleaseContext` and `clReleaseKernel` are not modelled. The source reports them at most.
- The destructors of DeviceManager and Context release their native queues and context. These releases are not modelled.

## Findings

| source | as written | input that shows it | evidently intended | confidence | as-written member | corrected member |
|---|---|---|---|---|---|---|
| libqcli/src/opencl/devicemanager.cpp:103 | an id is refused only when `id >= _allDevs.count()` or it occurs twice, so negative ids pass and `_allDevs[id]` reads out of range | one device enumerated and `selectDevices({-1})` | refuse every id outside `0 .. _allDevs.count() - 1` | not executed | Devices.NegativeIdPassesAsWritten | Devices.DeviceManager.SelectDevices |
