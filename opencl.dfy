/** Conventions of the native OpenCL layer as libqcli uses it.
    Native calls are not modelled: each call becomes a parameter that carries
    its outcome (status code, handle, reported values). */
module OpenCL {

  /** cl_int status of a native call; CL_SUCCESS is 0. */
  const CL_SUCCESS: int := 0

  /** checkCLError / checkerr: answers true exactly when the status is an error. */
  predicate CheckCLError(err: int) {
    err != CL_SUCCESS
  }

  /** Opaque native handle (cl_device_id, cl_mem, cl_context, ...); Null is nullptr. */
  type Handle = nat
  const Null: Handle := 0

  /** cl_device_type values the library passes around. */
  datatype DeviceType = DeviceTypeAll | DeviceTypeDefault | DeviceTypeCpu | DeviceTypeGpu | DeviceTypeAccelerator

  /** Outcome of one clGetDeviceIDs call: its status, the device count it
      reports and the ids it writes into the caller's buffer. */
  datatype DeviceQuery = DeviceQuery(err: int, count: nat, ids: seq<Handle>)

  /** Outcome of a clCreate* call: its status and the handle it returns. */
  datatype Created = Created(err: int, handle: Handle)

  /** Vector resize to n entries: existing entries are kept, new ones are `fill`. */
  function Resize(v: seq<Handle>, n: nat, fill: Handle): (r: seq<Handle>)
    ensures |r| == n
    ensures forall i :: 0 <= i < n && i < |v| ==> r[i] == v[i]
    ensures forall i :: |v| <= i < n ==> r[i] == fill
  {
    if n <= |v| then v[..n] else v + seq(n - |v|, _ => fill)
  }

  /** clGetDeviceIDs writing `ids` at the start of the buffer `v`; writes past
      the end of the buffer are undefined behaviour and are not modelled. */
  function Overwrite(v: seq<Handle>, ids: seq<Handle>): (r: seq<Handle>)
    ensures |r| == |v|
    ensures forall i :: 0 <= i < |v| ==> r[i] == if i < |ids| then ids[i] else v[i]
  {
    if |ids| >= |v| then ids[..|v|] else ids + v[|ids|..]
  }

  /** The device buffer after the two-step enumeration used by
      DeviceManager::devicesOfType and Context::init: the buffer `prev` is
      resized to the count reported by the first query, padded with nullptr,
      then the second query writes its ids into it. */
  function Enumerated(prev: seq<Handle>, count: nat, ids: seq<Handle>): (r: seq<Handle>)
    ensures |r| == count
    ensures forall i :: 0 <= i < count && i < |ids| ==> r[i] == ids[i]
    ensures forall i :: |ids| <= i < count && i < |prev| ==> r[i] == prev[i]
    ensures forall i :: |ids| <= i < count && |prev| <= i ==> r[i] == Null
  {
    Overwrite(Resize(prev, count, Null), ids)
  }
}
