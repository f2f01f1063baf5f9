/** The OpenCL context: initialised at most once, successfully, with a set
    of devices that is either the caller's list or everything enumerated. */
module Contexts {
  import opened OpenCL

  /** Whether the platform query and both device queries of Context::init
      succeed. */
  predicate Enumerates(platformErr: int, countQuery: DeviceQuery, listQuery: DeviceQuery) {
    !CheckCLError(platformErr) && !CheckCLError(countQuery.err) && !CheckCLError(listQuery.err)
  }

  /** Whether every requested device is in the enumeration that starts
      from the device buffer `prev`. */
  predicate Covers(prev: seq<Handle>, countQuery: DeviceQuery, listQuery: DeviceQuery, devs: seq<Handle>) {
    forall d :: d in devs ==> d in Enumerated(prev, countQuery.count, listQuery.ids)
  }

  /** Whether Context::init with these native outcomes and this requested
      device list gets all the way to a created context, starting from the
      device buffer `prev`. */
  predicate InitSucceeds(prev: seq<Handle>, platformErr: int, countQuery: DeviceQuery,
                         listQuery: DeviceQuery, created: Created, devs: seq<Handle>)
  {
    && Enumerates(platformErr, countQuery, listQuery)
    && Covers(prev, countQuery, listQuery, devs)
    && !CheckCLError(created.err)
  }

  class Context {
    // Init parameters
    var devices: seq<Handle>
    var openGL: bool
    var devType: DeviceType
    // Context state
    var initialized: bool
    var context: Handle

    /** Number of clCreateContext calls made. */
    ghost var contextsCreated: nat

    /** initialized(): whether init has succeeded. */
    function Initialized(): (r: bool)
      reads this
      ensures r <==> initialized
    {
      initialized
    }

    /** deviceCount(): the number of devices of the context. */
    function DeviceCount(): (n: nat)
      reads this
      ensures n == |devices|
    {
      |devices|
    }

    /** supportsGL(): the OpenGL flag init recorded. */
    function SupportsGL(): (r: bool)
      reads this
      ensures r <==> openGL
    {
      openGL
    }

    /** The member defaults: no devices, no OpenGL, all device types, not
        initialised, no native context. */
    constructor ()
      ensures !Initialized() && DeviceCount() == 0 && !SupportsGL()
      ensures devType == DeviceTypeAll && context == Null && contextsCreated == 0
    {
      devices := [];
      openGL := false;
      devType := DeviceTypeAll;
      initialized := false;
      context := Null;
      contextsCreated := 0;
    }

    /** init(useOpenGL = true, devType = ALL, devs = {}): refused without any
        change once initialised. Otherwise the parameters are recorded, the
        devices enumerated, every requested device must be among them, a
        non-empty request replaces the enumeration, and the context is
        created; only a created context marks the Context initialised. */
    method Init(platformErr: int, countQuery: DeviceQuery, listQuery: DeviceQuery, created: Created,
                useOpenGL: bool := true, devType: DeviceType := DeviceTypeAll, devs: seq<Handle> := [])
      returns (ok: bool)
      modifies this
      ensures old(initialized) ==> !ok && unchanged(this)
      ensures !old(initialized) ==> openGL == useOpenGL && this.devType == devType
      ensures ok <==> (!old(initialized)
                       && InitSucceeds(old(devices), platformErr, countQuery, listQuery, created, devs))
      ensures initialized <==> old(initialized) || ok
      // A query fails: the device buffer is as far as init got, no context is created
      ensures !old(initialized) && (CheckCLError(platformErr) || CheckCLError(countQuery.err)) ==>
        devices == old(devices) && context == old(context) && contextsCreated == old(contextsCreated)
      ensures !old(initialized) && !CheckCLError(platformErr) && !CheckCLError(countQuery.err)
              && CheckCLError(listQuery.err) ==>
        devices == Resize(old(devices), countQuery.count, Null)
        && context == old(context) && contextsCreated == old(contextsCreated)
      // A requested device is missing: the enumeration stays, no context is created
      ensures !old(initialized) && Enumerates(platformErr, countQuery, listQuery)
              && !Covers(old(devices), countQuery, listQuery, devs) ==>
        devices == Enumerated(old(devices), countQuery.count, listQuery.ids)
        && context == old(context) && contextsCreated == old(contextsCreated)
      // Past the device check: the request replaces the enumeration unless empty,
      // and the create result is stored whatever its status
      ensures !old(initialized) && Enumerates(platformErr, countQuery, listQuery)
              && Covers(old(devices), countQuery, listQuery, devs) ==>
        devices == (if |devs| > 0 then devs else Enumerated(old(devices), countQuery.count, listQuery.ids))
        && context == created.handle && contextsCreated == old(contextsCreated) + 1
    {
      if initialized {
        return false;
      }
      openGL := useOpenGL;
      this.devType := devType;

      // clGetPlatformIDs
      if CheckCLError(platformErr) {
        return false;
      }
      // clGetDeviceIDs for the number of devices
      if CheckCLError(countQuery.err) {
        return false;
      }
      devices := Resize(devices, countQuery.count, Null);
      // clGetDeviceIDs for the ids
      if CheckCLError(listQuery.err) {
        return false;
      }
      devices := Overwrite(devices, listQuery.ids);
      assert devices == Enumerated(old(devices), countQuery.count, listQuery.ids);

      // Every requested device must have been enumerated
      var i := 0;
      while i < |devs|
        invariant 0 <= i <= |devs|
        invariant forall j :: 0 <= j < i ==> devs[j] in devices
      {
        if devs[i] !in devices {
          assert devs[i] in devs;
          return false;
        }
        i := i + 1;
      }
      if |devs| != 0 {
        devices := devs;
      }

      // clCreateContext
      context := created.handle;
      contextsCreated := contextsCreated + 1;
      if CheckCLError(created.err) {
        return false;
      }
      initialized := true;
      ok := true;
    }

    /** context(): initialises with the default arguments when not yet
        initialised, then answers the native context. */
    method GetContext(platformErr: int, countQuery: DeviceQuery, listQuery: DeviceQuery, created: Created)
      returns (c: Handle)
      modifies this
      ensures c == context
      ensures !old(initialized) ==>
        contextsCreated == old(contextsCreated) + (if Enumerates(platformErr, countQuery, listQuery) then 1 else 0)
      ensures old(initialized) ==> unchanged(this)
      ensures !old(initialized) ==> openGL && devType == DeviceTypeAll
      ensures !old(initialized) ==>
        (initialized <==> Enumerates(platformErr, countQuery, listQuery) && !CheckCLError(created.err))
      ensures !old(initialized) && (CheckCLError(platformErr) || CheckCLError(countQuery.err)) ==>
        c == old(context) && devices == old(devices)
      ensures !old(initialized) && !CheckCLError(platformErr) && !CheckCLError(countQuery.err)
              && CheckCLError(listQuery.err) ==>
        c == old(context) && devices == Resize(old(devices), countQuery.count, Null)
      ensures !old(initialized) && Enumerates(platformErr, countQuery, listQuery) ==>
        c == created.handle && devices == Enumerated(old(devices), countQuery.count, listQuery.ids)
    {
      if !initialized {
        var ok := Init(platformErr, countQuery, listQuery, created);
      }
      c := context;
    }
  }
}
