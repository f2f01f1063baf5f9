/** An OpenCL kernel: loaded at most once, arguments bound one index after
    the other, then enqueued over a two-dimensional range. */
module Kernels {
  import opened OpenCL

  /** Kernels run over a 2-D space (image processing). */
  const LayoutDim: nat := 2

  /** BlockDim and GridDim: two sizes, one per dimension. */
  type BlockDim = s: seq<nat> | |s| == LayoutDim witness [0, 0]
  type GridDim = s: seq<nat> | |s| == LayoutDim witness [0, 0]

  /** A kernel argument as seen by the binding code: an Image (whose size
      getImageSize would read) or any other value of some byte size. */
  datatype KernelArg = ImageArg(width: int, height: int) | ValueArg(size: nat)

  /** One clSetKernelArg call: the index and the argument bound there. */
  datatype Bind = Bind(index: int, arg: KernelArg)

  /** The clSetKernelArg calls setArguments<argN> makes for the pack `args`
      when the i-th call reports status errs[i]. The first argument is bound
      at argN; the recursion to argN + 1 happens only when the check on the
      status answers true, because of the short-circuit `and`. */
  function BindLog(argN: int, args: seq<KernelArg>, errs: seq<int>): (r: seq<Bind>)
    requires |errs| == |args|
    ensures |r| <= |args|
    decreases |args|
  {
    if |args| == 0 then []
    else if CheckCLError(errs[0]) then [Bind(argN, args[0])] + BindLog(argN + 1, args[1..], errs[1..])
    else [Bind(argN, args[0])]
  }

  /** The value setArguments answers: the conjunction of the checks, which
      is true exactly when every bind reported an error. */
  predicate AllChecksHold(errs: seq<int>) {
    forall i :: 0 <= i < |errs| ==> CheckCLError(errs[i])
  }

  /** The conjunction of the checks splits into the first and the rest. */
  lemma AllChecksHoldCons(errs: seq<int>)
    requires |errs| > 0
    ensures AllChecksHold(errs) <==> CheckCLError(errs[0]) && AllChecksHold(errs[1..])
  {
    if CheckCLError(errs[0]) && AllChecksHold(errs[1..]) {
      forall i | 1 <= i < |errs| ensures CheckCLError(errs[i]) {
        assert errs[i] == errs[1..][i - 1];
      }
    }
  }

  /** The binds are a prefix of the pack at consecutive indices from
      argN; the pack is bound up to and including the first argument whose
      check fails, and entirely when every check holds. */
  lemma {:induction false} BindLogShape(argN: int, args: seq<KernelArg>, errs: seq<int>)
    requires |errs| == |args|
    ensures forall i :: 0 <= i < |BindLog(argN, args, errs)| ==> BindLog(argN, args, errs)[i] == Bind(argN + i, args[i])
    ensures |args| > 0 ==> |BindLog(argN, args, errs)| > 0
    ensures forall i :: 0 <= i < |BindLog(argN, args, errs)| - 1 ==> CheckCLError(errs[i])
    ensures 0 < |BindLog(argN, args, errs)| < |args| ==> !CheckCLError(errs[|BindLog(argN, args, errs)| - 1])
    ensures AllChecksHold(errs) ==> |BindLog(argN, args, errs)| == |args|
    decreases |args|
  {
    if |args| > 0 {
      var rest := BindLog(argN + 1, args[1..], errs[1..]);
      BindLogShape(argN + 1, args[1..], errs[1..]);
      AllChecksHoldCons(errs);
      if CheckCLError(errs[0]) {
        var r := BindLog(argN, args, errs);
        assert r == [Bind(argN, args[0])] + rest;
        forall i | 0 <= i < |r| ensures r[i] == Bind(argN + i, args[i]) {
          if i > 0 {
            assert r[i] == rest[i - 1];
          }
        }
        forall i | 0 <= i < |r| - 1 ensures CheckCLError(errs[i]) {
          if i > 0 {
            assert errs[i] == errs[1..][i - 1];
          }
        }
      }
    }
  }

  class Kernel {
    // State
    var initialized: bool
    var compiled: bool
    // OpenCL
    const globalWorkSize: array<nat>
    const localWorkSize: array<nat>
    var kernel: Handle

    /** clSetKernelArg calls made on this kernel, in order. */
    ghost var binds: seq<Bind>
    /** clEnqueueNDRangeKernel calls made on this kernel. */
    ghost var enqueued: nat
    /** clReleaseKernel calls made on this kernel. */
    ghost var released: seq<Handle>

    /** isNull(): answers the loaded flag itself. */
    function IsNull(): (r: bool)
      reads this
      ensures r <==> initialized
    {
      initialized
    }

    /** Kernel() = default: nothing loaded or compiled, no native kernel,
        local work size {8, 8}. */
    constructor ()
      ensures !initialized && !compiled && kernel == Null
      ensures fresh(globalWorkSize) && fresh(localWorkSize)
      ensures globalWorkSize.Length == LayoutDim && localWorkSize[..] == [8, 8]
      ensures binds == [] && enqueued == 0 && released == []
    {
      initialized, compiled := false, false;
      globalWorkSize := new nat[LayoutDim](_ => 0);
      localWorkSize := new nat[LayoutDim][8, 8];
      kernel := Null;
      binds, enqueued, released := [], 0, [];
    }

    /** Kernel(fileName, functionName): loads the program; the kernel is
        then loaded, so every later load is refused. */
    constructor FromFile(fileName: string, functionName: string)
      ensures initialized && !compiled && kernel == Null
      ensures fresh(globalWorkSize) && fresh(localWorkSize)
      ensures globalWorkSize.Length == LayoutDim && localWorkSize[..] == [8, 8]
      ensures binds == [] && enqueued == 0 && released == []
    {
      initialized, compiled := false, false;
      globalWorkSize := new nat[LayoutDim](_ => 0);
      localWorkSize := new nat[LayoutDim][8, 8];
      kernel := Null;
      binds, enqueued, released := [], 0, [];
      new;
      var ok := LoadProgram(fileName, functionName);
    }

    /** Kernel(source): loads the source; every later load is refused. */
    constructor FromSource(source: string)
      ensures initialized && !compiled && kernel == Null
      ensures fresh(globalWorkSize) && fresh(localWorkSize)
      ensures globalWorkSize.Length == LayoutDim && localWorkSize[..] == [8, 8]
      ensures binds == [] && enqueued == 0 && released == []
    {
      initialized, compiled := false, false;
      globalWorkSize := new nat[LayoutDim](_ => 0);
      localWorkSize := new nat[LayoutDim][8, 8];
      kernel := Null;
      binds, enqueued, released := [], 0, [];
      new;
      var ok := LoadSource(source);
    }

    /** loadProgram: refused without change once a kernel is loaded,
        otherwise marks the kernel loaded. */
    method LoadProgram(fileName: string, functionName: string) returns (ok: bool)
      modifies this`initialized
      ensures ok <==> !old(initialized)
      ensures initialized
    {
      if initialized {
        return false;
      }
      initialized := true;
      ok := true;
    }

    /** loadSource: the same load-once latch as loadProgram. */
    method LoadSource(source: string) returns (ok: bool)
      modifies this`initialized
      ensures ok <==> !old(initialized)
      ensures initialized
    {
      if initialized {
        return false;
      }
      initialized := true;
      ok := true;
    }

    /** setArg(argIndex, arg): nothing is bound while isNull() holds;
        otherwise one bind at argIndex, answering the check on its status. */
    method SetArg(argIndex: int, arg: KernelArg, err: int) returns (ok: bool)
      modifies this`binds
      ensures IsNull() ==> !ok && binds == old(binds)
      ensures !IsNull() ==> binds == old(binds) + [Bind(argIndex, arg)] && (ok <==> CheckCLError(err))
    {
      if IsNull() {
        return false;
      }
      binds := binds + [Bind(argIndex, arg)];
      ok := CheckCLError(err);
    }

    /** setLayout: succeeds and changes nothing. */
    method SetLayout(blockDim: BlockDim, gridDim: GridDim) returns (ok: bool)
      ensures ok
    {
      ok := true;
    }

    /** getImageSize: changes nothing, for images and other arguments alike. */
    method GetImageSize(arg: KernelArg)
      ensures unchanged(this) && unchanged(globalWorkSize) && unchanged(localWorkSize)
    {
    }

    /** setArguments<argN>(args...): binds the first argument at argN, then
        the rest from argN + 1 while the checks hold. */
    method SetArguments(argN: int, args: seq<KernelArg>, errs: seq<int>) returns (ok: bool)
      requires |errs| == |args|
      modifies this`binds
      ensures ok <==> AllChecksHold(errs)
      ensures binds == old(binds) + BindLog(argN, args, errs)
      decreases |args|
    {
      if |args| == 0 {
        return true;
      }
      binds := binds + [Bind(argN, args[0])];
      GetImageSize(args[0]);
      if !CheckCLError(errs[0]) {
        assert BindLog(argN, args, errs) == [Bind(argN, args[0])];
        return false;
      }
      assert BindLog(argN, args, errs) == [Bind(argN, args[0])] + BindLog(argN + 1, args[1..], errs[1..]);
      ghost var bound := binds;
      AllChecksHoldCons(errs);
      ok := SetArguments(argN + 1, args[1..], errs[1..]);
      assert binds == bound + BindLog(argN + 1, args[1..], errs[1..]);
    }

    /** operator()(args...): refused while isNull() holds; a non-empty pack
        is bound from index 0 and a failed binding refuses before the
        enqueue; otherwise the kernel is enqueued and the answer is the
        check on the enqueue status. */
    method Invoke(args: seq<KernelArg>, bindErrs: seq<int>, enqueueErr: int) returns (ok: bool)
      requires |bindErrs| == |args|
      modifies this`binds, this`enqueued
      ensures IsNull() ==> !ok && binds == old(binds) && enqueued == old(enqueued)
      ensures !IsNull() ==> binds == old(binds) + BindLog(0, args, bindErrs)
      ensures !IsNull() && !AllChecksHold(bindErrs) ==> !ok && enqueued == old(enqueued)
      ensures !IsNull() && AllChecksHold(bindErrs) ==>
        enqueued == old(enqueued) + 1 && (ok <==> CheckCLError(enqueueErr))
    {
      if IsNull() {
        return false;
      }
      if |args| != 0 {
        var argSetOk := SetArguments(0, args, bindErrs);
        if !argSetOk {
          return false;
        }
      }
      enqueued := enqueued + 1;
      ok := CheckCLError(enqueueErr);
    }

    /** ~Kernel: releases the native kernel. */
    method Destroy()
      modifies this`released
      ensures released == old(released) + [kernel]
    {
      released := released + [kernel];
    }
  }
}
