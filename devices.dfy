/** The device manager: enumerates the platform's devices once, lets the
    caller pick a subset of them, and latches the selection once the queues
    for the picked devices are installed. */
module Devices {
  import opened OpenCL

  /** QVector::indexOf: the position of the first occurrence of x, or -1. */
  function IndexOf(s: seq<Handle>, x: Handle): (r: int)
    ensures -1 <= r < |s|
    ensures r == -1 <==> x !in s
    ensures r >= 0 ==> s[r] == x && x !in s[..r]
  {
    if |s| == 0 then -1
    else if s[0] == x then 0
    else
      var k := IndexOf(s[1..], x);
      if k == -1 then -1 else k + 1
  }

  predicate Distinct<T(==)>(s: seq<T>) {
    forall i, j :: 0 <= i < j < |s| ==> s[i] != s[j]
  }

  /** An index list selectDevices accepts: not empty, every index inside
      the enumeration of n devices, no index twice. */
  predicate Selectable(ids: seq<int>, n: int) {
    && |ids| > 0
    && (forall i :: 0 <= i < |ids| ==> 0 <= ids[i] < n)
    && Distinct(ids)
  }

  /** The devices the index list designates, in list order. */
  function Mapped(all: seq<Handle>, ids: seq<int>): (r: seq<Handle>)
    requires forall i :: 0 <= i < |ids| ==> 0 <= ids[i] < |all|
  {
    seq(|ids|, i requires 0 <= i < |ids| => all[ids[i]])
  }

  /** The per-index check of selectDevices as written: an id at or past the
      end of the enumeration, or one that occurs more than once, is refused.
      A negative id is not. */
  predicate RejectedAsWritten(ids: seq<int>, i: int, n: int)
    requires 0 <= i < |ids|
  {
    ids[i] >= n || multiset(ids)[ids[i]] > 1
  }

  /** The per-index check with the lower bound the index operation needs. */
  predicate Rejected(ids: seq<int>, i: int, n: int)
    requires 0 <= i < |ids|
  {
    ids[i] < 0 || RejectedAsWritten(ids, i, n)
  }

  /** With one device enumerated, the list [-1] passes the check as
      written although -1 designates no device. */
  lemma NegativeIdPassesAsWritten()
    ensures !RejectedAsWritten([-1], 0, 1)
    ensures Rejected([-1], 0, 1)
  {
  }

  /** devIds.count(id) <= 1 for every element is the same as the list
      having no repeated element. */
  lemma CountedOnceIffDistinct(s: seq<int>)
    ensures (forall i :: 0 <= i < |s| ==> multiset(s)[s[i]] <= 1) <==> Distinct(s)
  {
    if Distinct(s) {
      forall i | 0 <= i < |s| ensures multiset(s)[s[i]] <= 1 {
        assert s == s[..i] + [s[i]] + s[i + 1..];
        assert s[i] !in s[..i];
        assert s[i] !in s[i + 1..];
        assert multiset(s) == multiset(s[..i]) + multiset{s[i]} + multiset(s[i + 1..]);
      }
    } else {
      var i, j :| 0 <= i < j < |s| && s[i] == s[j];
      assert s == s[..j] + s[j..];
      assert s[i] == s[..j][i];
      assert s[j] == s[j..][0];
      assert multiset(s) == multiset(s[..j]) + multiset(s[j..]);
      assert multiset(s)[s[j]] > 1;
    }
  }

  /** The state selectDevices(ids) leaves when it refuses the index at k:
      every earlier index passed and its device is stored, and the rest of
      the resized selection is as it was before. */
  predicate RefusedAt(devs: seq<Handle>, prev: seq<Handle>, all: seq<Handle>, ids: seq<int>, k: int) {
    && 0 <= k < |ids| && Rejected(ids, k, |all|)
    && (forall j :: 0 <= j < k ==> !Rejected(ids, j, |all|) && 0 <= ids[j] < |all|)
    && devs == Mapped(all, ids[..k]) + Resize(prev, |ids|, Null)[k..]
  }

  /** The positions in `all` of the devices in `listed`, as selectDevices(type)
      collects them. */
  function Positions(all: seq<Handle>, listed: seq<Handle>): (r: seq<int>)
    ensures |r| == |listed|
    ensures forall i :: 0 <= i < |r| ==> r[i] == IndexOf(all, listed[i])
  {
    seq(|listed|, i requires 0 <= i < |listed| => IndexOf(all, listed[i]))
  }

  /** The result of devicesOfType once the manager is usable: empty when
      either native query fails, otherwise the buffer sized by the first
      query and filled by the second. */
  function Listed(countQuery: DeviceQuery, listQuery: DeviceQuery): seq<Handle> {
    if CheckCLError(countQuery.err) || CheckCLError(listQuery.err) then []
    else Enumerated([], countQuery.count, listQuery.ids)
  }

  class DeviceManager {
    var platform: Handle
    /** Every device of the platform, captured once by the constructor. */
    var allDevs: seq<Handle>
    /** The selected devices. */
    var devs: seq<Handle>
    var queues: seq<Handle>
    /** Number of selected devices, set once the queues are installed. */
    var devsSelected: int
    var initError: bool

    /** DeviceManager(): finds the platform and enumerates all its devices;
        a missing platform or an empty enumeration sets the init error. */
    constructor (platformErr: int, platformId: Handle, countQuery: DeviceQuery, listQuery: DeviceQuery)
      ensures CheckCLError(platformErr) ==> platform == Null && initError && allDevs == []
      ensures !CheckCLError(platformErr) ==> platform == platformId && allDevs == Listed(countQuery, listQuery)
      ensures !CheckCLError(platformErr) ==> (initError <==> allDevs == [])
      ensures devs == [] && queues == [] && devsSelected == 0
    {
      platform := platformId;
      allDevs, devs, queues := [], [], [];
      devsSelected := 0;
      initError := false;
      new;
      if CheckCLError(platformErr) {
        platform := Null;
        initError := true;
        return;
      }
      allDevs := DevicesOfType(DeviceTypeAll, countQuery, listQuery);
      if allDevs == [] {
        initError := true;
      }
    }

    /** devicesOfType(type): nothing after an init error or a failed query;
        otherwise as many entries as the first query (for `deviceType`)
        reports, filled by the second query, which asks for all devices. */
    method DevicesOfType(deviceType: DeviceType, countQuery: DeviceQuery, listQuery: DeviceQuery)
      returns (ret: seq<Handle>)
      ensures initError || CheckCLError(countQuery.err) || CheckCLError(listQuery.err) ==> ret == []
      ensures !initError && !CheckCLError(countQuery.err) && !CheckCLError(listQuery.err)
        ==> |ret| == countQuery.count && ret == Enumerated([], countQuery.count, listQuery.ids)
    {
      ret := [];
      if initError {
        return;
      }
      if CheckCLError(countQuery.err) {
        return;
      }
      ret := Resize(ret, countQuery.count, Null);
      if CheckCLError(listQuery.err) {
        ret := [];
        return;
      }
      ret := Overwrite(ret, listQuery.ids);
    }

    /** selectDevices(devIds): refused after an init error, after the
        selection is latched, or for an empty list; then each index is
        checked in turn and its device stored. The selection is latched only
        later, by setQueues. */
    method SelectDevices(devIds: seq<int>) returns (ok: bool)
      modifies this`devs
      ensures ok <==> !initError && devsSelected == 0 && Selectable(devIds, |allDevs|)
      ensures ok ==> devs == Mapped(allDevs, devIds)
      ensures initError || devsSelected != 0 || |devIds| == 0 ==> devs == old(devs)
      ensures !ok && !(initError || devsSelected != 0 || |devIds| == 0) ==>
        exists k :: RefusedAt(devs, old(devs), allDevs, devIds, k)
    {
      if initError || devsSelected != 0 || |devIds| == 0 {
        return false;
      }
      devs := Resize(devs, |devIds|, Null);
      ghost var resized := devs;
      var i := 0;
      while i < |devIds|
        invariant 0 <= i <= |devIds| && |devs| == |devIds|
        invariant forall j :: 0 <= j < i ==> !Rejected(devIds, j, |allDevs|)
        invariant forall j :: 0 <= j < i ==> 0 <= devIds[j] < |allDevs| && devs[j] == allDevs[devIds[j]]
        invariant devs[i..] == resized[i..]
      {
        var id := devIds[i];
        if id < 0 || id >= |allDevs| || multiset(devIds)[id] > 1 {
          CountedOnceIffDistinct(devIds);
          assert !Selectable(devIds, |allDevs|);
          assert devs == Mapped(allDevs, devIds[..i]) + resized[i..];
          assert RefusedAt(devs, old(devs), allDevs, devIds, i);
          return false;
        }
        devs := devs[i := allDevs[id]];
        i := i + 1;
      }
      forall j | 0 <= j < |devIds| ensures multiset(devIds)[devIds[j]] <= 1 {
        assert !Rejected(devIds, j, |allDevs|);
      }
      CountedOnceIffDistinct(devIds);
      ok := true;
    }

    /** selectDevices(type): refused after an init error or once latched;
        otherwise the devices of that type are looked up in the
        enumeration, any missing one refuses, and the found positions are
        selected in the order the query listed the devices. On success the
        selection is exactly the listed devices. */
    method SelectDevicesOfType(deviceType: DeviceType, countQuery: DeviceQuery, listQuery: DeviceQuery)
      returns (ok: bool)
      modifies this`devs
      ensures ok <==> && !initError && devsSelected == 0
                      && |Listed(countQuery, listQuery)| > 0
                      && (forall d :: d in Listed(countQuery, listQuery) ==> d in allDevs)
                      && Distinct(Listed(countQuery, listQuery))
      ensures ok ==> devs == Listed(countQuery, listQuery)
      ensures !ok && (|| initError || devsSelected != 0 || |Listed(countQuery, listQuery)| == 0
                      || !(forall d :: d in Listed(countQuery, listQuery) ==> d in allDevs)) ==>
        devs == old(devs)
      ensures !ok && !initError && devsSelected == 0 && |Listed(countQuery, listQuery)| > 0
              && (forall d :: d in Listed(countQuery, listQuery) ==> d in allDevs) ==>
        exists k :: RefusedAt(devs, old(devs), allDevs, Positions(allDevs, Listed(countQuery, listQuery)), k)
    {
      if initError || devsSelected != 0 {
        return false;
      }
      var devsOfType := DevicesOfType(deviceType, countQuery, listQuery);
      var indices: seq<int> := [];
      var i := 0;
      while i < |devsOfType|
        invariant 0 <= i <= |devsOfType| && |indices| == i
        invariant forall j :: 0 <= j < i ==> indices[j] == IndexOf(allDevs, devsOfType[j]) && indices[j] >= 0
      {
        var index := IndexOf(allDevs, devsOfType[i]);
        if index == -1 {
          assert devsOfType[i] in devsOfType;
          return false;
        }
        indices := indices + [index];
        i := i + 1;
      }
      assert Distinct(indices) <==> Distinct(devsOfType) by {
        if Distinct(devsOfType) {
          forall j, k | 0 <= j < k < |indices| ensures indices[j] != indices[k] {
            assert allDevs[indices[j]] == devsOfType[j];
            assert allDevs[indices[k]] == devsOfType[k];
          }
        }
      }
      assert indices == Positions(allDevs, devsOfType);
      ok := SelectDevices(indices);
      if ok {
        assert devs == devsOfType;
      }
    }

    /** setQueues(queues): installs one queue per selected device and
        latches the selection with the number of selected devices. */
    method SetQueues(queues: seq<Handle>)
      requires |this.queues| == 0
      requires |queues| == |devs|
      modifies this`queues, this`devsSelected
      ensures this.queues == queues && devsSelected == |devs|
    {
      this.queues := queues;
      devsSelected := |devs|;
    }
  }
}
