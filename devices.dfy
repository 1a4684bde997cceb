/**
 * The libusb state the program relies on, and the USBDevice wrapper's
 * reference counting (one libusb reference per live wrapper).
 */
module Devices {
  import opened Wrappers

  /** uint8_t */
  type UInt8 = x: int | 0 <= x < 256

  /**
   * Identity of one physical device (the libusb_device pointer): the
   * devices libusb knows are numbered from 0.
   */
  type DeviceId = nat

  /** What libusb reports about a device: bus number, port number, device address. */
  datatype DeviceInfo = DeviceInfo(bus: UInt8, port: UInt8, addr: UInt8)

  /** The libusb calls whose order the program is responsible for. */
  datatype Call =
    | InitCall
    | ListCall
    | OpenCall(device: DeviceId)
    | DetachCall(device: DeviceId, iface: UInt8)
    | AttachCall(device: DeviceId, iface: UInt8)
    | CloseCall(device: DeviceId)
    | ExitCall

  /** Every device of devices is one of the n devices libusb knows. */
  predicate Known(n: nat, devices: seq<DeviceId>) {
    forall i | 0 <= i < |devices| :: devices[i] < n
  }

  /** A listing names only devices libusb knows. */
  predicate ListingFits(listing: Result<seq<DeviceId>, int>, n: nat) {
    listing.Success? ==> Known(n, listing.value)
  }

  /** The attributes of a sequence of devices, in the same order. */
  function Infos(info: seq<DeviceInfo>, devices: seq<DeviceId>): (r: seq<DeviceInfo>)
    requires Known(|info|, devices)
    ensures |r| == |devices|
    ensures forall i | 0 <= i < |devices| :: r[i] == info[devices[i]]
  {
    seq(|devices|, i requires 0 <= i < |devices| => info[devices[i]])
  }

  /** after is before with one more for every occurrence of a device in devices. */
  ghost predicate Added(before: seq<nat>, after: seq<nat>, devices: seq<DeviceId>) {
    && |after| == |before|
    && forall d | 0 <= d < |after| :: after[d] == before[d] + multiset(devices)[d]
  }

  /** counts with one more for every occurrence of a device in devices. */
  function AddCounts(counts: seq<nat>, devices: seq<DeviceId>): (r: seq<nat>)
    ensures Added(counts, r, devices)
  {
    var listed := multiset(devices);
    seq(|counts|, d requires 0 <= d < |counts| => counts[d] + listed[d])
  }

  /** counts with one less for every occurrence of a device in devices. */
  function SubCounts(counts: seq<nat>, devices: seq<DeviceId>): (r: seq<nat>)
    requires forall d | 0 <= d < |counts| :: counts[d] >= multiset(devices)[d]
    ensures Added(r, counts, devices)
  {
    var listed := multiset(devices);
    seq(|counts|, d requires 0 <= d < |counts| => counts[d] - listed[d])
  }

  /**
   * The library, seen through the calls the program makes. The reference
   * count of every device is the references held outside this program,
   * plus one per live USBDevice wrapper, plus one per reference that
   * libusb has handed out in a device list and no wrapper owns yet, plus
   * one per open handle (libusb_open takes one, libusb_close drops it).
   */
  class LibUsb {
    /** Bus, port and address of every device libusb knows. */
    const info: seq<DeviceInfo>
    /** References held outside this program. */
    ghost const external: seq<nat>

    var refcount: seq<nat>
    /** The live USBDevice wrappers: how many point at each device. */
    ghost var live: seq<nat>
    /** References in a device list that no wrapper has taken over. */
    ghost var unowned: seq<nat>

    var initialized: bool
    /** The open handles: how many are open on each device. */
    ghost var handles: seq<nat>
    var calls: seq<Call>

    ghost predicate Valid()
      reads this
    {
      && |refcount| == |info|
      && |external| == |info|
      && |live| == |info|
      && |unowned| == |info|
      && |handles| == |info|
      && forall d | 0 <= d < |refcount| ::
           refcount[d] == external[d] + live[d] + unowned[d] + handles[d]
    }

    /** No USBDevice wrapper is alive. */
    ghost predicate NoWrappers()
      reads this
    {
      forall d | 0 <= d < |live| :: live[d] == 0
    }

    /** No device handle is open. */
    ghost predicate NoHandles()
      reads this
    {
      forall d | 0 <= d < |handles| :: handles[d] == 0
    }

    constructor (info: seq<DeviceInfo>, external: seq<nat>)
      requires |external| == |info|
      ensures Valid() && NoWrappers() && NoHandles()
      ensures this.info == info && this.external == external && refcount == external
      ensures forall d | 0 <= d < |unowned| :: unowned[d] == 0
      ensures !initialized && calls == []
    {
      this.info := info;
      this.external := external;
      refcount := external;
      live := seq(|info|, d => 0);
      unowned := seq(|info|, d => 0);
      initialized := false;
      handles := seq(|info|, d => 0);
      calls := [];
    }

    /** libusb_init, returning code; the context exists when code is 0. */
    method Init(code: int) returns (r: Outcome<int>)
      requires !initialized
      modifies this`initialized, this`calls
      ensures initialized == (code == 0)
      ensures r == if code == 0 then Pass else Fail(code)
      ensures calls == old(calls) + [InitCall]
    {
      calls := calls + [InitCall];
      if code == 0 {
        initialized := true;
        r := Pass;
      } else {
        r := Fail(code);
      }
    }

    /**
     * libusb_exit. The devices and handles belong to the context, so every
     * wrapper is gone and every handle closed by then.
     */
    method Exit()
      requires initialized && NoWrappers() && NoHandles()
      modifies this`initialized, this`calls
      ensures !initialized
      ensures calls == old(calls) + [ExitCall]
    {
      calls := calls + [ExitCall];
      initialized := false;
    }

    /**
     * libusb_get_device_list, with its result supplied as outcome: either an
     * error code, or the devices, each of which gains one reference that the
     * array holds.
     */
    method GetDeviceList(outcome: Result<seq<DeviceId>, int>) returns (r: Result<seq<DeviceId>, int>)
      requires Valid() && initialized
      requires ListingFits(outcome, |info|)
      modifies this`refcount, this`unowned, this`calls
      ensures Valid()
      ensures r == outcome
      ensures calls == old(calls) + [ListCall]
      ensures outcome.Failure? ==> refcount == old(refcount) && unowned == old(unowned)
      ensures outcome.Success? ==> Added(old(refcount), refcount, outcome.value)
      ensures outcome.Success? ==> Added(old(unowned), unowned, outcome.value)
    {
      calls := calls + [ListCall];
      if outcome.Success? {
        refcount := AddCounts(refcount, outcome.value);
        unowned := AddCounts(unowned, outcome.value);
      }
      r := outcome;
    }

    /** libusb_free_device_list: with unref set, the array's references are dropped too. */
    method FreeDeviceList(list: seq<DeviceId>, unref: bool)
      requires Valid()
      requires unref ==> forall d | 0 <= d < |unowned| :: unowned[d] >= multiset(list)[d]
      modifies this`refcount, this`unowned
      ensures Valid()
      ensures !unref ==> refcount == old(refcount) && unowned == old(unowned)
      ensures unref ==> Added(refcount, old(refcount), list) && Added(unowned, old(unowned), list)
    {
      if unref {
        refcount := SubCounts(refcount, list);
        unowned := SubCounts(unowned, list);
      }
    }

    /** USBDevice(libusb_device*): the new wrapper takes over a reference; the count is untouched. */
    method Adopt(d: DeviceId)
      requires Valid() && d < |unowned| && unowned[d] > 0
      modifies this`live, this`unowned
      ensures Valid()
      ensures live == old(live)[d := old(live)[d] + 1]
      ensures unowned == old(unowned)[d := old(unowned)[d] - 1]
    {
      live := live[d := live[d] + 1];
      unowned := unowned[d := unowned[d] - 1];
    }

    /** USBDevice(const USBDevice&): libusb_ref_device for the copy. */
    method Copy(d: DeviceId)
      requires Valid() && d < |live| && live[d] > 0
      modifies this`refcount, this`live
      ensures Valid()
      ensures live == old(live)[d := old(live)[d] + 1]
      ensures refcount == old(refcount)[d := old(refcount)[d] + 1]
    {
      refcount := refcount[d := refcount[d] + 1];
      live := live[d := live[d] + 1];
    }

    /** ~USBDevice(): libusb_unref_device. */
    method Destroy(d: DeviceId)
      requires Valid() && d < |live| && live[d] > 0
      modifies this`refcount, this`live
      ensures Valid()
      ensures live == old(live)[d := old(live)[d] - 1]
      ensures refcount == old(refcount)[d := old(refcount)[d] - 1]
    {
      refcount := refcount[d := refcount[d] - 1];
      live := live[d := live[d] - 1];
    }
  }

  /** While a wrapper for d is alive, libusb still holds d: its count is at least the wrappers'. */
  lemma LiveWrapperHoldsDevice(lib: LibUsb, d: DeviceId)
    requires lib.Valid() && d < |lib.live| && lib.live[d] > 0
    ensures lib.refcount[d] >= lib.live[d] >= 1
  {
  }

  /** While a handle on d is open, libusb holds d for it, on top of the wrappers' references. */
  lemma OpenHandleHoldsDevice(lib: LibUsb, d: DeviceId)
    requires lib.Valid() && d < |lib.handles| && lib.handles[d] > 0
    ensures lib.refcount[d] >= lib.live[d] + lib.handles[d] >= 1
  {
  }

  /** One step of a left-to-right walk over s. */
  lemma SplitAt(s: seq<DeviceId>, i: nat)
    requires i < |s|
    ensures s[..i + 1] == s[..i] + [s[i]]
    ensures multiset(s[i..]) == multiset{s[i]} + multiset(s[i + 1..])
  {
    assert s[i..] == [s[i]] + s[i + 1..];
  }

  /**
   * devices.push_back(USBDevice(d)): a temporary wrapper adopts the listed
   * reference, the list stores a copy of it, and the temporary is destroyed.
   */
  method PushBack(lib: LibUsb, d: DeviceId)
    requires lib.Valid() && d < |lib.unowned| && lib.unowned[d] > 0
    modifies lib`refcount, lib`live, lib`unowned
    ensures lib.Valid()
    ensures lib.live == old(lib.live)[d := old(lib.live)[d] + 1]
    ensures lib.unowned == old(lib.unowned)[d := old(lib.unowned)[d] - 1]
    ensures lib.refcount == old(lib.refcount)
  {
    lib.Adopt(d);   // the temporary USBDevice(device_list[i])
    lib.Copy(d);    // push_back stores a copy of it
    lib.Destroy(d); // the temporary dies at the end of the statement
  }

  /**
   * The loop of USBDevice::listAllDevices: one stored wrapper per entry of
   * the device array, in array order, each owning that entry's reference.
   */
  method WrapAll(lib: LibUsb, deviceList: seq<DeviceId>) returns (devices: seq<DeviceId>)
    requires lib.Valid() && Known(|lib.info|, deviceList)
    requires forall d | 0 <= d < |lib.unowned| :: lib.unowned[d] >= multiset(deviceList)[d]
    modifies lib`refcount, lib`live, lib`unowned
    ensures lib.Valid()
    ensures devices == deviceList
    ensures Added(old(lib.live), lib.live, deviceList)
    ensures Added(lib.unowned, old(lib.unowned), deviceList)
    ensures lib.refcount == old(lib.refcount)
  {
    devices := [];
    var i := 0;
    while i < |deviceList|
      invariant 0 <= i <= |deviceList|
      invariant lib.Valid()
      invariant devices == deviceList[..i]
      invariant Added(old(lib.live), lib.live, devices)
      invariant forall e | 0 <= e < |lib.unowned| :: lib.unowned[e] >= multiset(deviceList[i..])[e]
      invariant lib.refcount == old(lib.refcount)
    {
      var d := deviceList[i];
      SplitAt(deviceList, i);
      PushBack(lib, d);
      devices := devices + [d];
      i := i + 1;
    }
    assert deviceList[..|deviceList|] == deviceList;
  }

  /**
   * USBDevice::listAllDevices: on success the wrappers come in enumeration
   * order, one per listed device, and every listed reference has passed to
   * exactly one wrapper; on failure nothing is held.
   */
  method ListAllDevices(lib: LibUsb, outcome: Result<seq<DeviceId>, int>) returns (r: Result<seq<DeviceId>, int>)
    requires lib.Valid() && lib.initialized
    requires ListingFits(outcome, |lib.info|)
    modifies lib`refcount, lib`live, lib`unowned, lib`calls
    ensures lib.Valid()
    ensures r == outcome
    ensures lib.calls == old(lib.calls) + [ListCall]
    ensures lib.unowned == old(lib.unowned)
    ensures r.Failure? ==> lib.refcount == old(lib.refcount) && lib.live == old(lib.live)
    ensures r.Success? ==> Added(old(lib.live), lib.live, r.value)
    ensures r.Success? ==> Added(old(lib.refcount), lib.refcount, r.value)
  {
    var listed := lib.GetDeviceList(outcome);
    if listed.Failure? {
      return listed;
    }
    var devices := WrapAll(lib, listed.value);
    lib.FreeDeviceList(listed.value, false);
    r := Success(devices);
  }

  /** ~std::list<USBDevice>: every wrapper in the list is destroyed, one reference each. */
  method DestroyList(lib: LibUsb, devices: seq<DeviceId>)
    requires lib.Valid() && Known(|lib.info|, devices)
    requires forall d | 0 <= d < |lib.live| :: lib.live[d] >= multiset(devices)[d]
    modifies lib`refcount, lib`live
    ensures lib.Valid()
    ensures Added(lib.live, old(lib.live), devices)
    ensures Added(lib.refcount, old(lib.refcount), devices)
  {
    var i := 0;
    while i < |devices|
      invariant 0 <= i <= |devices|
      invariant lib.Valid()
      invariant forall e | 0 <= e < |lib.live| :: lib.live[e] >= multiset(devices[i..])[e]
      invariant Added(lib.live, old(lib.live), devices[..i])
      invariant Added(lib.refcount, old(lib.refcount), devices[..i])
    {
      var d := devices[i];
      SplitAt(devices, i);
      lib.Destroy(d);
      i := i + 1;
    }
    assert devices[..|devices|] == devices;
  }
}
