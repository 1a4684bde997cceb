/**
 * USBHandle: a device opened for the duration of one full expression;
 * libusb_close runs in its destructor.
 */
module Handle {
  import opened Wrappers
  import opened Devices

  /** The outcome of a libusb call that returns code: raised exactly when it is not 0. */
  function Checked(code: int): (r: Outcome<int>)
    ensures r.Pass? <==> code == 0
    ensures r.Fail? ==> r.error == code
  {
    if code == 0 then Pass else Fail(code)
  }

  class UsbHandle {
    const lib: LibUsb
    const device: DeviceId
    var isOpen: bool

    /**
     * USBHandle(const USBDevice&): libusb_open on the wrapped device, which
     * takes a reference on it for as long as the handle is open. Its result
     * is not looked at, so opening never fails here.
     */
    constructor (lib: LibUsb, device: DeviceId)
      requires lib.Valid() && lib.initialized
      requires device < |lib.live| && lib.live[device] > 0
      modifies lib`refcount, lib`handles, lib`calls
      ensures this.lib == lib && this.device == device && isOpen
      ensures lib.Valid()
      ensures lib.refcount == old(lib.refcount)[device := old(lib.refcount)[device] + 1]
      ensures lib.handles == old(lib.handles)[device := old(lib.handles)[device] + 1]
      ensures lib.calls == old(lib.calls) + [OpenCall(device)]
    {
      this.lib := lib;
      this.device := device;
      isOpen := true;
      lib.refcount := lib.refcount[device := lib.refcount[device] + 1];
      lib.handles := lib.handles[device := lib.handles[device] + 1];
      lib.calls := lib.calls + [OpenCall(device)];
    }

    /** USBHandle::detachKernelDriver: libusb_detach_kernel_driver, returning code. */
    method DetachKernelDriver(iface: UInt8, code: int) returns (r: Outcome<int>)
      requires isOpen
      modifies lib`calls
      ensures r == Checked(code)
      ensures lib.calls == old(lib.calls) + [DetachCall(device, iface)]
    {
      lib.calls := lib.calls + [DetachCall(device, iface)];
      r := Checked(code);
    }

    /** USBHandle::reattachKernelDriver: libusb_attach_kernel_driver, returning code. */
    method ReattachKernelDriver(iface: UInt8, code: int) returns (r: Outcome<int>)
      requires isOpen
      modifies lib`calls
      ensures r == Checked(code)
      ensures lib.calls == old(lib.calls) + [AttachCall(device, iface)]
    {
      lib.calls := lib.calls + [AttachCall(device, iface)];
      r := Checked(code);
    }

    /** ~USBHandle(): libusb_close, which drops the reference the handle held. */
    method Close()
      requires isOpen && lib.Valid() && device < |lib.handles| && lib.handles[device] > 0
      modifies this`isOpen, lib`refcount, lib`handles, lib`calls
      ensures !isOpen
      ensures lib.Valid()
      ensures lib.refcount == old(lib.refcount)[device := old(lib.refcount)[device] - 1]
      ensures lib.handles == old(lib.handles)[device := old(lib.handles)[device] - 1]
      ensures lib.calls == old(lib.calls) + [CloseCall(device)]
    {
      isOpen := false;
      lib.refcount := lib.refcount[device := lib.refcount[device] - 1];
      lib.handles := lib.handles[device := lib.handles[device] - 1];
      lib.calls := lib.calls + [CloseCall(device)];
    }
  }
}
