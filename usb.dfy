/** The `usb` namespace: shared, nullable references to library resources,
    each released by its own deleter when its last reference goes, and thin
    operations that guard their arguments, make one library call and turn a
    failing result code into an error.

    A `std::shared_ptr` is a reference to one of the classes below (so copies
    share the deleter); `!x` tests the stored pointer, which is
    `DevicePtr(x) == NULL` (and likewise for the other kinds) here.
    Dropping the last reference is the explicit `Drop` method, which the
    ghost flag `live` lets run only once; an operation is only handed a
    live reference, since its caller's own reference keeps the object
    alive.  Thrown exceptions are the `Failure` case of `Result`. */
module Usb {
  import opened CTypes
  import opened Libusb
  import opened ErrorMessages

  /** `std::invalid_argument` and `usb::system_error`.  A system error keeps
      both the code and the message it was constructed with. */
  datatype Error =
    | InvalidArgument(what: string)
    | SystemError(code: int, what: string)

  datatype Result<T> = Success(value: T) | Failure(error: Error)

  const INVALID_DEVICE_REFERENCE: string := "invalid reference to a device"
  const INVALID_HANDLE: string := "Invalid handle."
  const INVALID_DEVICE: string := "Invalid device."

  /** Default arguments declared in the header. */
  const DEFAULT_DEBUG_LEVEL: int32 := 0
  const DEFAULT_CONFIGURATION_VALUE: uint32 := 1

  /** The header fields and buffer of one control transfer; the fields are
      those of the SETUP packet of section 9.3 of the USB 2.0 Specification,
      each as wide as there. */
  datatype ControlRequest = ControlRequest(
    bRequestType: uint8,
    bRequest: uint8,
    wValue: uint16,
    wIndex: uint16,
    data: Ptr,
    wLength: uint16)

  /** `throw system_error(error_message(func, err), static_cast<libusb_error>(err))`:
      the one place a library result code becomes an error. */
  function ProviderError(func: string, err: int, errorName: int32 -> string): (e: Error)
    ensures e.SystemError? && e.code == err
    ensures func <= e.what
    ensures CodeOf(func, e.what) == Some(err)
    ensures NameOf(func, e.what) == Some(errorName(ToInt32(err)))
  {
    ErrorMessageCode(func, err, errorName);
    ErrorMessageName(func, err, errorName);
    SystemError(err, ErrorMessage(func, err, errorName))
  }

  /** `Context`: a library session; the deleter is `exit`. */
  class Context {
    const raw: Ptr
    ghost var live: bool

    constructor (raw: Ptr)
      ensures this.raw == raw && live
    {
      this.raw := raw;
      live := true;
    }

    /** The last reference is dropped: `libusb_exit` runs once. */
    method Drop(p: Provider)
      requires live
      modifies this, p
      ensures !live
      ensures p.trace == old(p.trace) + [Call.Exit(raw)]
    {
      live := false;
      p.Exit(raw);
    }
  }

  /** `Device`: a device reference; the deleter is `unref_device`. */
  class Device {
    const raw: Ptr
    ghost var live: bool

    constructor (raw: Ptr)
      ensures this.raw == raw && live
    {
      this.raw := raw;
      live := true;
    }

    /** The last reference is dropped: `libusb_unref_device` runs once. */
    method Drop(p: Provider)
      requires live
      modifies this, p
      ensures !live
      ensures p.trace == old(p.trace) + [Call.UnrefDevice(raw)]
    {
      live := false;
      p.UnrefDevice(raw);
    }
  }

  /** `ConfigurationDescriptor`; the deleter is `free_config_descriptor`. */
  class ConfigurationDescriptor {
    const raw: Ptr
    ghost var live: bool

    constructor (raw: Ptr)
      ensures this.raw == raw && live
    {
      this.raw := raw;
      live := true;
    }

    /** The last reference is dropped: `libusb_free_config_descriptor` runs once. */
    method Drop(p: Provider)
      requires live
      modifies this, p
      ensures !live
      ensures p.trace == old(p.trace) + [Call.FreeConfigDescriptor(raw)]
    {
      live := false;
      p.FreeConfigDescriptor(raw);
    }
  }

  /** The calls a `HandleDeleter` makes: release the recorded interface,
      unless it is -1, then close.  `releaseErr` is whatever the release
      answered; it has no influence on the close. */
  function TeardownCalls(handle: Ptr, ifno: int32, releaseErr: int32): (calls: seq<Call>)
    ensures |calls| > 0 && calls[|calls| - 1] == Call.Close(handle)
    ensures forall i :: 0 <= i < |calls| - 1 ==> !calls[i].Close?
    ensures ifno == -1 <==> |calls| == 1
    ensures ifno != -1 ==> |calls| == 2
    ensures ifno != -1 ==> calls[0] == Call.ReleaseInterface(handle, ifno, releaseErr)
  {
    (if ifno == -1 then [] else [Call.ReleaseInterface(handle, ifno, releaseErr)]) + [Call.Close(handle)]
  }

  /** The deleter's record after a claim of `ifno` that the library
      answered with `err`: only a success changes it. */
  function ClaimStep(recorded: int32, ifno: int32, err: int32): int32 {
    if err < 0 then recorded else ifno
  }

  /** The deleter bound to a `Handle`.  It lives in the shared control
      block, so every copy of the handle sees what `claim_interface` records. */
  class HandleDeleter {
    /** The claimed interface to release before closing; -1 means close only. */
    var ifno: int32

    constructor ()
      ensures ifno == -1
    {
      ifno := -1;
    }

    method ReleaseInterfaceBeforeClose(ifno: int32)
      modifies this
      ensures this.ifno == ifno
    {
      this.ifno := ifno;
    }

    /** `operator()`: release the interface if one is recorded, then close.
        A failing release is only logged, so no error leaves this method. */
    method Delete(p: Provider, handle: Ptr) returns (ghost releaseErr: int32)
      modifies p
      ensures p.trace == old(p.trace) + TeardownCalls(handle, ifno, releaseErr)
    {
      releaseErr := TryReleaseInterface(p, handle);
      Close(p, handle);
    }

    method TryReleaseInterface(p: Provider, handle: Ptr) returns (ghost releaseErr: int32)
      modifies p
      ensures ifno == -1 ==> p.trace == old(p.trace)
      ensures ifno != -1 ==> p.trace == old(p.trace) + [Call.ReleaseInterface(handle, ifno, releaseErr)]
    {
      releaseErr := 0;
      if ifno == -1 {
        return;
      }
      var err := p.ReleaseInterface(handle, ifno);
      releaseErr := err;
    }

    method Close(p: Provider, handle: Ptr)
      modifies p
      ensures p.trace == old(p.trace) + [Call.Close(handle)]
    {
      p.Close(handle);
    }
  }

  /** `Handle`: an open device, closed through its `HandleDeleter`. */
  class Handle {
    const raw: Ptr
    const deleter: HandleDeleter
    ghost var live: bool

    constructor (raw: Ptr, deleter: HandleDeleter)
      ensures this.raw == raw && this.deleter == deleter && live
    {
      this.raw := raw;
      this.deleter := deleter;
      live := true;
    }

    /** The last reference is dropped: the deleter runs once. */
    method Drop(p: Provider) returns (ghost releaseErr: int32)
      requires live
      modifies this, p
      ensures !live
      ensures p.trace == old(p.trace) + TeardownCalls(raw, deleter.ifno, releaseErr)
    {
      live := false;
      releaseErr := deleter.Delete(p, raw);
    }
  }

  /** `x.get()` for each kind of reference. */
  function ContextPtr(ctx: Context?): Ptr {
    if ctx == null then NULL else ctx.raw
  }

  function DevicePtr(dev: Device?): Ptr {
    if dev == null then NULL else dev.raw
  }

  function HandlePtr(handle: Handle?): Ptr {
    if handle == null then NULL else handle.raw
  }

  /** `init(debug_level = 0)`: start a session and set its log level; the
      answer to setting the level is ignored. */
  method Init(p: Provider, debugLevel: int32 := DEFAULT_DEBUG_LEVEL)
    returns (r: Result<Context>, ghost calls: seq<Call>)
    modifies p
    ensures p.trace == old(p.trace) + calls
    ensures |calls| > 0 && calls[0].Init?
    ensures calls[0].err < 0 ==>
      && |calls| == 1
      && r == Failure(ProviderError("libusb_init", calls[0].err as int, p.errorName))
    ensures calls[0].err >= 0 ==>
      && |calls| == 2
      && calls[1].SetOption? && calls[1].ctx == calls[0].ctx
      && calls[1].option == OptionLogLevel && calls[1].optionValue == debugLevel
      && r.Success? && fresh(r.value) && r.value.raw == calls[0].ctx && r.value.live
  {
    var err, ctx := p.Init();
    calls := [Call.Init(err, ctx)];
    if err < 0 {
      r := Failure(ProviderError("libusb_init", err as int, p.errorName));
      return;
    }
    var optionErr := p.SetOption(ctx, OptionLogLevel, debugLevel);
    calls := calls + [Call.SetOption(ctx, OptionLogLevel, debugLevel, optionErr)];
    var context := new Context(ctx);
    r := Success(context);
  }

  /** `get_device_list(ctx)`: wrap every entry of the library's list, in
      order, then free the list without unreferencing the devices, which
      the wrappers now own.  The loop bound is the size cast to `unsigned`. */
  method GetDeviceList(p: Provider, ctx: Context?) returns (r: Result<seq<Device>>, ghost call: Call)
    requires ctx != null ==> ctx.live
    modifies p
    ensures call.GetDeviceList? && call.ctx == ContextPtr(ctx)
    ensures call.size >= 0 ==> call.size as int <= call.list.Length
    ensures call.size < 0 ==>
      && p.trace == old(p.trace) + [call]
      && r == Failure(ProviderError("libusb_get_device_list", call.size as int, p.errorName))
    ensures call.size >= 0 ==>
      && p.trace == old(p.trace) + [call, Call.FreeDeviceList(call.list, 0)]
      && r.Success?
      && |r.value| == ToUint32(call.size as int) as int
      && (forall i :: 0 <= i < |r.value| ==> r.value[i].raw == call.list[i])
      && (forall i :: 0 <= i < |r.value| ==> fresh(r.value[i]) && r.value[i].live)
      && (forall i, j :: 0 <= i < j < |r.value| ==> r.value[i] != r.value[j])
  {
    var size, list := p.GetDeviceList(ContextPtr(ctx));
    call := Call.GetDeviceList(ContextPtr(ctx), size, list);
    if size < 0 {
      r := Failure(ProviderError("libusb_get_device_list", size as int, p.errorName));
      return;
    }
    var devices: seq<Device> := [];
    var count := ToUint32(size as int);
    var i: uint32 := 0;
    while i < count
      invariant i <= count
      invariant |devices| == i as int
      invariant forall k :: 0 <= k < |devices| ==> devices[k].raw == list[k]
      invariant forall k :: 0 <= k < |devices| ==> fresh(devices[k]) && devices[k].live
      invariant forall j, k :: 0 <= j < k < |devices| ==> devices[j] != devices[k]
      invariant p.trace == old(p.trace) + [call]
    {
      var device := new Device(list[i]);
      devices := devices + [device];
      i := i + 1;
    }
    p.FreeDeviceList(list, 0);
    r := Success(devices);
  }

  /** `get_device_descriptor(device)`: no guard; the descriptor the
      library filled in, or its error. */
  method GetDeviceDescriptor(p: Provider, device: Device?)
    returns (r: Result<DeviceDescriptor>, ghost call: Call)
    requires device != null ==> device.live
    modifies p
    ensures call.GetDeviceDescriptor? && call.dev == DevicePtr(device)
    ensures p.trace == old(p.trace) + [call]
    ensures call.err < 0 ==> r == Failure(ProviderError("libusb_get_device_descriptor", call.err as int, p.errorName))
    ensures call.err >= 0 ==> r == Success(call.desc)
  {
    var err, desc := p.GetDeviceDescriptor(DevicePtr(device));
    call := Call.GetDeviceDescriptor(DevicePtr(device), err, desc);
    if err < 0 {
      r := Failure(ProviderError("libusb_get_device_descriptor", err as int, p.errorName));
      return;
    }
    r := Success(desc);
  }

  /** `vendor_id(device)`: `idVendor` of the device descriptor. */
  method VendorId(p: Provider, device: Device?) returns (r: Result<uint16>, ghost call: Call)
    requires device != null ==> device.live
    modifies p
    ensures call.GetDeviceDescriptor? && call.dev == DevicePtr(device)
    ensures p.trace == old(p.trace) + [call]
    ensures call.err < 0 ==> r == Failure(ProviderError("libusb_get_device_descriptor", call.err as int, p.errorName))
    ensures call.err >= 0 ==> r == Success(call.desc.idVendor)
  {
    var descriptor;
    descriptor, call := GetDeviceDescriptor(p, device);
    match descriptor
    case Failure(e) => r := Failure(e);
    case Success(desc) => r := Success(desc.idVendor);
  }

  /** `product_id(device)`: `idProduct` of the device descriptor. */
  method ProductId(p: Provider, device: Device?) returns (r: Result<uint16>, ghost call: Call)
    requires device != null ==> device.live
    modifies p
    ensures call.GetDeviceDescriptor? && call.dev == DevicePtr(device)
    ensures p.trace == old(p.trace) + [call]
    ensures call.err < 0 ==> r == Failure(ProviderError("libusb_get_device_descriptor", call.err as int, p.errorName))
    ensures call.err >= 0 ==> r == Success(call.desc.idProduct)
  {
    var descriptor;
    descriptor, call := GetDeviceDescriptor(p, device);
    match descriptor
    case Failure(e) => r := Failure(e);
    case Success(desc) => r := Success(desc.idProduct);
  }

  /** `get_device_address(device)`: the library's answer, unchecked. */
  method GetDeviceAddress(p: Provider, device: Device?) returns (address: uint32, ghost call: Call)
    requires device != null ==> device.live
    modifies p
    ensures call.GetDeviceAddress? && call.dev == DevicePtr(device)
    ensures p.trace == old(p.trace) + [call]
    ensures address as int == call.address as int
  {
    var raw := p.GetDeviceAddress(DevicePtr(device));
    call := Call.GetDeviceAddress(DevicePtr(device), raw);
    address := raw as uint32;
  }

  /** `open(dev)`: a new handle whose deleter will only close it. */
  method Open(p: Provider, dev: Device?) returns (r: Result<Handle>, ghost calls: seq<Call>)
    requires dev != null ==> dev.live
    modifies p
    ensures p.trace == old(p.trace) + calls
    ensures DevicePtr(dev) == NULL ==>
      && calls == []
      && r == Failure(InvalidArgument(INVALID_DEVICE_REFERENCE))
    ensures DevicePtr(dev) != NULL ==>
      && |calls| == 1 && calls[0].Open? && calls[0].dev == DevicePtr(dev)
      && (calls[0].err < 0 ==> r == Failure(ProviderError("libusb_open", calls[0].err as int, p.errorName)))
      && (calls[0].err >= 0 ==>
            && r.Success? && fresh(r.value) && fresh(r.value.deleter)
            && r.value.raw == calls[0].handle && r.value.deleter.ifno == -1 && r.value.live)
  {
    calls := [];
    if DevicePtr(dev) == NULL {
      r := Failure(InvalidArgument(INVALID_DEVICE_REFERENCE));
      return;
    }
    var err, handle := p.Open(dev.raw);
    calls := [Call.Open(dev.raw, err, handle)];
    if err < 0 {
      r := Failure(ProviderError("libusb_open", err as int, p.errorName));
      return;
    }
    var deleter := new HandleDeleter();
    var h := new Handle(handle, deleter);
    r := Success(h);
  }

  /** `claim_interface(handle, interface_number)`: on success the shared
      deleter records the interface (as an `int`) to release before close. */
  method ClaimInterface(p: Provider, handle: Handle?, interfaceNumber: uint32)
    returns (r: Result<()>, ghost calls: seq<Call>)
    requires handle != null ==> handle.live
    modifies p, if handle == null then {} else {handle.deleter}
    ensures p.trace == old(p.trace) + calls
    ensures HandlePtr(handle) == NULL ==>
      && calls == []
      && r == Failure(InvalidArgument(INVALID_HANDLE))
      && (handle != null ==> handle.deleter.ifno == old(handle.deleter.ifno))
    ensures HandlePtr(handle) != NULL ==>
      && |calls| == 1 && calls[0].ClaimInterface?
      && calls[0].handle == handle.raw && calls[0].ifno == ToInt32(interfaceNumber as int)
      && handle.deleter.ifno == ClaimStep(old(handle.deleter.ifno), calls[0].ifno, calls[0].err)
      && (calls[0].err < 0 ==> r == Failure(ProviderError("libusb_claim_interface", calls[0].err as int, p.errorName)))
      && (calls[0].err >= 0 ==> r == Success(()))
  {
    calls := [];
    if HandlePtr(handle) == NULL {
      r := Failure(InvalidArgument(INVALID_HANDLE));
      return;
    }
    var ifno := ToInt32(interfaceNumber as int);
    var err := p.ClaimInterface(handle.raw, ifno);
    calls := [Call.ClaimInterface(handle.raw, ifno, err)];
    if err < 0 {
      r := Failure(ProviderError("libusb_claim_interface", err as int, p.errorName));
      return;
    }
    handle.deleter.ReleaseInterfaceBeforeClose(ifno);
    r := Success(());
  }

  /** `get_max_packet_size(handle, endpoint_address)`: the handle's device
      is looked up first, and a null device is the argument error. */
  method GetMaxPacketSize(p: Provider, handle: Handle?, endpointAddress: uint8)
    returns (r: Result<uint32>, ghost calls: seq<Call>)
    requires handle != null ==> handle.live
    modifies p
    ensures p.trace == old(p.trace) + calls
    ensures |calls| > 0 && calls[0].GetDevice? && calls[0].handle == HandlePtr(handle)
    ensures calls[0].dev == NULL ==>
      && |calls| == 1
      && r == Failure(InvalidArgument(INVALID_HANDLE))
    ensures calls[0].dev != NULL ==>
      && |calls| == 2 && calls[1].GetMaxPacketSize?
      && calls[1].dev == calls[0].dev && calls[1].endpoint == endpointAddress
      && (calls[1].result < 0 ==>
            r == Failure(ProviderError("libusb_get_max_packet_size", calls[1].result as int, p.errorName)))
      && (calls[1].result >= 0 ==> r.Success? && r.value as int == calls[1].result as int)
  {
    var device := p.GetDevice(HandlePtr(handle));
    calls := [Call.GetDevice(HandlePtr(handle), device)];
    if device == NULL {
      r := Failure(InvalidArgument(INVALID_HANDLE));
      return;
    }
    var mpsOrErr := p.GetMaxPacketSize(device, endpointAddress);
    calls := calls + [Call.GetMaxPacketSize(device, endpointAddress, mpsOrErr)];
    if mpsOrErr < 0 {
      r := Failure(ProviderError("libusb_get_max_packet_size", mpsOrErr as int, p.errorName));
      return;
    }
    r := Success(mpsOrErr as uint32);
  }

  /** `get_configuration_descriptor(dev, value = 1)`: looked up by
      configuration value, narrowed to 8 bits; any non-zero answer is an error. */
  method GetConfigurationDescriptor(p: Provider, dev: Device?, value: uint32 := DEFAULT_CONFIGURATION_VALUE)
    returns (r: Result<ConfigurationDescriptor>, ghost calls: seq<Call>)
    requires dev != null ==> dev.live
    modifies p
    ensures p.trace == old(p.trace) + calls
    ensures DevicePtr(dev) == NULL ==>
      && calls == []
      && r == Failure(InvalidArgument(INVALID_DEVICE))
    ensures DevicePtr(dev) != NULL ==>
      && |calls| == 1 && calls[0].GetConfigDescriptorByValue? && calls[0].dev == DevicePtr(dev)
      && calls[0].configValue == ToUint8(value as int)
      && (calls[0].err != 0 ==>
            r == Failure(ProviderError("libusb_get_config_descriptor_by_value", calls[0].err as int, p.errorName)))
      && (calls[0].err == 0 ==> r.Success? && fresh(r.value) && r.value.raw == calls[0].config && r.value.live)
  {
    calls := [];
    if DevicePtr(dev) == NULL {
      r := Failure(InvalidArgument(INVALID_DEVICE));
      return;
    }
    var configValue := ToUint8(value as int);
    var err, config := p.GetConfigDescriptorByValue(dev.raw, configValue);
    calls := [Call.GetConfigDescriptorByValue(dev.raw, configValue, err, config)];
    if err != 0 {
      r := Failure(ProviderError("libusb_get_config_descriptor_by_value", err as int, p.errorName));
      return;
    }
    var descriptor := new ConfigurationDescriptor(config);
    r := Success(descriptor);
  }

  /** `get_max_packet_size(dev, endpoint)`: no guard and no translation;
      the library's `int` answer, error codes included, cast to `unsigned`. */
  method GetMaxPacketSizeOfDevice(p: Provider, dev: Device?, endpoint: uint8)
    returns (mps: uint32, ghost call: Call)
    requires dev != null ==> dev.live
    modifies p
    ensures call.GetMaxPacketSize? && call.dev == DevicePtr(dev) && call.endpoint == endpoint
    ensures p.trace == old(p.trace) + [call]
    ensures mps == ToUint32(call.result as int)
  {
    var result := p.GetMaxPacketSize(DevicePtr(dev), endpoint);
    call := Call.GetMaxPacketSize(DevicePtr(dev), endpoint, result);
    mps := ToUint32(result as int);
  }

  /** `control_transfer(handle, req, timeoutMillis)`: the request's fields
      go to the library unchanged; a non-negative answer is the byte count. */
  method ControlTransfer(p: Provider, handle: Handle?, req: ControlRequest, timeoutMillis: uint32)
    returns (r: Result<uint64>, ghost calls: seq<Call>)
    requires handle != null ==> handle.live
    modifies p
    ensures p.trace == old(p.trace) + calls
    ensures HandlePtr(handle) == NULL ==>
      && calls == []
      && r == Failure(InvalidArgument(INVALID_HANDLE))
    ensures HandlePtr(handle) != NULL ==>
      && |calls| == 1 && calls[0].ControlTransfer?
      && calls[0] == Call.ControlTransfer(handle.raw, req.bRequestType, req.bRequest, req.wValue, req.wIndex,
                                          req.data, req.wLength, timeoutMillis, calls[0].result)
      && (calls[0].result < 0 ==>
            r == Failure(ProviderError("libusb_control_transfer", calls[0].result as int, p.errorName)))
      && (calls[0].result >= 0 ==> r.Success? && r.value as int == calls[0].result as int)
  {
    calls := [];
    if HandlePtr(handle) == NULL {
      r := Failure(InvalidArgument(INVALID_HANDLE));
      return;
    }
    var err := p.ControlTransfer(handle.raw, req.bRequestType, req.bRequest, req.wValue, req.wIndex,
                                 req.data, req.wLength, timeoutMillis);
    calls := [Call.ControlTransfer(handle.raw, req.bRequestType, req.bRequest, req.wValue, req.wIndex,
                                   req.data, req.wLength, timeoutMillis, err)];
    if err < 0 {
      r := Failure(ProviderError("libusb_control_transfer", err as int, p.errorName));
      return;
    }
    r := Success(ToUint64(err as int));
  }

  /** `bulk_transfer(interface_handle, endpoint, data, length, timeoutMillis)`:
      `length` is narrowed to `int` for the library, and on success the
      result is the length the library reports as transferred. */
  method BulkTransfer(p: Provider, interfaceHandle: Handle?, endpoint: uint8, data: Ptr, length: uint64,
                      timeoutMillis: uint32)
    returns (r: Result<uint64>, ghost calls: seq<Call>)
    requires interfaceHandle != null ==> interfaceHandle.live
    modifies p
    ensures p.trace == old(p.trace) + calls
    ensures HandlePtr(interfaceHandle) == NULL ==>
      && calls == []
      && r == Failure(InvalidArgument(INVALID_HANDLE))
    ensures HandlePtr(interfaceHandle) != NULL ==>
      && |calls| == 1 && calls[0].BulkTransfer?
      && calls[0].handle == interfaceHandle.raw && calls[0].endpoint == endpoint && calls[0].data == data
      && calls[0].length == ToInt32(length as int) && calls[0].timeout == timeoutMillis
      && (calls[0].err < 0 ==> r == Failure(ProviderError("libusb_bulk_transfer", calls[0].err as int, p.errorName)))
      && (calls[0].err >= 0 ==> r == Success(ToUint64(calls[0].actualLength as int)))
      && (calls[0].err >= 0 && calls[0].actualLength >= 0 ==> r.value as int == calls[0].actualLength as int)
  {
    calls := [];
    if HandlePtr(interfaceHandle) == NULL {
      r := Failure(InvalidArgument(INVALID_HANDLE));
      return;
    }
    var narrowed := ToInt32(length as int);
    var err, actualLength := p.BulkTransfer(interfaceHandle.raw, endpoint, data, narrowed, timeoutMillis);
    calls := [Call.BulkTransfer(interfaceHandle.raw, endpoint, data, narrowed, timeoutMillis, err, actualLength)];
    if err < 0 {
      r := Failure(ProviderError("libusb_bulk_transfer", err as int, p.errorName));
      return;
    }
    r := Success(ToUint64(actualLength as int));
  }
}
