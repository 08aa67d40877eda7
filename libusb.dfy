/** The native USB library the wrapper delegates to, seen from outside.
    Its behaviour is not modelled: every entry point records one `Call`
    (arguments and reply) in a ghost trace and answers with values the
    model cannot predict.  Contracts of the wrapper are stated against this
    trace. */
module Libusb {
  import opened CTypes

  /** `libusb_device_descriptor`: the standard device descriptor of
      section 9.6.1 of the USB 2.0 Specification. */
  datatype DeviceDescriptor = DeviceDescriptor(
    bLength: uint8,
    bDescriptorType: uint8,
    bcdUSB: uint16,
    bDeviceClass: uint8,
    bDeviceSubClass: uint8,
    bDeviceProtocol: uint8,
    bMaxPacketSize0: uint8,
    idVendor: uint16,
    idProduct: uint16,
    bcdDevice: uint16,
    iManufacturer: uint8,
    iProduct: uint8,
    iSerialNumber: uint8,
    bNumConfigurations: uint8)

  /** The options `libusb_set_option` is used with. */
  datatype LibusbOption = OptionLogLevel

  /** One call into the library, with what it answered. */
  datatype Call =
    | Init(err: int32, ctx: Ptr)
    | SetOption(ctx: Ptr, option: LibusbOption, optionValue: int32, err: int32)
    | Exit(ctx: Ptr)
    | GetDeviceList(ctx: Ptr, size: int64, list: array<Ptr>)
    | FreeDeviceList(list: array<Ptr>, unrefDevices: int32)
    | UnrefDevice(dev: Ptr)
    | GetDeviceDescriptor(dev: Ptr, err: int32, desc: DeviceDescriptor)
    | GetDeviceAddress(dev: Ptr, address: uint8)
    | Open(dev: Ptr, err: int32, handle: Ptr)
    | Close(handle: Ptr)
    | ClaimInterface(handle: Ptr, ifno: int32, err: int32)
    | ReleaseInterface(handle: Ptr, ifno: int32, err: int32)
    | GetDevice(handle: Ptr, dev: Ptr)
    | GetConfigDescriptorByValue(dev: Ptr, configValue: uint8, err: int32, config: Ptr)
    | FreeConfigDescriptor(config: Ptr)
    | GetMaxPacketSize(dev: Ptr, endpoint: uint8, result: int32)
    | ControlTransfer(handle: Ptr, bmRequestType: uint8, bRequest: uint8, wValue: uint16, wIndex: uint16,
                      data: Ptr, wLength: uint16, timeout: uint32, result: int32)
    | BulkTransfer(handle: Ptr, endpoint: uint8, data: Ptr, length: int32, timeout: uint32,
                   err: int32, actualLength: int32)

  /** One instance of the library.  `errorName` is `libusb_error_name`,
      a pure function the model leaves uninterpreted. */
  class Provider {
    ghost var trace: seq<Call>
    const errorName: int32 -> string

    constructor (errorName: int32 -> string)
      ensures trace == [] && this.errorName == errorName
    {
      this.errorName := errorName;
      trace := [];
    }

    method Init() returns (err: int32, ctx: Ptr)
      modifies this
      ensures trace == old(trace) + [Call.Init(err, ctx)]
    {
      err :| true;
      ctx :| true;
      trace := trace + [Call.Init(err, ctx)];
    }

    method SetOption(ctx: Ptr, option: LibusbOption, value: int32) returns (err: int32)
      modifies this
      ensures trace == old(trace) + [Call.SetOption(ctx, option, value, err)]
    {
      err :| true;
      trace := trace + [Call.SetOption(ctx, option, value, err)];
    }

    method Exit(ctx: Ptr)
      modifies this
      ensures trace == old(trace) + [Call.Exit(ctx)]
    {
      trace := trace + [Call.Exit(ctx)];
    }

    /** On success, `list` holds at least `size` device pointers. */
    method GetDeviceList(ctx: Ptr) returns (size: int64, list: array<Ptr>)
      modifies this
      ensures fresh(list)
      ensures size >= 0 ==> size as int <= list.Length
      ensures trace == old(trace) + [Call.GetDeviceList(ctx, size, list)]
    {
      size :| true;
      var count: nat := if size >= 0 then size as int else 0;
      assert |seq(count, _ => NULL)| == count;
      var entries: seq<Ptr> :| |entries| == count;
      list := new Ptr[|entries|](i requires 0 <= i < |entries| => entries[i]);
      trace := trace + [Call.GetDeviceList(ctx, size, list)];
    }

    method FreeDeviceList(list: array<Ptr>, unrefDevices: int32)
      modifies this
      ensures trace == old(trace) + [Call.FreeDeviceList(list, unrefDevices)]
    {
      trace := trace + [Call.FreeDeviceList(list, unrefDevices)];
    }

    method UnrefDevice(dev: Ptr)
      modifies this
      ensures trace == old(trace) + [Call.UnrefDevice(dev)]
    {
      trace := trace + [Call.UnrefDevice(dev)];
    }

    method GetDeviceDescriptor(dev: Ptr) returns (err: int32, desc: DeviceDescriptor)
      modifies this
      ensures trace == old(trace) + [Call.GetDeviceDescriptor(dev, err, desc)]
    {
      err :| true;
      desc :| true;
      trace := trace + [Call.GetDeviceDescriptor(dev, err, desc)];
    }

    method GetDeviceAddress(dev: Ptr) returns (address: uint8)
      modifies this
      ensures trace == old(trace) + [Call.GetDeviceAddress(dev, address)]
    {
      address :| true;
      trace := trace + [Call.GetDeviceAddress(dev, address)];
    }

    method Open(dev: Ptr) returns (err: int32, handle: Ptr)
      modifies this
      ensures trace == old(trace) + [Call.Open(dev, err, handle)]
    {
      err :| true;
      handle :| true;
      trace := trace + [Call.Open(dev, err, handle)];
    }

    method Close(handle: Ptr)
      modifies this
      ensures trace == old(trace) + [Call.Close(handle)]
    {
      trace := trace + [Call.Close(handle)];
    }

    method ClaimInterface(handle: Ptr, ifno: int32) returns (err: int32)
      modifies this
      ensures trace == old(trace) + [Call.ClaimInterface(handle, ifno, err)]
    {
      err :| true;
      trace := trace + [Call.ClaimInterface(handle, ifno, err)];
    }

    method ReleaseInterface(handle: Ptr, ifno: int32) returns (err: int32)
      modifies this
      ensures trace == old(trace) + [Call.ReleaseInterface(handle, ifno, err)]
    {
      err :| true;
      trace := trace + [Call.ReleaseInterface(handle, ifno, err)];
    }

    method GetDevice(handle: Ptr) returns (dev: Ptr)
      modifies this
      ensures trace == old(trace) + [Call.GetDevice(handle, dev)]
    {
      dev :| true;
      trace := trace + [Call.GetDevice(handle, dev)];
    }

    method GetConfigDescriptorByValue(dev: Ptr, value: uint8) returns (err: int32, config: Ptr)
      modifies this
      ensures trace == old(trace) + [Call.GetConfigDescriptorByValue(dev, value, err, config)]
    {
      err :| true;
      config :| true;
      trace := trace + [Call.GetConfigDescriptorByValue(dev, value, err, config)];
    }

    method FreeConfigDescriptor(config: Ptr)
      modifies this
      ensures trace == old(trace) + [Call.FreeConfigDescriptor(config)]
    {
      trace := trace + [Call.FreeConfigDescriptor(config)];
    }

    method GetMaxPacketSize(dev: Ptr, endpoint: uint8) returns (result: int32)
      modifies this
      ensures trace == old(trace) + [Call.GetMaxPacketSize(dev, endpoint, result)]
    {
      result :| true;
      trace := trace + [Call.GetMaxPacketSize(dev, endpoint, result)];
    }

    method ControlTransfer(handle: Ptr, bmRequestType: uint8, bRequest: uint8, wValue: uint16, wIndex: uint16,
                           data: Ptr, wLength: uint16, timeout: uint32) returns (result: int32)
      modifies this
      ensures trace == old(trace) +
        [Call.ControlTransfer(handle, bmRequestType, bRequest, wValue, wIndex, data, wLength, timeout, result)]
    {
      result :| true;
      trace := trace +
        [Call.ControlTransfer(handle, bmRequestType, bRequest, wValue, wIndex, data, wLength, timeout, result)];
    }

    method BulkTransfer(handle: Ptr, endpoint: uint8, data: Ptr, length: int32, timeout: uint32)
      returns (err: int32, actualLength: int32)
      modifies this
      ensures trace == old(trace) + [Call.BulkTransfer(handle, endpoint, data, length, timeout, err, actualLength)]
    {
      err :| true;
      actualLength :| true;
      trace := trace + [Call.BulkTransfer(handle, endpoint, data, length, timeout, err, actualLength)];
    }
  }
}
