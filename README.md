# libusbpp11 in Dafny

libusbpp11 is a thin C++11 wrapper around libusb. It has three jobs:
- It wraps the library's raw pointers (context, device, device handle, configuration descriptor) in nullable `std::shared_ptr`s. Each pointer is bound to the deleter that frees it.
- It turns a failing result code into an exception in every operation except `get_max_packet_size(Device)`. It ignores the reply of `libusb_set_option`, and the handle deleter only logs a failed release. `get_device_address` has no result code to check.
- It gives each open device handle a small deleter, `HandleDeleter`. The deleter releases the claimed interface, if there is one, before it closes the handle.

This project models that core and proves what it promises.

- `c_types.dfy` (module `CTypes`) defines the C integer widths, each as a newtype. It also defines the casts the wrapper performs, written out as two's-complement wrap-around. Raw pointers are addresses, and address 0 is `NULL`.
- `libusb.dfy` (module `Libusb`) models libusb as a `Provider` object. Every entry point appends one `Call` to a ghost `trace`. That `Call` records the arguments and the library's reply, and the model cannot predict the reply. `libusb_error_name` is an uninterpreted function `errorName` of the provider. Nothing in this module is taken from libusbpp11. It only states what the wrapper may assume about the library.
- `error_message.dfy` (module `ErrorMessages`) models `error_message`. It prints decimal numbers as `std::dec` does and can parse them back. It proves that the code and the library's name for it can both be read back out of the message, so different codes give different messages.
- `usb.dfy` (module `Usb`) holds the `usb` namespace of `usb.h` and `usb.cpp`:
  - `Context`, `Device`, `Handle` and `ConfigurationDescriptor` are classes. A C++ `shared_ptr` is a reference to one of them, and a null reference is `null`. `!x` tests the stored pointer, so it becomes `DevicePtr(x) == NULL` (and the same for the other kinds).
  - Dropping the last reference is an explicit `Drop` method. A ghost `live` flag means `Drop` can run only once.
  - Every operation requires a reference it is handed to be live. In C++ the caller's own `shared_ptr` keeps the object alive, so no call can reach the library through an object after that object's own deleter has run. Objects do not keep each other alive: a `Device` can be unreferenced after its context's `libusb_exit`.
  - `HandleDeleter` is its own class. A `Handle` points to it, so every copy of a handle shares the one deleter, as the shared control block does in C++.
  - Exceptions are the `Failure` case of `Result`. `std::invalid_argument` becomes `InvalidArgument`, and `usb::system_error` becomes `SystemError(code, what)`.
  - Each operation returns, as ghost values, the library calls it made. Its contract says that the trace grew by exactly those calls, and what the result is for every reply. The exception is `GetDeviceList`: it returns only the list call, and its contract adds the `libusb_free_device_list` call that follows it.
- `handle_session.dfy` (module `HandleSession`) covers the whole life of one handle: any number of `claim_interface` calls, then teardown. It proves the order of calls the library sees, whatever the library answers. `ClaimAllThenDrop` runs `ClaimInterface` over any list of interface numbers and then drops the handle. It proves that the trace is exactly such a session, so the session lemmas hold of what the wrapper's methods do.

The model follows the code as written in these places:
- `get_max_packet_size(Device)` passes the library's result through with no guard and no translation. An error code such as -5 comes back as 4294967291.
- `get_max_packet_size(Handle)` calls `libusb_get_device` before its guard. So its "invalid handle" failure comes after one library call.
- `get_configuration_descriptor` treats every non-zero result as an error, positive ones included.
- The header declares `get_devices` (src/usb.h:38), but the implementation defines `get_device_list` (src/usb/usb.cpp:41). The model follows the implementation.

## Model

| member | source | states |
|---|---|---|
| `CTypes.ToUint8` | src/usb/usb.cpp:174 | `static_cast<uint8_t>(value)`: the result is congruent to the input modulo 256 and equals it when it fits |
| `CTypes.ToUint32` | src/usb/usb.cpp:49 | conversion to `unsigned`: congruent modulo 2^32, unchanged when it fits; a negative code in -2^32..-1 becomes the code plus 2^32 |
| `CTypes.ToUint64` | src/usb/usb.cpp:206-213 | conversion to `size_t`: congruent modulo 2^64, unchanged when it fits |
| `CTypes.ToInt32` | src/usb/usb.cpp:133-143 | conversion of an `unsigned` or `size_t` to `int`: congruent modulo 2^32, unchanged when it fits; among unsigned values only 0xFFFFFFFF becomes -1, the deleter's "close only" mark |
| `ErrorMessages.NatToDecimal` | src/usb/usb.cpp:15 | decimal digits of a natural number: non-empty, digits only, no leading zero: a text starting with `0` is exactly `"0"`, for 0 |
| `ErrorMessages.IntToDecimal` | src/usb/usb.cpp:15 | `std::dec` output of a signed code: an optional minus sign, present exactly for negative codes, then digits with no leading zero (`0` is written `"0"`) |
| `ErrorMessages.ParseNatToDecimal` | src/usb/usb.cpp:15 | printing a natural number in decimal and parsing it back gives the number |
| `ErrorMessages.ParseIntToDecimal` | src/usb/usb.cpp:15 | printing a signed code in decimal and parsing it back gives the code |
| `ErrorMessages.ErrorMessage` | src/usb/usb.cpp:12-18 | the message starts with the operation name, then ": failed with ", then the decimal code, then " (", and it ends with ")" |
| `ErrorMessages.ErrorMessageName` | src/usb/usb.cpp:16 | the text between " (" and the closing ")" reads back as the library's name for the code narrowed to `int`, whatever the name is |
| `ErrorMessages.ErrorMessageCode` | src/usb/usb.cpp:12-18 | the code can be read back from a message for any library name of the code |
| `ErrorMessages.ErrorMessageInjective` | src/usb/usb.cpp:12-18 | two messages for one operation are equal only if their codes are equal |
| `Usb.ProviderError` | src/usb.h:28-34 | `system_error(error_message(func, err), err)` keeps the code and a message that starts with the operation and reports the same code and the library's name for it |
| `Usb.Context.constructor` | src/usb/usb.cpp:33 | a new context reference holds the library's context pointer and is live |
| `Usb.Context.Drop` | src/usb/usb.cpp:20-23 | dropping the last context reference calls `libusb_exit` on its pointer, once |
| `Usb.Device.constructor` | src/usb/usb.cpp:50 | a new device reference holds the list entry's pointer and is live |
| `Usb.Device.Drop` | src/usb/usb.cpp:36-39 | dropping the last device reference calls `libusb_unref_device`, once |
| `Usb.ConfigurationDescriptor.constructor` | src/usb/usb.cpp:178 | a new descriptor reference holds the library's descriptor pointer and is live |
| `Usb.ConfigurationDescriptor.Drop` | src/usb/usb.cpp:161-164 | dropping the last descriptor reference calls `libusb_free_config_descriptor`, once |
| `Usb.TeardownCalls` | src/usb/usb.cpp:92-115 | the deleter's calls end with the one and only `close` of the handle; they hold exactly one call (the close) when the record is -1; otherwise they are exactly two calls: `release_interface` of the recorded interface, whatever that release answers, then the close |
| `Usb.HandleDeleter.constructor` | src/usb/usb.cpp:83 | a new deleter records -1: close only |
| `Usb.HandleDeleter.ReleaseInterfaceBeforeClose` | src/usb/usb.cpp:87-90 | the deleter records the given interface number |
| `Usb.HandleDeleter.Delete` | src/usb/usb.cpp:92-96 | the library sees exactly the teardown calls for the recorded interface, and no error leaves the deleter |
| `Usb.HandleDeleter.TryReleaseInterface` | src/usb/usb.cpp:99-110 | no call when the record is -1; otherwise one `release_interface` of the recorded interface, and its failure is not raised |
| `Usb.HandleDeleter.Close` | src/usb/usb.cpp:112-115 | exactly one `libusb_close` of the handle |
| `Usb.Handle.constructor` | src/usb/usb.cpp:130 | a new handle reference holds the library's handle and the deleter, and is live |
| `Usb.Handle.Drop` | src/usb/usb.cpp:92-96 | dropping the last handle reference runs the shared deleter once, so the library sees the teardown calls for what the deleter records at that moment |
| `Usb.Init` | src/usb/usb.cpp:25-34 | a failing `libusb_init` becomes a system error carrying its code, and no context results; on success the log level is set to `debug_level` (0 by default, src/usb.h:36), the reply to that is ignored, and a live context wraps the library's pointer |
| `Usb.GetDeviceList` | src/usb/usb.cpp:41-54 | a negative size is a system error carrying it, and nothing is freed; otherwise the result has one fresh, distinct, live device per entry (the size cast to `unsigned`), in the library's order, and then the list is freed once with unref 0 |
| `Usb.GetDeviceDescriptor` | src/usb/usb.cpp:56-64 | one library call without a guard; a negative result is a system error, otherwise the descriptor the library filled in |
| `Usb.VendorId` | src/usb/usb.cpp:66-69 | `idVendor` of the descriptor, from the same single library call, or that call's error |
| `Usb.ProductId` | src/usb/usb.cpp:71-74 | `idProduct` of the descriptor, from the same single library call, or that call's error |
| `Usb.GetDeviceAddress` | src/usb/usb.cpp:76-79 | the library's address, with no failure path |
| `Usb.Open` | src/usb/usb.cpp:120-131 | a null device fails with `invalid_argument` and no library call; a failing open is a system error carrying its code; on success a fresh live handle is returned, whose fresh deleter records close only |
| `Usb.ClaimInterface` | src/usb/usb.cpp:133-144 | a null handle fails with `invalid_argument`, no library call and the deleter unchanged; the interface number is passed narrowed to `int`; the shared deleter takes that number only when the library accepts the claim, and a refusal is a system error |
| `Usb.GetMaxPacketSize` | src/usb/usb.cpp:146-159 | the handle's device is looked up first; a null device is `invalid_argument` after that one call; a negative size is a system error, and a non-negative one is returned unchanged |
| `Usb.GetConfigurationDescriptor` | src/usb/usb.cpp:166-179 | a null device fails with `invalid_argument` and no library call; the value, 1 by default (src/usb.h:50), is narrowed to 8 bits; any non-zero result is a system error, and zero returns a fresh live descriptor reference |
| `Usb.GetMaxPacketSizeOfDevice` | src/usb/usb.cpp:181-184 | no guard and no translation: the library's `int` result cast to `unsigned` |
| `Usb.ControlTransfer` | src/usb/usb.cpp:186-198 | a null handle fails with `invalid_argument` and no library call; the request's 8- and 16-bit header fields, its buffer and the timeout reach the library unchanged; a negative result is a system error, and a non-negative result is the byte count returned |
| `Usb.BulkTransfer` | src/usb/usb.cpp:200-214 | a null handle fails with `invalid_argument` and no library call; the length is narrowed to `int`; a negative result is a system error; success returns the transferred length the library reports, not the requested length |
| `HandleSession.LastAccepted` | src/usb/usb.cpp:139-143 | the index of the last claim the library accepted; every later claim was refused |
| `HandleSession.RecordedIsLastAccepted` | src/usb/usb.cpp:139-143 | after any series of claims, the deleter records the most recently accepted interface, or -1 if none was accepted: refusals change nothing, and a later success overwrites an earlier one |
| `HandleSession.SessionClosesOnceLast` | src/usb/usb.cpp:92-96 | over the whole life of a handle, the library sees exactly one `close`, and it is the last call |
| `HandleSession.SessionWithoutClaimOnlyCloses` | src/usb/usb.cpp:99-104 | if no claim was accepted, teardown is a single `close` and no `release_interface` happens at all |
| `HandleSession.SessionReleasesLastAcceptedBeforeClose` | src/usb/usb.cpp:99-110 | after an accepted claim, `release_interface` of the most recent accepted interface comes right before `close`, whatever the release answers |
| `HandleSession.ClaimAllThenDrop` | src/usb/usb.cpp:133-144 | claiming any list of interfaces with `claim_interface` and then dropping the handle makes the library see exactly one claim call per number, narrowed to `int` and in order, and then the deleter's teardown for the most recently accepted claim |
| `HandleSession.OpenThenDrop` | src/usb/usb.cpp:120-131 | opening a device and dropping the handle makes the library see exactly `open` and then `close` of the returned handle, or only the failed `open` |
| `HandleSession.OpenClaimThenDrop` | src/usb/usb.cpp:133-144 | open, one claim and drop make exactly the open, then the calls of a session with that claim, with the interface number narrowed to `int`; if the library returns a null handle, the claim makes no call and the drop only closes it |

## Left out

- What libusb does: device I/O, descriptor contents, the strings of `libusb_error_name`. The library's source is not part of this model, so its replies are arbitrary values recorded in the trace.
- The `operator<<` printers of descriptors (src/usb/usb.cpp:217-268). They only format output. Line 223 prints the product id with the label `vid=`.
- `examples/listdevs.cpp` is not part of this model. It only sequences the public calls, and it calls a `usb::get_string` that the wrapper does not define.
- The reference counting, atomicity and thread safety of `shared_ptr` are not modelled. "The last reference is dropped" is an explicit `Drop` call, and a ghost flag keeps it to once. The ordering of contexts against devices and handles is not modelled either.
- The `std::cerr` line that `try_release_interface` writes when a release fails is console output. The model keeps only "no error is raised".
- The result of `libusb_set_option` in `init` is ignored by the source. The model records it and states nothing about it.
- `std::system_error::what()` adds a category text that depends on the standard library. `SystemError.what` is the message passed to the constructor.
- Usb.GetDeviceList: the code of a negative size is kept as the full `ssize_t`. The `static_cast<libusb_error>` of a value below `INT_MIN` is not modelled. The name lookup does narrow the code to `int`.
- The data buffers of control and bulk transfers are kept only as addresses. What the library reads from them or writes into them is library I/O.
- The timeout of 0 meaning "wait forever" belongs to the library. The model only shows that the timeout reaches the library unchanged.
- Usb.ClaimInterface: libusb would probably refuse an interface number that narrows to -1 (0xFFFFFFFF). If it accepted one, the deleter would record -1 and only close. The model keeps this as written, and `SessionReleasesLastAcceptedBeforeClose` excludes that number.
