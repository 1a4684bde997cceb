# usbrelease, modelled in Dafny

`usbrelease` is a small command-line tool over libusb. It lists the USB
devices, and it detaches the kernel driver from an interface of one device
(`detach busID addr interfaceID`) or attaches it again (`reattach ...`).
This project models the tool's core and proves properties of that model:

- **Argument parsing** (`Attach`, with `Decimal` underneath). Each field
  goes through `std::stoi` and then the range check 0..255. Every failure
  becomes `invalid_argument("Invalid " + field)`, and the fields are read
  in the order bus, address, interface. `Decimal.Stoi` models `std::stoi`
  over `seq<char>`:
  - it skips C-locale white space and takes an optional sign;
  - it needs at least one digit and ignores whatever follows;
  - a digit-less text gives `invalid_argument`, and a value outside 32-bit
    `int` gives `out_of_range`.
- **Device matching and selection** (`Attach`). `Matches` compares bus and
  address only. `FindIf` is `std::find_if`: the index of the first match,
  or the length of the list (`end()`). `Select` turns that into an
  `Option`.
- **Reference-counted device ownership** (`Devices`). The `LibUsb` class
  keeps libusb's reference count per device. Its ghost fields record where
  each reference is:
  - references held outside the program;
  - one per live `USBDevice` wrapper;
  - one per entry of a device list that no wrapper owns yet;
  - one per open handle, since `libusb_open` takes a reference on the
    device and `libusb_close` drops it.

  `Valid()` says the count is the sum of these, and every method keeps it.
  The `USBDevice` constructors and destructor are the methods `Adopt`
  (count +0), `Copy` (+1) and `Destroy` (−1). `listAllDevices` is the
  `ListAllDevices` method with its `push_back` loop, and the destruction
  of `std::list<USBDevice>` is the `DestroyList` loop.
- **List output** (`Listing`). `DeviceLine` is the line format, and
  `DoList` is the `do_list` loop. The line format is proved invertible:
  `ParseDeviceLine` reads every line back into the device it shows.
- **Handles and dispatch** (`Handle`, `Usbrelease`).
  - `UsbHandle` is `USBHandle`, and `Command`/`Run` follow `main` statement
    by statement.
  - `Usbrelease` is a specification function: from `argv`, the device
    attributes and the answers libusb gives, it computes the exit code,
    the lines written and the sequence of libusb calls.
  - `Run` is proved to produce exactly that, and to leave every reference
    count where it was.

The libusb calls have no model of their own. Their results come from an
`Env` value:
- the code `libusb_init` returns;
- the device list or error code `libusb_get_device_list` yields;
- the code the kernel-driver call returns;
- the `what()` text of the `ios_base::failure` raised for a code.

The model makes two choices where the source does not settle the
behaviour:
- `main` initialises libusb and enumerates the devices before it looks at
  `argc`. A failure there therefore gives exit code 2 even for a command
  line that would only print the usage. The model keeps that order.
- When no device matches, the source writes "Device not found" and then
  goes on with `end()` (see Findings). The model stops there with exit
  code 2 and opens no handle.

## Model

| member | source | states |
|---|---|---|
| Decimal.NatToString | usbrelease.cpp:180-182 | the decimal rendering of a byte printed as `int` is a non-empty digit string whose value is the number, with no leading zero |
| Decimal.SpaceRun | usbrelease.cpp:126 | the white space `stoi` skips: every character before the result is C-locale space, and the next one is not |
| Decimal.DigitRun | usbrelease.cpp:126 | the digits `stoi` reads: every character before the result is a digit, and the next one is not |
| Decimal.Stoi | usbrelease.cpp:126 | a value is returned only inside 32-bit `int`; `invalid_argument` is raised exactly when no digit follows the white space and the sign |
| Decimal.SpaceRunAppend | usbrelease.cpp:126 | white space followed by anything else is skipped exactly |
| Decimal.DigitRunAppend | usbrelease.cpp:126 | digits followed by a non-digit are read exactly |
| Decimal.UnsignedOf | usbrelease.cpp:126 | after white space and a sign, reading starts at the digits; the sign is negative exactly when it is `-` |
| Decimal.StoiOfDigits | usbrelease.cpp:126 | white space, a sign, digits and a non-digit tail give the signed digit value, or `out_of_range` |
| Decimal.StoiOfRendered | usbrelease.cpp:126 | round trip: the rendering of any integer is read back as that integer when it fits in `int`, and gives `out_of_range` otherwise |
| Decimal.StoiWithoutDigits | usbrelease.cpp:126 | a text without digits raises `invalid_argument` |
| Attach.ParseOneParam | usbrelease.cpp:122-134 | succeeds exactly when `stoi` succeeds with a value in 0..255, and then returns that value; every failure is "Invalid " + the field name |
| Attach.ParseOneParamOfRendered | usbrelease.cpp:126-130 | any rendered integer, with leading space and a non-digit tail, parses to itself when it is in 0..255, and names the field otherwise (also beyond `int`) |
| Attach.ParseOneParamRejectsNonNumeric | usbrelease.cpp:125-133 | text with no digit is rejected, naming the field |
| Attach.ParseOneParamSkipsBlanks | usbrelease.cpp:126 | " 1" parses to 1 |
| Attach.ParseOneParamIgnoresTail | usbrelease.cpp:126 | "23abc" parses to 23 |
| Attach.ParseFromCommand | usbrelease.cpp:143-151 | success exactly when all three fields parse, giving the three values; otherwise the error of the first failing field, in the order bus, address, interface |
| Attach.ParseFromCommandRoundTrip | usbrelease.cpp:137-150 | three rendered bytes parse back to exactly that spec |
| Attach.ParseFromCommandLenient | usbrelease.cpp:143-150 | `" 1" "23abc" "0"` parses to bus 1, address 23, interface 0 |
| Attach.ParseFromCommandOutOfRange | usbrelease.cpp:127-128 | bus "256" is reported as "Invalid busID", before the bad address is looked at |
| Attach.ParseFromCommandBadBus | usbrelease.cpp:147 | bus "abc" is reported as "Invalid busID" |
| Attach.ParseFromCommandNonNumeric | usbrelease.cpp:148 | a good bus and address "abc" give "Invalid addrressID", the field name as the program spells it |
| Attach.MatchesIgnoresPortAndInterface | usbrelease.cpp:153-155 | a device matches exactly when bus and address agree, whatever its port and the spec's interface |
| Attach.MatchesExample | usbrelease.cpp:153-155 | spec (2, 5) matches a device at bus 2, address 5, and not one at address 6 |
| Attach.FindIf | usbrelease.cpp:213-216 | the result is at most the length; no device before it matches; the device at it matches when it is not `end()` |
| Attach.Select | usbrelease.cpp:213-217 | none exactly when no device matches; otherwise the lowest index whose device matches |
| Attach.NotFoundIsEnd | usbrelease.cpp:217 | with no match, `find_if` returns `end()` |
| Devices.LibUsb.constructor | usbrelease.cpp:196 | the library before the program runs: only outside references, no wrapper, no handle, no call |
| Devices.LibUsb.Init | usbrelease.cpp:19-23 | `libusb_init`: the context exists exactly when the code is 0, and the failure carries the code |
| Devices.LibUsb.Exit | usbrelease.cpp:25-27 | `libusb_exit`, once every wrapper is gone and every handle closed |
| Devices.LibUsb.GetDeviceList | usbrelease.cpp:88-92 | each listed device gains one reference, held by the list; nothing changes on failure |
| Devices.LibUsb.FreeDeviceList | usbrelease.cpp:98 | with `unref` 0 no count changes; with `unref` set each listed reference is dropped |
| Devices.LibUsb.Adopt | usbrelease.cpp:64-66 | a wrapper from the raw pointer takes over a listed reference; the count is unchanged |
| Devices.LibUsb.Copy | usbrelease.cpp:68-71 | the copy constructor adds one reference and one live wrapper |
| Devices.LibUsb.Destroy | usbrelease.cpp:73-75 | the destructor drops one reference and one live wrapper |
| Devices.LiveWrapperHoldsDevice | usbrelease.cpp:68-75 | while a wrapper is alive, libusb still holds the device for it |
| Devices.OpenHandleHoldsDevice | usbrelease.cpp:162-165 | while a handle is open, libusb holds the device for it, on top of the wrappers' references |
| Devices.PushBack | usbrelease.cpp:95 | `push_back(USBDevice(d))` hands the listed reference to the stored wrapper; the count is unchanged |
| Devices.WrapAll | usbrelease.cpp:94-96 | one stored wrapper per array entry, in array order; every listed reference moves to a wrapper |
| Devices.ListAllDevices | usbrelease.cpp:81-101 | keeps enumeration order and length (zero devices is an empty list, not an error); afterwards each count is its old value plus the device's wrappers; on failure nothing is held |
| Devices.DestroyList | usbrelease.cpp:197 | destroying the list drops exactly one reference and one wrapper per entry |
| Listing.ListLines | usbrelease.cpp:178-184 | one line per device, in list order, each the device's line |
| Listing.ReadField | usbrelease.cpp:180-182 | reads a field label and its decimal number back off a listing line |
| Listing.ReadFieldOfRendered | usbrelease.cpp:180-182 | a label and a rendered number read back as that number and the rest of the line |
| Listing.DeviceLineRoundTrip | usbrelease.cpp:180-182 | every listing line reads back as the device it was printed for |
| Listing.DeviceLineInjective | usbrelease.cpp:180-182 | two devices print the same line exactly when bus, port and address all agree |
| Listing.ListLinesRoundTrip | usbrelease.cpp:178-184 | the whole listing reads back, line by line, as the device list |
| Listing.DeviceLineExample | usbrelease.cpp:180-182 | bus 1, port 4, address 23 gives "Device: bus=1 port=4 addr=23" |
| Listing.ListLinesExample | usbrelease.cpp:179-183 | two devices (1,1,3) and (1,2,4) give exactly their two lines, in that order |
| Listing.DoList | usbrelease.cpp:178-184 | the loop writes exactly the listing lines of the devices, in list order |
| Handle.Checked | usbrelease.cpp:46-56 | a kernel-driver call raises exactly when libusb returned a nonzero code, carrying that code |
| Handle.UsbHandle.constructor | usbrelease.cpp:162-165 | `libusb_open` on a device that a live wrapper holds takes a reference on it: the device's count and its number of open handles each rise by one, and the count is still the sum of its holders |
| Handle.UsbHandle.DetachKernelDriver | usbrelease.cpp:46-50 | `libusb_detach_kernel_driver` on the handle's device and interface; fails exactly on a nonzero code |
| Handle.UsbHandle.ReattachKernelDriver | usbrelease.cpp:52-56 | `libusb_attach_kernel_driver` on the handle's device and interface; fails exactly on a nonzero code |
| Handle.UsbHandle.Close | usbrelease.cpp:42-44 | `libusb_close` drops the reference the handle held: the device's count and its number of open handles each fall by one, and the handle is no longer open |
| Usbrelease.DoDetach | usbrelease.cpp:190-192 | open, detach, close: the handle is closed whether or not the detach failed, so every reference count and handle count is back where it was |
| Usbrelease.DoReattach | usbrelease.cpp:186-188 | open, reattach, close: the handle is closed whether or not the reattach failed, so every reference count and handle count is back where it was |
| Usbrelease.Command | usbrelease.cpp:199-231 | the dispatch produces the exit code, output and calls that the specification gives, and leaves every reference count and handle count as it found them |
| Usbrelease.AddedCancels | usbrelease.cpp:197 | two count sequences that the same list of occurrences raises to the same counts were equal to begin with |
| Usbrelease.RunListed | usbrelease.cpp:197-235 | after enumeration: the command, the destruction of the list and `libusb_exit`; no wrapper is left and each count drops by the listed references |
| Usbrelease.Run | usbrelease.cpp:194-236 | main produces the exit code, output and calls of the specification, and leaves no wrapper, no open handle, no context, and every reference count unchanged |
| Usbrelease.ExitCodes | usbrelease.cpp:199-234 | exit code 1 exactly for usage errors after a good start; 0 exactly for a completed list or a successful detach/reattach on a matching device; 2 otherwise, including every init or enumeration failure |
| Usbrelease.CommandCalls | usbrelease.cpp:186-192 | a command makes no libusb call, or exactly open, one kernel-driver call on that device, and close |
| Usbrelease.SessionInTrace | usbrelease.cpp:194-197 | a command's calls between enumeration and `libusb_exit` keep the call sequence bracketed and every handle closed |
| Usbrelease.LibraryLifecycle | usbrelease.cpp:196-197 | `libusb_init` comes first; when it succeeded, `libusb_exit` comes last and only once; when it failed, nothing else is called |
| Usbrelease.HandleAlwaysClosed | usbrelease.cpp:186-192 | every opened handle is closed two calls later, after one kernel-driver call on the same device, whatever that call returned |
| Usbrelease.ListShowsEveryDevice | usbrelease.cpp:204-205 | `list` exits 0, makes no call beyond enumeration, and writes one line per listed device, in order, that reads back as that device |
| Usbrelease.BadFieldOpensNothing | usbrelease.cpp:212 | a field that does not parse gives "Failure: Invalid " + its name and exit code 2, and nothing is opened |
| Usbrelease.NotFoundOpensNothing | usbrelease.cpp:217-219 | with no matching device: "Device not found", exit code 2, and no handle opened |
| Usbrelease.FirstMatchIsUsed | usbrelease.cpp:213-224 | the handle goes to the first matching listed device, and the requested interface is the one operated on; the exit code is 0 exactly when the driver call returned 0 |
| Usbrelease.NotFoundDereferencesEnd | usbrelease.cpp:217-224 | for `detach 9 9 0` against one device at bus 1, address 3, the spec parses and `find_if` returns `end()`, which the code as written then dereferences |
| Usbrelease.NotFoundScenario | usbrelease.cpp:217-219 | the same command in the model: "Device not found", exit code 2, only init, enumeration and exit called |

`Listing.DeviceLine`, `Attach.Matches`, `Usbrelease.CommandSpec` and
`Usbrelease.Usbrelease` are the definitions of the line format, the match
and the program. `Devices.Infos` (the attributes of listed devices, in
list order), `Devices.AddCounts` and `Devices.SubCounts` (a count per
device raised or lowered by its occurrences in a list) are the definitions
the methods of `Devices` are stated with. `Decimal.StoiOfNumber` is a
proof step that unfolds `Stoi` once. All of these are stated as plain
definitions, and the lemmas above prove their properties.

## Left out

- libusb itself (`libusb_init`/`exit`, `get_device_list`, `open`/`close`, the kernel-driver calls, `libusb_error_name`) is foreign code. Its answers are inputs in `Env`, and the device attributes are `LibUsb.info`.
- The `what()` text of `std::ios_base::failure` is implementation-defined: the C++ library may add to the name `libusb_error_name` gives. It is the function `Env.ioErrorText`.
- The result of `libusb_open` is never checked (usbrelease.cpp:164). Opening therefore never fails in the model, and no check is added.
- `detachKernelDriver`, `reattachKernelDriver`, `do_detach` and `do_reattach` are declared to return `int` but fall off the end, which is undefined behaviour (usbrelease.cpp:46-56, 186-192). No caller uses the value, so the model's methods return only whether the call raised.
- Dereferencing `end()` when no device matches (usbrelease.cpp:222-224) is undefined behaviour and has no model; see Findings.
- Writing to `stdout` is the returned `output` lines. `print_usage` is the fixed text `UsageLines`. The order of output relative to libusb calls is not modelled.
- C++ exceptions and the `throw()` specifications are `Result`/`Outcome` values and early returns. The catch block's `return 2` is the exit code.
- Devices are identified by their index among the devices libusb knows (`DeviceId`). The counts are sequences indexed by it, in place of maps, and pointer identity is not modelled.
- `LibUsb.Exit` requires that no wrapper is alive and no handle is open, which is how `main`'s destructors order things. `USBContext`'s copy initialisation from a temporary is taken as elided, so `libusb_exit` runs once.
- Concurrency and hot-plugging between enumeration and open are not addressed by the source and are not modelled.
- `USBDevice::getDevice`, `AttachSpec::getInterface` and the attribute getters are field reads: `LibUsb.info` and `AttachSpec.iface`.

## Findings

| source | as written | input that shows it | evidently intended | confidence | as-written member | corrected member |
|---|---|---|---|---|---|---|
| usbrelease.cpp:217-224 | after writing "Device not found", `main` goes on to `do_detach(*it, spec)` / `do_reattach(*it, spec)` with `it == devices.end()`, dereferencing the end iterator | `detach 9 9 0` with one device at bus 1, address 3 | report the missing device and stop with a failure exit code, without opening a handle | high (not executed) | Usbrelease.NotFoundDereferencesEnd | Usbrelease.NotFoundOpensNothing |
