/**
 * main: set up the library context, enumerate the devices, dispatch on
 * argv[1], and turn every raised exception into "Failure: <what>" and exit
 * code 2.
 */
module Usbrelease {
  import opened Wrappers
  import opened Decimal
  import opened Devices
  import opened Attach
  import opened Listing
  import opened Handle

  /**
   * What libusb will answer, fixed before the run: the code libusb_init
   * returns, the device list (or the error code) libusb_get_device_list
   * yields, the code the kernel-driver call returns, and the what() text of
   * the ios_base::failure raised for a code.
   */
  datatype Env = Env(
    initCode: int,
    listing: Result<seq<DeviceId>, int>,
    driverCode: int,
    ioErrorText: int -> string)

  /** The two exceptions that reach main's handler. */
  datatype Raised = IoFailure(code: int) | BadArgument(message: string)

  /** e.what() */
  function What(e: Raised, env: Env): string {
    match e
    case IoFailure(code) => env.ioErrorText(code)
    case BadArgument(message) => message
  }

  /** The line main's handler writes. */
  function FailureLine(e: Raised, env: Env): string {
    "Failure: " + What(e, env)
  }

  const NotFoundLine: string := "Device not found"

  /** print_usage */
  const UsageLines: seq<string> := [
    "Usage: usbrelease command",
    "Commands:",
    "   list",
    "      Lists all USB devices",
    "   detach (busID) (addr) (interfaceID)",
    "      Detaches a USB interface from the kernel driver",
    "   reattach (busID) (addr) (interfaceID)",
    "      Reattaches a USB interface to the kernel driver"]

  /** What a run produces: the exit code, the lines written, the libusb calls made. */
  datatype Effect = Effect(exit: int, output: seq<string>, calls: seq<Call>)

  /** The libusb calls of do_detach (detach) or do_reattach (not detach). */
  function DriverCalls(detach: bool, device: DeviceId, iface: UInt8): seq<Call> {
    [OpenCall(device), if detach then DetachCall(device, iface) else AttachCall(device, iface), CloseCall(device)]
  }

  predicate IsDriverCommand(command: string) {
    command == "detach" || command == "reattach"
  }

  /** The command line asks for the usage text: no command, an unknown one, or too few fields. */
  predicate UsageError(argv: seq<string>) {
    || |argv| < 2
    || (argv[1] != "list" && !IsDriverCommand(argv[1]))
    || (IsDriverCommand(argv[1]) && |argv| < 5)
  }

  /**
   * Everything main does after the devices are listed. When no device
   * matches, main writes "Device not found" and stops with exit code 2
   * without opening anything.
   */
  function CommandSpec(argv: seq<string>, infos: seq<DeviceInfo>, devices: seq<DeviceId>, env: Env): Effect
    requires |infos| == |devices|
  {
    if |argv| < 2 then Effect(1, UsageLines, [])
    else if argv[1] == "list" then Effect(0, ListLines(infos), [])
    else if IsDriverCommand(argv[1]) then
      if |argv| < 5 then Effect(1, UsageLines, [])
      else match ParseFromCommand(argv[2], argv[3], argv[4])
        case Failure(message) => Effect(2, [FailureLine(BadArgument(message), env)], [])
        case Success(spec) =>
          match Select(spec, infos)
          case None => Effect(2, [NotFoundLine], [])
          case Some(k) =>
            var calls := DriverCalls(argv[1] == "detach", devices[k], spec.iface);
            if env.driverCode == 0 then Effect(0, [], calls)
            else Effect(2, [FailureLine(IoFailure(env.driverCode), env)], calls)
    else Effect(1, UsageLines, [])
  }

  /** The whole program on argv, against the devices described by info and the answers in env. */
  function Usbrelease(argv: seq<string>, info: seq<DeviceInfo>, env: Env): Effect
    requires ListingFits(env.listing, |info|)
  {
    if env.initCode != 0 then Effect(2, [FailureLine(IoFailure(env.initCode), env)], [InitCall])
    else match env.listing
      case Failure(code) => Effect(2, [FailureLine(IoFailure(code), env)], [InitCall, ListCall, ExitCall])
      case Success(devices) =>
        var c := CommandSpec(argv, Infos(info, devices), devices, env);
        Effect(c.exit, c.output, [InitCall, ListCall] + c.calls + [ExitCall])
  }

  /** do_detach: a temporary handle on device, the detach, and the handle closed again whatever came back. */
  method DoDetach(lib: LibUsb, device: DeviceId, iface: UInt8, code: int) returns (r: Outcome<int>)
    requires lib.Valid() && lib.initialized
    requires device < |lib.live| && lib.live[device] > 0
    modifies lib`refcount, lib`handles, lib`calls
    ensures r == Checked(code)
    ensures lib.Valid() && lib.refcount == old(lib.refcount) && lib.handles == old(lib.handles)
    ensures lib.calls == old(lib.calls) + DriverCalls(true, device, iface)
  {
    var handle := new UsbHandle(lib, device);
    r := handle.DetachKernelDriver(iface, code);
    handle.Close();
  }

  /** do_reattach: as do_detach, with the kernel driver attached again. */
  method DoReattach(lib: LibUsb, device: DeviceId, iface: UInt8, code: int) returns (r: Outcome<int>)
    requires lib.Valid() && lib.initialized
    requires device < |lib.live| && lib.live[device] > 0
    modifies lib`refcount, lib`handles, lib`calls
    ensures r == Checked(code)
    ensures lib.Valid() && lib.refcount == old(lib.refcount) && lib.handles == old(lib.handles)
    ensures lib.calls == old(lib.calls) + DriverCalls(false, device, iface)
  {
    var handle := new UsbHandle(lib, device);
    r := handle.ReattachKernelDriver(iface, code);
    handle.Close();
  }

  /** The body of main's try block once the devices are listed, one wrapper alive per listed device. */
  method Command(lib: LibUsb, argv: seq<string>, devices: seq<DeviceId>, env: Env) returns (exit: int, output: seq<string>)
    requires lib.Valid() && lib.initialized && Known(|lib.info|, devices)
    requires forall d | 0 <= d < |lib.live| :: lib.live[d] >= multiset(devices)[d]
    modifies lib`refcount, lib`handles, lib`calls
    ensures lib.Valid() && lib.refcount == old(lib.refcount) && lib.handles == old(lib.handles)
    ensures var e := CommandSpec(argv, Infos(lib.info, devices), devices, env);
            exit == e.exit && output == e.output && lib.calls == old(lib.calls) + e.calls
  {
    if |argv| < 2 {
      return 1, UsageLines;
    }
    if argv[1] == "list" {
      output := DoList(lib, devices);
      exit := 0;
    } else if argv[1] == "detach" || argv[1] == "reattach" {
      if |argv| < 5 {
        return 1, UsageLines;
      }
      var parsed := ParseFromCommand(argv[2], argv[3], argv[4]);
      if parsed.Failure? {
        return 2, [FailureLine(BadArgument(parsed.error), env)];
      }
      var spec := parsed.value;
      var found := Select(spec, Infos(lib.info, devices));
      if found.None? {
        return 2, [NotFoundLine];
      }
      var device := devices[found.value];
      assert device in multiset(devices);
      var r;
      if argv[1] == "detach" {
        r := DoDetach(lib, device, spec.iface, env.driverCode);
      } else {
        r := DoReattach(lib, device, spec.iface, env.driverCode);
      }
      if r.Fail? {
        return 2, [FailureLine(IoFailure(r.error), env)];
      }
      exit, output := 0, [];
    } else {
      return 1, UsageLines;
    }
  }

  /** The trace of a run that got past enumeration, written the way Usbrelease builds it. */
  lemma ListedTrace(before: seq<Call>, command: seq<Call>)
    ensures before + [InitCall] + [ListCall] + command + [ExitCall] ==
            before + ([InitCall, ListCall] + command + [ExitCall])
  {
  }

  /** Counts that the same occurrences raise to the same values were equal to begin with. */
  lemma AddedCancels(a: seq<nat>, b: seq<nat>, c: seq<nat>, devices: seq<DeviceId>)
    requires Added(a, b, devices) && Added(c, b, devices)
    ensures a == c
  {
    assert forall d | 0 <= d < |a| :: a[d] == c[d];
  }

  /**
   * The rest of main once the devices are listed: the command, then the
   * destruction of the device list, then libusb_exit.
   */
  method RunListed(lib: LibUsb, argv: seq<string>, devices: seq<DeviceId>, env: Env) returns (exit: int, output: seq<string>)
    requires lib.Valid() && lib.initialized && Known(|lib.info|, devices)
    requires lib.NoHandles()
    requires forall d | 0 <= d < |lib.live| :: lib.live[d] == multiset(devices)[d]
    modifies lib`refcount, lib`live, lib`initialized, lib`handles, lib`calls
    ensures var c := CommandSpec(argv, Infos(lib.info, devices), devices, env);
            exit == c.exit && output == c.output && lib.calls == old(lib.calls) + c.calls + [ExitCall]
    ensures lib.Valid() && lib.NoWrappers() && !lib.initialized && lib.NoHandles()
    ensures Added(lib.refcount, old(lib.refcount), devices)
  {
    exit, output := Command(lib, argv, devices, env);
    DestroyList(lib, devices);
    lib.Exit();
  }

  /**
   * main. Afterwards the device list has been destroyed and the context
   * released (when it was created): no wrapper is alive, no handle is open,
   * and every reference count is back where it started.
   */
  method Run(lib: LibUsb, argv: seq<string>, env: Env) returns (exit: int, output: seq<string>)
    requires lib.Valid() && !lib.initialized && lib.NoWrappers() && lib.NoHandles()
    requires ListingFits(env.listing, |lib.info|)
    modifies lib`refcount, lib`live, lib`unowned, lib`initialized, lib`handles, lib`calls
    ensures var e := Usbrelease(argv, lib.info, env);
            exit == e.exit && output == e.output && lib.calls == old(lib.calls) + e.calls
    ensures lib.Valid() && lib.NoWrappers() && !lib.initialized && lib.NoHandles()
    ensures lib.refcount == old(lib.refcount) && lib.unowned == old(lib.unowned)
  {
    var init := lib.Init(env.initCode);
    if init.Fail? {
      return 2, [FailureLine(IoFailure(init.error), env)];
    }
    var listed := ListAllDevices(lib, env.listing);
    if listed.Failure? {
      lib.Exit();
      return 2, [FailureLine(IoFailure(listed.error), env)];
    }
    var devices := listed.value;
    ghost var listedCalls := lib.calls;
    ghost var listedCounts := lib.refcount;
    exit, output := RunListed(lib, argv, devices, env);
    AddedCancels(lib.refcount, listedCounts, old(lib.refcount), devices);
    ListedTrace(old(lib.calls), CommandSpec(argv, Infos(lib.info, devices), devices, env).calls);
  }

  /**
   * Exit codes: 1 exactly when the usage text is printed, after a good
   * start; 0 only after a good start, a known command with enough fields,
   * and (for detach and reattach) a parsed spec, a matching device and a
   * driver call that returned 0; 2 otherwise.
   */
  lemma ExitCodes(argv: seq<string>, info: seq<DeviceInfo>, env: Env)
    requires ListingFits(env.listing, |info|)
    ensures var e := Usbrelease(argv, info, env);
            && (e.exit == 0 || e.exit == 1 || e.exit == 2)
            && (e.exit == 1 <==> env.initCode == 0 && env.listing.Success? && UsageError(argv))
            && (env.initCode != 0 || env.listing.Failure? ==> e.exit == 2)
            && (e.exit == 0 <==>
                 && env.initCode == 0 && env.listing.Success? && !UsageError(argv)
                 && (argv[1] == "list" ||
                     var parsed := ParseFromCommand(argv[2], argv[3], argv[4]);
                     && parsed.Success?
                     && Select(parsed.value, Infos(info, env.listing.value)).Some?
                     && env.driverCode == 0))
  {
  }

  /** Open, one kernel-driver call on the opened device, close of that device. */
  predicate DriverSession(c: seq<Call>) {
    && |c| == 3 && c[0].OpenCall?
    && (c[1].DetachCall? || c[1].AttachCall?) && c[1].device == c[0].device
    && c[2] == CloseCall(c[0].device)
  }

  /** Every open in c is followed by one kernel-driver call on that device and its close. */
  predicate ClosesEveryHandle(c: seq<Call>) {
    forall i | 0 <= i < |c| && c[i].OpenCall? ::
      && i + 2 < |c|
      && (c[i + 1].DetachCall? || c[i + 1].AttachCall?)
      && c[i + 1].device == c[i].device
      && c[i + 2] == CloseCall(c[i].device)
  }

  /** A command makes no libusb call at all, or exactly one open-call-close session. */
  lemma CommandCalls(argv: seq<string>, infos: seq<DeviceInfo>, devices: seq<DeviceId>, env: Env)
    requires |infos| == |devices|
    ensures var c := CommandSpec(argv, infos, devices, env).calls;
            c == [] || DriverSession(c)
  {
    if |argv| >= 5 && argv[1] != "list" && IsDriverCommand(argv[1]) {
      var parsed := ParseFromCommand(argv[2], argv[3], argv[4]);
      if parsed.Success? {
        var found := Select(parsed.value, infos);
        if found.Some? {
          var device := devices[found.value];
          assert CommandSpec(argv, infos, devices, env).calls ==
                 DriverCalls(argv[1] == "detach", device, parsed.value.iface);
        }
      }
    }
  }

  /** Wrapped between enumeration and libusb_exit, a command still closes what it opened. */
  lemma SessionInTrace(command: seq<Call>)
    requires command == [] || DriverSession(command)
    ensures Bracketed([InitCall, ListCall] + command + [ExitCall])
    ensures ClosesEveryHandle([InitCall, ListCall] + command + [ExitCall])
  {
    var c := [InitCall, ListCall] + command + [ExitCall];
    assert forall j | 0 <= j < |c| ::
      c[j] == if j < 2 then [InitCall, ListCall][j] else if j < 2 + |command| then command[j - 2] else ExitCall;
  }

  /** libusb_init first, libusb_exit last, and neither anywhere in between. */
  predicate Bracketed(c: seq<Call>) {
    && |c| >= 2 && c[0] == InitCall && c[|c| - 1] == ExitCall
    && forall i | 1 <= i < |c| - 1 :: c[i] != InitCall && c[i] != ExitCall
  }

  /**
   * The library is initialised first; when that succeeded, libusb_exit runs
   * last and only once, and when it failed nothing else is called.
   */
  lemma LibraryLifecycle(argv: seq<string>, info: seq<DeviceInfo>, env: Env)
    requires ListingFits(env.listing, |info|)
    ensures var c := Usbrelease(argv, info, env).calls;
            if env.initCode == 0 then Bracketed(c) else c == [InitCall]
  {
    if env.initCode == 0 && env.listing.Success? {
      var devices := env.listing.value;
      CommandCalls(argv, Infos(info, devices), devices, env);
      SessionInTrace(CommandSpec(argv, Infos(info, devices), devices, env).calls);
    }
  }

  /**
   * Every handle opened is closed again two calls later, after the one
   * kernel-driver call made through it, whatever that call returned.
   */
  lemma HandleAlwaysClosed(argv: seq<string>, info: seq<DeviceInfo>, env: Env)
    requires ListingFits(env.listing, |info|)
    ensures ClosesEveryHandle(Usbrelease(argv, info, env).calls)
  {
    if env.initCode == 0 && env.listing.Success? {
      var devices := env.listing.value;
      CommandCalls(argv, Infos(info, devices), devices, env);
      SessionInTrace(CommandSpec(argv, Infos(info, devices), devices, env).calls);
    }
  }

  /**
   * "list": exit code 0, no call beyond enumeration, and one line per listed
   * device, in enumeration order, that reads back as that device.
   */
  lemma ListShowsEveryDevice(argv: seq<string>, info: seq<DeviceInfo>, env: Env)
    requires ListingFits(env.listing, |info|)
    requires env.initCode == 0 && env.listing.Success?
    requires |argv| >= 2 && argv[1] == "list"
    ensures var e := Usbrelease(argv, info, env);
            var devices := env.listing.value;
            && e.exit == 0 && e.calls == [InitCall, ListCall, ExitCall]
            && |e.output| == |devices|
            && forall i | 0 <= i < |devices| ::
                 e.output[i] == DeviceLine(info[devices[i]]) && ParseDeviceLine(e.output[i]) == Some(info[devices[i]])
  {
    ListLinesRoundTrip(Infos(info, env.listing.value));
  }

  /** A field that does not parse is reported by name, and no device is opened. */
  lemma BadFieldOpensNothing(argv: seq<string>, info: seq<DeviceInfo>, env: Env)
    requires ListingFits(env.listing, |info|)
    requires env.initCode == 0 && env.listing.Success?
    requires |argv| >= 5 && IsDriverCommand(argv[1])
    requires ParseFromCommand(argv[2], argv[3], argv[4]).Failure?
    ensures var message := ParseFromCommand(argv[2], argv[3], argv[4]).error;
            && (message == "Invalid " + BusField || message == "Invalid " + AddrField || message == "Invalid " + IfaceField)
            && Usbrelease(argv, info, env) == Effect(2, ["Failure: " + message], [InitCall, ListCall, ExitCall])
  {
  }

  /**
   * No listed device matches: "Device not found", exit code 2, and no
   * handle is opened on anything.
   */
  lemma NotFoundOpensNothing(argv: seq<string>, info: seq<DeviceInfo>, env: Env, spec: AttachSpec)
    requires ListingFits(env.listing, |info|)
    requires env.initCode == 0 && env.listing.Success?
    requires |argv| >= 5 && IsDriverCommand(argv[1])
    requires ParseFromCommand(argv[2], argv[3], argv[4]) == Success(spec)
    requires forall i | 0 <= i < |env.listing.value| :: !Matches(spec, info[env.listing.value[i]])
    ensures Usbrelease(argv, info, env) == Effect(2, [NotFoundLine], [InitCall, ListCall, ExitCall])
  {
  }

  /**
   * The handle goes to the first listed device whose bus and address match,
   * and the requested interface is the one detached or reattached.
   */
  lemma FirstMatchIsUsed(argv: seq<string>, info: seq<DeviceInfo>, env: Env, spec: AttachSpec, k: nat)
    requires ListingFits(env.listing, |info|)
    requires env.initCode == 0 && env.listing.Success?
    requires |argv| >= 5 && IsDriverCommand(argv[1])
    requires ParseFromCommand(argv[2], argv[3], argv[4]) == Success(spec)
    requires k < |env.listing.value| && Matches(spec, info[env.listing.value[k]])
    requires forall j | 0 <= j < k :: !Matches(spec, info[env.listing.value[j]])
    ensures var e := Usbrelease(argv, info, env);
            var device := env.listing.value[k];
            && e.calls == [InitCall, ListCall] + DriverCalls(argv[1] == "detach", device, spec.iface) + [ExitCall]
            && e.exit == (if env.driverCode == 0 then 0 else 2)
            && e.output == (if env.driverCode == 0 then [] else [FailureLine(IoFailure(env.driverCode), env)])
  {
    var infos := Infos(info, env.listing.value);
    var r := Select(spec, infos);
    assert r.Some? && r.value == k;
  }

  /**
   * As written, main goes on after "Device not found" and dereferences
   * find_if's result: for detach 9 9 0 against a single device on bus 1 at
   * address 3, that result is the position past the last device.
   */
  lemma NotFoundDereferencesEnd()
    ensures ParseFromCommand("9", "9", "0") == Success(AttachSpec(9, 9, 0))
    ensures FindIf(AttachSpec(9, 9, 0), [DeviceInfo(1, 2, 3)]) == |[DeviceInfo(1, 2, 3)]|
  {
    assert "" + IntToString(9) + "" == "9";
    ParseOneParamOfRendered("", 9, "", BusField);
    ParseOneParamOfRendered("", 9, "", AddrField);
    assert "" + IntToString(0) + "" == "0";
    ParseOneParamOfRendered("", 0, "", IfaceField);
  }

  /** The same command in this model: "Device not found", exit code 2, and no handle. */
  lemma NotFoundScenario(env: Env)
    requires env.initCode == 0 && env.listing == Success([0])
    ensures Usbrelease(["usbrelease", "detach", "9", "9", "0"], [DeviceInfo(1, 2, 3)], env) ==
            Effect(2, [NotFoundLine], [InitCall, ListCall, ExitCall])
  {
    NotFoundDereferencesEnd();
  }
}
