/**
 * AttachSpec: the (bus, address, interface) triple parsed from the command
 * line, the device predicate built on it, and std::find_if's first-match
 * selection over the device list.
 */
module Attach {
  import opened Wrappers
  import opened Decimal
  import opened Devices

  datatype AttachSpec = AttachSpec(bus: UInt8, addr: UInt8, iface: UInt8)

  /**
   * AttachSpec::parseOneParam: std::stoi, then the range 0..255. Every
   * failure, raised by stoi or by the range check, becomes
   * invalid_argument("Invalid " + what).
   */
  function ParseOneParam(input: string, what: string): (r: Result<UInt8, string>)
    ensures r.Failure? ==> r.error == "Invalid " + what
    ensures r.Success? <==> Stoi(input).Success? && 0 <= Stoi(input).value <= 255
    ensures r.Success? ==> r.value == Stoi(input).value
  {
    match Stoi(input)
    case Failure(_) => Failure("Invalid " + what)
    case Success(v) => if v < 0 || v > 255 then Failure("Invalid " + what) else Success(v)
  }

  /**
   * The rendering of any integer, behind white space and in front of
   * anything but a digit, is accepted exactly when it lies in 0..255, and
   * then as that value; otherwise (also beyond int) the field is reported.
   */
  lemma ParseOneParamOfRendered(ws: string, v: int, rest: string, what: string)
    requires AllSpace(ws)
    requires rest == [] || !IsDigit(rest[0])
    ensures ParseOneParam(ws + IntToString(v) + rest, what) ==
            if 0 <= v <= 255 then Success(v) else Failure("Invalid " + what)
  {
    StoiOfRendered(ws, v, rest);
  }

  /** Text holding no digit at all is rejected, naming the field. */
  lemma ParseOneParamRejectsNonNumeric(input: string, what: string)
    requires forall i | 0 <= i < |input| :: !IsDigit(input[i])
    ensures ParseOneParam(input, what) == Failure("Invalid " + what)
  {
    StoiWithoutDigits(input);
  }

  /** The field names the messages carry, spelled as the program spells them. */
  const BusField: string := "busID"
  const AddrField: string := "addrressID"
  const IfaceField: string := "interfaceID"

  /**
   * AttachSpec::parseFromCommand: bus, then address, then interface; the
   * first field that fails is the one reported, and on success the spec
   * holds the three parsed values.
   */
  function ParseFromCommand(busArg: string, addrArg: string, ifaceArg: string): (r: Result<AttachSpec, string>)
    ensures var bus, addr, iface := ParseOneParam(busArg, BusField), ParseOneParam(addrArg, AddrField),
                                    ParseOneParam(ifaceArg, IfaceField);
            && (r.Success? <==> bus.Success? && addr.Success? && iface.Success?)
            && (r.Success? ==> r.value == AttachSpec(bus.value, addr.value, iface.value))
            && (bus.Failure? ==> r == Failure("Invalid " + BusField))
            && (bus.Success? && addr.Failure? ==> r == Failure("Invalid " + AddrField))
            && (bus.Success? && addr.Success? && iface.Failure? ==> r == Failure("Invalid " + IfaceField))
  {
    match ParseOneParam(busArg, BusField)
    case Failure(e) => Failure(e)
    case Success(bus) =>
      match ParseOneParam(addrArg, AddrField)
      case Failure(e) => Failure(e)
      case Success(addr) =>
        match ParseOneParam(ifaceArg, IfaceField)
        case Failure(e) => Failure(e)
        case Success(iface) => Success(AttachSpec(bus, addr, iface))
  }

  /** Three decimal renderings of bytes parse back to exactly that spec. */
  lemma ParseFromCommandRoundTrip(bus: UInt8, addr: UInt8, iface: UInt8)
    ensures ParseFromCommand(NatToString(bus), NatToString(addr), NatToString(iface)) ==
            Success(AttachSpec(bus, addr, iface))
  {
    forall v: UInt8, what: string
      ensures ParseOneParam(NatToString(v), what) == Success(v)
    {
      assert "" + IntToString(v) + "" == NatToString(v);
      ParseOneParamOfRendered("", v, "", what);
    }
  }

  /** Leading white space is skipped. */
  lemma ParseOneParamSkipsBlanks(what: string)
    ensures ParseOneParam(" 1", what) == Success(1)
  {
    assert " " + IntToString(1) + "" == " 1";
    ParseOneParamOfRendered(" ", 1, "", what);
  }

  /** Whatever follows the digits is ignored. */
  lemma ParseOneParamIgnoresTail(what: string)
    ensures ParseOneParam("23abc", what) == Success(23)
  {
    assert NatToString(23) == "23";
    assert "" + IntToString(23) + "abc" == "23abc";
    ParseOneParamOfRendered("", 23, "abc", what);
  }

  /** A command line in the forms stoi accepts parses to the spec it spells. */
  lemma ParseFromCommandLenient()
    ensures ParseFromCommand(" 1", "23abc", "0") == Success(AttachSpec(1, 23, 0))
  {
    ParseOneParamSkipsBlanks(BusField);
    ParseOneParamIgnoresTail(AddrField);
    ParseFromCommandRoundTrip(1, 23, 0);
  }

  /** A bus number past 255 is reported as the bus field, whatever the other fields hold. */
  lemma ParseFromCommandOutOfRange()
    ensures ParseFromCommand("256", "abc", "0") == Failure("Invalid " + BusField)
  {
    assert ParseOneParam("256", BusField) == Failure("Invalid " + BusField) by {
      assert NatToString(256) == "256";
      assert "" + IntToString(256) + "" == "256";
      ParseOneParamOfRendered("", 256, "", BusField);
    }
  }

  /** A bus that is no number is reported before the address and the interface are looked at. */
  lemma ParseFromCommandBadBus()
    ensures ParseFromCommand("abc", "3", "0") == Failure("Invalid " + BusField)
  {
    ParseOneParamRejectsNonNumeric("abc", BusField);
  }

  /** A good bus and an address that is no number: the address field is reported. */
  lemma ParseFromCommandNonNumeric()
    ensures ParseFromCommand("1", "abc", "0") == Failure("Invalid " + AddrField)
  {
    assert ParseOneParam("1", BusField) == Success(1) by {
      assert "" + IntToString(1) + "" == "1";
      ParseOneParamOfRendered("", 1, "", BusField);
    }
    ParseOneParamRejectsNonNumeric("abc", AddrField);
  }

  /** AttachSpec::matches: same bus number and same device address. */
  predicate Matches(spec: AttachSpec, device: DeviceInfo) {
    device.bus == spec.bus && device.addr == spec.addr
  }

  /** The match ignores the device's port and the spec's interface. */
  lemma MatchesIgnoresPortAndInterface(spec: AttachSpec, device: DeviceInfo, port: UInt8, iface: UInt8)
    ensures Matches(spec.(iface := iface), device.(port := port)) == Matches(spec, device)
    ensures Matches(spec, device) ==> device.bus == spec.bus && device.addr == spec.addr
    ensures device.bus != spec.bus || device.addr != spec.addr ==> !Matches(spec, device)
  {
  }

  /** The spec for bus 2, address 5 matches the device there and not the one at address 6. */
  lemma MatchesExample(port: UInt8, iface: UInt8)
    ensures Matches(AttachSpec(2, 5, iface), DeviceInfo(2, port, 5))
    ensures !Matches(AttachSpec(2, 5, iface), DeviceInfo(2, port, 6))
  {
  }

  /**
   * std::find_if over the device list: the position of the first match,
   * or |devices| (the end() iterator) when nothing matches.
   */
  function FindIf(spec: AttachSpec, devices: seq<DeviceInfo>): (k: nat)
    ensures k <= |devices|
    ensures forall j | 0 <= j < k :: !Matches(spec, devices[j])
    ensures k < |devices| ==> Matches(spec, devices[k])
  {
    if devices == [] then 0
    else if Matches(spec, devices[0]) then 0
    else 1 + FindIf(spec, devices[1..])
  }

  /** The device the command works on: the first match, or none. */
  function Select(spec: AttachSpec, devices: seq<DeviceInfo>): (r: Option<nat>)
    ensures r.None? <==> forall j | 0 <= j < |devices| :: !Matches(spec, devices[j])
    ensures r.Some? ==> r.value < |devices| && Matches(spec, devices[r.value])
    ensures r.Some? ==> forall j | 0 <= j < r.value :: !Matches(spec, devices[j])
  {
    var k := FindIf(spec, devices);
    if k < |devices| then Some(k) else None
  }

  /**
   * As written, the program goes on to dereference find_if's result when
   * nothing matches: that result is then end(), not a device.
   */
  lemma NotFoundIsEnd(spec: AttachSpec, devices: seq<DeviceInfo>)
    requires forall j | 0 <= j < |devices| :: !Matches(spec, devices[j])
    ensures FindIf(spec, devices) == |devices|
  {
  }
}
