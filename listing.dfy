/**
 * do_list: one line per device, in list order, in the form
 * "Device: bus=B port=P addr=A" with the three bytes in decimal.
 */
module Listing {
  import opened Wrappers
  import opened Decimal
  import opened Devices

  const BusLabel: string := "Device: bus="
  const PortLabel: string := " port="
  const AddrLabel: string := " addr="

  /** The line do_list writes for one device (the bytes are printed as int). */
  function DeviceLine(d: DeviceInfo): string {
    BusLabel + NatToString(d.bus) + PortLabel + NatToString(d.port) + AddrLabel + NatToString(d.addr)
  }

  /** The lines for a whole device list: one per device, in the same order. */
  function ListLines(devices: seq<DeviceInfo>): (lines: seq<string>)
    ensures |lines| == |devices|
    ensures forall i | 0 <= i < |devices| :: lines[i] == DeviceLine(devices[i])
  {
    if devices == [] then [] else [DeviceLine(devices[0])] + ListLines(devices[1..])
  }

  /** A number read off the front of a line, and the text after it. */
  datatype Field = Field(value: nat, rest: string)

  /**
   * Reads tag followed by a decimal number off the front of s: the number
   * and what follows it, or None when the tag or the digits are missing.
   */
  function ReadField(tag: string, s: string): (r: Option<Field>)
    ensures r.Some? ==> |tag| < |s| && s[..|tag|] == tag
  {
    if |s| < |tag| || s[..|tag|] != tag then None
    else
      var t := s[|tag|..];
      var k := DigitRun(t);
      if k == 0 then None else Some(Field(DigitsValue(t[..k]), t[k..]))
  }

  /** Reads a listing line back into the device attributes it shows. */
  function ParseDeviceLine(line: string): Option<DeviceInfo> {
    match ReadField(BusLabel, line)
    case None => None
    case Some(Field(bus, afterBus)) =>
      match ReadField(PortLabel, afterBus)
      case None => None
      case Some(Field(port, afterPort)) =>
        match ReadField(AddrLabel, afterPort)
        case None => None
        case Some(Field(addr, afterAddr)) =>
          if afterAddr == [] && bus < 256 && port < 256 && addr < 256
          then Some(DeviceInfo(bus, port, addr))
          else None
  }

  /** A tag, a rendered number and anything not starting with a digit read back as that number. */
  lemma ReadFieldOfRendered(tag: string, n: nat, rest: string)
    requires rest == [] || !IsDigit(rest[0])
    ensures ReadField(tag, tag + NatToString(n) + rest) == Some(Field(n, rest))
  {
    var digits := NatToString(n);
    var s := tag + digits + rest;
    assert s[..|tag|] == tag;
    assert s[|tag|..] == digits + rest;
    DigitRunAppend(digits, rest);
    assert (digits + rest)[..|digits|] == digits;
    assert (digits + rest)[|digits|..] == rest;
  }

  /** Every listing line can be read back into the device it was written for. */
  lemma DeviceLineRoundTrip(d: DeviceInfo)
    ensures ParseDeviceLine(DeviceLine(d)) == Some(d)
  {
    var addrPart := AddrLabel + NatToString(d.addr) + "";
    var portPart := PortLabel + NatToString(d.port) + addrPart;
    assert DeviceLine(d) == BusLabel + NatToString(d.bus) + portPart;
    ReadFieldOfRendered(BusLabel, d.bus, portPart);
    ReadFieldOfRendered(PortLabel, d.port, addrPart);
    ReadFieldOfRendered(AddrLabel, d.addr, "");
  }

  /** Two devices print the same line only when all three attributes agree. */
  lemma DeviceLineInjective(d: DeviceInfo, e: DeviceInfo)
    ensures DeviceLine(d) == DeviceLine(e) <==> d == e
  {
    if DeviceLine(d) == DeviceLine(e) {
      DeviceLineRoundTrip(d);
      DeviceLineRoundTrip(e);
    }
  }

  /** The whole listing reads back, line by line, as the device list it shows. */
  lemma ListLinesRoundTrip(devices: seq<DeviceInfo>)
    ensures var lines := ListLines(devices);
            forall i | 0 <= i < |lines| :: ParseDeviceLine(lines[i]) == Some(devices[i])
  {
    forall i | 0 <= i < |devices|
      ensures ParseDeviceLine(ListLines(devices)[i]) == Some(devices[i])
    {
      DeviceLineRoundTrip(devices[i]);
    }
  }

  /** The line for a device on bus 1, port 4, address 23. */
  lemma DeviceLineExample()
    ensures DeviceLine(DeviceInfo(1, 4, 23)) == "Device: bus=1 port=4 addr=23"
  {
    assert NatToString(23) == "23";
  }

  /** Two devices on bus 1, at ports 1 and 2 with addresses 3 and 4: two lines, in that order. */
  lemma ListLinesExample()
    ensures ListLines([DeviceInfo(1, 1, 3), DeviceInfo(1, 2, 4)]) ==
            ["Device: bus=1 port=1 addr=3", "Device: bus=1 port=2 addr=4"]
  {
    assert DeviceLine(DeviceInfo(1, 1, 3)) == "Device: bus=1 port=1 addr=3";
    assert DeviceLine(DeviceInfo(1, 2, 4)) == "Device: bus=1 port=2 addr=4";
  }

  /** do_list: walks the device list and writes one line per device. */
  method DoList(lib: LibUsb, devices: seq<DeviceId>) returns (lines: seq<string>)
    requires Known(|lib.info|, devices)
    ensures lines == ListLines(Infos(lib.info, devices))
  {
    lines := [];
    var i := 0;
    while i < |devices|
      invariant 0 <= i <= |devices|
      invariant |lines| == i
      invariant forall j | 0 <= j < i :: lines[j] == DeviceLine(lib.info[devices[j]])
    {
      var d := lib.info[devices[i]];
      lines := lines + [DeviceLine(d)];
      i := i + 1;
    }
  }
}
