/**
 * Modbus RTU over a serial line: the client wrapper, the RS-485 adapter
 * catalogue and the bus scan that discovers devices by probing every
 * (baud rate, slave id) pair and reading identification windows.
 *
 * The serial line itself is an input. A `RegisterBus` answers a read
 * request with the registers (`Some`) or with nothing (`None`), which
 * covers the library's error responses and the exceptions the client
 * swallows. A `LineOpener` says what opening the serial port at a baud
 * rate does.
 */
module ModbusRtu {
  import opened Wrappers
  import Text

  /**
   * The Modbus functions the client issues, each on its own table: read
   * holding registers (0x03), read input registers (0x04), write single
   * register (0x06) and write multiple registers (0x10), as numbered in
   * section 6 of the Modbus Application Protocol Specification V1.1b3.
   */
  datatype FunctionCode = ReadHolding | ReadInput | WriteSingle | WriteMultiple

  /** One request on the line: `count` registers at `address` of `slave`, by function `code`. */
  datatype Request = Request(port: string, baudrate: int, slave: int, code: FunctionCode, address: int, count: int)

  type RegisterBus = Request -> Option<seq<int>>
  type RegisterWriter = (Request, seq<int>) -> bool

  /** What `connect` met: the port opened, did not open, or one of the two library calls raised. */
  datatype OpenOutcome = Opened | NotOpened | ConstructorRaised | OpenRaised

  type LineOpener = (string, int) -> OpenOutcome

  /** The wrapper around one serial Modbus client. */
  class ModbusClient {
    const port: string
    const baudrate: int
    const timeout: real
    /** A library client object has been created. */
    var hasClient: bool
    var connected: bool

    ghost predicate Valid()
      reads this
    {
      connected ==> hasClient
    }

    /** The guard every read, write and probe starts with. */
    predicate Ready()
      reads this
    {
      connected && hasClient
    }

    constructor (port: string, baudrate: int := 9600, timeout: real := 1.0)
      ensures Valid() && !hasClient && !connected
      ensures this.port == port && this.baudrate == baudrate && this.timeout == timeout
    {
      this.port := port;
      this.baudrate := baudrate;
      this.timeout := timeout;
      hasClient := false;
      connected := false;
    }

    /**
     * `connect`: a new library client replaces the old one unless its
     * constructor raised. Only an opened port sets `connected`; a failure
     * never clears it.
     */
    method Connect(outcome: OpenOutcome) returns (ok: bool)
      requires Valid()
      modifies this
      ensures Valid()
      ensures ok <==> outcome == Opened
      ensures connected == (old(connected) || outcome == Opened)
      ensures hasClient == (old(hasClient) || outcome != ConstructorRaised)
    {
      if outcome == ConstructorRaised {
        return false;
      }
      hasClient := true;
      if outcome == Opened {
        connected := true;
        ok := true;
      } else {
        ok := false;
      }
    }

    /** `disconnect`: closes an open client; afterwards the client is never Ready. */
    method Disconnect()
      requires Valid()
      modifies this
      ensures Valid() && !Ready() && !connected
      ensures hasClient == old(hasClient)
    {
      if hasClient && connected {
        connected := false;
      }
    }

    /** The request for `count` registers at `address` of `slave` by `code` on this client's line. */
    function RequestFor(code: FunctionCode, slave: int, address: int, count: int): (q: Request)
      reads this
      ensures q.port == port && q.baudrate == baudrate && q.code == code
      ensures q.slave == slave && q.address == address && q.count == count
    {
      Request(port, baudrate, slave, code, address, count)
    }

    /** `read_holding_registers`: `None` unless Ready, else what the line answered. */
    method ReadHoldingRegisters(slave: int, address: int, count: int, bus: RegisterBus) returns (r: Option<seq<int>>)
      ensures !Ready() ==> r == None
      ensures Ready() ==> r == bus(RequestFor(ReadHolding, slave, address, count))
    {
      if !connected || !hasClient {
        return None;
      }
      r := bus(Request(port, baudrate, slave, ReadHolding, address, count));
    }

    /** `read_input_registers`: the same guard, with function 0x04 over the input-register table. */
    method ReadInputRegisters(slave: int, address: int, count: int, bus: RegisterBus) returns (r: Option<seq<int>>)
      ensures !Ready() ==> r == None
      ensures Ready() ==> r == bus(RequestFor(ReadInput, slave, address, count))
    {
      if !connected || !hasClient {
        return None;
      }
      r := bus(Request(port, baudrate, slave, ReadInput, address, count));
    }

    /** `write_register`: `false` unless Ready, else whether the device acknowledged. */
    method WriteRegister(slave: int, address: int, value: int, device: RegisterWriter) returns (ok: bool)
      ensures ok <==> Ready() && device(RequestFor(WriteSingle, slave, address, 1), [value])
    {
      if !connected || !hasClient {
        return false;
      }
      ok := device(Request(port, baudrate, slave, WriteSingle, address, 1), [value]);
    }

    /** `write_registers`. */
    method WriteRegisters(slave: int, address: int, values: seq<int>, device: RegisterWriter) returns (ok: bool)
      ensures ok <==> Ready() && device(RequestFor(WriteMultiple, slave, address, |values|), values)
    {
      if !connected || !hasClient {
        return false;
      }
      ok := device(Request(port, baudrate, slave, WriteMultiple, address, |values|), values);
    }

    /** `test_connection`: a device responds when one holding register at address 0 can be read. */
    method TestConnection(slave: int, bus: RegisterBus) returns (ok: bool)
      ensures ok <==> Responds(Ready(), bus, RequestFor(ReadHolding, slave, 0, 1))
    {
      if !connected || !hasClient {
        return false;
      }
      var r := ReadHoldingRegisters(slave, 0, 1, bus);
      ok := r.Some?;
    }
  }

  /** A read answered on a ready client; an empty register list still counts. */
  predicate Responds(ready: bool, bus: RegisterBus, q: Request)
  {
    ready && bus(q).Some?
  }

  // ---------------------------------------------------------------------
  // RS-485 adapter catalogue
  // ---------------------------------------------------------------------

  /** One entry of the operating system's serial-port enumeration. */
  datatype PortInfo = PortInfo(
    device: string,
    description: string,
    manufacturer: Option<string>,
    product: Option<string>,
    vid: Option<int>,
    pid: Option<int>,
    serialNumber: Option<string>)

  datatype CatalogEntry = CatalogEntry(vid: int, pid: int, name: string)

  datatype Rs485Adapter = Rs485Adapter(
    port: string,
    description: string,
    name: string,
    vid: Option<int>,
    pid: Option<int>,
    serialNumber: Option<string>)

  /** USB-to-serial chips recognised as RS-485 adapters, in lookup order. */
  const CommonAdapters: seq<CatalogEntry> := [
    CatalogEntry(0x0403, 0x6001, "FTDI FT232R"),
    CatalogEntry(0x0403, 0x6015, "FTDI FT231X"),
    CatalogEntry(0x067B, 0x2303, "Prolific PL2303"),
    CatalogEntry(0x10C4, 0xEA60, "Silicon Labs CP210x"),
    CatalogEntry(0x1A86, 0x7523, "CH340"),
    CatalogEntry(0x1A86, 0x7523, "Growatt USB Adapter")
  ]

  predicate Matches(p: PortInfo, e: CatalogEntry)
  {
    p.vid == Some(e.vid) && p.pid == Some(e.pid)
  }

  /** The first catalogue entry whose vendor and product ids are the port's. */
  function FirstMatch(p: PortInfo, catalog: seq<CatalogEntry>): (r: Option<CatalogEntry>)
    ensures r.Some? ==> Matches(p, r.value)
    decreases |catalog|
  {
    if |catalog| == 0 then None
    else if Matches(p, catalog[0]) then Some(catalog[0])
    else FirstMatch(p, catalog[1..])
  }

  /**
   * `FirstMatch` is None exactly when no entry matches, and otherwise an
   * entry of the catalogue with no matching entry before it.
   */
  lemma {:induction false} FirstMatchIsFirst(p: PortInfo, catalog: seq<CatalogEntry>)
    ensures var r := FirstMatch(p, catalog);
            && (r.None? <==> forall k :: 0 <= k < |catalog| ==> !Matches(p, catalog[k]))
            && (r.Some? ==> exists k :: 0 <= k < |catalog| && catalog[k] == r.value
                              && forall m :: 0 <= m < k ==> !Matches(p, catalog[m]))
    decreases |catalog|
  {
    if |catalog| > 0 && !Matches(p, catalog[0]) {
      var rest := catalog[1..];
      FirstMatchIsFirst(p, rest);
      assert forall k :: 1 <= k < |catalog| ==> catalog[k] == rest[k - 1];
      var r := FirstMatch(p, catalog);
      if r.Some? {
        var k :| 0 <= k < |rest| && rest[k] == r.value && forall m :: 0 <= m < k ==> !Matches(p, rest[m]);
        assert catalog[k + 1] == rest[k];
        assert forall m :: 0 <= m < k + 1 ==> !Matches(p, catalog[m]) by {
          forall m | 0 <= m < k + 1
            ensures !Matches(p, catalog[m])
          {
            if m > 0 {
              assert catalog[m] == rest[m - 1];
            }
          }
        }
      }
    }
  }

  /** What one port contributes to the adapter list: one entry at most. */
  function AdapterFor(p: PortInfo): seq<Rs485Adapter>
  {
    match FirstMatch(p, CommonAdapters)
    case None => []
    case Some(e) => [Rs485Adapter(p.device, p.description, e.name, p.vid, p.pid, p.serialNumber)]
  }

  function Adapters(ports: seq<PortInfo>): seq<Rs485Adapter>
    decreases |ports|
  {
    if |ports| == 0 then [] else Adapters(ports[..|ports| - 1]) + AdapterFor(ports[|ports| - 1])
  }

  /** The inner loop of `find_rs485_adapters`: the catalogue scanned in order, stopping at the first match. */
  method LookupAdapter(p: PortInfo, catalog: seq<CatalogEntry>) returns (r: Option<CatalogEntry>)
    ensures r == FirstMatch(p, catalog)
  {
    var j := 0;
    while j < |catalog|
      invariant 0 <= j <= |catalog|
      invariant FirstMatch(p, catalog) == FirstMatch(p, catalog[j..])
    {
      var e := catalog[j];
      if p.vid == Some(e.vid) && p.pid == Some(e.pid) {
        return Some(e);
      }
      assert catalog[j..][1..] == catalog[j + 1..];
      j := j + 1;
    }
    return None;
  }

  /**
   * `find_rs485_adapters` over the port enumeration `ports`: for each port
   * the first matching catalogue entry names it; a port matching none is
   * skipped.
   */
  method FindRs485Adapters(ports: seq<PortInfo>) returns (adapters: seq<Rs485Adapter>)
    ensures adapters == Adapters(ports)
  {
    adapters := [];
    var i := 0;
    while i < |ports|
      invariant 0 <= i <= |ports|
      invariant adapters == Adapters(ports[..i])
    {
      var p := ports[i];
      var e := LookupAdapter(p, CommonAdapters);
      if e.Some? {
        adapters := adapters + [Rs485Adapter(p.device, p.description, e.value.name, p.vid, p.pid, p.serialNumber)];
      }
      assert ports[..i + 1][..i] == ports[..i];
      i := i + 1;
    }
    assert ports[..|ports|] == ports;
  }

  /** The CH340 entry shadows the Growatt adapter entry, which has the same ids. */
  lemma NeverGrowattAdapter(p: PortInfo)
    ensures FirstMatch(p, CommonAdapters).Some? ==> FirstMatch(p, CommonAdapters).value.name != "Growatt USB Adapter"
  {
    assert CommonAdapters[4].vid == CommonAdapters[5].vid && CommonAdapters[4].pid == CommonAdapters[5].pid;
  }

  /** A port is an adapter exactly when some catalogue entry matches it. */
  lemma AdapterForIff(p: PortInfo)
    ensures |AdapterFor(p)| == 1 <==> exists k :: 0 <= k < |CommonAdapters| && Matches(p, CommonAdapters[k])
    ensures |AdapterFor(p)| <= 1
  {
    FirstMatchIsFirst(p, CommonAdapters);
  }

  /**
   * The adapter list has at most one entry per port, each for a port of the
   * enumeration, and never names the Growatt adapter: its ids are the CH340's,
   * which comes first.
   */
  lemma {:induction false} AdaptersShape(ports: seq<PortInfo>)
    ensures |Adapters(ports)| <= |ports|
    ensures forall a :: a in Adapters(ports) ==> a.name != "Growatt USB Adapter"
    ensures forall a :: a in Adapters(ports) ==> exists p :: p in ports && a.port == p.device && a.vid == p.vid
    decreases |ports|
  {
    if |ports| > 0 {
      var init := ports[..|ports| - 1];
      var last := ports[|ports| - 1];
      AdaptersShape(init);
      assert forall p :: p in init ==> p in ports;
      NeverGrowattAdapter(last);
    }
  }

  // ---------------------------------------------------------------------
  // Device identification and the bus scan
  // ---------------------------------------------------------------------

  /** Holding-register windows tried, in order, to identify a device. */
  const IdentificationWindows: seq<(int, int)> := [(0x0000, 10), (0x0100, 10), (0x0200, 10)]

  /** The result of `_identify_device`; its type tag is always "modbus_device". */
  datatype Identity = Identity(identification: string, registers: seq<int>)

  /** A device the scan found. */
  datatype FoundDevice = FoundDevice(identity: Identity, port: string, baudrate: int, slaveId: int)

  /** The registers that are printable ASCII (32..126), as characters, in order. */
  function PrintableAscii(registers: seq<int>): (r: string)
    ensures |r| <= |registers|
    ensures forall k :: 0 <= k < |r| ==> 32 <= r[k] as int <= 126
    decreases |registers|
  {
    if |registers| == 0 then []
    else
      var rest := PrintableAscii(registers[1..]);
      if 32 <= registers[0] <= 126 then [registers[0] as char] + rest else rest
  }

  /**
   * The printable registers of a concatenation are those of each part, in
   * order: with `PrintableAsciiOne` this says the text keeps exactly the
   * registers in 32..126, as characters, in register order.
   */
  lemma {:induction false} PrintableAsciiAppend(a: seq<int>, b: seq<int>)
    ensures PrintableAscii(a + b) == PrintableAscii(a) + PrintableAscii(b)
    decreases |a|
  {
    if |a| == 0 {
      assert a + b == b;
    } else {
      assert (a + b)[1..] == a[1..] + b;
      PrintableAsciiAppend(a[1..], b);
    }
  }

  /** One register becomes its character exactly when it is printable, and nothing otherwise. */
  lemma PrintableAsciiOne(x: int)
    ensures PrintableAscii([x]) == if 32 <= x <= 126 then [x as char] else []
  {
    assert [x][1..] == [];
  }

  function Take5(registers: seq<int>): (r: seq<int>)
    ensures r == registers[..if |registers| < 5 then |registers| else 5]
  {
    if |registers| < 5 then registers else registers[..5]
  }

  /** A read window identifies a device when it came back with a non-zero register. */
  predicate Usable(read: Option<seq<int>>)
  {
    read.Some? && exists k :: 0 <= k < |read.value| && read.value[k] != 0
  }

  /**
   * The identification of a usable window: the stripped printable text
   * when more than three registers were printable, else a description
   * quoting the first five registers.
   */
  function Describe(registers: seq<int>): Identity
  {
    var text := PrintableAscii(registers);
    if |text| > 3 then Identity(Text.Strip(text), Take5(registers))
    else Identity("Unknown device (registers: " + Text.ListRepr(Take5(registers)) + ")", Take5(registers))
  }

  /** The first usable read decides; if none is usable there is no identity. */
  function IdentifyFrom(answers: seq<Option<seq<int>>>): Option<Identity>
    decreases |answers|
  {
    if |answers| == 0 then None
    else if Usable(answers[0]) then Some(Describe(answers[0].value))
    else IdentifyFrom(answers[1..])
  }

  /**
   * `IdentifyFrom` is None exactly when no read is usable, and otherwise
   * describes a usable read with no usable read before it.
   */
  lemma {:induction false} IdentifyFromFirstUsable(answers: seq<Option<seq<int>>>)
    ensures var r := IdentifyFrom(answers);
            && (r.None? <==> forall k :: 0 <= k < |answers| ==> !Usable(answers[k]))
            && (r.Some? ==> exists k :: 0 <= k < |answers| && Usable(answers[k]) && r.value == Describe(answers[k].value)
                              && forall m :: 0 <= m < k ==> !Usable(answers[m]))
    decreases |answers|
  {
    if |answers| > 0 && !Usable(answers[0]) {
      var rest := answers[1..];
      IdentifyFromFirstUsable(rest);
      assert forall k :: 1 <= k < |answers| ==> answers[k] == rest[k - 1];
      var r := IdentifyFrom(answers);
      if r.Some? {
        var k :| 0 <= k < |rest| && Usable(rest[k]) && r.value == Describe(rest[k].value)
                 && forall m :: 0 <= m < k ==> !Usable(rest[m]);
        assert answers[k + 1] == rest[k];
        assert forall m :: 0 <= m < k + 1 ==> !Usable(answers[m]) by {
          forall m | 0 <= m < k + 1
            ensures !Usable(answers[m])
          {
            if m > 0 {
              assert answers[m] == rest[m - 1];
            }
          }
        }
      }
    }
  }

  /** The three identification reads of `slave` on a client whose line is (port, baudrate). */
  function WindowReads(ready: bool, bus: RegisterBus, port: string, baudrate: int, slave: int): (r: seq<Option<seq<int>>>)
    ensures |r| == |IdentificationWindows|
    ensures forall k :: 0 <= k < |r| ==>
              r[k] == (if ready then bus(Request(port, baudrate, slave, ReadHolding, IdentificationWindows[k].0, IdentificationWindows[k].1)) else None)
  {
    seq(|IdentificationWindows|, k requires 0 <= k < |IdentificationWindows| =>
      if ready then bus(Request(port, baudrate, slave, ReadHolding, IdentificationWindows[k].0, IdentificationWindows[k].1)) else None)
  }

  /** `_identify_device`: reads the windows in order and stops at the first usable one. */
  method IdentifyDevice(client: ModbusClient, slave: int, bus: RegisterBus) returns (r: Option<Identity>)
    ensures r == IdentifyFrom(WindowReads(client.Ready(), bus, client.port, client.baudrate, slave))
  {
    ghost var answers := WindowReads(client.Ready(), bus, client.port, client.baudrate, slave);
    var i := 0;
    while i < |IdentificationWindows|
      invariant 0 <= i <= |IdentificationWindows|
      invariant IdentifyFrom(answers) == IdentifyFrom(answers[i..])
    {
      var (address, count) := IdentificationWindows[i];
      var registers := client.ReadHoldingRegisters(slave, address, count, bus);
      assert registers == answers[i];
      if registers.Some? && exists k :: 0 <= k < |registers.value| && registers.value[k] != 0 {
        return Some(Describe(registers.value));
      }
      assert answers[i..][1..] == answers[i + 1..];
      i := i + 1;
    }
    return None;
  }

  /** Python's `list(range(lo, hi))`. */
  function Range(lo: int, hi: int): (r: seq<int>)
    ensures |r| == if lo <= hi then hi - lo else 0
    ensures forall k :: 0 <= k < |r| ==> r[k] == lo + k
  {
    seq(if lo <= hi then hi - lo else 0, k => lo + k)
  }

  /** Every individual slave address of a serial Modbus line. */
  const DefaultSlaveIds: seq<int> := Range(1, 248)
  const DefaultBaudRates: seq<int> := [9600, 19200, 38400, 57600, 115200]

  /**
   * The default id list is exactly the individual addresses 1..247 of
   * section 2.2 of the Modbus over Serial Line Specification V1.02, in
   * increasing order: the broadcast address 0 and the reserved 248..255 are
   * never probed.
   */
  lemma DefaultSlaveIdsRange()
    ensures |DefaultSlaveIds| == 247
    ensures forall id :: id in DefaultSlaveIds <==> 1 <= id <= 247
    ensures forall k :: 0 <= k < |DefaultSlaveIds| - 1 ==> DefaultSlaveIds[k] < DefaultSlaveIds[k + 1]
  {
    forall id | 1 <= id <= 247
      ensures id in DefaultSlaveIds
    {
      assert DefaultSlaveIds[id - 1] == id;
    }
  }

  /** A slave counts as found when it answers the probe and then identifies. */
  function Probe(bus: RegisterBus, port: string, baudrate: int, slave: int): Option<Identity>
  {
    if Responds(true, bus, Request(port, baudrate, slave, ReadHolding, 0, 1))
    then IdentifyFrom(WindowReads(true, bus, port, baudrate, slave))
    else None
  }

  /** The first slave of `ids`, in order, found at this baud rate. */
  function FirstFound(bus: RegisterBus, port: string, baudrate: int, ids: seq<int>): (r: Option<FoundDevice>)
    ensures r.Some? ==> r.value.port == port && r.value.baudrate == baudrate
    decreases |ids|
  {
    if |ids| == 0 then None
    else match Probe(bus, port, baudrate, ids[0])
      case Some(identity) => Some(FoundDevice(identity, port, baudrate, ids[0]))
      case None => FirstFound(bus, port, baudrate, ids[1..])
  }

  /**
   * `FirstFound` reports a slave of `ids` whose probe identified it, and
   * reports nothing exactly when no slave of `ids` identifies; no earlier
   * slave identified.
   */
  lemma {:induction false} FirstFoundIsFirst(bus: RegisterBus, port: string, baudrate: int, ids: seq<int>)
    ensures var r := FirstFound(bus, port, baudrate, ids);
            && (r.Some? ==> exists k :: 0 <= k < |ids| && ids[k] == r.value.slaveId
                              && Probe(bus, port, baudrate, ids[k]) == Some(r.value.identity)
                              && forall j :: 0 <= j < k ==> Probe(bus, port, baudrate, ids[j]).None?)
            && (r.None? <==> forall k :: 0 <= k < |ids| ==> Probe(bus, port, baudrate, ids[k]).None?)
    decreases |ids|
  {
    if |ids| > 0 && Probe(bus, port, baudrate, ids[0]).None? {
      FirstFoundIsFirst(bus, port, baudrate, ids[1..]);
      assert forall k :: 1 <= k < |ids| ==> ids[k] == ids[1..][k - 1];
      var r := FirstFound(bus, port, baudrate, ids);
      if r.Some? {
        var k :| 0 <= k < |ids[1..]| && ids[1..][k] == r.value.slaveId
                 && Probe(bus, port, baudrate, ids[1..][k]) == Some(r.value.identity)
                 && forall j :: 0 <= j < k ==> Probe(bus, port, baudrate, ids[1..][j]).None?;
        assert ids[k + 1] == r.value.slaveId;
        assert forall j :: 0 <= j < k + 1 ==> Probe(bus, port, baudrate, ids[j]).None? by {
          forall j | 0 <= j < k + 1
            ensures Probe(bus, port, baudrate, ids[j]).None?
          {
            if j > 0 {
              assert ids[j] == ids[1..][j - 1];
            }
          }
        }
      }
    }
  }

  /** What a scan of `port` finds: per baud rate whose line opened, at most the first identified slave. */
  function ScanResult(opener: LineOpener, bus: RegisterBus, port: string, bauds: seq<int>, ids: seq<int>): seq<FoundDevice>
    decreases |bauds|
  {
    if |bauds| == 0 then []
    else
      var before := ScanResult(opener, bus, port, bauds[..|bauds| - 1], ids);
      var baud := bauds[|bauds| - 1];
      if opener(port, baud) == Opened then
        match FirstFound(bus, port, baud, ids)
        case Some(d) => before + [d]
        case None => before
      else before
  }

  /** The inner loop of `scan_modbus_devices`: slaves probed in order until one identifies. */
  method ProbeSlaves(client: ModbusClient, ids: seq<int>, bus: RegisterBus) returns (hit: Option<FoundDevice>)
    requires client.Ready()
    ensures hit == FirstFound(bus, client.port, client.baudrate, ids)
  {
    var j := 0;
    while j < |ids|
      invariant 0 <= j <= |ids|
      invariant FirstFound(bus, client.port, client.baudrate, ids) == FirstFound(bus, client.port, client.baudrate, ids[j..])
    {
      var slave := ids[j];
      var responds := client.TestConnection(slave, bus);
      if responds {
        var identity := IdentifyDevice(client, slave, bus);
        if identity.Some? {
          return Some(FoundDevice(identity.value, client.port, client.baudrate, slave));
        }
      }
      assert ids[j..][1..] == ids[j + 1..];
      j := j + 1;
    }
    return None;
  }

  /** One more baud rate adds what that rate found, if its line opened. */
  lemma ScanResultSnoc(opener: LineOpener, bus: RegisterBus, port: string, bauds: seq<int>, ids: seq<int>, i: nat)
    requires i < |bauds|
    ensures ScanResult(opener, bus, port, bauds[..i + 1], ids)
            == ScanResult(opener, bus, port, bauds[..i], ids)
               + (if opener(port, bauds[i]) == Opened && FirstFound(bus, port, bauds[i], ids).Some?
                  then [FirstFound(bus, port, bauds[i], ids).value] else [])
  {
    assert bauds[..i + 1][..i] == bauds[..i];
  }

  /** The loop of `scan_modbus_devices` over the chosen baud rates and slave ids. */
  method ScanWith(port: string, bauds: seq<int>, ids: seq<int>, opener: LineOpener, bus: RegisterBus)
      returns (found: seq<FoundDevice>)
    ensures found == ScanResult(opener, bus, port, bauds, ids)
  {
    found := [];
    var i := 0;
    while i < |bauds|
      invariant 0 <= i <= |bauds|
      invariant found == ScanResult(opener, bus, port, bauds[..i], ids)
    {
      var baud := bauds[i];
      var client := new ModbusClient(port, baud);
      var lineUp := client.Connect(opener(port, baud));
      var hit: Option<FoundDevice> := None;
      if lineUp {
        hit := ProbeSlaves(client, ids, bus);
        client.Disconnect();
      }
      ScanResultSnoc(opener, bus, port, bauds, ids, i);
      if hit.Some? {
        found := found + [hit.value];
      }
      i := i + 1;
    }
    assert bauds[..|bauds|] == bauds;
  }

  /**
   * `scan_modbus_devices`: a fresh client per baud rate (default 9600 to
   * 115200), the slave ids (default 1..247) probed in order until the first
   * identified device, and the client closed again.
   */
  method ScanModbusDevices(port: string, baudrates: Option<seq<int>>, slaveIds: Option<seq<int>>,
                           opener: LineOpener, bus: RegisterBus) returns (found: seq<FoundDevice>)
    ensures found == ScanResult(opener, bus, port, if baudrates.Some? then baudrates.value else DefaultBaudRates,
                                if slaveIds.Some? then slaveIds.value else DefaultSlaveIds)
  {
    var bauds := if baudrates.Some? then baudrates.value else DefaultBaudRates;
    var ids := if slaveIds.Some? then slaveIds.value else DefaultSlaveIds;
    found := ScanWith(port, bauds, ids, opener, bus);
  }

  /**
   * A scan reports at most one device per baud rate tried, each on the
   * scanned port at one of the tried rates and ids, and each one answered
   * the probe at that rate and id.
   */
  lemma {:induction false} ScanShape(opener: LineOpener, bus: RegisterBus, port: string, bauds: seq<int>, ids: seq<int>)
    ensures |ScanResult(opener, bus, port, bauds, ids)| <= |bauds|
    ensures forall d :: d in ScanResult(opener, bus, port, bauds, ids) ==>
              && d.port == port && d.baudrate in bauds && d.slaveId in ids
              && opener(port, d.baudrate) == Opened
              && Responds(true, bus, Request(port, d.baudrate, d.slaveId, ReadHolding, 0, 1))
    decreases |bauds|
  {
    if |bauds| > 0 {
      var init := bauds[..|bauds| - 1];
      ScanShape(opener, bus, port, init, ids);
      FirstFoundIsFirst(bus, port, bauds[|bauds| - 1], ids);
      assert forall b :: b in init ==> b in bauds;
    }
  }

  /**
   * A device whose first usable window holds only spaces (and more than
   * three of them) is reported with an empty identification: the length
   * test runs before the text is stripped.
   */
  lemma BlankIdentification()
    ensures Describe([32, 32, 32, 32]).identification == ""
  {
    assert PrintableAscii([32, 32, 32, 32]) == "    " by {
      assert PrintableAscii([32]) == " ";
      assert [32, 32, 32, 32][1..] == [32, 32, 32];
      assert [32, 32, 32][1..] == [32, 32];
      assert [32, 32][1..] == [32];
    }
  }
}
