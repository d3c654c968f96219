/**
 * Line framing over the GRBL serial link and the naming of available ports.
 * The serial device itself is abstract: a port holds the sequence of results
 * its single-byte reads will produce, and the sequence of bytes written to it.
 */
module GrblPort {
  import opened Wrappers
  import Search

  newtype byte = x: int | 0 <= x < 0x100
  newtype u16 = x: int | 0 <= x < 0x1_0000
  newtype u32 = x: int | 0 <= x < 0x1_0000_0000

  /** Default baud rate for GRBL-HAL. */
  const DefaultBaud: u32 := 115_200

  const CR: byte := 13
  const LF: byte := 10

  /** A span of time, in nanoseconds. */
  datatype Duration = Duration(nanos: nat)

  function FromSecs(secs: nat): Duration { Duration(secs * 1_000_000_000) }
  function FromMillis(millis: nat): Duration { Duration(millis * 1_000_000) }

  /** The timeout a port is opened with. */
  const OpenTimeout := FromMillis(100)
  /** The "long" timeout that stands in for no timeout at all: one day. */
  const NoTimeout := FromSecs(86400)

  /** Errors from opening, listing, sending or reading; foreign error values are kept as their messages. */
  datatype PortError =
    | OpenFailed(port: string, source: string)
    | Io(kind: string)
    | Timeout(after: Duration)
    | Serial(message: string)

  // ---------------------------------------------------------------------------
  // Line framing
  // ---------------------------------------------------------------------------

  /** What one single-byte read from the device produces. */
  datatype ReadEvent =
    | Data(b: byte)        // one byte was read
    | EndOfStream          // the read returned zero bytes
    | TimedOut             // the read failed because the timeout elapsed
    | Failed(kind: string) // the read failed for any other reason

  /** The events that end a line: a newline byte, end of stream, or a failed read. */
  predicate EndsLine(e: ReadEvent)
  {
    !(e.Data? && e.b != LF)
  }

  /** The position of the event that ends the next line (`|results|` when none does). */
  function StopIndex(results: seq<ReadEvent>): nat
  {
    Search.FirstIndex(results, EndsLine)
  }

  /** Whether the results contain an event that ends the line, so that reading a line finishes. */
  predicate Terminates(results: seq<ReadEvent>)
  {
    StopIndex(results) < |results|
  }

  /** The bytes kept from a run of results: every data byte except carriage returns, in order. */
  function Payload(events: seq<ReadEvent>): seq<byte>
  {
    if events == [] then []
    else
      var last := events[|events| - 1];
      Payload(events[..|events| - 1]) + (if last.Data? && last.b != CR then [last.b] else [])
  }

  /** A byte string with every carriage return removed, wherever it stands. */
  function WithoutCR(bs: seq<byte>): seq<byte>
  {
    if bs == [] then []
    else WithoutCR(bs[..|bs| - 1]) + (if bs[|bs| - 1] != CR then [bs[|bs| - 1]] else [])
  }

  /** The results a device produces when it delivers the bytes `bs`. */
  function Echo(bs: seq<byte>): (events: seq<ReadEvent>)
    ensures |events| == |bs|
    ensures forall i :: 0 <= i < |bs| ==> events[i] == Data(bs[i])
  {
    seq(|bs|, i requires 0 <= i < |bs| => Data(bs[i]))
  }

  /**
   * The result of reading one line from `results` with timeout `t`: the kept
   * bytes when a newline or the end of stream is reached, `Timeout(t)` when a
   * read times out (the partial line is discarded), `Io` for any other failure.
   */
  function Framed(results: seq<ReadEvent>, t: Duration): (r: Result<seq<byte>, PortError>)
    requires Terminates(results)
    ensures r.Ok? <==> results[StopIndex(results)] == EndOfStream || results[StopIndex(results)].Data?
    ensures r == Err(Timeout(t)) <==> results[StopIndex(results)] == TimedOut
    ensures r.Err? ==> r.error == Timeout(t) || r.error.Io?
  {
    var k := StopIndex(results);
    match results[k]
    case Data(_) => Ok(Payload(results[..k]))
    case EndOfStream => Ok(Payload(results[..k]))
    case TimedOut => Err(Timeout(t))
    case Failed(kind) => Err(Io(kind))
  }

  /** Every kept byte is a data byte of the results, and none is a carriage return. */
  lemma {:induction false} PayloadBytes(events: seq<ReadEvent>)
    ensures forall x :: x in Payload(events) ==> x != CR && Data(x) in events
  {
    if events != [] {
      var init := events[..|events| - 1];
      PayloadBytes(init);
      assert events == init + [events[|events| - 1]];
    }
  }

  /** The results of delivered bytes keep exactly those bytes, minus carriage returns. */
  lemma {:induction false} PayloadOfEcho(bs: seq<byte>)
    ensures Payload(Echo(bs)) == WithoutCR(bs)
  {
    if bs != [] {
      var init := bs[..|bs| - 1];
      PayloadOfEcho(init);
      assert Echo(bs)[..|bs| - 1] == Echo(init);
    }
  }

  /** Removing carriage returns from a string that has none leaves it as it is. */
  lemma {:induction false} WithoutCRNoCR(bs: seq<byte>)
    requires CR !in bs
    ensures WithoutCR(bs) == bs
  {
    if bs != [] {
      var init := bs[..|bs| - 1];
      WithoutCRNoCR(init);
      assert bs == init + [bs[|bs| - 1]];
    }
  }

  /** A line read successfully holds neither a carriage return nor a newline. */
  lemma FramedHasNoLineBreaks(results: seq<ReadEvent>, t: Duration)
    requires Terminates(results) && Framed(results, t).Ok?
    ensures CR !in Framed(results, t).value && LF !in Framed(results, t).value
  {
    var k := StopIndex(results);
    PayloadBytes(results[..k]);
  }

  /**
   * A line cut short by end of stream, a timeout or a read error: end of stream
   * returns the bytes so far (carriage returns removed), the two errors discard them.
   */
  lemma PartialLine(bs: seq<byte>, e: ReadEvent, rest: seq<ReadEvent>, t: Duration)
    requires LF !in bs && !e.Data?
    ensures Terminates(Echo(bs) + [e] + rest)
    ensures StopIndex(Echo(bs) + [e] + rest) == |bs|
    ensures Framed(Echo(bs) + [e] + rest, t) ==
      match e
      case EndOfStream => Ok(WithoutCR(bs))
      case TimedOut => Err(Timeout(t))
      case Failed(kind) => Err(Io(kind))
  {
    var results := Echo(bs) + [e] + rest;
    StopAfterEcho(bs, e, rest);
    assert results[..|bs|] == Echo(bs);
    PayloadOfEcho(bs);
  }

  /** Delivered bytes without a newline, then a line-ending event: the line stops at that event. */
  lemma StopAfterEcho(bs: seq<byte>, e: ReadEvent, rest: seq<ReadEvent>)
    requires LF !in bs && EndsLine(e)
    ensures StopIndex(Echo(bs) + [e] + rest) == |bs|
  {
    var results := Echo(bs) + [e] + rest;
    forall j | 0 <= j < |bs|
      ensures !EndsLine(results[j])
    {
      assert results[j] == Data(bs[j]) && bs[j] in bs;
    }
    assert results[|bs|] == e;
  }

  /** Round trip: a line without line breaks, sent and echoed back, results back as itself. */
  lemma ReadSentLine(line: seq<byte>, rest: seq<ReadEvent>, t: Duration)
    requires CR !in line && LF !in line
    ensures Terminates(Echo(line + [CR, LF]) + rest)
    ensures StopIndex(Echo(line + [CR, LF]) + rest) == |line| + 1
    ensures Framed(Echo(line + [CR, LF]) + rest, t) == Ok(line)
  {
    var sent := line + [CR, LF];
    var results := Echo(sent) + rest;
    forall j | 0 <= j <= |line|
      ensures !EndsLine(results[j])
    {
      if j < |line| {
        assert results[j] == Data(line[j]) && line[j] in line;
      } else {
        assert results[j] == Data(CR);
      }
    }
    assert results[|line| + 1] == Data(LF);
    var k := StopIndex(results);
    assert k == |line| + 1;
    assert results[..k] == Echo(line + [CR]);
    PayloadOfEcho(line + [CR]);
    WithoutCRNoCR(line);
    assert (line + [CR])[..|line|] == line;
    assert WithoutCR(line + [CR]) == WithoutCR(line);
    assert Payload(results[..k]) == line;
  }

  // ---------------------------------------------------------------------------
  // The port
  // ---------------------------------------------------------------------------

  datatype Parity = NoParity | OddParity | EvenParity

  /** Baud rate and character framing of the link. */
  datatype LineSettings = LineSettings(baud: u32, dataBits: nat, stopBits: nat, parity: Parity)

  /** 8 data bits, 1 stop bit, no parity, at the given baud rate. */
  function EightNOne(baud: u32): LineSettings
  {
    LineSettings(baud, 8, 1, NoParity)
  }

  /** An open serial connection. */
  class Port {
    /** The name the port was opened by. */
    const name: string
    /** The settings the port was opened with. */
    const settings: LineSettings
    /** The results the device will produce for the coming single-byte reads. */
    var incoming: seq<ReadEvent>
    /** The read timeout currently configured. */
    var timeout: Duration
    /** Every byte written to the device so far. */
    var written: seq<byte>

    /** A port just opened, configured with the 100 ms open timeout. */
    constructor (name: string, settings: LineSettings, incoming: seq<ReadEvent>)
      ensures this.name == name && this.settings == settings
      ensures this.incoming == incoming && timeout == OpenTimeout && written == []
    {
      this.name := name;
      this.settings := settings;
      this.incoming := incoming;
      timeout := OpenTimeout;
      written := [];
    }

    /** `send_line`: the bytes of the line, then exactly CR LF. */
    method SendLine(line: seq<byte>)
      modifies this
      ensures written == old(written) + line + [CR, LF]
      ensures incoming == old(incoming) && timeout == old(timeout)
    {
      written := written + line;
      written := written + [CR, LF];
    }

    /** `send_byte`: one real-time byte, with no line ending. */
    method SendByte(b: byte)
      modifies this
      ensures written == old(written) + [b]
      ensures incoming == old(incoming) && timeout == old(timeout)
    {
      written := written + [b];
    }

    /** `set_read_timeout`: the given timeout, or one day when none is given. */
    method SetReadTimeout(t: Option<Duration>)
      modifies this
      ensures t.Some? ==> timeout == t.value
      ensures t.None? ==> timeout == NoTimeout
      ensures incoming == old(incoming) && written == old(written)
    {
      timeout := match t case Some(d) => d case None => NoTimeout;
    }

    /** One single-byte read. */
    method ReadOne() returns (e: ReadEvent)
      requires incoming != []
      modifies this
      ensures e == old(incoming)[0] && incoming == old(incoming)[1..]
      ensures timeout == old(timeout) && written == old(written)
    {
      e := incoming[0];
      incoming := incoming[1..];
    }

    /**
     * `read_line`: results byte by byte until a newline or end of stream,
     * dropping every carriage return; a timed-out or failed read ends it with
     * an error. The results up to and including the one that ended the line are consumed.
     */
    method ReadLine(t: Duration) returns (r: Result<seq<byte>, PortError>)
      requires Terminates(incoming)
      modifies this
      ensures r == Framed(old(incoming), t)
      ensures incoming == old(incoming)[StopIndex(old(incoming)) + 1..]
      ensures timeout == t && written == old(written)
    {
      timeout := t;
      ghost var start := incoming;
      ghost var i := 0;
      var buf: seq<byte> := [];
      while true
        invariant 0 <= i <= StopIndex(start) < |start|
        invariant incoming == start[i..]
        invariant buf == Payload(start[..i])
        invariant timeout == t && written == old(written)
        decreases |incoming|
      {
        var e := ReadOne();
        assert e == start[i];
        match e
        case EndOfStream =>
          return Ok(buf);
        case TimedOut =>
          return Err(Timeout(t));
        case Failed(kind) =>
          return Err(Io(kind));
        case Data(b) =>
          if b == LF {
            return Ok(buf);
          }
          if b != CR {
            buf := buf + [b];
          }
          assert start[..i + 1][..i] == start[..i];
          i := i + 1;
      }
    }
  }

  /**
   * `Port::open`, given how the device answered: a port with 8N1 framing at
   * `baud` and the 100 ms timeout, or `OpenFailed` naming the port when the
   * device could not be opened.
   */
  method Open(portName: string, baud: u32, device: Result<seq<ReadEvent>, string>)
    returns (r: Result<Port, PortError>)
    ensures device.Err? ==> r == Err(OpenFailed(portName, device.error))
    ensures device.Ok? ==> r.Ok? && fresh(r.value)
    ensures device.Ok? ==> r.value.name == portName && r.value.settings == EightNOne(baud)
    ensures device.Ok? ==> r.value.incoming == device.value && r.value.timeout == OpenTimeout && r.value.written == []
  {
    match device
    case Err(message) =>
      r := Err(OpenFailed(portName, message));
    case Ok(results) =>
      var port := new Port(portName, EightNOne(baud), results);
      r := Ok(port);
  }

  // ---------------------------------------------------------------------------
  // Listing ports
  // ---------------------------------------------------------------------------

  /** How a port is attached, as the operating system reports it. */
  datatype SerialPortType = UsbPort(vid: u16, pid: u16) | PciPort | BluetoothPort | UnknownPort

  /** An available port as the operating system reports it. */
  datatype SerialPortInfo = SerialPortInfo(portName: string, portType: SerialPortType)

  /** A port as offered to the user: its name and a display title. */
  datatype PortInfo = PortInfo(name: string, title: string)

  function DigitChar(d: nat): char
    requires d < 10
  {
    ('0' as int + d) as char
  }

  /** `{}` formatting of a number: its decimal digits, without leading zeros. */
  function Decimal(n: nat): (s: string)
    ensures |s| > 0
    ensures forall c :: c in s ==> '0' <= c <= '9'
    ensures s[0] == '0' <==> n == 0
    ensures n == 0 ==> s == "0"
  {
    if n < 10 then [DigitChar(n)] else Decimal(n / 10) + [DigitChar(n % 10)]
  }

  /** The number a string of decimal digits denotes. */
  function DecimalValue(s: string): nat
  {
    if s == [] then 0
    else
      var d := s[|s| - 1] as int - '0' as int;
      DecimalValue(s[..|s| - 1]) * 10 + (if 0 <= d < 10 then d else 0)
  }

  /** Decimal formatting loses nothing: the digits denote the number. */
  lemma {:induction false} DecimalRoundTrip(n: nat)
    ensures DecimalValue(Decimal(n)) == n
  {
    if n >= 10 {
      DecimalRoundTrip(n / 10);
      var s := Decimal(n);
      assert s[..|s| - 1] == Decimal(n / 10);
    }
  }

  /** What `list_ports` appends to the port name to make its title. */
  function TypeSuffix(t: SerialPortType): (suffix: string)
    ensures suffix == "" <==> t == UnknownPort
    ensures suffix != "" ==> |suffix| > 3 && suffix[..2] == " (" && suffix[|suffix| - 1] == ')'
  {
    match t
    case UsbPort(vid, pid) => " (USB " + Decimal(vid as nat) + ":" + Decimal(pid as nat) + ")"
    case PciPort => " (PCI)"
    case BluetoothPort => " (Bluetooth)"
    case UnknownPort => ""
  }

  /** The display title of a port. */
  function Title(name: string, t: SerialPortType): (title: string)
    ensures name <= title
    ensures title[|name|..] == TypeSuffix(t)
  {
    name + TypeSuffix(t)
  }

  /** The title starts with the name, and equals it exactly for a port of unknown type. */
  lemma TitleExtendsName(name: string, t: SerialPortType)
    ensures name <= Title(name, t)
    ensures Title(name, t) == name <==> t == UnknownPort
  {
    if t != UnknownPort {
      assert |TypeSuffix(t)| > 0;
    }
  }

  /** In `a + ":" + b`, when `a` has no colon, the first colon stands right after `a`. */
  lemma FirstColon(a: string, b: string)
    requires ':' !in a
    ensures forall i :: 0 <= i < |a| ==> (a + ":" + b)[i] != ':'
    ensures (a + ":" + b)[|a|] == ':'
  {
    forall i | 0 <= i < |a|
      ensures (a + ":" + b)[i] != ':'
    {
      assert (a + ":" + b)[i] == a[i] && a[i] in a;
    }
  }

  /** Two digit strings joined by a colon split back apart at the colon. */
  lemma SplitAtColon(a: string, b: string, c: string, d: string)
    requires ':' !in a && ':' !in c
    requires a + ":" + b == c + ":" + d
    ensures a == c && b == d
  {
    var l := a + ":" + b;
    var r := c + ":" + d;
    assert |a| == |c| by {
      FirstColon(a, b);
      FirstColon(c, d);
    }
    assert a == l[..|a|] && c == r[..|c|];
    assert b == l[|a| + 1..] && d == r[|c| + 1..];
  }

  /** The suffix is empty only for an unknown type; otherwise its third character names the type. */
  lemma TypeSuffixLetter(t: SerialPortType)
    ensures t == UnknownPort <==> TypeSuffix(t) == ""
    ensures t.UsbPort? ==> |TypeSuffix(t)| > 2 && TypeSuffix(t)[2] == 'U'
    ensures t == PciPort ==> |TypeSuffix(t)| > 2 && TypeSuffix(t)[2] == 'P'
    ensures t == BluetoothPort ==> |TypeSuffix(t)| > 2 && TypeSuffix(t)[2] == 'B'
  {
  }

  /** The suffix identifies the port type: different types never share a suffix. */
  lemma TypeSuffixInjective(t1: SerialPortType, t2: SerialPortType)
    requires TypeSuffix(t1) == TypeSuffix(t2)
    ensures t1 == t2
  {
    var s := TypeSuffix(t1);
    if t1.UsbPort? && t2.UsbPort? {
      var a, b := Decimal(t1.vid as nat), Decimal(t1.pid as nat);
      var c, d := Decimal(t2.vid as nat), Decimal(t2.pid as nat);
      assert s == " (USB " + (a + ":" + b) + ")";
      assert s == " (USB " + (c + ":" + d) + ")";
      assert a + ":" + b == s[6..|s| - 1] == c + ":" + d;
      SplitAtColon(a, b, c, d);
      DecimalRoundTrip(t1.vid as nat);
      DecimalRoundTrip(t2.vid as nat);
      DecimalRoundTrip(t1.pid as nat);
      DecimalRoundTrip(t2.pid as nat);
    } else {
      TypeSuffixLetter(t1);
      TypeSuffixLetter(t2);
    }
  }

  /** The title identifies the port type: one name under two types gives two titles. */
  lemma TitleDeterminesType(name: string, t1: SerialPortType, t2: SerialPortType)
    requires Title(name, t1) == Title(name, t2)
    ensures t1 == t2
  {
    assert TypeSuffix(t1) == Title(name, t1)[|name|..];
    assert TypeSuffix(t2) == Title(name, t2)[|name|..];
    TypeSuffixInjective(t1, t2);
  }

  /** One reported port as offered to the user. */
  function Describe(p: SerialPortInfo): (d: PortInfo)
    ensures d.name == p.portName && d.name <= d.title
    ensures d.title == p.portName <==> p.portType == UnknownPort
  {
    PortInfo(p.portName, Title(p.portName, p.portType))
  }

  /**
   * `list_ports`, given what the operating system reported: each port keeps
   * its name and gets a title that starts with it; a failure becomes `Serial`.
   */
  function ListPorts(available: Result<seq<SerialPortInfo>, string>): (r: Result<seq<PortInfo>, PortError>)
    ensures available.Err? ==> r == Err(Serial(available.error))
    ensures available.Ok? ==> r.Ok? && |r.value| == |available.value|
    ensures available.Ok? ==> forall i :: 0 <= i < |r.value| ==>
      r.value[i].name == available.value[i].portName &&
      r.value[i].name <= r.value[i].title &&
      r.value[i] == Describe(available.value[i])
  {
    match available
    case Err(message) => Err(Serial(message))
    case Ok(ports) =>
      var infos := seq(|ports|, i requires 0 <= i < |ports| => Describe(ports[i]));
      assert forall i :: 0 <= i < |ports| ==> infos[i].name <= infos[i].title by {
        forall i | 0 <= i < |ports| ensures infos[i].name <= infos[i].title {
          TitleExtendsName(ports[i].portName, ports[i].portType);
        }
      }
      Ok(infos)
  }
}
