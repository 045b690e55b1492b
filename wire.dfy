/** The four-wire serial link between the driver and the display controller, and
    what the controller makes of it.

    The driver drives three control lines (chip-select, data/command select,
    reset) and makes SPI transfers on bus 1.  While chip-select is low, a byte
    clocked in with data/command low is an opcode and opens a new command; bytes
    clocked in with data/command high are the arguments (or pixel data) of the
    open command; the rising edge of chip-select ends the command.  `Decode`
    replays a list of driver events and yields the controller's view. */
module Wire {
  import opened Ints

  datatype Level = Low | High

  /** The panel's control lines. */
  datatype Line = ChipSelect | DataCommand | Reset

  /** The GPIO number wired to each control line. */
  function Gpio(line: Line): nat
  {
    match line
    case ChipSelect => 13
    case DataCommand => 14
    case Reset => 15
  }

  /** The arguments of one call to the SPI set-up routine. */
  datatype BusConfig = BusConfig(
    bus: nat, mode: nat, speed: nat, msbFirst: bool,
    miso: nat, mosi: nat, sck: nat, pull: bool)

  /** One side effect of the driver, in the order it happens.
      `Send` is one SPI transfer on the panel's bus; `ok` is the transport's
      answer (false when it reported an error). */
  datatype Event =
    | SetOutput(line: Line)
    | Write(line: Line, level: Level)
    | Send(bytes: seq<byte>, timeout: nat, ok: bool)
    | Delay(ms: nat)
    | BusSetup(config: BusConfig)
    | BusClose(bus: nat)

  /** A command as the controller receives it: an opcode byte and its arguments. */
  datatype Command = Command(op: byte, args: seq<byte>)

  /** The controller's view of the link: the current line levels, the command
      still open (chip-select has not risen since its opcode), the commands
      completed so far, and how many transfers were made while the controller
      was not selected (it ignores those). */
  datatype Wire = Wire(
    cs: Level, dc: Level, rst: Level,
    open: Option<Command>, received: seq<Command>, stray: nat)

  /** A freshly powered link with the given line levels. */
  function PowerOn(cs: Level, dc: Level, rst: Level): Wire
  {
    Wire(cs, dc, rst, None, [], 0)
  }

  /** The open command, if any, as a list of completed commands. */
  function Flush(open: Option<Command>): seq<Command>
  {
    if open.Some? then [open.value] else []
  }

  function OpcodesOnly(bytes: seq<byte>): seq<Command>
  {
    seq(|bytes|, i requires 0 <= i < |bytes| => Command(bytes[i], []))
  }

  /** Bytes clocked in while chip-select is low. */
  function Receive(w: Wire, bytes: seq<byte>): Wire
  {
    if w.dc == High then
      match w.open
      case None => w
      case Some(c) => w.(open := Some(Command(c.op, c.args + bytes)))
    else if bytes == [] then w
    else
      w.(received := w.received + Flush(w.open) + OpcodesOnly(bytes[..|bytes| - 1]),
         open := Some(Command(bytes[|bytes| - 1], [])))
  }

  /** The effect of one driver event on the controller's view. A transfer the
      transport reports as failed is taken to deliver nothing. */
  function Step(w: Wire, e: Event): Wire
  {
    match e
    case Write(ChipSelect, High) =>
      w.(cs := High, open := None, received := w.received + Flush(w.open))
    case Write(ChipSelect, Low) => w.(cs := Low)
    case Write(DataCommand, level) => w.(dc := level)
    case Write(Reset, level) => w.(rst := level)
    case Send(bytes, _, ok) =>
      if !ok then w
      else if w.cs == High then w.(stray := w.stray + 1)
      else Receive(w, bytes)
    case _ => w
  }

  /** The controller's view after a list of events. */
  function Decode(w: Wire, es: seq<Event>): Wire
    decreases |es|
  {
    if es == [] then w else Decode(Step(w, es[0]), es[1..])
  }

  /** Decoding a concatenation decodes the first part, then the second from there. */
  lemma {:induction false} DecodeAppend(w: Wire, a: seq<Event>, b: seq<Event>)
    ensures Decode(w, a + b) == Decode(Decode(w, a), b)
    decreases |a|
  {
    if a == [] {
      assert a + b == b;
    } else {
      assert (a + b)[0] == a[0];
      assert (a + b)[1..] == a[1..] + b;
      DecodeAppend(Step(w, a[0]), a[1..], b);
    }
  }

  /** Decoding one event is one step. */
  lemma DecodeOne(w: Wire, e: Event)
    ensures Decode(w, [e]) == Step(w, e)
  {
    assert [e][1..] == [];
  }

  /** Decoding two events is two steps. */
  lemma DecodeTwo(w: Wire, e1: Event, e2: Event)
    ensures Decode(w, [e1, e2]) == Step(Step(w, e1), e2)
  {
    assert [e1, e2][1..] == [e2];
    DecodeOne(Step(w, e1), e2);
  }

  /** Decoding three events is three steps. */
  lemma DecodeThree(w: Wire, e1: Event, e2: Event, e3: Event)
    ensures Decode(w, [e1, e2, e3]) == Step(Step(Step(w, e1), e2), e3)
  {
    assert [e1, e2, e3][1..] == [e2, e3];
    DecodeTwo(Step(w, e1), e2, e3);
  }

  /** Every transfer in the list succeeded. */
  ghost predicate AllDelivered(es: seq<Event>)
  {
    forall i :: 0 <= i < |es| && es[i].Send? ==> es[i].ok
  }

  /** After every failed transfer, the only thing that happens is the release of
      chip-select. */
  ghost predicate ReleasesOnFailure(es: seq<Event>)
  {
    forall i :: 0 <= i < |es| && es[i].Send? && !es[i].ok ==> i + 2 == |es| && es[i + 1] == Write(ChipSelect, High)
  }

  lemma {:induction false} AllDeliveredAppend(a: seq<Event>, b: seq<Event>)
    ensures AllDelivered(a + b) <==> AllDelivered(a) && AllDelivered(b)
  {
    if AllDelivered(a) && AllDelivered(b) {
      forall i | 0 <= i < |a + b| && (a + b)[i].Send?
        ensures (a + b)[i].ok
      {
        if i < |a| {
          assert (a + b)[i] == a[i];
        } else {
          assert (a + b)[i] == b[i - |a|];
        }
      }
    }
    if AllDelivered(a + b) {
      forall i | 0 <= i < |b| && b[i].Send?
        ensures b[i].ok
      {
        assert (a + b)[|a| + i] == b[i];
      }
      forall i | 0 <= i < |a| && a[i].Send?
        ensures a[i].ok
      {
        assert (a + b)[i] == a[i];
      }
    }
  }

  /** The pixel values a stream of data bytes stands for, two bytes per pixel, high
      byte first (the controller's 16-bit interface format). */
  function Pixels(bytes: seq<byte>): seq<u16>
  {
    seq(|bytes| / 2, i requires 0 <= i < |bytes| / 2 => Word(bytes[2 * i], bytes[2 * i + 1]))
  }

  /** The start and end address the four argument bytes of a column- or
      page-address-set command stand for. */
  function Span(args: seq<byte>): Option<(u16, u16)>
  {
    if |args| == 4 then Some((Word(args[0], args[1]), Word(args[2], args[3]))) else None
  }
}
