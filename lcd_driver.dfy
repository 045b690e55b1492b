/** The PicoCalc display driver as the C code runs it: straight-line calls to the
    GPIO, delay and SPI layer, each of which appends one event to the trace the
    driver leaves.  Every routine is proved to leave exactly the events the
    corresponding function of `LcdEvents` / `LcdBringUp` describes; what those
    events do to the controller is proved about the functions. */
module LcdDriver {
  import opened Ints
  import opened Wire
  import opened LcdHeader
  import opened LcdEvents
  import opened LcdBringUp

  /** The display port: the events the driver has caused so far and the
      transport's answers. */
  class Lcd {
    var trace: seq<Event>
    const link: Link

    constructor (link: Link)
      ensures trace == [] && this.link == link
    {
      trace := [];
      this.link := link;
    }

    // -------------------------------------------------------------------------
    // The platform layer: one event per call
    // -------------------------------------------------------------------------

    method GpioWrite(line: Line, level: Level)
      modifies this
      ensures trace == old(trace) + [Write(line, level)]
    {
      trace := trace + [Write(line, level)];
    }

    method SetOutput(line: Line)
      modifies this
      ensures trace == old(trace) + [Event.SetOutput(line)]
    {
      trace := trace + [Event.SetOutput(line)];
    }

    /** One SPI transfer on the panel's bus; a negative result is the transport's
        error, as for the platform's send. */
    method SpiSend(bytes: seq<byte>, timeout: nat) returns (result: int)
      modifies this
      ensures trace == old(trace) + [Send(bytes, timeout, link(|old(trace)|))]
      ensures result < 0 <==> !link(|old(trace)|)
    {
      var ok := link(|trace|);
      var e := Send(bytes, timeout, ok);
      trace := trace + [e];
      result := if ok then |bytes| else -1;
    }

    method Delay(ms: nat)
      modifies this
      ensures trace == old(trace) + [Event.Delay(ms)]
    {
      trace := trace + [Event.Delay(ms)];
    }

    method SpiSetup(config: BusConfig)
      modifies this
      ensures trace == old(trace) + [BusSetup(config)]
    {
      trace := trace + [BusSetup(config)];
    }

    method SpiClose(bus: nat)
      modifies this
      ensures trace == old(trace) + [BusClose(bus)]
    {
      trace := trace + [BusClose(bus)];
    }

    // -------------------------------------------------------------------------
    // The driver
    // -------------------------------------------------------------------------

    /** Sends an opcode and its arguments, releasing chip-select on every way out. */
    method Command(op: byte, args: seq<byte>)
      modifies this
      ensures trace == old(trace) + CommandEvents(op, args, link, |old(trace)|)
    {
      GpioWrite(DataCommand, Low);
      GpioWrite(ChipSelect, Low);
      var result := SpiSend([op], SPI_TIMEOUT);
      if result < 0 {
        GpioWrite(ChipSelect, High);
        return;
      }
      if |args| > 0 {
        GpioWrite(DataCommand, High);
        result := SpiSend(args, SPI_TIMEOUT);
        if result < 0 {
          GpioWrite(ChipSelect, High);
          return;
        }
      }
      GpioWrite(ChipSelect, High);
    }

    /** A command without arguments. */
    method CommandNoArgs(op: byte)
      modifies this
      ensures trace == old(trace) + CommandEvents(op, [], link, |old(trace)|)
    {
      Command(op, []);
    }

    /** The three control lines become outputs and are driven high, then the bus is
        set up. */
    method BusInit()
      modifies this
      ensures trace == old(trace) + BusInitEvents()
    {
      SetOutput(ChipSelect);
      SetOutput(Reset);
      SetOutput(DataCommand);
      GpioWrite(ChipSelect, High);
      GpioWrite(Reset, High);
      GpioWrite(DataCommand, High);
      SpiSetup(LCD_BUS_CONFIG);
    }

    /** The hardware reset pulse. */
    method HwReset()
      modifies this
      ensures trace == old(trace) + ResetEvents()
    {
      GpioWrite(Reset, High);
      Delay(10);
      GpioWrite(Reset, Low);
      Delay(10);
      GpioWrite(Reset, High);
      Delay(200);
    }

    /** The fixed configuration sequence, one command after the other. */
    method HwInit()
      modifies this
      ensures trace == old(trace) + CommandsEvents(InitSequence(), link, |old(trace)|)
    {
      ghost var t0 := trace;
      assert InitSequence()[..0] == [];
      assert t0 + [] == t0;
      ConfigCommand(t0, 0);  // positive gamma
      ConfigCommand(t0, 1);  // negative gamma
      ConfigCommand(t0, 2);  // power control 1
      ConfigCommand(t0, 3);  // power control 2
      ConfigCommand(t0, 4);  // VCOM control
      ConfigCommand(t0, 5);  // memory access control
      ConfigCommand(t0, 6);  // interface pixel format
      ConfigCommand(t0, 7);  // interface mode control
      ConfigCommand(t0, 8);  // frame rate control
      ConfigCommand(t0, 9);  // display inversion off
      ConfigCommand(t0, 10);  // display function control
      ConfigCommand(t0, 11);  // entry mode set
      ConfigCommand(t0, 12);  // set image function
      ConfigCommand(t0, 13);  // exit sleep
      ConfigCommand(t0, 14);  // display on
      assert InitSequence()[..15] == InitSequence();
    }

    /** The `k`-th command of the configuration sequence, issued right after the
        ones before it. */
    method ConfigCommand(ghost t0: seq<Event>, k: nat)
      requires k < |InitSequence()|
      requires trace == t0 + CommandsEvents(InitSequence()[..k], link, |t0|)
      modifies this
      ensures trace == t0 + CommandsEvents(InitSequence()[..k + 1], link, |t0|)
    {
      ghost var t := trace;
      var c := InitSequence()[k];
      if c.args == [] {
        CommandNoArgs(c.op);
      } else {
        Command(c.op, c.args);
      }
      IssueNext(InitSequence(), t0, t, k, c.op, c.args, link);
    }

    /** Selects the controller and programs the column and page window, then the
        memory write (`write` is 1) or read command; leaves chip-select low and
        data/command high on success, and releases chip-select after a failed
        transfer. */
    method DefineRegion(x1: u16, y1: u16, x2: u16, y2: u16, write: int)
      modifies this
      ensures trace == old(trace) + RegionEvents(x1, y1, x2, y2, write, link, |old(trace)|)
    {
      ghost var t0 := trace;
      ghost var goal := trace + RegionEvents(x1, y1, x2, y2, write, link, |trace|);
      ghost var tail := [Write(DataCommand, High)];
      GpioWrite(ChipSelect, Low);
      // `rest`: the stages still to come
      ghost var rest := RegionStages(x1, y1, x2, y2, write);
      SeqAssoc(t0, [Write(ChipSelect, Low)], StagedEvents(rest, tail, link, |trace|));
      var ok := AddressSet(goal, rest, tail, Code(CASET), Coords(x1, x2));
      if !ok {
        return;
      }
      rest := rest[2..];
      ok := AddressSet(goal, rest, tail, Code(PASET), Coords(y1, y2));
      if !ok {
        return;
      }
      rest := rest[2..];
      var cmd := if write == 1 then Code(RAMWR) else Code(RAMRD);
      ok := SendStage(goal, rest, tail, Low, [cmd]);
      if !ok {
        return;
      }
      assert rest[1..] == [];
      GpioWrite(DataCommand, High);
      assert goal == trace;
    }

    /** An address-set command inside window programming: the opcode with
        data/command low, then the two bounds with data/command high. */
    method AddressSet(ghost goal: seq<Event>, ghost rest: seq<Stage>, ghost tail: seq<Event>, op: byte, bounds: seq<byte>)
      returns (ok: bool)
      requires |rest| >= 2 && rest[0] == Stage(Low, [op]) && rest[1] == Stage(High, bounds)
      requires goal == trace + StagedEvents(rest, tail, link, |trace|)
      modifies this
      ensures ok ==> goal == trace + StagedEvents(rest[2..], tail, link, |trace|)
      ensures !ok ==> trace == goal
    {
      ok := SendStage(goal, rest, tail, Low, [op]);
      if !ok {
        return;
      }
      ok := SendStage(goal, rest[1..], tail, High, bounds);
      assert rest[1..][1..] == rest[2..];
    }

    /** One step of window programming: drive data/command, send the bytes, and on
        a failed transfer release chip-select. `goal` is the whole event list of the
        routine, `rest` the stages still to come. */
    method SendStage(ghost goal: seq<Event>, ghost rest: seq<Stage>, ghost tail: seq<Event>, dc: Level, bytes: seq<byte>)
      returns (ok: bool)
      requires rest != [] && rest[0] == Stage(dc, bytes)
      requires goal == trace + StagedEvents(rest, tail, link, |trace|)
      modifies this
      ensures ok <==> link(|old(trace)| + 1)
      ensures ok ==> goal == trace + StagedEvents(rest[1..], tail, link, |trace|)
      ensures !ok ==> trace == goal
    {
      ghost var t := trace;
      StageStep(t, rest, tail, link);
      GpioWrite(DataCommand, dc);
      var result := SpiSend(bytes, SPI_TIMEOUT);
      assert trace == t + [Write(DataCommand, dc), Send(bytes, SPI_TIMEOUT, link(|t| + 1))];
      if result < 0 {
        GpioWrite(ChipSelect, High);
        return false;
      }
      assert |trace| == |t| + 2;
      return true;
    }

    /** Clips the rectangle to the panel, programs the window, builds one row of the
        colour, sends it once per window row and releases chip-select. */
    method FillRect(x: u16, y: u16, width: u16, height: u16, color: Color)
      modifies this
      ensures trace == old(trace) + FillEvents(x, y, width, height, color, link, |old(trace)|)
    {
      if x as int >= PANEL_WIDTH || y as int >= PANEL_HEIGHT {
        assert FillEvents(x, y, width, height, color, link, |trace|) == [];
        return;
      }
      var x2 := Min(PANEL_WIDTH - 1, x as int + width as int - 1);
      var y2 := Min(PANEL_HEIGHT - 1, y as int + height as int - 1);
      if x as int > x2 || y as int > y2 {
        assert FillEvents(x, y, width, height, color, link, |trace|) == [];
        return;
      }
      ghost var t0 := trace;
      ghost var r := Region(x, y, x2 as u16, y2 as u16);
      FillOfClip(x, y, width, height, r, color, link, |t0|);
      DefineRegion(x, y, x2 as u16, y2 as u16, 1);
      ghost var t1 := trace;
      var line := RowBuffer(color, x2 - x as int + 1);
      SendRows(line, y as int, y2);
      ghost var t2 := trace;
      GpioWrite(ChipSelect, High);
      WindowFillSplit(t0, t1, t2, trace, r, line[..], link);
    }

    /** Sends the row buffer once for each row from `y1` to `y2`, ignoring the
        transport's answers. */
    method SendRows(line: array<byte>, y1: int, y2: int)
      requires y1 <= y2 + 1
      modifies this
      ensures trace == old(trace) + RowEvents(line[..], y2 - y1 + 1, link, |old(trace)|)
    {
      ghost var t1 := trace;
      var cy := y1;
      while cy <= y2
        invariant y1 <= cy <= y2 + 1
        invariant trace == t1 + RowEvents(line[..], cy - y1, link, |t1|)
      {
        RowEventsSnoc(line[..], cy - y1, link, |t1|);
        assert |trace| == |t1| + (cy - y1);
        var _ := SpiSend(line[..], ROW_TIMEOUT);
        cy := cy + 1;
      }
    }

    /** Full bring-up: bus, reset pulse, configuration, a 100 ms pause and a cyan
        fill of the whole panel. */
    method Init()
      modifies this
      ensures trace == old(trace) + InitEvents(link, |old(trace)|)
    {
      ghost var t0 := trace;
      BusInit();
      HwReset();
      ghost var t1 := trace;
      HwInit();
      ghost var t2 := trace;
      Delay(100);
      ghost var t3 := trace;
      PreludeSplit(t0, t1, t2, t3, link);
      FillRect(0, 0, PANEL_WIDTH as u16, PANEL_HEIGHT as u16, CYAN);
      InitAfterPrelude(t0, t3, trace, link);
    }

    /** Closes the panel's bus. */
    method Cleanup()
      modifies this
      ensures trace == old(trace) + [BusClose(LCD_BUS)]
    {
      SpiClose(LCD_BUS);
    }
  }

  /** Bring-up up to the fill, as its three calls and the pause leave it. */
  lemma PreludeSplit(t0: seq<Event>, t1: seq<Event>, t2: seq<Event>, t3: seq<Event>, link: Link)
    requires t1 == t0 + BusInitEvents() + ResetEvents()
    requires t2 == t1 + CommandsEvents(InitSequence(), link, |t1|)
    requires t3 == t2 + [Event.Delay(100)]
    ensures t3 == t0 + PreludeEvents(link, |t0|)
  {
    var setup, config := SetupEvents(), ConfigEvents(link, |t0|);
    SeqAssoc(t0, BusInitEvents(), ResetEvents());
    assert |t1| == ConfigStart(|t0|);
    assert t2 == t0 + setup + config;
    Append3(t0, setup, config, [Event.Delay(100)]);
  }

  /** Bring-up as the prelude and the fill after it. */
  lemma InitAfterPrelude(t0: seq<Event>, t3: seq<Event>, t4: seq<Event>, link: Link)
    requires t3 == t0 + PreludeEvents(link, |t0|)
    requires t4 == t3 + FillEvents(0, 0, PANEL_WIDTH as u16, PANEL_HEIGHT as u16, CYAN, link, |t3|)
    ensures t4 == t0 + InitEvents(link, |t0|)
  {
    assert |t3| == FillStart(link, |t0|);
    SeqAssoc(t0, PreludeEvents(link, |t0|), FillEvents(0, 0, PANEL_WIDTH as u16, PANEL_HEIGHT as u16, CYAN, link, FillStart(link, |t0|)));
  }

  lemma Append3<T>(t: seq<T>, a: seq<T>, b: seq<T>, c: seq<T>)
    ensures t + a + b + c == t + (a + b + c)
  {
  }

  /** A fill whose clipped window is `r` fills `r` with a row of the colour as
      wide as `r`. */
  lemma FillOfClip(x: u16, y: u16, width: u16, height: u16, r: Region, color: Color, link: Link, p: nat)
    requires Clip(x, y, width, height) == Some(r)
    ensures r.x1 <= r.x2 && r.y1 <= r.y2
    ensures FillEvents(x, y, width, height, color, link, p) == WindowFillEvents(r, RowBytes(color, Cols(r)), link, p)
  {
  }

  /** A window fill as window programming, the row transfers and the release of
      chip-select. */
  lemma WindowFillSplit(t0: seq<Event>, t1: seq<Event>, t2: seq<Event>, t3: seq<Event>, r: Region, row: seq<byte>, link: Link)
    requires r.y1 <= r.y2
    requires t1 == t0 + RegionEvents(r.x1, r.y1, r.x2, r.y2, 1, link, |t0|)
    requires t2 == t1 + RowEvents(row, Rows(r), link, |t1|)
    requires t3 == t2 + [Write(ChipSelect, High)]
    ensures t3 == t0 + WindowFillEvents(r, row, link, |t0|)
  {
    assert |t1| == StreamStart(r, link, |t0|);
    SeqAssoc(t1, RowEvents(row, Rows(r), link, |t1|), [Write(ChipSelect, High)]);
    SeqAssoc(t0, RegionEvents(r.x1, r.y1, r.x2, r.y2, 1, link, |t0|), StreamEvents(row, Rows(r), link, |t1|));
  }

  /** The row buffer of a fill: `cols` pixels of `color`, high byte first, written
      two bytes per pass. */
  method RowBuffer(color: Color, cols: nat) returns (line: array<byte>)
    ensures fresh(line) && line[..] == RowBytes(color, cols)
  {
    var fill := [ColorHigh(color), ColorLow(color)];
    var length := cols * 2;
    line := new byte[length];
    var i := 0;
    while i < length
      invariant 0 <= i <= length && i % 2 == 0
      invariant forall j :: 0 <= j < i ==> line[j] == (if j % 2 == 0 then fill[0] else fill[1])
    {
      line[i] := fill[0];
      line[i + 1] := fill[1];
      i := i + 2;
    }
  }

  /** One more command of a list, issued where the previous ones ended, extends the
      issued prefix of the list by one. */
  lemma IssueNext(cmds: seq<Command>, t0: seq<Event>, t: seq<Event>, k: nat, op: byte, args: seq<byte>, link: Link)
    requires k < |cmds| && cmds[k].op == op && cmds[k].args == args
    requires t == t0 + CommandsEvents(cmds[..k], link, |t0|)
    ensures t + CommandEvents(op, args, link, |t|) == t0 + CommandsEvents(cmds[..k + 1], link, |t0|)
  {
    PrefixStep(cmds, k, link, |t0|);
    assert CommandsEnd(cmds[..k], link, |t0|) == |t|;
    SeqAssoc(t0, CommandsEvents(cmds[..k], link, |t0|), CommandEvents(op, args, link, |t|));
  }

  /** One stage of a chain, seen from the trace position where it starts: when its
      transfer gets through the chain goes on two events later; otherwise the
      stage ends with the release of chip-select. */
  lemma StageStep(t: seq<Event>, rest: seq<Stage>, tail: seq<Event>, link: Link)
    requires rest != []
    ensures var e := [Write(DataCommand, rest[0].dc), Send(rest[0].bytes, SPI_TIMEOUT, link(|t| + 1))];
            && (link(|t| + 1) ==> t + StagedEvents(rest, tail, link, |t|) == (t + e) + StagedEvents(rest[1..], tail, link, |t| + 2))
            && (!link(|t| + 1) ==> t + StagedEvents(rest, tail, link, |t|) == t + e + [Write(ChipSelect, High)])
  {
  }
}
