/** The PicoCalc display bring-up: bus and pin set-up, the hardware reset pulse,
    the fixed controller configuration, and the first full-panel fill. */
module LcdBringUp {
  import opened Ints
  import opened Wire
  import opened LcdHeader
  import opened LcdEvents

  /** The SPI set-up the driver asks for: bus 1, mode 0, 50 MHz, most significant
      bit first, MISO 12, MOSI 11, SCK 10, no pull. */
  const LCD_BUS_CONFIG: BusConfig := BusConfig(LCD_BUS, 0, BUS_SPEED, true, 12, 11, 10, false)

  /** The three control lines sit on three different GPIOs, none of them one of
      the bus pins the driver hands to the SPI set-up. */
  lemma ControlPinsDistinct()
    ensures forall a: Line, b: Line :: Gpio(a) == Gpio(b) ==> a == b
    ensures forall l: Line :: Gpio(l) != LCD_BUS_CONFIG.miso && Gpio(l) != LCD_BUS_CONFIG.mosi && Gpio(l) != LCD_BUS_CONFIG.sck
  {
  }

  /** Bus initialisation: the three control lines become outputs, are driven high,
      then the bus is set up. */
  function BusInitEvents(): seq<Event>
  {
    [SetOutput(ChipSelect), SetOutput(Reset), SetOutput(DataCommand),
     Write(ChipSelect, High), Write(Reset, High), Write(DataCommand, High),
     BusSetup(LCD_BUS_CONFIG)]
  }

  /** The hardware reset pulse. */
  function ResetEvents(): seq<Event>
  {
    [Write(Reset, High), Delay(10), Write(Reset, Low), Delay(10), Write(Reset, High), Delay(200)]
  }

  /** Every control line is configured as an output before it is first driven. */
  ghost predicate OutputsBeforeWrites(es: seq<Event>)
  {
    forall j :: 0 <= j < |es| && es[j].Write? ==> SetOutput(es[j].line) in es[..j]
  }

  /** Prefixing events keeps every earlier configuration in place. */
  lemma OutputsBeforeWritesAppend(a: seq<Event>, b: seq<Event>)
    requires OutputsBeforeWrites(a)
    requires forall j :: 0 <= j < |b| && b[j].Write? ==> SetOutput(b[j].line) in a
    ensures OutputsBeforeWrites(a + b)
  {
    forall j | 0 <= j < |a + b| && (a + b)[j].Write?
      ensures SetOutput((a + b)[j].line) in (a + b)[..j]
    {
      if j < |a| {
        assert (a + b)[..j] == a[..j];
      } else {
        assert (a + b)[j] == b[j - |a|];
        assert SetOutput(b[j - |a|].line) in a;
        assert (a + b)[..j] == a + b[..j - |a|];
      }
    }
  }

  /** Bus initialisation configures each line before driving it and leaves the link
      idle: every line high and no command open. */
  lemma BusInitOutcome(w: Wire)
    ensures OutputsBeforeWrites(BusInitEvents())
    ensures Decode(w, BusInitEvents()) ==
            w.(cs := High, dc := High, rst := High, open := None, received := w.received + Flush(w.open))
  {
    var es := BusInitEvents();
    assert es == [es[0], es[1], es[2]] + [es[3], es[4], es[5]] + [es[6]];
    DecodeAppend(w, [es[0], es[1], es[2]] + [es[3], es[4], es[5]], [es[6]]);
    DecodeAppend(w, [es[0], es[1], es[2]], [es[3], es[4], es[5]]);
    DecodeThree(w, es[0], es[1], es[2]);
    DecodeThree(Decode(w, [es[0], es[1], es[2]]), es[3], es[4], es[5]);
    DecodeOne(Decode(w, [es[0], es[1], es[2]] + [es[3], es[4], es[5]]), es[6]);
    assert es[..3] == [SetOutput(ChipSelect), SetOutput(Reset), SetOutput(DataCommand)];
    forall j | 0 <= j < |es| && es[j].Write?
      ensures SetOutput(es[j].line) in es[..j]
    {
      assert j >= 3;
      assert es[..3] == es[..j][..3];
    }
  }

  /** The milliseconds spent waiting while the reset line is low, starting with the
      line at `rst`. */
  function ResetLowTime(es: seq<Event>, rst: Level): nat
  {
    if es == [] then 0
    else
      var e := es[0];
      var next := if e.Write? && e.line == Reset then e.level else rst;
      (if e.Delay? && rst == Low then e.ms else 0) + ResetLowTime(es[1..], next)
  }

  /** The reset pulse holds the reset line low for 10 ms, leaves it released, waits
      200 ms after the release and changes nothing else. */
  lemma ResetPulse(w: Wire, rst: Level)
    ensures ResetLowTime(ResetEvents(), rst) == 10
    ensures ResetEvents()[4..] == [Write(Reset, High), Delay(200)]
    ensures Decode(w, ResetEvents()) == w.(rst := High)
  {
    var es := ResetEvents();
    assert es == [es[0], es[1], es[2]] + [es[3], es[4], es[5]];
    DecodeAppend(w, [es[0], es[1], es[2]], [es[3], es[4], es[5]]);
    DecodeThree(w, es[0], es[1], es[2]);
    DecodeThree(Decode(w, [es[0], es[1], es[2]]), es[3], es[4], es[5]);
    assert es[1..][1..][1..][1..][1..][1..] == [];
  }

  /** The fixed configuration sequence, in the order the driver issues it. */
  function InitSequence(): seq<Command>
  {
    [Command(Code(PGAMCTRL), [0x00, 0x03, 0x09, 0x08, 0x16, 0x0A, 0x3F, 0x78, 0x4C, 0x09, 0x0A, 0x08, 0x16, 0x1A, 0x0F]),
     Command(Code(NGAMCTRL), [0x00, 0x16, 0x19, 0x03, 0x0F, 0x05, 0x32, 0x45, 0x46, 0x04, 0x0E, 0x0D, 0x35, 0x37, 0x0F]),
     Command(Code(PWCTRL1), [0x17, 0x15]),
     Command(Code(PWCTRL2), [0x41]),
     Command(Code(VMCTRL), [0x00, 0x12, 0x80]),
     Command(Code(MADCTL), [0x48]),
     Command(Code(COLMOD), [0x05]),
     Command(Code(IFMODE), [0x00]),
     Command(Code(FRMCTR1), [0x0E]),
     Command(Code(INVOFF), []),
     Command(Code(DISCTRL), [0x02, 0x02, 0x3B]),
     Command(Code(ETMOD), [0xC6]),
     Command(Code(SETIMAGE), [0x00]),
     Command(Code(SLPOUT), []),
     Command(Code(DISPON), [])]
  }

  /** The configuration selects 16 bits per pixel on the MCU interface (the low
      three bits of the pixel-format argument are 0b101), which is the two bytes
      per pixel the row buffer carries; it sends inversion-off; it ends by leaving
      sleep and switching the display on. */
  lemma InitSequenceSettings()
    ensures |InitSequence()| == 15
    ensures InitSequence()[6].op == Code(COLMOD) && InitSequence()[6].args[0] % 8 == 5
    ensures Command(Code(INVOFF), []) in InitSequence()
    ensures InitSequence()[13..] == [Command(Code(SLPOUT), []), Command(Code(DISPON), [])]
  {
  }

  /** The trace position just after a command call started at `p`. */
  function CommandEnd(op: byte, args: seq<byte>, link: Link, p: nat): nat
  {
    p + |CommandEvents(op, args, link, p)|
  }

  /** Issuing a list of commands one after the other; a failed command does not
      stop the next ones. */
  function CommandsEvents(cmds: seq<Command>, link: Link, p: nat): seq<Event>
    decreases |cmds|
  {
    if cmds == [] then []
    else
      CommandEvents(cmds[0].op, cmds[0].args, link, p) + CommandsEvents(cmds[1..], link, CommandEnd(cmds[0].op, cmds[0].args, link, p))
  }

  /** What the controller completes from each command of the list, in order. */
  function CommandsDelivered(cmds: seq<Command>, link: Link, p: nat): seq<Command>
    decreases |cmds|
  {
    if cmds == [] then []
    else
      Delivered(cmds[0].op, cmds[0].args, link, p) + CommandsDelivered(cmds[1..], link, CommandEnd(cmds[0].op, cmds[0].args, link, p))
  }

  /** The first command of a list, then the rest. */
  lemma CommandsUnfold(cmds: seq<Command>, link: Link, p: nat)
    requires cmds != []
    ensures var q := CommandEnd(cmds[0].op, cmds[0].args, link, p);
            && CommandsEvents(cmds, link, p) == CommandEvents(cmds[0].op, cmds[0].args, link, p) + CommandsEvents(cmds[1..], link, q)
            && CommandsDelivered(cmds, link, p) == Delivered(cmds[0].op, cmds[0].args, link, p) + CommandsDelivered(cmds[1..], link, q)
  {
  }

  /** The trace position just after a list of commands started at `p`. */
  function CommandsEnd(cmds: seq<Command>, link: Link, p: nat): nat
  {
    p + |CommandsEvents(cmds, link, p)|
  }

  /** Issuing a list and then one more command is issuing the longer list. */
  lemma {:induction false} CommandsSnoc(cmds: seq<Command>, c: Command, link: Link, p: nat)
    ensures CommandsEvents(cmds + [c], link, p) ==
            CommandsEvents(cmds, link, p) + CommandEvents(c.op, c.args, link, CommandsEnd(cmds, link, p))
    decreases |cmds|
  {
    if cmds == [] {
      assert [c][1..] == [];
      assert cmds + [c] == [c];
    } else {
      var first := CommandEvents(cmds[0].op, cmds[0].args, link, p);
      var q := CommandEnd(cmds[0].op, cmds[0].args, link, p);
      assert (cmds + [c])[0] == cmds[0];
      assert (cmds + [c])[1..] == cmds[1..] + [c];
      CommandsUnfold(cmds + [c], link, p);
      CommandsUnfold(cmds, link, p);
      CommandsSnoc(cmds[1..], c, link, q);
      assert CommandsEnd(cmds[1..], link, q) == CommandsEnd(cmds, link, p);
      SeqAssoc(first, CommandsEvents(cmds[1..], link, q),
               CommandEvents(c.op, c.args, link, CommandsEnd(cmds, link, p)));
    }
  }

  /** The first k + 1 commands of a list are the first k and then command k. */
  lemma PrefixStep(cmds: seq<Command>, k: nat, link: Link, p: nat)
    requires k < |cmds|
    ensures CommandsEvents(cmds[..k + 1], link, p) ==
            CommandsEvents(cmds[..k], link, p) + CommandEvents(cmds[k].op, cmds[k].args, link, CommandsEnd(cmds[..k], link, p))
  {
    assert cmds[..k] + [cmds[k]] == cmds[..k + 1];
    CommandsSnoc(cmds[..k], cmds[k], link, p);
  }

  /** Starting with no command open, a list of commands leaves the controller
      deselected with nothing open and adds what each command delivered. */
  lemma {:induction false} CommandsOutcome(w: Wire, cmds: seq<Command>, link: Link, p: nat)
    requires w.open == None
    ensures var v := Decode(w, CommandsEvents(cmds, link, p));
            && v.open == None && v.rst == w.rst && v.stray == w.stray
            && (cmds != [] ==> v.cs == High)
            && v.received == w.received + CommandsDelivered(cmds, link, p)
    decreases |cmds|
  {
    if cmds == [] {
      assert w.received + [] == w.received;
    } else {
      var c := cmds[0];
      var q := CommandEnd(cmds[0].op, cmds[0].args, link, p);
      var first := CommandEvents(c.op, c.args, link, p);
      var rest := CommandsEvents(cmds[1..], link, q);
      CommandsUnfold(cmds, link, p);
      DecodeAppend(w, first, rest);
      CommandOutcome(w, c.op, c.args, link, p);
      var w1 := Decode(w, first);
      CommandsOutcome(w1, cmds[1..], link, q);
      var v := Decode(w1, rest);
      var d, ds := Delivered(c.op, c.args, link, p), CommandsDelivered(cmds[1..], link, q);
      assert Decode(w, CommandsEvents(cmds, link, p)) == v;
      assert v.open == None && v.rst == w.rst && v.stray == w.stray && v.cs == High;
      assert w.received + Flush(w.open) == w.received;
      assert w1.received == w.received + d;
      assert v.received == w1.received + ds;
      SeqAssoc(w.received, d, ds);
    }
  }

  lemma SeqAssoc<T>(a: seq<T>, b: seq<T>, c: seq<T>)
    ensures (a + b) + c == a + (b + c)
  {
  }

  /** When every transfer of a list of commands gets through, the controller has
      received exactly the list. */
  lemma {:induction false} AllCommandsDelivered(cmds: seq<Command>, link: Link, p: nat)
    requires AllDelivered(CommandsEvents(cmds, link, p))
    ensures CommandsDelivered(cmds, link, p) == cmds
    decreases |cmds|
  {
    if cmds != [] {
      var c := cmds[0];
      var q := CommandEnd(cmds[0].op, cmds[0].args, link, p);
      var first := CommandEvents(c.op, c.args, link, p);
      var rest := CommandsEvents(cmds[1..], link, q);
      CommandsUnfold(cmds, link, p);
      AllDeliveredAppend(first, rest);
      CommandFraming(c.op, c.args, link, p);
      AllCommandsDelivered(cmds[1..], link, q);
      assert cmds == [c] + cmds[1..];
    }
  }

  /** A list of commands touches only chip-select and data/command and waits for
      nothing: the configuration issues no delay, not even after leaving sleep or
      switching the display on. */
  lemma {:induction false} CommandsOnlyFrame(cmds: seq<Command>, link: Link, p: nat)
    ensures forall e :: e in CommandsEvents(cmds, link, p) ==>
              (e.Write? && e.line != Reset) || e.Send?
    decreases |cmds|
  {
    if cmds != [] {
      CommandsOnlyFrame(cmds[1..], link, CommandEnd(cmds[0].op, cmds[0].args, link, p));
    }
  }

  /** Bus initialisation and the reset pulse. */
  function SetupEvents(): seq<Event>
  {
    BusInitEvents() + ResetEvents()
  }

  /** The configuration commands, issued right after the set-up. */
  function ConfigEvents(link: Link, p: nat): seq<Event>
  {
    CommandsEvents(InitSequence(), link, ConfigStart(p))
  }

  /** The trace position of the first configuration command. */
  function ConfigStart(p: nat): nat
  {
    p + |SetupEvents()|
  }

  /** Everything bring-up does before the first fill. */
  function PreludeEvents(link: Link, p: nat): seq<Event>
  {
    SetupEvents() + ConfigEvents(link, p) + [Delay(100)]
  }

  /** Full bring-up: bus initialisation, reset pulse, configuration, 100 ms pause,
      and a cyan fill of the whole panel. */
  function InitEvents(link: Link, p: nat): seq<Event>
  {
    PreludeEvents(link, p) + FillEvents(0, 0, PANEL_WIDTH as u16, PANEL_HEIGHT as u16, CYAN, link, FillStart(link, p))
  }

  /** The trace position of the first event of the bring-up fill. */
  function FillStart(link: Link, p: nat): nat
  {
    p + |PreludeEvents(link, p)|
  }

  /** Before the fill, the controller is deselected and out of reset with nothing
      open, and has received what each configuration command delivered. */
  lemma PreludeOutcome(w: Wire, link: Link, p: nat)
    ensures var v := Decode(w, PreludeEvents(link, p));
            && v.cs == High && v.rst == High && v.open == None && v.stray == w.stray
            && v.received == w.received + Flush(w.open) + CommandsDelivered(InitSequence(), link, ConfigStart(p))
  {
    var setup := SetupEvents();
    var config := ConfigEvents(link, p);
    DecodeAppend(w, BusInitEvents(), ResetEvents());
    BusInitOutcome(w);
    var w1 := Decode(w, BusInitEvents());
    ResetPulse(w1, High);
    var w2 := Decode(w, setup);
    assert w2 == w1.(rst := High);
    CommandsOutcome(w2, InitSequence(), link, ConfigStart(p));
    DecodeAppend(w, setup, config);
    var w3 := Decode(w2, config);
    DecodeAppend(w, setup + config, [Delay(100)]);
    DecodeOne(w3, Delay(100));
    assert PreludeEvents(link, p) == setup + config + [Delay(100)];
    assert Decode(w, PreludeEvents(link, p)) == w3;
    assert w2.open == None && w2.rst == High && w2.stray == w.stray;
    assert w2.received == w.received + Flush(w.open);
  }

  /** When every transfer before the fill gets through, the controller has received
      the whole configuration. */
  lemma PreludeDelivered(link: Link, p: nat)
    requires AllDelivered(PreludeEvents(link, p))
    ensures CommandsDelivered(InitSequence(), link, ConfigStart(p)) == InitSequence()
  {
    AllDeliveredAppend(SetupEvents() + ConfigEvents(link, p), [Delay(100)]);
    AllDeliveredAppend(SetupEvents(), ConfigEvents(link, p));
    AllCommandsDelivered(InitSequence(), link, ConfigStart(p));
  }

  /** Bring-up ends with the controller deselected, out of reset, with nothing open,
      whatever the transport answered. */
  lemma InitFraming(w: Wire, link: Link, p: nat)
    ensures var v := Decode(w, InitEvents(link, p));
            v.cs == High && v.rst == High && v.open == None
  {
    assert Clip(0, 0, PANEL_WIDTH as u16, PANEL_HEIGHT as u16) == Some(Region(0, 0, 319, 319));
    PreludeOutcome(w, link, p);
    AfterFillFraming(w, PreludeEvents(link, p), 0, 0, PANEL_WIDTH as u16, PANEL_HEIGHT as u16, CYAN, link, FillStart(link, p));
  }

  /** When every transfer of bring-up gets through, the controller has received the
      configuration and then the three commands of a full-panel cyan fill. */
  lemma InitDelivered(w: Wire, link: Link, p: nat)
    requires AllDelivered(InitEvents(link, p))
    ensures var v := Decode(w, InitEvents(link, p));
            && v.stray == w.stray
            && v.received == w.received + Flush(w.open) + InitSequence() +
                 [Command(Code(CASET), Coords(0, 319)), Command(Code(PASET), Coords(0, 319)),
                  Command(Code(RAMWR), RowBytes(CYAN, Area(Region(0, 0, 319, 319))))]
  {
    InitSplit(w, link, p);
    PreludeOutcome(w, link, p);
    PreludeDelivered(link, p);
    var u := Decode(w, PreludeEvents(link, p));
    assert u.received == w.received + Flush(w.open) + InitSequence();
    assert u.received + Flush(u.open) == u.received;
  }

  /** Bring-up splits into the prelude and the fill: when every transfer gets
      through, both parts are delivered, and the fill adds its three commands to
      what the prelude left. */
  lemma InitSplit(w: Wire, link: Link, p: nat)
    requires AllDelivered(InitEvents(link, p))
    ensures AllDelivered(PreludeEvents(link, p))
    ensures var v := Decode(w, InitEvents(link, p));
            var u := Decode(w, PreludeEvents(link, p));
            && v.stray == u.stray
            && v.received == u.received + Flush(u.open) +
                 [Command(Code(CASET), Coords(0, 319)), Command(Code(PASET), Coords(0, 319)),
                  Command(Code(RAMWR), RowBytes(CYAN, Area(Region(0, 0, 319, 319))))]
  {
    assert Clip(0, 0, PANEL_WIDTH as u16, PANEL_HEIGHT as u16) == Some(Region(0, 0, 319, 319));
    AfterFillDelivered(w, PreludeEvents(link, p), 0, 0, PANEL_WIDTH as u16, PANEL_HEIGHT as u16, CYAN, link, FillStart(link, p));
  }

  /** A fill that is not clipped away, after any events, leaves the controller
      deselected with nothing open and the reset line where it was. */
  lemma AfterFillFraming(w: Wire, before: seq<Event>, x: u16, y: u16, width: u16, height: u16, color: Color, link: Link, q: nat)
    requires Clip(x, y, width, height).Some?
    ensures var u := Decode(w, before);
            var v := Decode(w, before + FillEvents(x, y, width, height, color, link, q));
            v.cs == High && v.open == None && v.rst == u.rst
  {
    DecodeAppend(w, before, FillEvents(x, y, width, height, color, link, q));
    FillFraming(Decode(w, before), x, y, width, height, color, link, q);
  }

  /** A fill after any events, every transfer of which gets through, adds its three
      commands to what the controller has received. */
  lemma AfterFillDelivered(w: Wire, before: seq<Event>, x: u16, y: u16, width: u16, height: u16, color: Color, link: Link, q: nat)
    requires Clip(x, y, width, height).Some?
    requires AllDelivered(before + FillEvents(x, y, width, height, color, link, q))
    ensures var u := Decode(w, before);
            var v := Decode(w, before + FillEvents(x, y, width, height, color, link, q));
            var r := Clip(x, y, width, height).value;
            && AllDelivered(before)
            && v.stray == u.stray
            && v.received == u.received + Flush(u.open) +
                 [Command(Code(CASET), Coords(r.x1, r.x2)), Command(Code(PASET), Coords(r.y1, r.y2)),
                  Command(Code(RAMWR), RowBytes(color, Area(r)))]
  {
    DecodeAppend(w, before, FillEvents(x, y, width, height, color, link, q));
    AllDeliveredAppend(before, FillEvents(x, y, width, height, color, link, q));
    FillDelivered(Decode(w, before), x, y, width, height, color, link, q);
  }

  /** Whatever follows the set-up, every control line has been configured as an
      output before it is first driven. */
  lemma SetupConfiguresLinesFirst(rest: seq<Event>)
    ensures OutputsBeforeWrites(SetupEvents() + rest)
  {
    var setup := SetupEvents();
    BusInitOutcome(PowerOn(High, High, High));
    assert setup[0] == SetOutput(ChipSelect) && setup[1] == SetOutput(Reset) && setup[2] == SetOutput(DataCommand);
    OutputsBeforeWritesAppend(BusInitEvents(), ResetEvents());
    forall j | 0 <= j < |rest| && rest[j].Write?
      ensures SetOutput(rest[j].line) in setup
    {
      assert rest[j].line == ChipSelect || rest[j].line == DataCommand || rest[j].line == Reset;
    }
    OutputsBeforeWritesAppend(setup, rest);
  }

  /** Whatever follows the configuration, every control line has been configured
      as an output before it is first driven. */
  lemma PreludeConfiguresLinesFirst(link: Link, p: nat, rest: seq<Event>)
    ensures OutputsBeforeWrites(PreludeEvents(link, p) + rest)
  {
    var config := ConfigEvents(link, p) + [Delay(100)];
    SeqAssoc(SetupEvents(), ConfigEvents(link, p), [Delay(100)]);
    SeqAssoc(SetupEvents(), config, rest);
    SetupConfiguresLinesFirst(config + rest);
  }

  /** Bring-up configures every control line as an output before it first drives it. */
  lemma InitConfiguresLinesFirst(link: Link, p: nat)
    ensures OutputsBeforeWrites(InitEvents(link, p))
  {
    PreludeConfiguresLinesFirst(link, p, FillEvents(0, 0, PANEL_WIDTH as u16, PANEL_HEIGHT as u16, CYAN, link, FillStart(link, p)));
  }
}
