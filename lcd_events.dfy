/** The side effects of each routine of the PicoCalc display driver, as lists of
    events, and what the controller receives from them.

    Every function here takes the transport's answers as `link` and the position
    `p` in the driver's trace at which the routine starts: the transfer that
    becomes event number `i` of the trace succeeds exactly when `link(i)`. */
module LcdEvents {
  import opened Ints
  import opened Wire
  import opened LcdHeader

  const PANEL_WIDTH: int := 320
  const PANEL_HEIGHT: int := 320
  const LCD_BUS: nat := 1
  const SPI_TIMEOUT: nat := 1000
  const ROW_TIMEOUT: nat := 5000
  const BUS_SPEED: nat := 50_000_000

  /** The transport's answer for the transfer at each trace position. */
  type Link = nat -> bool

  // ---------------------------------------------------------------------------
  // Command framing
  // ---------------------------------------------------------------------------

  /** One command call: DC low, CS low, the opcode byte; then, only if the opcode
      went out and there are arguments, DC high and the arguments in one transfer;
      CS high on every way out. */
  function CommandEvents(op: byte, args: seq<byte>, link: Link, p: nat): seq<Event>
  {
    var opcode := [Write(DataCommand, Low), Write(ChipSelect, Low), Send([op], SPI_TIMEOUT, link(p + 2))];
    if !link(p + 2) || args == [] then
      opcode + [Write(ChipSelect, High)]
    else
      opcode + [Write(DataCommand, High), Send(args, SPI_TIMEOUT, link(p + 4)), Write(ChipSelect, High)]
  }

  /** What the controller completes from one command call: nothing if the opcode
      transfer failed, the bare opcode if only the argument transfer failed, and
      the whole command otherwise. */
  function Delivered(op: byte, args: seq<byte>, link: Link, p: nat): seq<Command>
  {
    if !link(p + 2) then []
    else if args != [] && !link(p + 4) then [Command(op, [])]
    else [Command(op, args)]
  }

  /** A command call sends nothing after a failed transfer, and every transfer of
      it gets through exactly when the controller receives the whole command. */
  lemma CommandFraming(op: byte, args: seq<byte>, link: Link, p: nat)
    ensures ReleasesOnFailure(CommandEvents(op, args, link, p))
    ensures AllDelivered(CommandEvents(op, args, link, p)) <==>
            Delivered(op, args, link, p) == [Command(op, args)]
  {
    var es := CommandEvents(op, args, link, p);
    assert es[2] == Send([op], SPI_TIMEOUT, link(p + 2));
    if !link(p + 2) || args == [] {
      assert es[3] == Write(ChipSelect, High) && |es| == 4;
      if link(p + 2) {
        assert forall i :: 0 <= i < |es| && es[i].Send? ==> i == 2;
      }
    } else {
      assert es[5] == Write(ChipSelect, High) && |es| == 6;
      assert es[4] == Send(args, SPI_TIMEOUT, link(p + 4));
      if AllDelivered(es) {
        assert es[4].ok;
      }
    }
  }

  /** A command call ends with chip-select released and no command open, whatever
      the transport answered; the controller completes what `Delivered` says. */
  lemma CommandOutcome(w: Wire, op: byte, args: seq<byte>, link: Link, p: nat)
    ensures var v := Decode(w, CommandEvents(op, args, link, p));
            && v.cs == High && v.rst == w.rst && v.open == None && v.stray == w.stray
            && v.dc == (if link(p + 2) && args != [] then High else Low)
            && v.received == w.received + Flush(w.open) + Delivered(op, args, link, p)
  {
    var es := CommandEvents(op, args, link, p);
    var w1 := Step(Step(w, Write(DataCommand, Low)), Write(ChipSelect, Low));
    var w2 := Step(w1, Send([op], SPI_TIMEOUT, link(p + 2)));
    DecodeAppend(w, es[..3], es[3..]);
    assert es[..3] == [Write(DataCommand, Low), Write(ChipSelect, Low), Send([op], SPI_TIMEOUT, link(p + 2))];
    DecodeThree(w, es[0], es[1], es[2]);
    if !link(p + 2) || args == [] {
      assert es[3..] == [Write(ChipSelect, High)];
      DecodeOne(w2, Write(ChipSelect, High));
    } else {
      var tail := [Write(DataCommand, High), Send(args, SPI_TIMEOUT, link(p + 4)), Write(ChipSelect, High)];
      assert es[3..] == tail;
      DecodeThree(w2, tail[0], tail[1], tail[2]);
      assert w2.open == Some(Command(op, [])) && w2.received == w.received + Flush(w.open);
      assert [] + args == args;
    }
  }

  // ---------------------------------------------------------------------------
  // Window programming
  // ---------------------------------------------------------------------------

  /** One step of a transaction that keeps chip-select low: drive data/command to
      `dc`, then send `bytes`. */
  datatype Stage = Stage(dc: Level, bytes: seq<byte>)

  /** A chain of stages with early exit: each stage drives DC and makes one
      transfer; a failed transfer is followed only by the release of chip-select;
      after the last stage come the `tail` events. */
  function StagedEvents(stages: seq<Stage>, tail: seq<Event>, link: Link, p: nat): seq<Event>
    decreases |stages|
  {
    if stages == [] then tail
    else
      [Write(DataCommand, stages[0].dc), Send(stages[0].bytes, SPI_TIMEOUT, link(p + 1))] +
      (if link(p + 1) then StagedEvents(stages[1..], tail, link, p + 2) else [Write(ChipSelect, High)])
  }

  /** Every transfer of the chain started at position `p` succeeds. */
  predicate StagesDelivered(stages: seq<Stage>, link: Link, p: nat)
    decreases |stages|
  {
    stages == [] || (link(p + 1) && StagesDelivered(stages[1..], link, p + 2))
  }

  /** What the selected controller makes of the stages when they all get through. */
  function Feed(w: Wire, stages: seq<Stage>): Wire
    decreases |stages|
  {
    if stages == [] then w else Feed(Receive(w.(dc := stages[0].dc), stages[0].bytes), stages[1..])
  }

  /** The transfers of a chain sit at every other position. */
  lemma {:induction false} StagesDeliveredAt(stages: seq<Stage>, link: Link, p: nat)
    ensures StagesDelivered(stages, link, p) <==> forall i :: 0 <= i < |stages| ==> link(p + 1 + 2 * i)
    decreases |stages|
  {
    if stages != [] {
      StagesDeliveredAt(stages[1..], link, p + 2);
      if forall i :: 0 <= i < |stages| ==> link(p + 1 + 2 * i) {
        assert link(p + 1 + 2 * 0);
        forall i | 0 <= i < |stages[1..]|
          ensures link(p + 2 + 1 + 2 * i)
        {
          assert link(p + 1 + 2 * (i + 1));
        }
      }
      if StagesDelivered(stages, link, p) {
        forall i | 0 <= i < |stages|
          ensures link(p + 1 + 2 * i)
        {
          if i > 0 {
            assert link(p + 2 + 1 + 2 * (i - 1));
          }
        }
      }
    }
  }

  /** Receiving bytes never touches the chip-select level or the stray count. */
  lemma ReceiveKeepsLevels(w: Wire, bytes: seq<byte>)
    ensures Receive(w, bytes).cs == w.cs && Receive(w, bytes).dc == w.dc
    ensures Receive(w, bytes).rst == w.rst && Receive(w, bytes).stray == w.stray
  {
  }

  /** The early-exit chain sends nothing after a failed transfer, and all of its
      transfers get through exactly when every stage's does and the tail's do. */
  lemma {:induction false} StagedFraming(stages: seq<Stage>, tail: seq<Event>, link: Link, p: nat)
    ensures ReleasesOnFailure(tail) ==> ReleasesOnFailure(StagedEvents(stages, tail, link, p))
    ensures AllDelivered(StagedEvents(stages, tail, link, p)) <==>
            StagesDelivered(stages, link, p) && AllDelivered(tail)
    decreases |stages|
  {
    var es := StagedEvents(stages, tail, link, p);
    if stages != [] {
      var s := stages[0];
      var head := [Write(DataCommand, s.dc), Send(s.bytes, SPI_TIMEOUT, link(p + 1))];
      var rest := if link(p + 1) then StagedEvents(stages[1..], tail, link, p + 2) else [Write(ChipSelect, High)];
      assert es == head + rest;
      AllDeliveredAppend(head, rest);
      if link(p + 1) {
        StagedFraming(stages[1..], tail, link, p + 2);
        assert AllDelivered(head);
        if ReleasesOnFailure(tail) {
          forall i | 0 <= i < |es| && es[i].Send? && !es[i].ok
            ensures i + 2 == |es| && es[i + 1] == Write(ChipSelect, High)
          {
            assert i >= 2 && es[i] == rest[i - 2];
            assert es[i + 1] == rest[i - 2 + 1];
          }
        }
      } else {
        assert !AllDelivered(es) by {
          assert es[1].Send? && !es[1].ok;
        }
        assert ReleasesOnFailure(es) by {
          assert es == [head[0], head[1], Write(ChipSelect, High)];
        }
      }
    }
  }

  /** With the controller selected, if every transfer of the chain gets through the
      controller sees the stages and then the tail; otherwise chip-select ends high,
      the last event is its release, and no command is left open. */
  lemma {:induction false} StagedOutcome(w: Wire, stages: seq<Stage>, tail: seq<Event>, link: Link, p: nat)
    requires w.cs == Low
    ensures var es := StagedEvents(stages, tail, link, p);
            StagesDelivered(stages, link, p) ==> Decode(w, es) == Decode(Feed(w, stages), tail)
    ensures var es := StagedEvents(stages, tail, link, p);
            !StagesDelivered(stages, link, p) ==>
              && |es| > 0 && es[|es| - 1] == Write(ChipSelect, High)
              && Decode(w, es).cs == High && Decode(w, es).open == None
              && Decode(w, es).stray == w.stray && Decode(w, es).rst == w.rst
    decreases |stages|
  {
    var es := StagedEvents(stages, tail, link, p);
    if stages != [] {
      var s := stages[0];
      var head := [Write(DataCommand, s.dc), Send(s.bytes, SPI_TIMEOUT, link(p + 1))];
      var rest := if link(p + 1) then StagedEvents(stages[1..], tail, link, p + 2) else [Write(ChipSelect, High)];
      assert es == head + rest;
      DecodeAppend(w, head, rest);
      DecodeTwo(w, head[0], head[1]);
      var w1 := Decode(w, head);
      if link(p + 1) {
        assert w1 == Receive(w.(dc := s.dc), s.bytes);
        ReceiveKeepsLevels(w.(dc := s.dc), s.bytes);
        StagedOutcome(w1, stages[1..], tail, link, p + 2);
      } else {
        DecodeOne(w1, Write(ChipSelect, High));
      }
    }
  }

  /** The two big-endian 16-bit bounds of an address-set command. */
  function Coords(a: u16, b: u16): (args: seq<byte>)
    ensures |args| == 4
  {
    [HighByte(a), LowByte(a), HighByte(b), LowByte(b)]
  }

  /** The controller reads the bounds back exactly as the driver meant them. */
  lemma CoordsRoundTrip(a: u16, b: u16)
    ensures Span(Coords(a, b)) == Some((a, b))
  {
    WordRoundTrip(a);
    WordRoundTrip(b);
  }

  /** The memory command that ends window programming: write when `write` is 1,
      read for every other value. */
  function MemoryCode(write: int): byte
  {
    if write == 1 then Code(RAMWR) else Code(RAMRD)
  }

  function RegionStages(x1: u16, y1: u16, x2: u16, y2: u16, write: int): seq<Stage>
  {
    [Stage(Low, [Code(CASET)]), Stage(High, Coords(x1, x2)),
     Stage(Low, [Code(PASET)]), Stage(High, Coords(y1, y2)),
     Stage(Low, [MemoryCode(write)])]
  }

  /** Window programming: chip-select low, then the five stages; on success the
      routine ends by driving DC high and leaves chip-select low. */
  function RegionEvents(x1: u16, y1: u16, x2: u16, y2: u16, write: int, link: Link, p: nat): seq<Event>
  {
    [Write(ChipSelect, Low)] + StagedEvents(RegionStages(x1, y1, x2, y2, write), [Write(DataCommand, High)], link, p + 1)
  }

  /** All five transfers of window programming get through. */
  predicate RegionDelivered(link: Link, p: nat)
  {
    link(p + 2) && link(p + 4) && link(p + 6) && link(p + 8) && link(p + 10)
  }

  /** The five transfers of window programming sit at positions p+2, p+4, ..., p+10. */
  lemma RegionDeliveredAt(x1: u16, y1: u16, x2: u16, y2: u16, write: int, link: Link, p: nat)
    ensures StagesDelivered(RegionStages(x1, y1, x2, y2, write), link, p + 1) <==> RegionDelivered(link, p)
  {
    var st := RegionStages(x1, y1, x2, y2, write);
    StagesDeliveredAt(st, link, p + 1);
    if link(p + 2) && link(p + 4) && link(p + 6) && link(p + 8) && link(p + 10) {
      forall i | 0 <= i < |st| ensures link(p + 1 + 1 + 2 * i) {
        assert i == 0 || i == 1 || i == 2 || i == 3 || i == 4;
      }
    }
    if StagesDelivered(st, link, p + 1) {
      assert link(p + 1 + 1 + 2 * 0) && link(p + 1 + 1 + 2 * 1) && link(p + 1 + 1 + 2 * 2);
      assert link(p + 1 + 1 + 2 * 3) && link(p + 1 + 1 + 2 * 4);
    }
  }

  /** The selected controller, fed the five stages, completes the two address
      commands and holds the memory command open. */
  lemma RegionFeed(w: Wire, x1: u16, y1: u16, x2: u16, y2: u16, write: int)
    requires w.cs == Low
    ensures var v := Feed(w, RegionStages(x1, y1, x2, y2, write));
            && v.cs == Low && v.dc == Low && v.rst == w.rst && v.stray == w.stray
            && v.open == Some(Command(MemoryCode(write), []))
            && v.received == w.received + Flush(w.open) +
                             [Command(Code(CASET), Coords(x1, x2)), Command(Code(PASET), Coords(y1, y2))]
  {
    var st := RegionStages(x1, y1, x2, y2, write);
    var f1 := Receive(w.(dc := Low), [Code(CASET)]);
    var f2 := Receive(f1.(dc := High), Coords(x1, x2));
    var f3 := Receive(f2.(dc := Low), [Code(PASET)]);
    var f4 := Receive(f3.(dc := High), Coords(y1, y2));
    var f5 := Receive(f4.(dc := Low), [MemoryCode(write)]);
    assert st[1..] == [st[1], st[2], st[3], st[4]];
    assert st[1..][1..] == [st[2], st[3], st[4]];
    assert st[1..][1..][1..] == [st[3], st[4]];
    assert st[1..][1..][1..][1..] == [st[4]];
    assert st[1..][1..][1..][1..][1..] == [];
    assert Feed(w, st) == Feed(f1, st[1..]);
    assert Feed(f1, st[1..]) == Feed(f2, st[1..][1..]);
    assert Feed(f2, st[1..][1..]) == Feed(f3, st[1..][1..][1..]);
    assert Feed(f3, st[1..][1..][1..]) == Feed(f4, st[1..][1..][1..][1..]);
    assert Feed(f4, st[1..][1..][1..][1..]) == f5;
    assert f1.received == w.received + Flush(w.open);
    assert f2.open == Some(Command(Code(CASET), [] + Coords(x1, x2)));
    assert [] + Coords(x1, x2) == Coords(x1, x2);
    assert f3.received == f1.received + [Command(Code(CASET), Coords(x1, x2))];
    assert [] + Coords(y1, y2) == Coords(y1, y2);
    assert f5.received == f3.received + [Command(Code(PASET), Coords(y1, y2))];
  }

  /** Window programming makes its five transfers at fixed positions. */
  lemma RegionAllDelivered(x1: u16, y1: u16, x2: u16, y2: u16, write: int, link: Link, p: nat)
    ensures AllDelivered(RegionEvents(x1, y1, x2, y2, write, link, p)) <==> RegionDelivered(link, p)
  {
    var st := RegionStages(x1, y1, x2, y2, write);
    var tail := [Write(DataCommand, High)];
    var staged := StagedEvents(st, tail, link, p + 1);
    StagedFraming(st, tail, link, p + 1);
    RegionDeliveredAt(x1, y1, x2, y2, write, link, p);
    AllDeliveredAppend([Write(ChipSelect, Low)], staged);
    assert AllDelivered(tail);
  }

  /** Window programming sends nothing after a transfer that fails, and releases
      chip-select right after it. */
  lemma RegionReleases(x1: u16, y1: u16, x2: u16, y2: u16, write: int, link: Link, p: nat)
    ensures ReleasesOnFailure(RegionEvents(x1, y1, x2, y2, write, link, p))
  {
    var st := RegionStages(x1, y1, x2, y2, write);
    var tail := [Write(DataCommand, High)];
    var es := RegionEvents(x1, y1, x2, y2, write, link, p);
    var staged := StagedEvents(st, tail, link, p + 1);
    StagedFraming(st, tail, link, p + 1);
    assert ReleasesOnFailure(es) by {
      assert ReleasesOnFailure(staged);
      forall i | 0 <= i < |es| && es[i].Send? && !es[i].ok
        ensures i + 2 == |es| && es[i + 1] == Write(ChipSelect, High)
      {
        assert es[i] == staged[i - 1];
        assert es[i + 1] == staged[i - 1 + 1];
      }
    }
  }

  /** When all five transfers of window programming get through, the controller has
      completed the column and page address commands with the given bounds, holds
      the memory command open, and stays selected with DC high ready for pixel
      data. */
  lemma RegionOutcome(w: Wire, x1: u16, y1: u16, x2: u16, y2: u16, write: int, link: Link, p: nat)
    requires RegionDelivered(link, p)
    ensures var es := RegionEvents(x1, y1, x2, y2, write, link, p);
            var v := Decode(w, es);
            && |es| == 12
            && v.cs == Low && v.dc == High && v.rst == w.rst && v.stray == w.stray
            && v.open == Some(Command(MemoryCode(write), []))
            && v.open.value.op == (if write == 1 then 0x2C else 0x2E)
            && v.received == w.received + Flush(w.open) +
                             [Command(Code(CASET), Coords(x1, x2)), Command(Code(PASET), Coords(y1, y2))]
  {
    WindowAndInversionOpcodes();
    var st := RegionStages(x1, y1, x2, y2, write);
    var tail := [Write(DataCommand, High)];
    var staged := StagedEvents(st, tail, link, p + 1);
    var w0 := w.(cs := Low);
    DecodeAppend(w, [Write(ChipSelect, Low)], staged);
    DecodeOne(w, Write(ChipSelect, Low));
    StagedOutcome(w0, st, tail, link, p + 1);
    RegionDeliveredAt(x1, y1, x2, y2, write, link, p);
    RegionFeed(w0, x1, y1, x2, y2, write);
    DecodeOne(Feed(w0, st), Write(DataCommand, High));
    StagedLength(st, tail, link, p + 1);
  }

  /** When a transfer of window programming fails, chip-select is released last
      and no command is left open. */
  lemma RegionFailure(w: Wire, x1: u16, y1: u16, x2: u16, y2: u16, write: int, link: Link, p: nat)
    requires !RegionDelivered(link, p)
    ensures var es := RegionEvents(x1, y1, x2, y2, write, link, p);
            var v := Decode(w, es);
            && es[|es| - 1] == Write(ChipSelect, High)
            && v.cs == High && v.open == None && v.rst == w.rst && v.stray == w.stray
  {
    var st := RegionStages(x1, y1, x2, y2, write);
    var tail := [Write(DataCommand, High)];
    var staged := StagedEvents(st, tail, link, p + 1);
    var w0 := w.(cs := Low);
    DecodeAppend(w, [Write(ChipSelect, Low)], staged);
    DecodeOne(w, Write(ChipSelect, Low));
    StagedOutcome(w0, st, tail, link, p + 1);
    RegionDeliveredAt(x1, y1, x2, y2, write, link, p);
  }

  /** A chain that gets through entirely is two events per stage and then the tail. */
  lemma {:induction false} StagedLength(stages: seq<Stage>, tail: seq<Event>, link: Link, p: nat)
    requires StagesDelivered(stages, link, p)
    ensures |StagedEvents(stages, tail, link, p)| == 2 * |stages| + |tail|
    decreases |stages|
  {
    if stages != [] {
      StagedLength(stages[1..], tail, link, p + 2);
    }
  }

  // ---------------------------------------------------------------------------
  // Row streaming
  // ---------------------------------------------------------------------------

  /** `n` transfers of the same row buffer with the row timeout; their outcomes are
      not looked at. */
  function RowEvents(row: seq<byte>, n: nat, link: Link, p: nat): (es: seq<Event>)
    ensures |es| == n
  {
    seq(n, i requires 0 <= i < n => Send(row, ROW_TIMEOUT, link(p + i)))
  }

  /** `n` copies of `row`, back to back. */
  function Repeat(row: seq<byte>, n: nat): (r: seq<byte>)
    ensures |r| == n * |row|
  {
    if n == 0 then [] else Repeat(row, n - 1) + row
  }

  /** The rows that get through, in order. */
  function DeliveredRows(row: seq<byte>, n: nat, link: Link, p: nat): seq<byte>
  {
    if n == 0 then [] else DeliveredRows(row, n - 1, link, p) + (if link(p + n - 1) then row else [])
  }

  lemma RowEventsSnoc(row: seq<byte>, n: nat, link: Link, p: nat)
    ensures RowEvents(row, n + 1, link, p) == RowEvents(row, n, link, p) + [Send(row, ROW_TIMEOUT, link(p + n))]
  {
  }

  /** Streaming rows into the open memory command appends the rows that get
      through to its data; a failed row is skipped and the next one is sent. */
  lemma {:induction false} RowsOutcome(w: Wire, row: seq<byte>, n: nat, link: Link, p: nat)
    requires w.cs == Low && w.dc == High && w.open.Some?
    ensures Decode(w, RowEvents(row, n, link, p)) ==
            w.(open := Some(Command(w.open.value.op, w.open.value.args + DeliveredRows(row, n, link, p))))
  {
    if n == 0 {
      assert w.open.value.args + [] == w.open.value.args;
    } else {
      RowsOutcome(w, row, n - 1, link, p);
      RowEventsSnoc(row, n - 1, link, p);
      var e := Send(row, ROW_TIMEOUT, link(p + n - 1));
      DecodeAppend(w, RowEvents(row, n - 1, link, p), [e]);
      var prev := Decode(w, RowEvents(row, n - 1, link, p));
      DecodeOne(prev, e);
      var c := w.open.value;
      assert prev.cs == Low && prev.dc == High && prev.open == Some(Command(c.op, c.args + DeliveredRows(row, n - 1, link, p)));
      assert c.args + DeliveredRows(row, n, link, p) ==
             (c.args + DeliveredRows(row, n - 1, link, p)) + (if link(p + n - 1) then row else []);
      if link(p + n - 1) {
        assert Step(prev, e) == Receive(prev, row);
      } else {
        assert Step(prev, e) == prev;
        assert DeliveredRows(row, n, link, p) == DeliveredRows(row, n - 1, link, p);
      }
    }
  }

  /** Rows streamed while the controller is not selected reach nothing: only the
      stray count moves. */
  lemma {:induction false} RowsUnselected(w: Wire, row: seq<byte>, n: nat, link: Link, p: nat)
    requires w.cs == High
    ensures var v := Decode(w, RowEvents(row, n, link, p));
            v.(stray := w.stray) == w && v.stray >= w.stray
  {
    if n > 0 {
      RowsUnselected(w, row, n - 1, link, p);
      RowEventsSnoc(row, n - 1, link, p);
      DecodeAppend(w, RowEvents(row, n - 1, link, p), [Send(row, ROW_TIMEOUT, link(p + n - 1))]);
      DecodeOne(Decode(w, RowEvents(row, n - 1, link, p)), Send(row, ROW_TIMEOUT, link(p + n - 1)));
    }
  }

  /** When every row gets through, the controller receives all `n` rows. */
  lemma {:induction false} AllRowsDelivered(row: seq<byte>, n: nat, link: Link, p: nat)
    ensures AllDelivered(RowEvents(row, n, link, p)) <==> forall i :: p <= i < p + n ==> link(i)
    ensures AllDelivered(RowEvents(row, n, link, p)) ==> DeliveredRows(row, n, link, p) == Repeat(row, n)
  {
    var es := RowEvents(row, n, link, p);
    if AllDelivered(es) {
      forall i | p <= i < p + n ensures link(i) {
        assert es[i - p].Send?;
      }
    }
    if forall i :: p <= i < p + n ==> link(i) {
      forall i | 0 <= i < |es| && es[i].Send? ensures es[i].ok {
        assert link(p + i);
      }
    }
    if n > 0 {
      AllRowsDelivered(row, n - 1, link, p);
      if AllDelivered(es) {
        assert AllDelivered(RowEvents(row, n - 1, link, p)) by {
          RowEventsSnoc(row, n - 1, link, p);
          AllDeliveredAppend(RowEvents(row, n - 1, link, p), [Send(row, ROW_TIMEOUT, link(p + n - 1))]);
        }
      }
    }
  }

  /** The bytes of every transfer made with the row timeout, in order: the pixel
      stream of a fill, whatever the transport answered. */
  function RowTransfers(es: seq<Event>): seq<seq<byte>>
  {
    if es == [] then []
    else (if es[0].Send? && es[0].timeout == ROW_TIMEOUT then [es[0].bytes] else []) + RowTransfers(es[1..])
  }

  lemma {:induction false} RowTransfersAppend(a: seq<Event>, b: seq<Event>)
    ensures RowTransfers(a + b) == RowTransfers(a) + RowTransfers(b)
    decreases |a|
  {
    if a == [] {
      assert a + b == b;
    } else {
      assert (a + b)[0] == a[0];
      assert (a + b)[1..] == a[1..] + b;
      RowTransfersAppend(a[1..], b);
    }
  }

  /** Streaming `n` rows makes `n` row transfers of the same buffer. */
  lemma {:induction false} RowTransfersOfRows(row: seq<byte>, n: nat, link: Link, p: nat)
    ensures RowTransfers(RowEvents(row, n, link, p)) == seq(n, _ => row)
  {
    if n > 0 {
      RowTransfersOfRows(row, n - 1, link, p);
      RowEventsSnoc(row, n - 1, link, p);
      RowTransfersAppend(RowEvents(row, n - 1, link, p), [Send(row, ROW_TIMEOUT, link(p + n - 1))]);
      assert [Send(row, ROW_TIMEOUT, link(p + n - 1))][1..] == [];
      assert seq(n, _ => row) == seq(n - 1, _ => row) + [row];
    }
  }

  /** Window programming makes no row transfer. */
  lemma {:induction false} StagedHasNoRows(stages: seq<Stage>, tail: seq<Event>, link: Link, p: nat)
    requires RowTransfers(tail) == []
    ensures RowTransfers(StagedEvents(stages, tail, link, p)) == []
    decreases |stages|
  {
    if stages != [] {
      var head := [Write(DataCommand, stages[0].dc), Send(stages[0].bytes, SPI_TIMEOUT, link(p + 1))];
      var rest := if link(p + 1) then StagedEvents(stages[1..], tail, link, p + 2) else [Write(ChipSelect, High)];
      RowTransfersAppend(head, rest);
      assert head[1..] == [head[1]] && head[1..][1..] == [];
      assert RowTransfers(head) == [];
      if link(p + 1) {
        StagedHasNoRows(stages[1..], tail, link, p + 2);
      } else {
        assert rest[1..] == [];
      }
    }
  }

  // ---------------------------------------------------------------------------
  // Clipping and filling
  // ---------------------------------------------------------------------------

  /** A window of the panel, corners inclusive. */
  datatype Region = Region(x1: u16, y1: u16, x2: u16, y2: u16)

  /** The pixel lies on the panel. */
  predicate OnPanel(px: int, py: int)
  {
    0 <= px < PANEL_WIDTH && 0 <= py < PANEL_HEIGHT
  }

  /** The pixel lies in the requested rectangle. */
  predicate Requested(x: u16, y: u16, width: u16, height: u16, px: int, py: int)
  {
    x as int <= px < x as int + width as int && y as int <= py < y as int + height as int
  }

  /** The pixel lies in the window. */
  predicate Covers(r: Region, px: int, py: int)
  {
    r.x1 as int <= px <= r.x2 as int && r.y1 as int <= py <= r.y2 as int
  }

  /** The rectangle clipped to the panel, or None when nothing is left to paint.
      The far corner is computed in full-width arithmetic (see Findings for what
      the 16-bit store does to it). */
  function Clip(x: u16, y: u16, width: u16, height: u16): (r: Option<Region>)
    ensures r.Some? ==> r.value.x1 <= r.value.x2 && r.value.y1 <= r.value.y2
    ensures r.Some? ==> r.value.x2 as int < PANEL_WIDTH && r.value.y2 as int < PANEL_HEIGHT
  {
    if x as int >= PANEL_WIDTH || y as int >= PANEL_HEIGHT then None
    else
      var x2 := Min(PANEL_WIDTH - 1, x as int + width as int - 1);
      var y2 := Min(PANEL_HEIGHT - 1, y as int + height as int - 1);
      if x as int > x2 || y as int > y2 then None
      else Some(Region(x, y, x2 as u16, y2 as u16))
  }

  /** A fill is dropped exactly when it starts off the panel or has no area; otherwise
      the window keeps the requested origin and covers exactly the requested pixels
      that are on the panel. */
  lemma ClipSpec(x: u16, y: u16, width: u16, height: u16)
    ensures Clip(x, y, width, height) == None <==>
            x as int >= PANEL_WIDTH || y as int >= PANEL_HEIGHT || width == 0 || height == 0
    ensures Clip(x, y, width, height).Some? ==>
            var r := Clip(x, y, width, height).value;
            && r.x1 == x && r.y1 == y
            && forall px, py :: Covers(r, px, py) <==> OnPanel(px, py) && Requested(x, y, width, height, px, py)
  {
  }

  /** Columns and rows of a window. */
  function Cols(r: Region): nat
    requires r.x1 <= r.x2
  {
    r.x2 as int - r.x1 as int + 1
  }

  function Rows(r: Region): nat
    requires r.y1 <= r.y2
  {
    r.y2 as int - r.y1 as int + 1
  }

  /** Pixels in a window. */
  function Area(r: Region): nat
    requires r.x1 <= r.x2 && r.y1 <= r.y2
  {
    Cols(r) * Rows(r)
  }

  /** The row buffer: `cols` pixels of `color`, high byte first. */
  function RowBytes(color: Color, cols: nat): (row: seq<byte>)
    ensures |row| == 2 * cols
  {
    seq(2 * cols, i requires 0 <= i < 2 * cols => if i % 2 == 0 then ColorHigh(color) else ColorLow(color))
  }

  /** The pixel stream of a fill: one transfer of the row buffer per window row,
      whatever happened before, and the release of chip-select. */
  function StreamEvents(row: seq<byte>, n: nat, link: Link, p: nat): (es: seq<Event>)
    ensures |es| == n + 1
  {
    RowEvents(row, n, link, p) + [Write(ChipSelect, High)]
  }

  /** Filling a window with a row buffer: window programming for writing, then
      the pixel stream. */
  function WindowFillEvents(r: Region, row: seq<byte>, link: Link, p: nat): seq<Event>
    requires r.y1 <= r.y2
  {
    RegionEvents(r.x1, r.y1, r.x2, r.y2, 1, link, p) + StreamEvents(row, Rows(r), link, StreamStart(r, link, p))
  }

  /** The trace position of the first row transfer of a window fill. */
  function StreamStart(r: Region, link: Link, p: nat): nat
  {
    p + |RegionEvents(r.x1, r.y1, r.x2, r.y2, 1, link, p)|
  }

  /** A fill: nothing when clipped away; otherwise the clipped window filled with
      a row buffer of the colour as wide as the window. */
  function FillEvents(x: u16, y: u16, width: u16, height: u16, color: Color, link: Link, p: nat): seq<Event>
  {
    match Clip(x, y, width, height)
    case None => []
    case Some(r) => WindowFillEvents(r, RowBytes(color, Cols(r)), link, p)
  }

  /** Two row buffers of the same colour, back to back, are one longer buffer. */
  lemma RowBytesAppend(color: Color, m: nat, k: nat)
    ensures RowBytes(color, m) + RowBytes(color, k) == RowBytes(color, m + k)
  {
    var a, b, c := RowBytes(color, m), RowBytes(color, k), RowBytes(color, m + k);
    forall i | 0 <= i < 2 * (m + k)
      ensures (a + b)[i] == c[i]
    {
      if i >= 2 * m {
        assert (a + b)[i] == b[i - 2 * m];
        assert (i - 2 * m) % 2 == i % 2;
      }
    }
  }

  /** Rows of the same colour, back to back, are one longer row. */
  lemma {:induction false} RepeatRowBytes(color: Color, k: nat, n: nat)
    ensures Repeat(RowBytes(color, k), n) == RowBytes(color, k * n)
  {
    if n > 0 {
      RepeatRowBytes(color, k, n - 1);
      RowBytesAppend(color, k * (n - 1), k);
      MulSucc(k, n - 1);
    }
  }

  lemma MulSucc(k: nat, n: nat)
    ensures k * (n + 1) == k * n + k
  {
  }

  /** Every pixel of a row buffer is the fill colour. */
  lemma PixelsOfRowBytes(color: Color, cols: nat)
    ensures |Pixels(RowBytes(color, cols))| == cols
    ensures forall i :: 0 <= i < cols ==> Pixels(RowBytes(color, cols))[i] == Word(ColorHigh(color), ColorLow(color))
  {
    var row := RowBytes(color, cols);
    PixelsOfPattern(ColorHigh(color), ColorLow(color), row);
  }

  lemma PixelsOfPattern(hi: byte, lo: byte, row: seq<byte>)
    requires |row| % 2 == 0
    requires forall i :: 0 <= i < |row| ==> row[i] == if i % 2 == 0 then hi else lo
    ensures Pixels(row) == seq(|row| / 2, _ => Word(hi, lo))
  {
    forall i | 0 <= i < |row| / 2
      ensures Pixels(row)[i] == Word(hi, lo)
    {
      assert (2 * i) % 2 == 0 && (2 * i + 1) % 2 == 1;
      assert row[2 * i] == hi && row[2 * i + 1] == lo;
    }
  }

  /** A pixel stream into the open memory command completes it with the rows
      that get through and deselects the controller. */
  lemma StreamOutcome(w: Wire, row: seq<byte>, n: nat, link: Link, p: nat)
    requires w.cs == Low && w.dc == High && w.open.Some?
    ensures Decode(w, StreamEvents(row, n, link, p)) ==
            w.(cs := High, open := None,
               received := w.received + [Command(w.open.value.op, w.open.value.args + DeliveredRows(row, n, link, p))])
  {
    var rows := RowEvents(row, n, link, p);
    DecodeAppend(w, rows, [Write(ChipSelect, High)]);
    RowsOutcome(w, row, n, link, p);
    DecodeOne(Decode(w, rows), Write(ChipSelect, High));
  }

  /** A pixel stream while the controller is deselected changes nothing but the
      stray count. */
  lemma StreamUnselected(w: Wire, row: seq<byte>, n: nat, link: Link, p: nat)
    requires w.cs == High && w.open == None
    ensures var v := Decode(w, StreamEvents(row, n, link, p));
            v.(stray := w.stray) == w && v.stray >= w.stray
  {
    var rows := RowEvents(row, n, link, p);
    DecodeAppend(w, rows, [Write(ChipSelect, High)]);
    RowsUnselected(w, row, n, link, p);
    var v1 := Decode(w, rows);
    DecodeOne(v1, Write(ChipSelect, High));
    assert v1.received + Flush(v1.open) == v1.received;
  }

  /** Every transfer of a pixel stream gets through exactly when every row does,
      and then every row reaches the controller. */
  lemma StreamAllDelivered(row: seq<byte>, n: nat, link: Link, p: nat)
    ensures AllDelivered(StreamEvents(row, n, link, p)) <==> forall i :: p <= i < p + n ==> link(i)
    ensures AllDelivered(StreamEvents(row, n, link, p)) ==> DeliveredRows(row, n, link, p) == Repeat(row, n)
  {
    AllDeliveredAppend(RowEvents(row, n, link, p), [Write(ChipSelect, High)]);
    AllRowsDelivered(row, n, link, p);
  }

  /** Filling a window ends by releasing chip-select, leaving the controller
      deselected with no command open, whatever the transport answered. */
  lemma WindowFillFraming(w: Wire, r: Region, row: seq<byte>, link: Link, p: nat)
    requires r.y1 <= r.y2
    ensures var es := WindowFillEvents(r, row, link, p);
            var v := Decode(w, es);
            && es[|es| - 1] == Write(ChipSelect, High)
            && v.cs == High && v.open == None && v.rst == w.rst
  {
    var region := RegionEvents(r.x1, r.y1, r.x2, r.y2, 1, link, p);
    var v1 := Decode(w, region);
    if RegionDelivered(link, p) {
      RegionOutcome(w, r.x1, r.y1, r.x2, r.y2, 1, link, p);
    } else {
      RegionFailure(w, r.x1, r.y1, r.x2, r.y2, 1, link, p);
    }
    ThenStreamFraming(w, region, row, Rows(r), link, StreamStart(r, link, p));
  }

  /** Whatever state window programming left the controller in, the pixel stream
      ends with it deselected and no command open. */
  lemma ThenStreamFraming(w: Wire, region: seq<Event>, row: seq<byte>, n: nat, link: Link, q: nat)
    requires var v1 := Decode(w, region);
             v1.rst == w.rst && ((v1.cs == Low && v1.dc == High && v1.open.Some?) || (v1.cs == High && v1.open == None))
    ensures var es := region + StreamEvents(row, n, link, q);
            var v := Decode(w, es);
            && es[|es| - 1] == Write(ChipSelect, High)
            && v.cs == High && v.open == None && v.rst == w.rst
  {
    var v1 := Decode(w, region);
    DecodeAppend(w, region, StreamEvents(row, n, link, q));
    if v1.cs == Low {
      StreamOutcome(v1, row, n, link, q);
    } else {
      StreamUnselected(v1, row, n, link, q);
    }
  }

  /** A fill either does nothing (clipped away) or ends by releasing chip-select,
      leaving the controller deselected with no command open, whatever the
      transport answered. */
  lemma FillFraming(w: Wire, x: u16, y: u16, width: u16, height: u16, color: Color, link: Link, p: nat)
    ensures FillEvents(x, y, width, height, color, link, p) == [] <==> Clip(x, y, width, height) == None
    ensures var es := FillEvents(x, y, width, height, color, link, p);
            var v := Decode(w, es);
            es != [] ==>
              && es[|es| - 1] == Write(ChipSelect, High)
              && v.cs == High && v.open == None && v.rst == w.rst
  {
    if Clip(x, y, width, height).Some? {
      var r := Clip(x, y, width, height).value;
      WindowFillFraming(w, r, RowBytes(color, Cols(r)), link, p);
    }
  }

  /** Window programming makes no row transfer. */
  lemma RegionHasNoRows(x1: u16, y1: u16, x2: u16, y2: u16, write: int, link: Link, p: nat)
    ensures RowTransfers(RegionEvents(x1, y1, x2, y2, write, link, p)) == []
  {
    var tail := [Write(DataCommand, High)];
    var staged := StagedEvents(RegionStages(x1, y1, x2, y2, write), tail, link, p + 1);
    RowTransfersAppend([Write(ChipSelect, Low)], staged);
    assert [Write(ChipSelect, Low)][1..] == [];
    assert tail[1..] == [];
    StagedHasNoRows(RegionStages(x1, y1, x2, y2, write), tail, link, p + 1);
  }

  /** Filling a window streams the row buffer once per window row, whatever the
      transport answered, even when window programming failed. */
  lemma WindowFillRowTransfers(r: Region, row: seq<byte>, link: Link, p: nat)
    requires r.y1 <= r.y2
    ensures RowTransfers(WindowFillEvents(r, row, link, p)) == seq(Rows(r), _ => row)
  {
    var region := RegionEvents(r.x1, r.y1, r.x2, r.y2, 1, link, p);
    var rows := RowEvents(row, Rows(r), link, StreamStart(r, link, p));
    RowTransfersAppend(region, rows + [Write(ChipSelect, High)]);
    RowTransfersAppend(rows, [Write(ChipSelect, High)]);
    assert [Write(ChipSelect, High)][1..] == [];
    RegionHasNoRows(r.x1, r.y1, r.x2, r.y2, 1, link, p);
    RowTransfersOfRows(row, Rows(r), link, StreamStart(r, link, p));
  }

  /** A fill that is not clipped away streams exactly one row buffer of the fill
      colour, as wide as the window, per window row, whatever the transport
      answered. */
  lemma FillRowTransfers(x: u16, y: u16, width: u16, height: u16, color: Color, link: Link, p: nat)
    requires Clip(x, y, width, height).Some?
    ensures var r := Clip(x, y, width, height).value;
            RowTransfers(FillEvents(x, y, width, height, color, link, p)) == seq(Rows(r), _ => RowBytes(color, Cols(r)))
  {
    var r := Clip(x, y, width, height).value;
    WindowFillRowTransfers(r, RowBytes(color, Cols(r)), link, p);
  }

  /** When every transfer of a window fill gets through, the controller receives
      exactly three commands: the column and page address sets with the window's
      bounds, and a memory write carrying every row. */
  lemma WindowFillDelivered(w: Wire, r: Region, row: seq<byte>, link: Link, p: nat)
    requires r.y1 <= r.y2
    requires AllDelivered(WindowFillEvents(r, row, link, p))
    ensures var v := Decode(w, WindowFillEvents(r, row, link, p));
            && v.stray == w.stray
            && v.received == w.received + Flush(w.open) +
                             [Command(Code(CASET), Coords(r.x1, r.x2)), Command(Code(PASET), Coords(r.y1, r.y2)),
                              Command(Code(RAMWR), Repeat(row, Rows(r)))]
  {
    var region := RegionEvents(r.x1, r.y1, r.x2, r.y2, 1, link, p);
    var stream := StreamEvents(row, Rows(r), link, StreamStart(r, link, p));
    AllDeliveredAppend(region, stream);
    DecodeAppend(w, region, stream);
    RegionAllDelivered(r.x1, r.y1, r.x2, r.y2, 1, link, p);
    RegionOutcome(w, r.x1, r.y1, r.x2, r.y2, 1, link, p);
    StreamOutcome(Decode(w, region), row, Rows(r), link, StreamStart(r, link, p));
    StreamAllDelivered(row, Rows(r), link, StreamStart(r, link, p));
    assert [] + Repeat(row, Rows(r)) == Repeat(row, Rows(r));
  }

  /** When every transfer of a fill gets through, the controller receives exactly
      three commands: the column and page address sets with the clipped bounds,
      and a memory write carrying every row, which together are one run of
      `cols * rows` pixels of the fill colour. */
  lemma FillDelivered(w: Wire, x: u16, y: u16, width: u16, height: u16, color: Color, link: Link, p: nat)
    requires Clip(x, y, width, height).Some?
    requires AllDelivered(FillEvents(x, y, width, height, color, link, p))
    ensures var r := Clip(x, y, width, height).value;
            var v := Decode(w, FillEvents(x, y, width, height, color, link, p));
            && v.stray == w.stray
            && v.received == w.received + Flush(w.open) +
                             [Command(Code(CASET), Coords(r.x1, r.x2)), Command(Code(PASET), Coords(r.y1, r.y2)),
                              Command(Code(RAMWR), RowBytes(color, Area(r)))]
  {
    var r := Clip(x, y, width, height).value;
    WindowFillDelivered(w, r, RowBytes(color, Cols(r)), link, p);
    RepeatRowBytes(color, Cols(r), Rows(r));
    assert Area(r) == Cols(r) * Rows(r);
  }

  /** The data of the memory write of a fill stands for `n` pixels, every one of
      them the fill colour. */
  lemma FillPixels(color: Color, n: nat)
    ensures |Pixels(RowBytes(color, n))| == n
    ensures forall i :: 0 <= i < n ==> Pixels(RowBytes(color, n))[i] as int == color as int
  {
    PixelsOfRowBytes(color, n);
    ColorBytes(color);
  }

  /** The fill the driver issues at the end of bring-up covers the whole panel with
      320 rows of 640 bytes alternating 0x07 and 0xFF (cyan). */
  lemma FullPanelFill()
    ensures Clip(0, 0, 320, 320) == Some(Region(0, 0, 319, 319))
    ensures Cols(Region(0, 0, 319, 319)) == 320 && Rows(Region(0, 0, 319, 319)) == 320
    ensures ColorHigh(CYAN) == 0x07 && ColorLow(CYAN) == 0xFF
    ensures forall i :: 0 <= i < 640 ==> RowBytes(CYAN, 320)[i] == if i % 2 == 0 then 0x07 else 0xFF
  {
  }

  /** A rectangle hanging over the far corner is cut at the panel edge; one that
      starts off the panel produces no event at all. */
  lemma ClipExamples(link: Link, p: nat)
    ensures Clip(310, 310, 50, 50) == Some(Region(310, 310, 319, 319))
    ensures Clip(20, 20, 50, 50) == Some(Region(20, 20, 69, 69))
    ensures FillEvents(400, 0, 10, 10, RED, link, p) == []
    ensures FillEvents(0, 320, 10, 10, RED, link, p) == []
  {
  }

  // ---------------------------------------------------------------------------
  // The far corner as the C code stores it
  // ---------------------------------------------------------------------------

  /** What a `uint16_t` keeps of an integer value. */
  function Wrap16(v: int): (r: u16)
    ensures 0 <= v < 0x1_0000 ==> r as int == v
    ensures v == -1 ==> r == 0xFFFF
  {
    (v % 0x1_0000) as u16
  }

  /** The clip as written: the far corner is computed in `int` and then stored in a
      16-bit variable before it is compared with the origin. */
  function ClipAsWritten(x: u16, y: u16, width: u16, height: u16): Option<Region>
  {
    if x as int >= PANEL_WIDTH || y as int >= PANEL_HEIGHT then None
    else
      var x2 := Wrap16(Min(PANEL_WIDTH - 1, x as int + width as int - 1));
      var y2 := Wrap16(Min(PANEL_HEIGHT - 1, y as int + height as int - 1));
      if x > x2 || y > y2 then None
      else Some(Region(x, y, x2, y2))
  }

  /** The 16-bit counter of the row-buffer loop after `k` passes (it steps by 2). */
  function BufferCounter(k: nat): u16
  {
    Wrap16(2 * k % 0x1_0000)
  }

  /** The 16-bit counter of the row loop after `k` passes, started at `y`. */
  function RowCounter(y: u16, k: nat): u16
  {
    Wrap16((y as int + k) % 0x1_0000)
  }

  /** A zero-width fill at column 0 is not rejected: the far column wraps to 65535,
      the row buffer would be 131072 bytes long, and the 16-bit buffer counter stays
      below that length after any number of passes, so the buffer loop never ends. */
  lemma ZeroWidthAtOriginHangs()
    ensures ClipAsWritten(0, 0, 0, 1) == Some(Region(0, 0, 0xFFFF, 0))
    ensures 2 * Cols(Region(0, 0, 0xFFFF, 0)) == 131072
    ensures forall k: nat :: BufferCounter(k) as int < 2 * Cols(Region(0, 0, 0xFFFF, 0))
    ensures Clip(0, 0, 0, 1) == None
  {
  }

  /** A zero-height fill at row 0 is not rejected either: the far row wraps to
      65535.  The row loop's test `cy <= y2` then holds after any number of passes,
      so rows are streamed forever; that part needs nothing but the 16-bit counter,
      the wrapped far row is what lets it happen. */
  lemma ZeroHeightAtOriginHangs()
    ensures ClipAsWritten(0, 0, 1, 0) == Some(Region(0, 0, 0, 0xFFFF))
    ensures forall k: nat :: RowCounter(0, k) <= ClipAsWritten(0, 0, 1, 0).value.y2
    ensures Clip(0, 0, 1, 0) == None
  {
  }

  /** The two clips disagree exactly on the requests that start on the panel, have
      no area, and have every zero dimension at coordinate 0: those the C code lets
      through with a wrapped far corner. */
  lemma ClipAsWrittenDiffers(x: u16, y: u16, width: u16, height: u16)
    ensures ClipAsWritten(x, y, width, height) != Clip(x, y, width, height) <==>
            && x as int < PANEL_WIDTH && y as int < PANEL_HEIGHT
            && (width >= 1 || x == 0) && (height >= 1 || y == 0)
            && (width == 0 || height == 0)
  {
  }
}
