/** The SPI port of the STM32 target: the baud-rate prescaler search, the default
    pin table, the clock-mode mapping, the bus-number guard every entry point
    shares, and the filler buffer a receive transmits.

    Bus 0 is the SPI1 handle, bus 1 the SPI3 handle; any other bus number is
    refused.  The HAL calls themselves are recorded as `HalCall`s, and their
    status is a parameter (`halOk`). */
module Stm32Spi {
  import opened Ints

  // ---------------------------------------------------------------------------
  // Baud-rate prescaler
  // ---------------------------------------------------------------------------

  /** The eight baud-rate prescaler settings of the SPI peripheral, named after the
      factor they divide the source clock by. */
  datatype Prescaler = Div2 | Div4 | Div8 | Div16 | Div32 | Div64 | Div128 | Div256

  /** The factor a prescaler setting divides the source clock by. */
  function Divisor(p: Prescaler): nat
  {
    match p
    case Div2 => 2
    case Div4 => 4
    case Div8 => 8
    case Div16 => 16
    case Div32 => 32
    case Div64 => 64
    case Div128 => 128
    case Div256 => 256
  }

  /** The divisors the search walks through, smallest first. */
  const DIVISORS: seq<nat> := [2, 4, 8, 16, 32, 64, 128, 256]

  /** The prescaler settings, in the same order. */
  const PRESCALERS: seq<Prescaler> := [Div2, Div4, Div8, Div16, Div32, Div64, Div128, Div256]

  /** The two tables line up: the k-th setting divides by the k-th divisor, and the
      divisors strictly increase. */
  lemma PrescalerTableAligned()
    ensures |DIVISORS| == |PRESCALERS| == 8
    ensures forall k :: 0 <= k < 8 ==> Divisor(PRESCALERS[k]) == DIVISORS[k]
    ensures forall j, k :: 0 <= j < k < 8 ==> DIVISORS[j] < DIVISORS[k]
  {
  }

  /** Where a setting sits in the tables. */
  function Rank(p: Prescaler): (k: nat)
    ensures k < 8 && PRESCALERS[k] == p && DIVISORS[k] == Divisor(p)
  {
    match p
    case Div2 => 0
    case Div4 => 1
    case Div8 => 2
    case Div16 => 3
    case Div32 => 4
    case Div64 => 5
    case Div128 => 6
    case Div256 => 7
  }

  /** The clock the peripheral divides: 96 MHz for bus 0, 48 MHz for every other bus. */
  function SourceClock(bus: byte): nat
  {
    if bus == 0 then 96_000_000 else 48_000_000
  }

  /** The prescaler the search settles on: the smallest divisor whose rate does not
      exceed the requested baud rate, or the largest divisor when none does. */
  ghost predicate Chosen(bus: byte, baudrate: u32, p: Prescaler)
  {
    && (SourceClock(bus) / Divisor(p) <= baudrate as int || p == Div256)
    && forall k :: 0 <= k < |DIVISORS| && DIVISORS[k] < Divisor(p) ==> SourceClock(bus) / DIVISORS[k] > baudrate as int
  }

  /** Walks the divisors from the smallest and stops at the first whose rate is at
      most the baud rate; falls back to the last one. */
  method PrescalerFactor(bus: byte, baudrate: u32) returns (factor: Prescaler)
    ensures Chosen(bus, baudrate, factor)
  {
    var sourceClock: nat;
    if bus == 0 {
      sourceClock := 96_000_000;
    } else {
      sourceClock := 48_000_000;
    }
    PrescalerTableAligned();
    var k := 0;
    while k < |DIVISORS|
      invariant 0 <= k <= |DIVISORS|
      invariant forall j :: 0 <= j < k ==> sourceClock / DIVISORS[j] > baudrate as int
    {
      var rate := sourceClock / DIVISORS[k];
      if baudrate as int >= rate {
        break;
      }
      k := k + 1;
    }
    if k == |DIVISORS| {
      k := k - 1;
    }
    factor := PRESCALERS[k];
    forall j | 0 <= j < |DIVISORS| && DIVISORS[j] < Divisor(factor)
      ensures sourceClock / DIVISORS[j] > baudrate as int
    {
      assert j < k;
    }
  }

  /** The search is determined: exactly one setting meets its description. */
  lemma ChosenUnique(bus: byte, baudrate: u32, a: Prescaler, b: Prescaler)
    requires Chosen(bus, baudrate, a) && Chosen(bus, baudrate, b)
    ensures a == b
  {
    var ka, kb := Rank(a), Rank(b);
    assert DIVISORS[ka] == Divisor(a) && DIVISORS[kb] == Divisor(b);
    PrescalerTableAligned();
  }

  /** Whenever some divisor brings the clock down to the baud rate, the chosen one
      does: the bus never runs faster than asked. */
  lemma ChosenWithinBaudrate(bus: byte, baudrate: u32, p: Prescaler)
    requires Chosen(bus, baudrate, p)
    requires SourceClock(bus) / 256 <= baudrate as int
    ensures SourceClock(bus) / Divisor(p) <= baudrate as int
  {
  }

  /** Worked cases: a 50 MHz request on bus 1 runs at 24 MHz (divide by 2), 1 MHz
      on bus 0 runs at 750 kHz (divide by 128), and 100 Hz falls back to the
      largest divisor. */
  lemma ChosenExamples()
    ensures Chosen(1, 50_000_000, Div2)
    ensures Chosen(0, 1_000_000, Div128)
    ensures Chosen(0, 100, Div256)
  {
  }

  // ---------------------------------------------------------------------------
  // Pins and clock mode
  // ---------------------------------------------------------------------------

  /** MISO, MOSI and SCK pin numbers; -1 means no default. */
  datatype Pins = Pins(miso: int, mosi: int, sck: int)

  function DefaultPins(bus: byte): Pins
  {
    if bus == 0 then Pins(11, 12, 10)
    else if bus == 1 then Pins(13, 14, 18)
    else Pins(-1, -1, -1)
  }

  /** Only the two buses have default pins; they use six different pins. */
  lemma DefaultPinsSpec(bus: byte)
    ensures DefaultPins(bus) == Pins(-1, -1, -1) <==> bus > 1
    ensures bus <= 1 ==> var p := DefaultPins(bus); p.miso >= 0 && p.mosi >= 0 && p.sck >= 0
    ensures {DefaultPins(0).miso, DefaultPins(0).mosi, DefaultPins(0).sck,
             DefaultPins(1).miso, DefaultPins(1).mosi, DefaultPins(1).sck} == {10, 11, 12, 13, 14, 18}
  {
  }

  /** The four SPI modes. */
  datatype Mode = Mode0 | Mode1 | Mode2 | Mode3

  /** Clock idle level (CPOL) and sampling edge (CPHA). */
  datatype Polarity = PolarityLow | PolarityHigh
  datatype Phase = FirstEdge | SecondEdge

  /** The clock settings setup writes for a mode. */
  function ClockSettings(mode: Mode): (Polarity, Phase)
  {
    match mode
    case Mode0 => (PolarityLow, FirstEdge)
    case Mode1 => (PolarityLow, SecondEdge)
    case Mode2 => (PolarityHigh, FirstEdge)
    case Mode3 => (PolarityHigh, SecondEdge)
  }

  /** The usual numbering of SPI modes: twice CPOL plus CPHA. */
  function ModeNumber(pol: Polarity, phase: Phase): (n: nat)
    ensures n < 4
  {
    (if pol == PolarityHigh then 2 else 0) + (if phase == SecondEdge then 1 else 0)
  }

  function ModeIndex(mode: Mode): nat
  {
    match mode
    case Mode0 => 0
    case Mode1 => 1
    case Mode2 => 2
    case Mode3 => 3
  }

  /** Setup follows the standard numbering, so every (polarity, phase) pair is
      reached by exactly one mode. */
  lemma ClockSettingsStandard(mode: Mode)
    ensures ModeNumber(ClockSettings(mode).0, ClockSettings(mode).1) == ModeIndex(mode)
  {
  }

  lemma ClockSettingsInjective(a: Mode, b: Mode)
    ensures ClockSettings(a) == ClockSettings(b) ==> a == b
  {
    ClockSettingsStandard(a);
    ClockSettingsStandard(b);
  }

  lemma ClockSettingsOnto(pol: Polarity, phase: Phase)
    ensures exists mode :: ClockSettings(mode) == (pol, phase)
  {
    match (pol, phase)
    case (PolarityLow, FirstEdge) => assert ClockSettings(Mode0) == (pol, phase);
    case (PolarityLow, SecondEdge) => assert ClockSettings(Mode1) == (pol, phase);
    case (PolarityHigh, FirstEdge) => assert ClockSettings(Mode2) == (pol, phase);
    case (PolarityHigh, SecondEdge) => assert ClockSettings(Mode3) == (pol, phase);
  }

  // ---------------------------------------------------------------------------
  // The two handles and the HAL calls
  // ---------------------------------------------------------------------------

  datatype BitOrder = MsbFirst | LsbFirst

  /** The handle fields setup chooses. Every setup also writes master mode, two-line
      direction, software NSS, TI mode off, CRC off with polynomial 10 and 8-bit
      frames; those are the same for every call and are not repeated here. */
  datatype HandleInit = HandleInit(polarity: Polarity, phase: Phase, prescaler: Prescaler, firstBit: BitOrder)

  /** One call into the vendor HAL, with the bytes it is asked to clock out. */
  datatype HalCall =
    | HalInit(bus: nat, init: HandleInit)
    | HalTransmit(bus: nat, tx: seq<byte>, timeout: nat)
    | HalTransmitReceive(bus: nat, tx: seq<byte>, timeout: nat)
    | HalDeInit(bus: nat)

  /** What an entry point returns: a count or bus number, or ENOPHRPL. */
  datatype Outcome = Returned(value: int) | Enophrpl

  predicate ValidBus(bus: byte)
  {
    bus == 0 || bus == 1
  }

  /** The HAL takes the length as a uint16_t. */
  function Truncate16(len: nat): (n: nat)
    ensures n < 0x1_0000 && (len < 0x1_0000 ==> n == len)
  {
    len % 0x1_0000
  }

  /** The close calls cleanup makes: one per handle that has been set up, bus 0 first. */
  function CleanupCalls(handles: seq<Option<HandleInit>>): (calls: seq<HalCall>)
    requires |handles| == 2
    ensures |calls| <= 2
    ensures forall c :: c in calls ==> c.HalDeInit? && c.bus < 2 && handles[c.bus].Some?
    ensures forall k :: 0 <= k < 2 && handles[k].Some? ==> HalDeInit(k) in calls
  {
    (if handles[0].Some? then [HalDeInit(0)] else []) + (if handles[1].Some? then [HalDeInit(1)] else [])
  }

  /** The two SPI handles (None: never set up, so the handle's instance does not
      point at its peripheral) and the HAL calls made so far. */
  class SpiPort {
    var handles: seq<Option<HandleInit>>
    var calls: seq<HalCall>

    predicate Valid()
      reads this
    {
      |handles| == 2
    }

    constructor ()
      ensures Valid() && handles == [None, None] && calls == []
    {
      handles := [None, None];
      calls := [];
    }

    /** Writes the handle's settings, then asks the HAL to initialise it. The pins
        and the MISO pull-up are not used on this target. */
    method Setup(bus: byte, mode: Mode, baudrate: u32, bitorder: BitOrder, pins: Pins, misoPullup: bool, halOk: bool)
      returns (r: Outcome)
      requires Valid()
      modifies this
      ensures Valid()
      ensures !ValidBus(bus) ==> r == Enophrpl && handles == old(handles) && calls == old(calls)
      ensures ValidBus(bus) ==>
                && handles[1 - bus as int] == old(handles)[1 - bus as int]
                && handles[bus].Some?
                && (handles[bus].value.polarity, handles[bus].value.phase) == ClockSettings(mode)
                && handles[bus].value.firstBit == bitorder
                && Chosen(bus, baudrate, handles[bus].value.prescaler)
                && calls == old(calls) + [HalInit(bus as nat, handles[bus].value)]
                && r == (if halOk then Returned(0) else Enophrpl)
    {
      if !ValidBus(bus) {
        return Enophrpl;
      }
      var (polarity, phase) := ClockSettings(mode);
      var prescaler := PrescalerFactor(bus, baudrate);
      var init := HandleInit(polarity, phase, prescaler, bitorder);
      handles := handles[bus := Some(init)];
      calls := calls + [HalInit(bus as nat, init)];
      if halOk {
        return Returned(0);
      }
      return Enophrpl;
    }

    /** A transmit-only transfer; on success it reports the full length, even when
        the uint16_t length handed to the HAL has wrapped. */
    method Send(bus: byte, buf: seq<byte>, timeout: nat, halOk: bool) returns (r: Outcome)
      requires Valid()
      modifies this
      ensures Valid() && handles == old(handles)
      ensures !ValidBus(bus) ==> r == Enophrpl && calls == old(calls)
      ensures ValidBus(bus) ==>
                && calls == old(calls) + [HalTransmit(bus as nat, buf[..Truncate16(|buf|)], timeout)]
                && r == (if halOk then Returned(|buf|) else Enophrpl)
    {
      if !ValidBus(bus) {
        return Enophrpl;
      }
      calls := calls + [HalTransmit(bus as nat, buf[..Truncate16(|buf|)], timeout)];
      if halOk {
        return Returned(|buf|);
      }
      return Enophrpl;
    }

    /** A full-duplex transfer; on success it reports the bytes the HAL did not leave
        untransferred (`rxLeft` is the HAL's remaining receive count). */
    method SendRecv(bus: byte, tx: seq<byte>, timeout: nat, halOk: bool, rxLeft: nat) returns (r: Outcome)
      requires Valid()
      modifies this
      ensures Valid() && handles == old(handles)
      ensures !ValidBus(bus) ==> r == Enophrpl && calls == old(calls)
      ensures ValidBus(bus) ==>
                && calls == old(calls) + [HalTransmitReceive(bus as nat, tx[..Truncate16(|tx|)], timeout)]
                && r == (if halOk then Returned(|tx| - rxLeft) else Enophrpl)
    {
      if !ValidBus(bus) {
        return Enophrpl;
      }
      calls := calls + [HalTransmitReceive(bus as nat, tx[..Truncate16(|tx|)], timeout)];
      if halOk {
        return Returned(|tx| - rxLeft);
      }
      return Enophrpl;
    }

    /** A receive: a full-duplex transfer that clocks out `len` copies of
        `sendByte`. */
    method Recv(bus: byte, sendByte: byte, len: nat, timeout: nat, halOk: bool, rxLeft: nat) returns (r: Outcome)
      requires Valid()
      modifies this
      ensures Valid() && handles == old(handles)
      ensures !ValidBus(bus) ==> r == Enophrpl && calls == old(calls)
      ensures ValidBus(bus) ==>
                && calls == old(calls) + [HalTransmitReceive(bus as nat, seq(Truncate16(len), _ => sendByte), timeout)]
                && r == (if halOk then Returned(len - rxLeft) else Enophrpl)
    {
      if !ValidBus(bus) {
        return Enophrpl;
      }
      var filler := FillerBuffer(sendByte, len);
      assert filler[..][..Truncate16(len)] == seq(Truncate16(len), _ => sendByte);
      calls := calls + [HalTransmitReceive(bus as nat, filler[..][..Truncate16(len)], timeout)];
      if halOk {
        return Returned(len - rxLeft);
      }
      return Enophrpl;
    }

    /** Asks the HAL to de-initialise the handle; on success returns the bus. */
    method Close(bus: byte, halOk: bool) returns (r: Outcome)
      requires Valid()
      modifies this
      ensures Valid() && handles == old(handles)
      ensures !ValidBus(bus) ==> r == Enophrpl && calls == old(calls)
      ensures ValidBus(bus) ==>
                && calls == old(calls) + [HalDeInit(bus as nat)]
                && r == (if halOk then Returned(bus as int) else Enophrpl)
    {
      if !ValidBus(bus) {
        return Enophrpl;
      }
      calls := calls + [HalDeInit(bus as nat)];
      if halOk {
        return Returned(bus as int);
      }
      return Enophrpl;
    }

    /** Closes every handle that has been set up; the close results are ignored. */
    method Cleanup(halOk: bool)
      requires Valid()
      modifies this
      ensures Valid() && handles == old(handles)
      ensures calls == old(calls) + CleanupCalls(handles)
    {
      var k: byte := 0;
      while k < 2
        invariant 0 <= k <= 2 && Valid() && handles == old(handles)
        invariant calls == old(calls) + CleanupCalls(handles[..k] + [None, None][k..])
      {
        if handles[k].Some? {
          var _ := Close(k, halOk);
        }
        assert handles[..k + 1] + [None, None][k + 1..] == (handles[..k] + [None, None][k..])[k := handles[k]];
        k := k + 1;
      }
      assert handles[..2] + [None, None][2..] == handles;
    }
  }

  /** The stack buffer a receive transmits: `len` bytes, each `sendByte`. */
  method FillerBuffer(sendByte: byte, len: nat) returns (a: array<byte>)
    ensures fresh(a) && a.Length == len
    ensures forall i :: 0 <= i < len ==> a[i] == sendByte
  {
    a := new byte[len];
    var i := 0;
    while i < len
      invariant 0 <= i <= len
      invariant forall j :: 0 <= j < i ==> a[j] == sendByte
    {
      a[i] := sendByte;
      i := i + 1;
    }
  }

  /** A transfer of 65536 bytes or more is cut to its length modulo 65536 on the
      way to the HAL, while send still reports the full length. */
  lemma LongTransferTruncated(buf: seq<byte>)
    requires |buf| == 0x1_0000
    ensures buf[..Truncate16(|buf|)] == []
  {
  }
}
