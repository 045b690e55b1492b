# PicoCalc display driver and STM32 SPI port, modelled in Dafny

This project models the PicoCalc display driver (`targets/picocalc/src/lcd.c`), its
header of colours and controller opcodes (`include/port/lcd.h`) and the STM32 SPI
port (`targets/stm32/src/spi.c`).

The driver is modelled as the C code runs it. `LcdDriver.Lcd` is a class whose
methods call a platform layer of GPIO writes, delays and SPI transfers. Each of
those calls appends one `Event` to the `trace` field. Whether an SPI transfer
succeeds is the transport's answer, which is a parameter: `link(i)` is the
result of the transfer that becomes event `i`. Each driver method is proved to
leave exactly the events that a function of `LcdEvents` or `LcdBringUp`
describes. These are:

- `CommandEvents` for one command;
- `RegionEvents` for the address window;
- `FillEvents` for a rectangle fill;
- `InitEvents` for the whole bring-up.

What those events do to the display controller is then proved about the
functions. `Wire.Decode` replays the events through a model of the four-wire
serial link:

- while chip-select is low, a byte sent with data/command low opens a command;
- bytes sent with data/command high are its arguments;
- the rising edge of chip-select ends the command;
- a failed transfer delivers nothing;
- transfers made while the controller is deselected are counted as stray.

The lemmas state the framing (chip-select is released on every way out, including
every error path), what the controller receives when every transfer gets through,
and that the pins are configured as outputs before they are driven.

The STM32 SPI port is modelled in `Stm32Spi`. It covers:

- the baud-rate prescaler search, as a loop proved against the `Chosen` description;
- the default pin table;
- the clock-mode mapping;
- the bus-number guard;
- the 16-bit transfer length handed to the HAL;
- the filler buffer a receive transmits;
- the clean-up of the handles that were set up.

The two SPI handles and the HAL calls are fields of the class `SpiPort`. The
HAL's status is a parameter.

Files:

- `ints.dfy`: the bytes and 16-bit words, and the big-endian split;
- `wire.dfy`: the link and the controller's view of it;
- `lcd_header.dfy`: the palette and the opcodes;
- `lcd_events.dfy`: commands, the address window, rows, clipping and the fill;
- `lcd_bringup.dfy`: bus set-up, reset, the configuration table and the bring-up;
- `lcd_driver.dfy`: the driver class;
- `stm32_spi.dfy`: the SPI port.

Where the code and its comments disagree, the model follows the code:

- The display asks for 50 MHz (`lcd.c:16`), although the comment on that line
  speaks of 10 MHz.
- The configuration does not wait after leaving sleep or switching the display
  on: the delays are commented out at `lcd.c:198` and `lcd.c:202`.

## Model

| member | source | states |
|---|---|---|
| `Ints.WordRoundTrip` | targets/picocalc/src/lcd.c:224-227 | Reassembling the high and low bytes of a 16-bit coordinate gives the coordinate back. |
| `Ints.SplitInjective` | targets/picocalc/src/lcd.c:224-227 | Two coordinates with the same high and low bytes are equal. |
| `Ints.SplitIsShiftAndMask` | targets/picocalc/src/lcd.c:224-227 | The byte split equals the shift-and-mask the C code writes: `(v >> 8) & 0xFF` and `v & 0xFF`. |
| `LcdHeader.PackUnpack` | include/port/lcd.h:4-12 | An RGB565 colour is its 5-bit red, 6-bit green and 5-bit blue fields packed, and packing in-range fields and unpacking them gives the fields back. |
| `LcdHeader.PrimariesPartitionTheWord` | include/port/lcd.h:4-8 | Red, green and blue are disjoint bit masks whose union is white. |
| `LcdHeader.PrimariesAreChannelFields` | include/port/lcd.h:6-8 | Masking a colour with red, green or blue isolates its red, green or blue field. |
| `LcdHeader.SecondariesAreUnions` | include/port/lcd.h:9-11 | Yellow is red and green, cyan is green and blue, magenta is red and blue. |
| `LcdHeader.PaletteChannels` | include/port/lcd.h:4-12 | The field values of every palette colour; gray is the top bit of each field. |
| `LcdHeader.ColorBytes` | targets/picocalc/src/lcd.c:294-297 | The two fill bytes are the colour's high and low byte. |
| `LcdHeader.FromCodeInvertsCode` | include/port/lcd.h:33-345 | Decoding the byte of any opcode gives the opcode back. |
| `LcdHeader.CodeInjective` | include/port/lcd.h:33-345 | No two opcode constants share a byte. |
| `LcdHeader.WindowAndInversionOpcodes` | include/port/lcd.h:79-106 | The window, memory-access and inversion opcodes have the controller's byte values. |
| `LcdEvents.CommandFraming` | targets/picocalc/src/lcd.c:41-67 | A failed transfer is followed at once by chip-select going high, and that ends the command. Every transfer gets through iff the controller receives exactly the opcode with its arguments. |
| `LcdEvents.CommandOutcome` | targets/picocalc/src/lcd.c:41-67 | After a command the controller is deselected with nothing open. The reset line and the stray count are unchanged. Data/command is high only if arguments went out. The controller has received what the command delivered. |
| `LcdEvents.StagesDeliveredAt` | targets/picocalc/src/lcd.c:213-267 | A chain of sends succeeds iff each transfer position answers true. |
| `LcdEvents.StagedFraming` | targets/picocalc/src/lcd.c:213-267 | A chain of DC-then-send stages releases chip-select after any failure. It delivers everything iff every stage and the tail do. |
| `LcdEvents.StagedOutcome` | targets/picocalc/src/lcd.c:213-267 | A successful chain feeds the controller each stage. A failed chain ends with chip-select high, nothing open, and the reset line and stray count unchanged. |
| `LcdEvents.CoordsRoundTrip` | targets/picocalc/src/lcd.c:224-227 | The four address bytes decode back to the start and end coordinates. |
| `LcdEvents.RegionDeliveredAt` | targets/picocalc/src/lcd.c:208-272 | The window's five sends succeed iff the five transfer positions answer true. |
| `LcdEvents.RegionFeed` | targets/picocalc/src/lcd.c:208-272 | A fully delivered window sends CASET with the column span and PASET with the row span. It leaves the memory command open with chip-select low. |
| `LcdEvents.RegionAllDelivered` | targets/picocalc/src/lcd.c:208-272 | Every transfer of the window gets through iff its five sends succeed. |
| `LcdEvents.RegionReleases` | targets/picocalc/src/lcd.c:218-266 | Every failed send of the window is followed at once by chip-select going high. |
| `LcdEvents.RegionOutcome` | targets/picocalc/src/lcd.c:208-272 | On success the window takes 12 events. It ends with chip-select low and data/command high, deliberately leaving chip-select low for the fill. The memory command is open: opcode 0x2C (RAMWR) when `write == 1`, 0x2E (RAMRD) otherwise. The two address commands are received. |
| `LcdEvents.RegionFailure` | targets/picocalc/src/lcd.c:218-266 | On any failure the window's last event releases chip-select and nothing is left open. |
| `LcdEvents.StagedLength` | targets/picocalc/src/lcd.c:213-267 | A successful chain is two events per stage plus its tail. |
| `LcdEvents.RowEventsSnoc` | targets/picocalc/src/lcd.c:306-308 | One more pass of the row loop appends one row transfer. |
| `LcdEvents.RowsOutcome` | targets/picocalc/src/lcd.c:306-308 | While selected in data mode, the row sends append to the open command exactly the rows that got through. |
| `LcdEvents.RowsUnselected` | targets/picocalc/src/lcd.c:306-308 | While deselected, the row sends change nothing but the stray count. |
| `LcdEvents.AllRowsDelivered` | targets/picocalc/src/lcd.c:306-308 | The row sends all get through iff every transfer position answers true. In that case the controller receives the row repeated once per row. |
| `LcdEvents.RowTransfersAppend` | targets/picocalc/src/lcd.c:306-308 | The row-timeout transfers of a concatenation are those of each part. |
| `LcdEvents.RowTransfersOfRows` | targets/picocalc/src/lcd.c:306-308 | The row loop sends exactly the row, once per row, whatever the transport answers. |
| `LcdEvents.StagedHasNoRows` | targets/picocalc/src/lcd.c:213-267 | Command stages make no row-timeout transfer. |
| `LcdEvents.Clip` | targets/picocalc/src/lcd.c:278-289 | A clipped window is well-formed and lies on the panel. |
| `LcdEvents.ClipSpec` | targets/picocalc/src/lcd.c:278-289 | Nothing is drawn iff the origin is off the panel or the size is zero. Otherwise the window starts at the origin and covers exactly the requested pixels that are on the panel. |
| `LcdEvents.RowBytesAppend` | targets/picocalc/src/lcd.c:298-303 | Row buffers of one colour concatenate to a longer row buffer. |
| `LcdEvents.RepeatRowBytes` | targets/picocalc/src/lcd.c:298-308 | n copies of a k-pixel row are one row of k·n pixels. |
| `LcdEvents.PixelsOfRowBytes` | targets/picocalc/src/lcd.c:298-303 | A row buffer holds `cols` pixels, each the colour's big-endian word. |
| `LcdEvents.PixelsOfPattern` | targets/picocalc/src/lcd.c:300-303 | Bytes alternating high and low read back as that word repeated. |
| `LcdEvents.StreamOutcome` | targets/picocalc/src/lcd.c:306-310 | Rows then chip-select high close the open command, and that command has received the rows that got through. |
| `LcdEvents.StreamUnselected` | targets/picocalc/src/lcd.c:306-310 | Rows sent after a failed window reach nobody and only count as stray. |
| `LcdEvents.StreamAllDelivered` | targets/picocalc/src/lcd.c:306-310 | Every row transfer gets through iff every position answers true; the controller then gets the row repeated. |
| `LcdEvents.WindowFillFraming` | targets/picocalc/src/lcd.c:291-310 | A fill ends by releasing chip-select with nothing open, whatever the transport answers. |
| `LcdEvents.ThenStreamFraming` | targets/picocalc/src/lcd.c:291-310 | Rows and the final release close the fill from either state a window can leave. |
| `LcdEvents.FillFraming` | targets/picocalc/src/lcd.c:277-311 | A fill emits nothing iff the clip is empty. Otherwise it ends with chip-select released and nothing open. |
| `LcdEvents.RegionHasNoRows` | targets/picocalc/src/lcd.c:208-272 | Setting up the window makes no row transfer. |
| `LcdEvents.WindowFillRowTransfers` | targets/picocalc/src/lcd.c:291-310 | A window fill sends the row buffer exactly once per window row. |
| `LcdEvents.FillRowTransfers` | targets/picocalc/src/lcd.c:277-311 | A fill sends, once per clipped row, a row of the colour as wide as the clipped window. |
| `LcdEvents.WindowFillDelivered` | targets/picocalc/src/lcd.c:291-310 | When every transfer gets through, the controller receives CASET, PASET and RAMWR with the row repeated once per row. |
| `LcdEvents.FillDelivered` | targets/picocalc/src/lcd.c:277-311 | When every transfer gets through, the controller receives the clipped window and RAMWR with one pixel of the colour per window pixel. |
| `LcdEvents.FillPixels` | targets/picocalc/src/lcd.c:294-303 | Every pixel of a row buffer is the fill colour. |
| `LcdEvents.FullPanelFill` | targets/picocalc/src/lcd.c:313-319 | The start-up fill covers the whole 320×320 panel with cyan, sent as 0x07 0xFF. |
| `LcdEvents.ClipExamples` | targets/picocalc/src/lcd.c:278-289 | A rectangle past the edge is clipped to it. A rectangle on the panel is kept. A rectangle whose origin is off the panel draws nothing. |
| `LcdEvents.Wrap16` | targets/picocalc/src/lcd.c:280-281 | Storing into a 16-bit variable keeps values in range and turns -1 into 65535. |
| `LcdEvents.ZeroWidthAtOriginHangs` | targets/picocalc/src/lcd.c:280-303 | As written, a zero-width fill at x = 0 keeps x2 = 65535. It needs a 131072-byte row that the 16-bit buffer counter never reaches. The corrected clip draws nothing. |
| `LcdEvents.ZeroHeightAtOriginHangs` | targets/picocalc/src/lcd.c:281-308 | As written, a zero-height fill at y = 0 keeps y2 = 65535. The row loop's test `cy <= y2` then holds for every value of the 16-bit counter. The corrected clip draws nothing. |
| `LcdEvents.ClipAsWrittenDiffers` | targets/picocalc/src/lcd.c:278-289 | The C clip and the corrected clip differ exactly for requests whose origin is on the panel, that have no area, and whose every zero dimension is at coordinate 0. |
| `LcdBringUp.ControlPinsDistinct` | targets/picocalc/src/lcd.c:10-15 | Chip-select, data/command and reset are on three different GPIOs, none of them a bus pin handed to the SPI set-up. |
| `LcdBringUp.OutputsBeforeWritesAppend` | targets/picocalc/src/lcd.c:79-88 | Appending writes to lines already made outputs keeps "outputs before writes". |
| `LcdBringUp.BusInitOutcome` | targets/picocalc/src/lcd.c:79-103 | Bus init makes each line an output before driving it, and leaves all three lines high. |
| `LcdBringUp.ResetPulse` | targets/picocalc/src/lcd.c:108-115 | Reset holds the reset line low for 10 ms, then high for 200 ms, and ends with reset high. |
| `LcdBringUp.InitSequenceSettings` | targets/picocalc/src/lcd.c:120-203 | The configuration is 15 commands. Pixel format is 16 bits. Inversion is switched off. The last two commands are sleep out and display on. |
| `LcdBringUp.CommandsSnoc` | targets/picocalc/src/lcd.c:120-203 | Issuing a list and then one more command is issuing the longer list. |
| `LcdBringUp.CommandsOutcome` | targets/picocalc/src/lcd.c:120-203 | After a list of commands the controller is deselected with nothing open, and has received what each command delivered. |
| `LcdBringUp.AllCommandsDelivered` | targets/picocalc/src/lcd.c:120-203 | When every transfer gets through, the controller receives exactly the list. |
| `LcdBringUp.CommandsOnlyFrame` | targets/picocalc/src/lcd.c:120-203 | Configuration touches only chip-select and data/command, and never waits. |
| `LcdBringUp.PreludeOutcome` | targets/picocalc/src/lcd.c:313-318 | After set-up, reset, configuration and the delay, the controller is deselected, out of reset, with nothing open, and has received exactly what each configuration command delivered over the link (`PreludeDelivered` gives the complete configuration when every transfer gets through). |
| `LcdBringUp.PreludeDelivered` | targets/picocalc/src/lcd.c:313-318 | If every transfer gets through, the configuration arrives complete and in order. |
| `LcdBringUp.InitFraming` | targets/picocalc/src/lcd.c:313-324 | After start-up the controller is deselected, out of reset, with nothing open, whatever the transport answers. |
| `LcdBringUp.InitDelivered` | targets/picocalc/src/lcd.c:313-324 | If every transfer gets through, the controller receives the configuration and then a full-panel cyan fill. |
| `LcdBringUp.InitSplit` | targets/picocalc/src/lcd.c:313-324 | A start-up fully delivered has its configuration part fully delivered, and then adds the full-panel window and fill. |
| `LcdBringUp.AfterFillFraming` | targets/picocalc/src/lcd.c:277-311 | A non-empty fill after any events ends deselected with nothing open. |
| `LcdBringUp.AfterFillDelivered` | targets/picocalc/src/lcd.c:277-311 | A fully delivered fill after any events adds the window and the colour, one pixel per window pixel. |
| `LcdBringUp.SetupConfiguresLinesFirst` | targets/picocalc/src/lcd.c:79-115 | Set-up and reset configure a line as an output before writing it. |
| `LcdBringUp.PreludeConfiguresLinesFirst` | targets/picocalc/src/lcd.c:313-318 | The same holds through configuration, whatever follows. |
| `LcdBringUp.InitConfiguresLinesFirst` | targets/picocalc/src/lcd.c:313-324 | No control line is written before it is made an output, across the whole start-up. |
| `LcdDriver.Lcd.Command` | targets/picocalc/src/lcd.c:41-67 | The trace grows by exactly one command call: opcode, then the arguments only if there are any and the opcode went out, with chip-select released on each exit. |
| `LcdDriver.Lcd.CommandNoArgs` | targets/picocalc/src/lcd.c:72-74 | A command with no arguments: the trace grows by the command's events with an empty argument list. Start-up issues inversion off, sleep out and display on through it. |
| `LcdDriver.Lcd.BusInit` | targets/picocalc/src/lcd.c:79-103 | The trace grows by the bus set-up events. |
| `LcdDriver.Lcd.HwReset` | targets/picocalc/src/lcd.c:108-115 | The trace grows by the reset pulse. |
| `LcdDriver.Lcd.HwInit` | targets/picocalc/src/lcd.c:120-203 | The trace grows by the 15 configuration commands, in order. |
| `LcdDriver.Lcd.DefineRegion` | targets/picocalc/src/lcd.c:208-272 | The trace grows by the window events: the five stages, stopping at the first failure with chip-select high, else data/command high. |
| `LcdDriver.Lcd.SendStage` | targets/picocalc/src/lcd.c:215-221 | One DC-then-send stage. It succeeds iff its transfer gets through, and releases chip-select otherwise. |
| `LcdDriver.Lcd.AddressSet` | targets/picocalc/src/lcd.c:215-232 | An address opcode and its four bytes, stopping at the first failure. |
| `LcdDriver.Lcd.FillRect` | targets/picocalc/src/lcd.c:277-311 | The trace grows by the fill events of the clipped rectangle: window, one row send per row, chip-select high. |
| `LcdDriver.Lcd.SendRows` | targets/picocalc/src/lcd.c:306-308 | One row transfer per row from y1 to y2. |
| `LcdDriver.Lcd.Init` | targets/picocalc/src/lcd.c:313-324 | The trace grows by bus init, reset, configuration, 100 ms, then the full-panel cyan fill. |
| `LcdDriver.Lcd.Cleanup` | targets/picocalc/src/lcd.c:326-328 | The display's bus is closed. |
| `LcdDriver.RowBuffer` | targets/picocalc/src/lcd.c:294-303 | The buffer holds the colour's high and low byte for each of `cols` pixels. |
| `Stm32Spi.PrescalerTableAligned` | targets/stm32/src/spi.c:34-46 | The prescaler and divisor tables have eight aligned entries with strictly increasing divisors. |
| `Stm32Spi.PrescalerFactor` | targets/stm32/src/spi.c:43-65 | The prescaler chosen is the smallest divisor whose rate is at most the baud rate, or divide-by-256 when none is. The rate is taken from a source clock of 96 MHz on bus 0 and 48 MHz otherwise. |
| `Stm32Spi.ChosenUnique` | targets/stm32/src/spi.c:43-65 | Exactly one prescaler meets that description. |
| `Stm32Spi.ChosenWithinBaudrate` | targets/stm32/src/spi.c:54-63 | Whenever some divisor can reach the baud rate, the bus never runs faster than asked. |
| `Stm32Spi.ChosenExamples` | targets/stm32/src/spi.c:43-65 | A 50 MHz request on bus 1 divides by 2. 1 MHz on bus 0 divides by 128. 100 Hz falls back to 256. |
| `Stm32Spi.DefaultPinsSpec` | targets/stm32/src/spi.c:70-86 | Only buses 0 and 1 have default pins, all valid and six distinct. Any other bus gets -1 for each pin. |
| `Stm32Spi.ModeNumber` | targets/stm32/src/spi.c:113-130 | The standard SPI mode numbering, twice CPOL plus CPHA, which stays below 4; it is the independent reference that `ClockSettingsStandard` checks the driver's mode table against. |
| `Stm32Spi.ClockSettingsStandard` | targets/stm32/src/spi.c:113-130 | Each mode sets the clock polarity and phase of the SPI mode of the same number. |
| `Stm32Spi.ClockSettingsInjective` | targets/stm32/src/spi.c:113-130 | Different modes give different clock settings. |
| `Stm32Spi.ClockSettingsOnto` | targets/stm32/src/spi.c:113-130 | Every polarity and phase is reachable. |
| `Stm32Spi.Truncate16` | targets/stm32/src/spi.c:152-184 | The length passed to the HAL is below 65536, and is the length itself when that fits. |
| `Stm32Spi.CleanupCalls` | targets/stm32/src/spi.c:96-100 | Clean-up closes exactly the handles that were set up, and nothing else. |
| `Stm32Spi.SpiPort.Setup` | targets/stm32/src/spi.c:104-144 | An unknown bus is refused and nothing changes. Otherwise the bus's handle takes the mode's clock settings, the chosen prescaler and the bit order, and the other handle is kept. One HAL init is made, and its status gives 0 or the error. |
| `Stm32Spi.SpiPort.Send` | targets/stm32/src/spi.c:160-171 | An unknown bus is refused. Otherwise one transmit of the length cut to 16 bits is made; it returns the full length or the error. |
| `Stm32Spi.SpiPort.SendRecv` | targets/stm32/src/spi.c:146-158 | An unknown bus is refused. Otherwise one transmit-receive is made; it returns the length minus the bytes left to receive, or the error. |
| `Stm32Spi.SpiPort.Recv` | targets/stm32/src/spi.c:173-189 | An unknown bus is refused. Otherwise the send byte is transmitted as many times as the 16-bit length says; it returns the length minus the bytes left, or the error. |
| `Stm32Spi.SpiPort.Close` | targets/stm32/src/spi.c:196-204 | An unknown bus is refused. Otherwise the HAL de-init is made; it returns the bus number or the error. |
| `Stm32Spi.SpiPort.Cleanup` | targets/stm32/src/spi.c:96-100 | Every handle that was set up is closed, in bus order, and the handles are kept. |
| `Stm32Spi.FillerBuffer` | targets/stm32/src/spi.c:175-182 | The buffer has the requested length and every byte is the send byte. |
| `Stm32Spi.LongTransferTruncated` | targets/stm32/src/spi.c:152-184 | A 65536-byte transfer reaches the HAL as an empty one. |

## Left out

- The GPIO, delay and SPI platform layer under the display driver is modelled only by the events it records. Pin electrical behaviour, timing and DMA are not modelled.
- The transport's answers are an arbitrary function `link` of the trace position; what makes a transfer fail is not modelled.
- `km_set_spi_baudrate` (spi.c:191-194) does nothing and returns 0; it has no model.
- `km_spi_init` (spi.c:91) is empty; it has no model.
- `Stm32Spi.SpiPort.Setup`: the pins and the MISO pull-up arguments are accepted and ignored, as in the C code. The HAL's fixed settings are not modelled: master mode, two lines, software NSS, TI mode off, CRC off and polynomial 10, 8-bit frames.
- `Stm32Spi.SpiPort.Send` and the other transfers: the HAL's effect on the bytes, the received data and the remaining-count register are not modelled; the count is a parameter (`rxLeft`).
- `Stm32Spi.SpiPort.Recv` builds its filler buffer with `FillerBuffer` after the bus check and records the buffer's contents in the HAL call. The C code declares the stack array before the check; that allocation is not modelled.
- `LcdDriver.Lcd.FillRect` ignores the result of each row send, as the C code does. The `if (x < 0)` and `if (y < 0)` guards on unsigned values never fire and are left out.
- `LcdDriver.Lcd.FillRect` uses the corrected clip (see Findings). The 16-bit wrap of `x2`/`y2` and the 16-bit loop counters appear only in `LcdEvents.ClipAsWritten`, `LcdEvents.BufferCounter` and `LcdEvents.RowCounter`.
- `LcdDriver.Lcd.HwInit` issues the 15 configuration commands from the `InitSequence` table, one `ConfigCommand` step each. The C code writes each call out. As in the C code, a command without arguments goes through `CommandNoArgs`.
- `LcdDriver.Lcd.DefineRegion` sends the opcode as a one-element sequence instead of the address of a local byte.
- The bus handles of `targets/stm32/src/spi.c` are not shared with the display driver. The driver's `SpiSetup`, `SpiSend` and `SpiClose` record events instead of calling `Stm32Spi.SpiPort`.
- `targets/stm32/src/pwm.c` and `src/modules/lcd/module_lcd.c` are not part of this model.

## Findings

| source | as written | input that shows it | evidently intended | confidence | as-written member | corrected member |
|---|---|---|---|---|---|---|
| targets/picocalc/src/lcd.c:280-308 | `x2 = min(319, x + width - 1)` is stored in a `uint16_t`. For `x = 0, width = 0` it becomes 65535, so `x > x2` does not reject the fill. The line buffer length is then 131072 bytes, and the `uint16_t i` fill loop never reaches it. The same holds for `y = 0, height = 0`: `y2` becomes 65535, so the `uint16_t cy <= y2` row loop never ends. | `pc_display_fill_rect(0, 0, 0, 1, c)` or `pc_display_fill_rect(0, 0, 1, 0, c)` | A zero width or zero height draws nothing, as it already does for every other origin. | not executed | `LcdEvents.ZeroWidthAtOriginHangs` | `LcdEvents.ClipSpec` |
