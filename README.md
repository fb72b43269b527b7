# Expander driver model

A Dafny model of the I2C GPIO-expander driver of johnny-five (`lib/expander.js`).
The driver offers a microcontroller-style pin interface (`pinMode`,
`digitalWrite`, `pullUp`, `digitalRead`) on two register-mapped chips:

- the MCP23017, with 16 pins on two 8-bit ports A and B;
- the MCP23008, with 8 pins on one port.

A bus write replaces a whole register byte. The driver therefore keeps a shadow
byte per port for each of the direction (IODIR), latch (OLAT), input (GPIO) and
pull-up (GPPU) registers. Every operation:

1. splits the flat pin number into a port and a bit;
2. sets or clears that one bit of a shadow byte;
3. writes the whole byte to the port's register.

Files and modules:

- `bits.dfy` (module `Bits`): register bytes as `bv8`, bit extraction and the
  single-bit set/clear step.
- `controllers.dfy` (module `Controllers`): the two `REGISTER` tables, the pin
  split, the address fallback, and how the `controller` option resolves to a
  chip family.
- `expander.dfy` (module `ExpanderCore`): the driver as a class `Expander`. Its
  fields are the shadow registers, the `pins` entries, a log of transport calls,
  the emitted events and the read-listener table. It has methods for
  `initialize`, each pin operation, the completion of a read, the unsupported
  operations, and `new Expander(opts)`.
- `scenarios.dfy` (module `Scenarios`): concrete situations stated as
  contracts. They are:
  - pin 9 of an MCP23017 is on port B;
  - pull-up pins off the chip land on real bits through the shift count;
  - a read of 0x08 reports only bit 3;
  - `pinMode(9, OUTPUT)` clears bit 1 of IODIRB and leaves port A alone;
  - two HIGH writes to one port lose neither bit;
  - repeated reads of one pin notify every earlier callback;
  - the full MCP23008 start-up.

Modelling choices:

- The transport (`io.i2cConfig`, `io.i2cWrite`, `io.i2cRead`) becomes the field
  `bus`, an append-only log of the calls the driver makes. A read request's log
  entry records what its completion handler captured: the flat pin and the bit
  within the port byte. The asynchronous completion is the separate method
  `ReadComplete`, which the transport is taken to call with the byte it read.
- The transport's constants `io.MODES.INPUT`, `io.MODES.OUTPUT` and `io.HIGH`
  are a constructor parameter (`Vocabulary`). The driver compares against
  them. Its own `HIGH`/`LOW` are the constants 1 and 0.
- The event emitter becomes two fields:
  - `listeners`, a map from channel number to the callbacks registered on
    `"digital-read-<channel>"`, oldest first;
  - `events`, the log of emitted events.
- `Object.defineProperties(this, controller)` becomes a `kind` fixed at
  construction.
- A JavaScript `TypeError` raised when `pins[pin]` does not exist happens
  before any state change. In the model it is an `Outcome` of
  `Fail(NoSuchPin(pin))` with nothing changed. The `throw`s of the unsupported
  operations are also `Fail` values. The controller check's `throw` is the
  construction outcome `Rejected(ConfigurationError)` of `ExpanderCore.Create`.
- `digitalRead` called without a function as its callback marks the pin as
  reporting, and then the emitter's `on` throws a `TypeError` before any read
  is requested. The callback is an `Option<CallbackId>`. Its `None` stands for a
  missing or non-function argument and gives `Fail(NoListener)` after the
  `report` update, with the listeners and the bus unchanged.

Behaviour kept as the code has it:

- A bit is set only when the value is exactly the transport's HIGH
  (`=== io.HIGH`), not for any nonzero value.
- `digitalWrite` writes to the GPIO register (0x12/0x13, and 0x09 on the
  MCP23008), not to OLAT.
- A pin's initial `mode` is 0 before `pinMode` sets it to OUTPUT.
- The read-listener channel is the pin's bit within its port, not the flat pin
  number. On the MCP23017, pins k and k+8 share channel k.
- Listeners are never removed. So the completion of any read notifies every
  callback ever registered on its channel, including those registered after
  the read was issued. `Scenarios.RepeatedRead` shows two reads of pin 5
  where the first completion already notifies both callbacks.

## Model

| member | source | states |
|---|---|---|
| `Bits.Bit` | lib/expander.js:200 | `byte >> pin & 0x01` is always 0 or 1 |
| `Bits.BitIsShiftAnd` | lib/expander.js:200 | the mask test used for bits equals `(byte >> bit) & 1` computed by shifting |
| `Bits.UpdateBit` | lib/expander.js:102-106 | the edited bit is 1 exactly when setting and 0 when clearing; every other bit of the byte is unchanged (shared by all three writers and by the MCP23008 copies) |
| `Bits.NoLostUpdate` | lib/expander.js:135-148 | setting bit p and then bit q of a byte gives the byte OR both masks |
| `Bits.Cleared` | lib/expander.js:57-71 | bit j of 0xFF shifted left by n is 0 for j < n and 1 otherwise: a port byte after its first n pins were cleared |
| `Controllers.PortCount` | lib/expander.js:43-46 | a chip has one or two ports; the shadow arrays have one byte per port |
| `Controllers.Registers` | lib/expander.js:24-37 | each port's IODIR address equals its port number, so it can index the shadows; the GPIO and OLAT registers differ, and so do GPPU and IODIR (the MCP23008 table is lines 225-232) |
| `Controllers.Split` | lib/expander.js:93-98 | a flat pin is 8 × port + bit, with the port below the chip's port count and the bit below 8 (the MCP23008 uses port 0, line 284) |
| `Controllers.ShiftLocation` | lib/expander.js:160-174 | the port and bit `pullUp` edits for any integer pin: the split for a pin of the chip, otherwise the bit JavaScript's shift count modulo 32 lands on |
| `Controllers.SplitOnto` | lib/expander.js:93-98 | every (port, bit) pair is the split of exactly one flat pin |
| `Controllers.SelectAddress` | lib/expander.js:48 | the address option or else 0x20: a missing address and the address 0 both give 0x20, any other address is kept, and the result is never 0 |
| `Controllers.UpperCase` | lib/expander.js:394 | the upper-cased name contains no lower-case ASCII letter and keeps every character that is not one |
| `Controllers.Lookup` | lib/expander.js:394 | `Controllers[name]` finds a family exactly when the name is one of the two family names, verbatim, and the family found carries that name |
| `Controllers.Resolve` | lib/expander.js:393-401 | the inert object results exactly from the empty string or a primitive; a resolved name is the upper-cased controller name; a resolved non-name is the supplied descriptor |
| `Controllers.UpperCaseMatches` | lib/expander.js:394 | the upper-cased name equals a family name exactly when it matches that name ignoring case |
| `Controllers.ResolveByName` | lib/expander.js:393-401 | a non-empty controller name resolves to a family exactly when it matches that family's name ignoring case, and is a configuration error exactly when it matches neither |
| `Controllers.ResolveIgnoresCase` | lib/expander.js:393-394 | a name and its upper-cased form resolve alike |
| `Controllers.ResolveNonNamed` | lib/expander.js:395-401 | only a missing controller raises; a supplied descriptor is used as it is |
| `ExpanderCore.Normalize` | lib/expander.js:80-84 | `normalize` returns the pin unchanged: flat pin numbers need no translation (the MCP23008 copy is lines 274-278) |
| `ExpanderCore.InitialPins` | lib/expander.js:58-69 | the first n entries after initialisation have supported modes [INPUT, OUTPUT], mode OUTPUT, value 0, report 0 and analog channel 127 |
| `ExpanderCore.PinWritesLayout` | lib/expander.js:57-71 | the loop's writes are two per pin, in ascending pin order |
| `ExpanderCore.InitLogLayout` | lib/expander.js:50-71 | the initialisation log: one configure call, one 0xFF direction write per port, then for each pin in order a direction write and then a GPIO write, each holding the pin's port byte with bits 0 .. pin already processed |
| `ExpanderCore.SetPinBit` | lib/expander.js:100-111 | editing a pin's bit keeps the shadow's length and every other port's byte |
| `ExpanderCore.SetPinBitFrame` | lib/expander.js:100-111 | after the edit the pin reads back the new bit, and every other pin, on either port, reads back what it read before |
| `ExpanderCore.InitShadowStart` | lib/expander.js:43-45 | before the loop every shadow byte is the reset value 0xFF |
| `ExpanderCore.InitShadowStep` | lib/expander.js:69-70 | processing pin i edits exactly pin i's bit of the part-way shadow |
| `ExpanderCore.InitShadowEnd` | lib/expander.js:57-71 | after the loop every direction and latch byte is 0x00, or 0xFF on a transport whose OUTPUT equals INPUT or whose HIGH is 0 |
| `ExpanderCore.InitLogStep` | lib/expander.js:69-70 | round i appends the direction write and then the GPIO write of pin i, carrying the port bytes after the edit |
| `ExpanderCore.PushInitialPin` | lib/expander.js:58-69 | pushing a fresh entry and setting it to OUTPUT extends the initialised pins by one |
| `ExpanderCore.InitialPinDrivenLow` | lib/expander.js:70 | driving an initialised pin LOW leaves its entry unchanged |
| `ExpanderCore.Expander.InitializeDirection` | lib/expander.js:58-69 | the first half of a loop round keeps the initialisation invariant |
| `ExpanderCore.Expander.InitializeLatch` | lib/expander.js:70 | the second half of a loop round restores the initialisation invariant for i + 1 |
| `ExpanderCore.Expander.InitializePins` | lib/expander.js:57-71 | the loop leaves every pin set up, with the shadows and the log as after the last pin |
| `ExpanderCore.Expander.Reset` | lib/expander.js:41-55 | shadows 0xFF (pull-ups 0x00), the selected address, one configure call plus one 0xFF direction write per port, and the modes copied from the transport |
| `ExpanderCore.Expander.Announce` | lib/expander.js:73-77 | the driver is named "Expander:<family>" and is ready, and "connect" is emitted before "ready" |
| `ExpanderCore.Expander.Initialize` | lib/expander.js:39-78 | `initialize` leaves 16 or 8 initialised pins, all shadow bytes 0x00 (0xFF in the degenerate transports above), GPIO equal to OLAT, pull-ups 0x00, the ready flag, the events [connect, ready], no listeners and exactly the initialisation log |
| `ExpanderCore.Expander.constructor` | lib/expander.js:384-409 | a driver built for a resolved family has that family, the transport, the selected address, and the state `initialize` leaves |
| `ExpanderCore.Expander.PinMode` | lib/expander.js:86-112 | on an existing pin: the pin's direction bit is set exactly when the mode is INPUT; the other bits and ports, the other shadows and the other pins are unchanged; the entry's mode is recorded; exactly one write of the new byte goes to the port's IODIR. On a missing pin: NoSuchPin and nothing changes (the MCP23008 copy is lines 280-298) |
| `ExpanderCore.Expander.DigitalWrite` | lib/expander.js:115-149 | on an existing pin: the pin's latch bit is set exactly when the value is HIGH; the GPIO shadow takes the new port byte; report becomes 0 and value the written value; exactly one write of that byte goes to the port's GPIO register; IODIR and GPPU are untouched. On a missing pin: NoSuchPin and nothing changes (the MCP23008 copy is lines 300-321) |
| `ExpanderCore.Expander.PullUp` | lib/expander.js:153-181 | only the pin's pull-up bit changes, set exactly when the value is HIGH; exactly one write of the byte goes to GPPUA/GPPUB/GPPU; IODIR, OLAT, GPIO and the pins are untouched. Any integer pin is taken: off the chip the edit hits the bit the shift count lands on, and a clear beyond the byte writes the byte back unchanged (the MCP23008 copy is lines 324-341) |
| `ExpanderCore.Expander.DigitalRead` | lib/expander.js:182-197 | on an existing pin: report becomes 1; the callback is appended to the channel of the pin's bit within its port; exactly one 1-byte read of the port's GPIO register is issued. Without a callback: report still becomes 1, then NoListener, with no listener and no read. On a missing pin: NoSuchPin and nothing changes. Pass exactly when the pin exists and a callback is given (the MCP23008 copy is lines 342-349) |
| `ExpanderCore.Expander.ReadComplete` | lib/expander.js:198-205 | the reported value is the captured bit of the byte read; it is stored in the captured pin's entry and emitted on the channel; every callback ever registered on that channel is notified, oldest first (the MCP23008 copy is lines 351-358) |
| `ExpanderCore.Expander.AnalogWrite` | lib/expander.js:208-212 | always fails as unsupported by "Expander:<family>" and changes nothing |
| `ExpanderCore.Expander.AnalogRead` | lib/expander.js:213-217 | always fails as unsupported and changes nothing |
| `ExpanderCore.Expander.ServoWrite` | lib/expander.js:218-222 | always fails as unsupported and changes nothing |
| `ExpanderCore.Create` | lib/expander.js:379-410 | a missing or unknown controller is a configuration error before any I/O; the empty string or another primitive gives an object with no driver operations; a resolved family gives a fresh, initialised driver on the selected address |
| `Scenarios.PinNineIsPortB` | lib/expander.js:93-98 | pin 9 of an MCP23017 is bit 1 of port B (IODIRB 0x01); pin 1 is bit 1 of port A, and the two share a read channel |
| `Scenarios.StrayPullUpPins` | lib/expander.js:160-172 | `pullUp(-25, …)` edits bit 7 of port A and `pullUp(40, …)` bit 0 of port B on an MCP23017; pin 33 of an MCP23008 edits bit 1 |
| `Scenarios.ReadOfEight` | lib/expander.js:200 | a read of 0x08 reports 1 exactly for bit 3 |
| `Scenarios.ModeNineOutput` | lib/expander.js:86-112 | `pinMode(9, OUTPUT)` writes register 0x01 with bit 1 cleared and port A untouched |
| `Scenarios.SamePortWrites` | lib/expander.js:135-148 | two HIGH writes on one port leave the earlier byte OR both masks in OLAT, in GPIO and in the last bus write |
| `Scenarios.RepeatedRead` | lib/expander.js:196-205 | after two reads of pin 5 the first completion already notifies both callbacks |
| `Scenarios.Mcp23008StartLog` | lib/expander.js:243-265 | the MCP23008 start-up log has 18 calls: 0xFF to IODIR, then 0xFE to IODIR and GPIO for pin 0, and 0x00 to GPIO last |
| `Scenarios.StartMcp23008` | lib/expander.js:234-272 | a fresh MCP23008 ends with every shadow byte 0x00 on address 0x20 |

## Left out

- The real I2C transport and its asynchrony. The model logs the calls, and a read completes only when `ReadComplete` is called for its log entry. Nothing limits a read to a single completion, nor orders completions against other operations.
- The Node event emitter and `util.inherits`. They become a listener map and an event log. Callbacks are identities, and what they do when notified is not modelled.
- `Board.Component` and `Board.Options` (lib/expander.js:389-391) are not part of this model. `opts.controller`, `opts.address` and the transport's constants are plain parameters.
- The `new`-less call form `Expander(opts)` (lib/expander.js:380-382) returns the same object as `new Expander(opts)`, so nothing separate is modelled for it.
- Controller objects other than the two shipped descriptors. An arbitrary controller object is handed to `Object.defineProperties` as it is. That call throws on an enumerable property whose value is not an object. Otherwise it defines what the object describes, and `initialize` runs only if the object defines it. None of this is modelled.
- `toUpperCase` beyond ASCII. Non-ASCII characters are left unchanged, and the family names are ASCII.
- The text of error messages. An error kind is kept, and for the unsupported operations the family name and the operation.
- `ExpanderCore.Expander.PullUp`: its precondition excludes setting a bit whose shift count (the local pin modulo 32) is 8 or more. Examples are `pullUp(16, HIGH)` on an MCP23017, which computes 0x100, and `pullUp(-1, HIGH)`, which shifts by 31 and gives a negative number. There the source writes a value outside 0..255, and the byte-typed shadow cannot hold it.
- Pin numbers that are not integers (JavaScript numbers in general) are not modelled.
- Byte range: shadow bytes are `bv8`, so the 0..255 range holds by type. What is proved is that every edit changes only the bit it targets (`Bits.UpdateBit`), and that this bit index is below 8:
  - for pins on the chip, by `Controllers.Split`;
  - for `pullUp`, by its own `loc.bit < 8` test and its requires. `Controllers.ShiftLocation` bounds the shift count only below 32.
- `test/joystick.js` and the `eg/` wiring examples exercise other components, not this driver.
