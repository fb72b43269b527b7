/** The expander driver: a pin interface (pinMode, digitalWrite, pullUp,
    digitalRead) over the register bytes of an MCP23017 or MCP23008.
    Bus writes replace a whole register, so the driver keeps a shadow byte
    per port and register, edits one bit of it and writes the whole byte.
    The I2C transport is an append-only log of the calls it receives;
    a read's completion is a separate method the transport calls later. */
module ExpanderCore {
  import opened Bits
  import opened Controllers

  /** `this.HIGH` and `this.LOW` of the driver itself. */
  const HIGH: int := 1
  const LOW: int := 0

  /** `analogChannel` of every pin: these chips have no analog inputs. */
  const NoAnalogChannel: int := 127

  /** The transport's constants the driver compares against:
      `io.MODES.INPUT`, `io.MODES.OUTPUT` and `io.HIGH`. */
  datatype Vocabulary = Vocabulary(input: int, output: int, high: int)

  /** The driver's own `MODES` table, copied from the transport. */
  datatype Modes = Modes(input: int, output: int)

  /** One entry of `pins`. */
  datatype Pin = Pin(supportedModes: seq<int>, mode: int, value: int, report: int, analogChannel: int)

  /** A callback handed to digitalRead, by identity. */
  type CallbackId = nat

  /** The calls the driver makes on the transport. A read also records what
      its completion handler captured: the flat pin and the bit within the
      port byte (which is also the name of its listener channel). */
  datatype BusOp =
    | Configure
    | Write(address: int, register: int, data: Byte)
    | Read(address: int, register: int, length: nat, pinIndex: int, bit: nat)

  /** Emitted events: "connect", "ready" and "digital-read-<channel>". */
  datatype Event = Connect | Ready | ReadReport(channel: int, value: int)

  datatype Error =
    | NoSuchPin(pin: int)                    // `this.pins[pinIndex]` is undefined
    | NoListener                              // `this.on` given no function
    | Unsupported(family: string, op: string) // "<name> does not support <op>"
    | ConfigurationError                      // "Expander expects a valid controller"

  datatype Outcome = Pass | Fail(error: Error)

  /** `normalize`: flat pin numbers are used as they are given. */
  function Normalize(pin: int): (r: int)
    ensures r == pin
  {
    pin
  }

  /** Listeners registered so far on a channel, oldest first. */
  function Listeners(table: map<int, seq<CallbackId>>, channel: int): seq<CallbackId>
  {
    if channel in table then table[channel] else []
  }

  /** The pin entry pushed during initialisation, before pinMode runs. */
  function FreshPin(io: Vocabulary): Pin
  {
    Pin([io.input, io.output], 0, 0, 0, NoAnalogChannel)
  }

  /** The pin entry after initialisation has driven it to output, low. */
  function InitialPin(io: Vocabulary): Pin
  {
    FreshPin(io).(mode := io.output)
  }

  /** The first `n` pin entries after initialisation. */
  function InitialPins(io: Vocabulary, n: nat): (r: seq<Pin>)
    ensures |r| == n
    ensures forall i :: 0 <= i < n ==> r[i] == InitialPin(io)
  {
    seq(n, _ => InitialPin(io))
  }

  /** A port byte during initialisation after `n` of its pins were
      processed: when the operation sets the bit instead of clearing it
      (a transport whose OUTPUT equals INPUT, or whose HIGH equals LOW)
      the byte stays at 0xFF. */
  function InitByte(n: nat, sets: bool): Byte
    requires n <= 8
  {
    if sets then 0xFF else Cleared(n)
  }

  lemma InitByteStep(n: nat, sets: bool)
    requires n < 8
    ensures UpdateBit(InitByte(n, sets), n, sets) == InitByte(n + 1, sets)
  {
    if !sets {
      ClearedStep(n);
    }
  }

  /** How many of the first `i` flat pins lie on `port`. */
  function Processed(port: nat, i: nat): (n: nat)
    ensures n <= 8
  {
    if i <= 8 * port then 0 else if i >= 8 * port + 8 then 8 else i - 8 * port
  }

  /** The direction writes of the reset: 0xFF to each port's IODIR. */
  function ResetWrites(k: Kind, address: int): seq<BusOp>
  {
    match k
    case MCP23017 => [Write(address, Registers(k, 0).iodir, 0xFF), Write(address, Registers(k, 1).iodir, 0xFF)]
    case MCP23008 => [Write(address, Registers(k, 0).iodir, 0xFF)]
  }

  /** The two writes initialisation makes for pin `i`: pinMode(i, OUTPUT)
      to the port's IODIR, then digitalWrite(i, LOW) to its GPIO. */
  function PinInitWrites(k: Kind, address: int, io: Vocabulary, i: nat): seq<BusOp>
    requires i < PinCount(k)
  {
    var loc := Split(k, i);
    [ Write(address, Registers(k, loc.port).iodir, InitByte(loc.bit + 1, io.output == io.input)),
      Write(address, Registers(k, loc.port).gpio, InitByte(loc.bit + 1, io.high == LOW)) ]
  }

  /** The writes for pins 0 .. n-1, in ascending order. */
  function PinWrites(k: Kind, address: int, io: Vocabulary, n: nat): seq<BusOp>
    requires n <= PinCount(k)
  {
    if n == 0 then [] else PinWrites(k, address, io, n - 1) + PinInitWrites(k, address, io, n - 1)
  }

  /** The transport log of initialisation up to and including pin n-1. */
  function InitLogUpTo(k: Kind, address: int, io: Vocabulary, n: nat): seq<BusOp>
    requires n <= PinCount(k)
  {
    [Configure] + ResetWrites(k, address) + PinWrites(k, address, io, n)
  }

  /** The whole transport log of initialisation. */
  function InitLog(k: Kind, address: int, io: Vocabulary): seq<BusOp>
  {
    InitLogUpTo(k, address, io, PinCount(k))
  }

  lemma {:induction false} PinWritesLayout(k: Kind, address: int, io: Vocabulary, n: nat)
    requires n <= PinCount(k)
    ensures |PinWrites(k, address, io, n)| == 2 * n
    ensures forall i :: 0 <= i < n ==>
              PinWrites(k, address, io, n)[2 * i] == PinInitWrites(k, address, io, i)[0]
              && PinWrites(k, address, io, n)[2 * i + 1] == PinInitWrites(k, address, io, i)[1]
  {
    if n > 0 {
      PinWritesLayout(k, address, io, n - 1);
      var prev := PinWrites(k, address, io, n - 1);
      var all := PinWrites(k, address, io, n);
      assert all == prev + PinInitWrites(k, address, io, n - 1);
      forall i | 0 <= i < n
        ensures all[2 * i] == PinInitWrites(k, address, io, i)[0]
        ensures all[2 * i + 1] == PinInitWrites(k, address, io, i)[1]
      {
        if i < n - 1 {
          assert all[2 * i] == prev[2 * i] && all[2 * i + 1] == prev[2 * i + 1];
        }
      }
    }
  }

  /** The initialisation log: one configure call, one 0xFF direction write
      per port, then for every pin in ascending order a direction write
      followed by a GPIO write, each to the pin's own port. */
  lemma InitLogLayout(k: Kind, address: int, io: Vocabulary)
    ensures var log := InitLog(k, address, io);
      && |log| == 1 + PortCount(k) + 2 * PinCount(k)
      && log[0] == Configure
      && (forall p :: 0 <= p < PortCount(k) ==> log[1 + p] == Write(address, Registers(k, p).iodir, 0xFF))
      && (forall i :: 0 <= i < PinCount(k) ==>
            log[1 + PortCount(k) + 2 * i] == Write(address, Registers(k, Split(k, i).port).iodir, InitByte(Split(k, i).bit + 1, io.output == io.input))
            && log[2 + PortCount(k) + 2 * i] == Write(address, Registers(k, Split(k, i).port).gpio, InitByte(Split(k, i).bit + 1, io.high == LOW)))
  {
    var writes := PinWrites(k, address, io, PinCount(k));
    PinWritesLayout(k, address, io, PinCount(k));
    var log := InitLog(k, address, io);
    var head := [Configure] + ResetWrites(k, address);
    assert log == head + writes;
    forall i | 0 <= i < PinCount(k)
      ensures log[1 + PortCount(k) + 2 * i] == Write(address, Registers(k, Split(k, i).port).iodir, InitByte(Split(k, i).bit + 1, io.output == io.input))
      ensures log[2 + PortCount(k) + 2 * i] == Write(address, Registers(k, Split(k, i).port).gpio, InitByte(Split(k, i).bit + 1, io.high == LOW))
    {
      assert log[1 + PortCount(k) + 2 * i] == writes[2 * i];
      assert log[2 + PortCount(k) + 2 * i] == writes[2 * i + 1];
    }
  }

  /** A port-indexed shadow register holding `b` on every port. */
  function Filled(k: Kind, b: Byte): (r: seq<Byte>)
    ensures |r| == PortCount(k)
    ensures forall p :: 0 <= p < |r| ==> r[p] == b
  {
    seq(PortCount(k), _ => b)
  }

  /** A pin's bit in a port-indexed shadow register. */
  function PortBit(shadow: seq<Byte>, k: Kind, pin: int): int
    requires |shadow| == PortCount(k) && 0 <= pin < PinCount(k)
  {
    Bit(shadow[Split(k, pin).port], Split(k, pin).bit)
  }

  /** A shadow register with one pin's bit set (`on`) or cleared; only the
      byte of that pin's port is replaced. */
  function SetPinBit(shadow: seq<Byte>, k: Kind, pin: int, on: bool): (r: seq<Byte>)
    requires |shadow| == PortCount(k) && 0 <= pin < PinCount(k)
    ensures |r| == |shadow|
    ensures forall p :: 0 <= p < |shadow| && p != Split(k, pin).port ==> r[p] == shadow[p]
  {
    var loc := Split(k, pin);
    shadow[loc.port := UpdateBit(shadow[loc.port], loc.bit, on)]
  }

  /** After SetPinBit the pin reads back `on`, and every other pin, on
      either port, reads back what it read before. */
  lemma SetPinBitFrame(shadow: seq<Byte>, k: Kind, pin: int, on: bool)
    requires |shadow| == PortCount(k) && 0 <= pin < PinCount(k)
    ensures PortBit(SetPinBit(shadow, k, pin, on), k, pin) == (if on then 1 else 0)
    ensures forall q :: 0 <= q < PinCount(k) && q != pin ==>
              PortBit(SetPinBit(shadow, k, pin, on), k, q) == PortBit(shadow, k, q)
  {
  }

  /** A shadow register part-way through initialisation: every port holds
      its byte after the pins among 0 .. i-1 on that port were processed. */
  function InitShadowAt(k: Kind, i: nat, sets: bool): (r: seq<Byte>)
    ensures |r| == PortCount(k)
  {
    seq(PortCount(k), p requires 0 <= p < PortCount(k) => InitByte(Processed(p, i), sets))
  }

  /** Before any pin is processed every shadow byte is the reset 0xFF. */
  lemma InitShadowStart(k: Kind, sets: bool)
    ensures InitShadowAt(k, 0, sets) == Filled(k, 0xFF)
  {
  }

  /** Processing pin i edits exactly the bit of pin i. */
  lemma InitShadowStep(k: Kind, i: nat, sets: bool)
    requires i < PinCount(k)
    ensures SetPinBit(InitShadowAt(k, i, sets), k, i, sets) == InitShadowAt(k, i + 1, sets)
  {
    var loc := Split(k, i);
    InitByteStep(loc.bit, sets);
    assert Processed(loc.port, i) == loc.bit && Processed(loc.port, i + 1) == loc.bit + 1;
  }

  /** Once every pin was processed, a shadow is 0x00 on every port, or
      0xFF when the operation set the bits instead of clearing them. */
  lemma InitShadowEnd(k: Kind, sets: bool)
    ensures InitShadowAt(k, PinCount(k), sets) == Filled(k, if sets then 0xFF else 0x00)
  {
    assert forall p :: 0 <= p < PortCount(k) ==> Processed(p, PinCount(k)) == 8;
  }

  /** Round i of initialisation appends pin i's two writes, and they carry
      the port bytes of the shadows after pin i was processed. */
  lemma InitLogStep(k: Kind, address: int, io: Vocabulary, i: nat)
    requires i < PinCount(k)
    ensures var w := PinInitWrites(k, address, io, i);
      && InitLogUpTo(k, address, io, i + 1) == InitLogUpTo(k, address, io, i) + [w[0]] + [w[1]]
      && w[0] == Write(address, Registers(k, Split(k, i).port).iodir, InitShadowAt(k, i + 1, io.output == io.input)[Split(k, i).port])
      && w[1] == Write(address, Registers(k, Split(k, i).port).gpio, InitShadowAt(k, i + 1, io.high == LOW)[Split(k, i).port])
  {
    var loc := Split(k, i);
    assert Processed(loc.port, i + 1) == loc.bit + 1;
  }

  /** Pushing a fresh entry for pin i and setting it to output extends the
      initialised pins by one. */
  lemma PushInitialPin(io: Vocabulary, i: nat)
    ensures var s := InitialPins(io, i) + [FreshPin(io)];
      s[i := s[i].(mode := io.output)] == InitialPins(io, i + 1)
  {
    var s := InitialPins(io, i) + [FreshPin(io)];
    assert s[i := s[i].(mode := io.output)] == InitialPins(io, i + 1);
  }

  /** Driving an initialised pin low leaves its entry as it was. */
  lemma InitialPinDrivenLow(io: Vocabulary, n: nat, i: nat)
    requires i < n
    ensures var s := InitialPins(io, n);
      s[i := s[i].(report := 0, value := LOW)] == s
  {
    var s := InitialPins(io, n);
    assert s[i := s[i].(report := 0, value := LOW)] == s;
  }

  class Expander {
    const kind: Kind
    const io: Vocabulary

    var address: int
    var name: string
    var isReady: bool
    var modes: Modes
    var pins: seq<Pin>
    var analogPins: seq<int>

    // Shadow registers, one byte per port, indexed by the port's IODIR address.
    var iodir: seq<Byte>
    var olat: seq<Byte>
    var gpio: seq<Byte>
    var gppu: seq<Byte>

    var bus: seq<BusOp>
    var events: seq<Event>
    var listeners: map<int, seq<CallbackId>>

    ghost predicate Valid()
      reads this
    {
      && |pins| <= PinCount(kind)
      && |iodir| == PortCount(kind) && |olat| == PortCount(kind)
      && |gpio| == PortCount(kind) && |gppu| == PortCount(kind)
      && forall i :: 0 <= i < |bus| && bus[i].Read? ==> 0 <= bus[i].pinIndex < |pins| && bus[i].bit < 8
    }

    /** The state `initialize` leaves behind. */
    ghost predicate Initialized()
      reads this
    {
      && Valid()
      && pins == InitialPins(io, PinCount(kind))
      && iodir == Filled(kind, if io.output == io.input then 0xFF else 0x00)
      && olat == Filled(kind, if io.high == LOW then 0xFF else 0x00)
      && gpio == olat
      && gppu == Filled(kind, 0x00)
      && modes == Modes(io.input, io.output)
      && analogPins == []
      && name == "Expander:" + KindName(kind)
      && isReady
      && events == [Connect, Ready]
      && listeners == map[]
      && bus == InitLog(kind, address, io)
    }

    /** The state of `initialize` once pins 0 .. i-1 have been set up. */
    ghost predicate InitProgress(i: nat)
      reads this
    {
      && Valid()
      && i <= PinCount(kind)
      && modes == Modes(io.input, io.output)
      && pins == InitialPins(io, i)
      && iodir == InitShadowAt(kind, i, io.output == io.input)
      && olat == InitShadowAt(kind, i, io.high == LOW)
      && gpio == olat
      && gppu == Filled(kind, 0x00)
      && bus == InitLogUpTo(kind, address, io, i)
    }

    /** Half-way through round `i` of `initialize`: pin `i` is pushed and
        set to output, but not yet driven low. */
    ghost predicate InitHalfway(i: nat)
      reads this
    {
      && Valid()
      && i < PinCount(kind)
      && modes == Modes(io.input, io.output)
      && pins == InitialPins(io, i + 1)
      && iodir == InitShadowAt(kind, i + 1, io.output == io.input)
      && olat == InitShadowAt(kind, i, io.high == LOW)
      && gpio == olat
      && gppu == Filled(kind, 0x00)
      && bus == InitLogUpTo(kind, address, io, i) + [PinInitWrites(kind, address, io, i)[0]]
    }

    /** First half of round `i`: push pin `i`'s entry, then pinMode(i, OUTPUT). */
    method InitializeDirection(i: nat)
      requires InitProgress(i) && i < PinCount(kind)
      modifies this`pins, this`iodir, this`bus
      ensures InitHalfway(i)
    {
      InitShadowStep(kind, i, io.output == io.input);
      InitLogStep(kind, address, io, i);
      PushInitialPin(io, i);
      pins := pins + [FreshPin(io)];
      var moded := PinMode(i, modes.output);
    }

    /** Second half of round `i`: digitalWrite(i, LOW). */
    method InitializeLatch(i: nat)
      requires InitHalfway(i)
      modifies this`pins, this`olat, this`gpio, this`bus
      ensures InitProgress(i + 1)
    {
      InitShadowStep(kind, i, io.high == LOW);
      InitLogStep(kind, address, io, i);
      InitialPinDrivenLow(io, i + 1, i);
      var written := DigitalWrite(i, LOW);
    }

    /** The loop of `initialize` over pins 0 .. PinCount-1, in order. */
    method InitializePins()
      requires InitProgress(0)
      modifies this`pins, this`iodir, this`olat, this`gpio, this`bus
      ensures InitProgress(PinCount(kind))
    {
      var i := 0;
      while i < PinCount(kind)
        invariant 0 <= i <= PinCount(kind)
        invariant InitProgress(i)
      {
        InitializeDirection(i);
        InitializeLatch(i);
        i := i + 1;
      }
    }

    /** `new Expander(...)` for a resolved family: `Base()` leaves an empty,
        not-ready driver and `initialize` is run on it. */
    constructor (k: Kind, opt: Option<int>, transport: Vocabulary)
      ensures kind == k && io == transport
      ensures address == SelectAddress(opt)
      ensures Initialized()
    {
      kind := k;
      io := transport;
      pins := [];
      analogPins := [];
      isReady := false;
      listeners := map[];
      events := [];
      bus := [];
      new;
      Initialize(opt);
    }

    /** `initialize`: reset the shadows, configure the bus and write each
        port's direction byte, then set up every pin in ascending order,
        then report connect and ready. */
    method Initialize(opt: Option<int>)
      requires pins == [] && analogPins == [] && !isReady && listeners == map[] && events == [] && bus == []
      modifies this
      ensures address == SelectAddress(opt)
      ensures Initialized()
    {
      Reset(opt);
      InitializePins();
      Announce();
    }

    /** The start of `initialize`: shadows at 0xFF (pull-ups 0x00), the
        address, one configure call, one 0xFF direction write per port,
        and the mode constants copied from the transport. */
    method Reset(opt: Option<int>)
      requires pins == [] && bus == []
      modifies this`iodir, this`olat, this`gpio, this`gppu, this`address, this`bus, this`modes
      ensures address == SelectAddress(opt)
      ensures InitProgress(0)
    {
      iodir := Filled(kind, 0xFF);
      olat := Filled(kind, 0xFF);
      gpio := Filled(kind, 0xFF);
      gppu := Filled(kind, 0x00);
      address := SelectAddress(opt);
      bus := bus + [Configure];
      bus := bus + ResetWrites(kind, address);
      modes := Modes(io.input, io.output);
      InitShadowStart(kind, io.output == io.input);
      InitShadowStart(kind, io.high == LOW);
      assert pins == InitialPins(io, 0);
    }

    /** The end of `initialize`: name the driver, mark it ready, and emit
        "connect" followed by "ready". */
    method Announce()
      requires InitProgress(PinCount(kind)) && analogPins == [] && listeners == map[] && events == []
      modifies this`name, this`isReady, this`events
      ensures Initialized()
    {
      InitShadowEnd(kind, io.output == io.input);
      InitShadowEnd(kind, io.high == LOW);
      name := "Expander:" + KindName(kind);
      isReady := true;
      events := events + [Connect];
      events := events + [Ready];
    }

    /** `pinMode`: set the pin's direction bit iff `mode` is the transport's
        INPUT, record the mode, and write the port's IODIR byte. */
    method PinMode(pin: int, mode: int) returns (r: Outcome)
      requires Valid()
      modifies this`iodir, this`pins, this`bus
      ensures Valid() && |pins| == |old(pins)|
      ensures r == Pass <==> 0 <= pin < |pins|
      ensures r.Fail? ==> r.error == NoSuchPin(pin) && iodir == old(iodir) && pins == old(pins) && bus == old(bus)
      ensures r.Pass? ==>
        var loc := Split(kind, pin);
        && iodir == SetPinBit(old(iodir), kind, pin, mode == io.input)
        && pins == old(pins)[pin := old(pins)[pin].(mode := mode)]
        && bus == old(bus) + [Write(address, Registers(kind, loc.port).iodir, iodir[loc.port])]
    {
      if !(0 <= pin < |pins|) {
        return Fail(NoSuchPin(pin));
      }
      var loc := Split(kind, pin);
      var port := Registers(kind, loc.port).iodir;
      var byte := UpdateBit(iodir[port], loc.bit, mode == io.input);
      pins := pins[pin := pins[pin].(mode := mode)];
      bus := bus + [Write(address, port, byte)];
      iodir := iodir[port := byte];
      r := Pass;
    }

    /** `digitalWrite`: set the pin's latch bit iff `value` is the
        transport's HIGH, write the byte to the port's GPIO register (not
        OLAT) and mirror it into both the latch and the input shadow. */
    method DigitalWrite(pin: int, value: int) returns (r: Outcome)
      requires Valid()
      modifies this`olat, this`gpio, this`pins, this`bus
      ensures Valid() && |pins| == |old(pins)|
      ensures r == Pass <==> 0 <= pin < |pins|
      ensures r.Fail? ==> r.error == NoSuchPin(pin) && olat == old(olat) && gpio == old(gpio) && pins == old(pins) && bus == old(bus)
      ensures r.Pass? ==>
        var loc := Split(kind, pin);
        && olat == SetPinBit(old(olat), kind, pin, value == io.high)
        && gpio == old(gpio)[loc.port := olat[loc.port]]
        && pins == old(pins)[pin := old(pins)[pin].(report := 0, value := value)]
        && bus == old(bus) + [Write(address, Registers(kind, loc.port).gpio, olat[loc.port])]
    {
      if !(0 <= pin < |pins|) {
        return Fail(NoSuchPin(pin));
      }
      var loc := Split(kind, pin);
      var port := Registers(kind, loc.port).iodir;
      var gpioAddress := Registers(kind, loc.port).gpio;
      var byte := UpdateBit(olat[port], loc.bit, value == io.high);
      pins := pins[pin := pins[pin].(report := 0, value := value)];
      bus := bus + [Write(address, gpioAddress, byte)];
      olat := olat[port := byte];
      gpio := gpio[port := byte];
      r := Pass;
    }

    /** `pullUp`: set the pin's pull-up bit iff `value` is the transport's
        HIGH and write the port's GPPU byte. Pins are not consulted, so any
        integer pin is taken: for a pin of the chip the edit is the pin's
        own bit, for another one the bit its shift count lands on, and a
        clear whose shift count lies beyond the byte leaves it as it was. */
    method PullUp(pin: int, value: int)
      requires Valid() && (ShiftLocation(kind, pin).bit < 8 || value != io.high)
      modifies this`gppu, this`bus
      ensures Valid()
      ensures
        var loc := ShiftLocation(kind, pin);
        var byte := if loc.bit < 8 then UpdateBit(old(gppu)[loc.port], loc.bit, value == io.high) else old(gppu)[loc.port];
        && gppu == old(gppu)[loc.port := byte]
        && bus == old(bus) + [Write(address, Registers(kind, loc.port).gppu, byte)]
      ensures 0 <= pin < PinCount(kind) ==> gppu == SetPinBit(old(gppu), kind, pin, value == io.high)
    {
      var loc := ShiftLocation(kind, pin);
      var port := Registers(kind, loc.port).iodir;
      var gppuAddress := Registers(kind, loc.port).gppu;
      var byte := gppu[port];
      if loc.bit < 8 {
        byte := UpdateBit(byte, loc.bit, value == io.high);
      }
      bus := bus + [Write(address, gppuAddress, byte)];
      gppu := gppu[port := byte];
    }

    /** `digitalRead`, first half: mark the pin as reporting, register the
        callback on the channel named after the pin's bit within its port,
        and ask the transport for one byte of the port's GPIO register.
        Without a callback the emitter refuses the registration after the
        pin was already marked, and no read is issued. */
    method DigitalRead(pin: int, callback: Option<CallbackId>) returns (r: Outcome)
      requires Valid()
      modifies this`pins, this`listeners, this`bus
      ensures Valid() && |pins| == |old(pins)|
      ensures r == Pass <==> 0 <= pin < |pins| && callback.Some?
      ensures !(0 <= pin < |pins|) ==> r == Fail(NoSuchPin(pin)) && pins == old(pins)
      ensures 0 <= pin < |pins| && callback.None? ==>
        r == Fail(NoListener) && pins == old(pins)[pin := old(pins)[pin].(report := 1)]
      ensures r.Fail? ==> listeners == old(listeners) && bus == old(bus)
      ensures r.Pass? ==>
        var loc := Split(kind, pin);
        && pins == old(pins)[pin := old(pins)[pin].(report := 1)]
        && listeners == old(listeners)[loc.bit := Listeners(old(listeners), loc.bit) + [callback.value]]
        && bus == old(bus) + [Read(address, Registers(kind, loc.port).gpio, 1, pin, loc.bit)]
    {
      if !(0 <= pin < |pins|) {
        return Fail(NoSuchPin(pin));
      }
      var loc := Split(kind, pin);
      var gpioAddress := Registers(kind, loc.port).gpio;
      pins := pins[pin := pins[pin].(report := 1)];
      if callback.None? {
        return Fail(NoListener);
      }
      listeners := listeners[loc.bit := Listeners(listeners, loc.bit) + [callback.value]];
      bus := bus + [Read(address, gpioAddress, 1, pin, loc.bit)];
      r := Pass;
    }

    /** `digitalRead`, second half: the transport completes the read logged
        at `bus[k]` with byte `b`. The bit is stored as the pin's value and
        emitted on the read's channel; every callback ever registered on
        that channel is notified, oldest first. */
    method ReadComplete(k: nat, b: Byte) returns (value: int, notified: seq<CallbackId>)
      requires Valid() && k < |bus| && bus[k].Read?
      modifies this`pins, this`events
      ensures Valid()
      ensures value == Bit(b, bus[k].bit)
      ensures pins == old(pins)[bus[k].pinIndex := old(pins)[bus[k].pinIndex].(value := value)]
      ensures events == old(events) + [ReadReport(bus[k].bit, value)]
      ensures notified == Listeners(listeners, bus[k].bit)
    {
      var op := bus[k];
      value := Bit(b, op.bit);
      pins := pins[op.pinIndex := pins[op.pinIndex].(value := value)];
      events := events + [ReadReport(op.bit, value)];
      notified := Listeners(listeners, op.bit);
    }

    method AnalogWrite() returns (r: Outcome)
      ensures r == Fail(Unsupported("Expander:" + KindName(kind), "analogWrite"))
    {
      r := Fail(Unsupported("Expander:" + KindName(kind), "analogWrite"));
    }

    method AnalogRead() returns (r: Outcome)
      ensures r == Fail(Unsupported("Expander:" + KindName(kind), "analogRead"))
    {
      r := Fail(Unsupported("Expander:" + KindName(kind), "analogRead"));
    }

    method ServoWrite() returns (r: Outcome)
      ensures r == Fail(Unsupported("Expander:" + KindName(kind), "servoWrite"))
    {
      r := Fail(Unsupported("Expander:" + KindName(kind), "servoWrite"));
    }
  }

  /** What `new Expander(opts)` yields. */
  datatype Construction = Built(expander: Expander) | InertObject | Rejected(error: Error)

  /** `Expander(opts)`: resolve the controller before any I/O; a missing or
      unknown one raises, the empty string yields an object without driver
      operations, and a resolved family is initialised. */
  method Create(controller: ControllerOption, address: Option<int>, io: Vocabulary) returns (r: Construction)
    ensures r.Rejected? <==> Resolve(controller) == ConfigError
    ensures r.Rejected? ==> r.error == ConfigurationError
    ensures r.InertObject? <==> Resolve(controller) == Inert
    ensures r.Built? ==>
      && Resolve(controller).Resolved?
      && fresh(r.expander)
      && r.expander.kind == Resolve(controller).kind
      && r.expander.io == io
      && r.expander.address == SelectAddress(address)
      && r.expander.Initialized()
  {
    var res := Resolve(controller);
    match res
    case ConfigError => r := Rejected(ConfigurationError);
    case Inert => r := InertObject;
    case Resolved(k) =>
      var e := new Expander(k, address, io);
      r := Built(e);
  }
}
