/** Client-side uses of the driver: the concrete situations its design
    turns on, each stated as a contract over the model. */
module Scenarios {
  import opened Bits
  import opened Controllers
  import opened ExpanderCore

  /** Flat pin 9 of an MCP23017 is bit 1 of port B, whose direction
      register is 0x01; flat pin 1 is bit 1 of port A. The two share the
      read channel named after bit 1. */
  lemma PinNineIsPortB()
    ensures Split(MCP23017, 9) == Location(1, 1) && Registers(MCP23017, 1).iodir == 0x01
    ensures Split(MCP23017, 1) == Location(0, 1)
    ensures Split(MCP23017, 1).bit == Split(MCP23017, 9).bit
  {
  }

  /** Pins off the chip reach real pull-up bits through JavaScript's
      shift count: pin -25 is bit 7 of port A and pin 40 bit 0 of port B. */
  lemma StrayPullUpPins()
    ensures ShiftLocation(MCP23017, -25) == Location(0, 7)
    ensures ShiftLocation(MCP23017, 40) == Location(1, 0)
    ensures ShiftLocation(MCP23008, 33) == Location(0, 1)
  {
  }

  /** A read completing with 0x08 reports 1 exactly for bit 3. */
  lemma ReadOfEight()
    ensures forall k :: 0 <= k < 8 ==> (Bit(0x08, k) == 1 <==> k == 3)
  {
  }

  /** `pinMode(9, OUTPUT)` on an MCP23017: one write to register 0x01 whose
      byte has bit 1 cleared and the other bits of port B as before. */
  method ModeNineOutput(e: Expander) returns (r: Outcome)
    requires e.Valid() && e.kind == MCP23017 && 9 < |e.pins| && e.io.output != e.io.input
    modifies e`iodir, e`pins, e`bus
    ensures r == Pass && e.Valid() && |e.iodir| == 2
    ensures e.bus == old(e.bus) + [Write(e.address, 0x01, e.iodir[1])]
    ensures Bit(e.iodir[1], 1) == 0
    ensures forall j :: 0 <= j < 8 && j != 1 ==> Bit(e.iodir[1], j) == Bit(old(e.iodir[1]), j)
    ensures e.iodir[0] == old(e.iodir[0])
  {
    r := e.PinMode(9, e.io.output);
  }

  /** Two HIGH writes to pins of the same port lose neither update: the
      shadow and the last byte on the bus hold the earlier byte with both
      pins' bits set. */
  method SamePortWrites(e: Expander, p: int, q: int) returns (r1: Outcome, r2: Outcome)
    requires e.Valid() && 0 <= p < |e.pins| && 0 <= q < |e.pins|
    requires Split(e.kind, p).port == Split(e.kind, q).port
    modifies e`olat, e`gpio, e`pins, e`bus
    ensures r1 == Pass && r2 == Pass && e.Valid() && |e.bus| > 0
    ensures
      var port := Split(e.kind, p).port;
      var expected := old(e.olat[port]) | Mask(Split(e.kind, p).bit) | Mask(Split(e.kind, q).bit);
      && e.olat[port] == expected
      && e.gpio[port] == expected
      && e.bus[|e.bus| - 1] == Write(e.address, Registers(e.kind, port).gpio, expected)
  {
    ghost var port := Split(e.kind, p).port;
    ghost var before := e.olat[port];
    r1 := e.DigitalWrite(p, e.io.high);
    r2 := e.DigitalWrite(q, e.io.high);
    NoLostUpdate(before, Split(e.kind, p).bit, Split(e.kind, q).bit);
  }

  /** Two reads of pin 5 in a row: the listeners are never removed, so the
      completion of the first read already notifies both callbacks. */
  method RepeatedRead(e: Expander, a: CallbackId, b: CallbackId, data: Byte) returns (value: int, notified: seq<CallbackId>)
    requires e.Valid() && 5 < |e.pins|
    modifies e`pins, e`listeners, e`bus, e`events
    ensures value == Bit(data, 5)
    ensures notified == Listeners(old(e.listeners), 5) + [a, b]
    ensures e.events == old(e.events) + [ReadReport(5, value)]
  {
    var first := |e.bus|;
    var ra := e.DigitalRead(5, Some(a));
    var rb := e.DigitalRead(5, Some(b));
    assert e.bus[first] == Read(e.address, Registers(e.kind, 0).gpio, 1, 5, 5);
    value, notified := e.ReadComplete(first, data);
  }

  /** The start-up log of an MCP23008 on a transport whose OUTPUT differs
      from INPUT and whose HIGH is not 0: eighteen bus calls, the reset
      byte 0xFF, pin 0 driven to 0xFE on IODIR and then GPIO, and 0x00 as
      the last GPIO byte. */
  lemma Mcp23008StartLog(address: int, io: Vocabulary)
    requires io.output != io.input && io.high != LOW
    ensures var log := InitLog(MCP23008, address, io);
      && |log| == 18
      && log[1] == Write(address, 0x00, 0xFF)
      && log[2] == Write(address, 0x00, 0xFE) && log[3] == Write(address, 0x09, 0xFE)
      && log[17] == Write(address, 0x09, 0x00)
  {
    var writes := PinWrites(MCP23008, address, io, PinCount(MCP23008));
    PinWritesLayout(MCP23008, address, io, PinCount(MCP23008));
    assert InitLog(MCP23008, address, io) == [Configure, Write(address, 0x00, 0xFF)] + writes;
    BitsDetermineByte(Cleared(1), 0xFE);
    BitsDetermineByte(Cleared(8), 0x00);
    assert writes[0] == PinInitWrites(MCP23008, address, io, 0)[0];
    assert writes[1] == PinInitWrites(MCP23008, address, io, 0)[1];
    assert writes[15] == PinInitWrites(MCP23008, address, io, 7)[1];
  }

  /** The same start-up on a driver object: every shadow ends at 0x00. */
  method StartMcp23008() returns (e: Expander)
    ensures fresh(e) && e.Initialized() && e.address == 0x20
    ensures e.iodir == [0x00] && e.olat == [0x00] && e.gpio == [0x00] && e.gppu == [0x00]
    ensures e.bus == InitLog(MCP23008, 0x20, Vocabulary(0, 1, 1))
  {
    e := new Expander(MCP23008, None, Vocabulary(0, 1, 1));
    assert Filled(MCP23008, 0x00) == [0x00];
  }
}
