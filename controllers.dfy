/** The two shipped controller descriptors (register maps, port and pin
    counts, the flat-pin split) and the resolution of the `controller`
    construction option to one of them. */
module Controllers {

  datatype Option<T> = None | Some(value: T)

  /** The chip families; one descriptor each, chosen once at construction. */
  datatype Kind = MCP23017 | MCP23008

  /** `REGISTER.ADDRESS` of both families. */
  const DefaultAddress: int := 0x20

  function PortCount(k: Kind): (n: nat)
    ensures 1 <= n <= 2
  {
    match k
    case MCP23017 => 2
    case MCP23008 => 1
  }

  function PinCount(k: Kind): nat
  {
    8 * PortCount(k)
  }

  /** The register addresses that belong to one port. */
  datatype PortRegisters = PortRegisters(iodir: int, gppu: int, gpio: int, olat: int)

  /** The `REGISTER` table: port 0 is A and port 1 is B on the MCP23017.
      The driver indexes its shadow arrays by the IODIR address of the port,
      which on both chips is the port number itself. */
  function Registers(k: Kind, port: nat): (r: PortRegisters)
    requires port < PortCount(k)
    ensures r.iodir == port
    ensures r.gpio != r.olat && r.gppu != r.iodir
  {
    match k
    case MCP23017 =>
      if port == 0 then PortRegisters(0x00, 0x0C, 0x12, 0x14)
      else PortRegisters(0x01, 0x0D, 0x13, 0x15)
    case MCP23008 => PortRegisters(0x00, 0x06, 0x09, 0x0A)
  }

  /** Where a flat pin lives: a port and a bit within that port's byte. */
  datatype Location = Location(port: nat, bit: nat)

  /** The pin split: on the MCP23017 pins below 8 are bit `pin` of port A
      and the rest bit `pin - 8` of port B; on the MCP23008 every pin is
      bit `pin` of its only port. */
  function Split(k: Kind, pin: int): (loc: Location)
    requires 0 <= pin < PinCount(k)
    ensures loc.port < PortCount(k) && loc.bit < 8
    ensures pin == 8 * loc.port + loc.bit
  {
    match k
    case MCP23017 => if pin < 8 then Location(0, pin) else Location(1, pin - 8)
    case MCP23008 => Location(0, pin)
  }

  /** Where `pullUp` edits for any integer pin, in range or not: the same
      port choice as the split, and the bit is the shift count JavaScript
      actually uses for `1 << n`, which is n modulo 32. */
  function ShiftLocation(k: Kind, pin: int): (loc: Location)
    ensures loc.port < PortCount(k) && loc.bit < 32
    ensures 0 <= pin < PinCount(k) ==> loc == Split(k, pin)
  {
    match k
    case MCP23017 => if pin < 8 then Location(0, pin % 32) else Location(1, (pin - 8) % 32)
    case MCP23008 => Location(0, pin % 32)
  }

  /** The split is a bijection between flat pins and (port, bit) pairs. */
  lemma SplitOnto(k: Kind, port: nat, bit: nat)
    requires port < PortCount(k) && bit < 8
    ensures 0 <= 8 * port + bit < PinCount(k)
    ensures Split(k, 8 * port + bit) == Location(port, bit)
  {
  }

  /** `opts.address || REGISTER.ADDRESS`: a missing address and the falsy
      address 0 both fall back to the default. */
  function SelectAddress(address: Option<int>): (r: int)
    ensures r != 0
    ensures address.Some? && address.value != 0 ==> r == address.value
    ensures address.None? || address.value == 0 ==> r == DefaultAddress
  {
    match address
    case Some(a) => if a != 0 then a else DefaultAddress
    case None => DefaultAddress
  }

  // ---------------------------------------------------------------------
  // Controller resolution

  /** What a caller can pass as `opts.controller`: nothing (undefined or
      null), a string naming a family, one of the descriptor objects, or a
      primitive that is neither (a number, a boolean, a symbol). */
  datatype ControllerOption = Absent | Named(name: string) | Supplied(kind: Kind) | Primitive

  /** `Inert` is what the empty string and the other primitives lead to:
      they are taken as the descriptor itself, pass the null check, define
      no operations (`Object.defineProperties` finds no own properties on
      them) and no `initialize` runs. */
  datatype Resolution = Resolved(kind: Kind) | Inert | ConfigError

  function KindName(k: Kind): string
  {
    match k
    case MCP23017 => "MCP23017"
    case MCP23008 => "MCP23008"
  }

  /** `toUpperCase` on one character: ASCII letters only. */
  function Upper(c: char): char
  {
    if 'a' <= c <= 'z' then (c as int - 32) as char else c
  }

  function UpperCase(s: string): (u: string)
    ensures |u| == |s|
    ensures forall i :: 0 <= i < |s| ==> u[i] == Upper(s[i])
    ensures forall i :: 0 <= i < |u| ==> !('a' <= u[i] <= 'z')
    ensures forall i :: 0 <= i < |s| && !('a' <= s[i] <= 'z') ==> u[i] == s[i]
  {
    seq(|s|, i requires 0 <= i < |s| => Upper(s[i]))
  }

  /** `Controllers[name]`, an exact lookup in the descriptor table. */
  function Lookup(name: string): (r: Option<Kind>)
    ensures r.Some? <==> name == KindName(MCP23017) || name == KindName(MCP23008)
    ensures r.Some? ==> KindName(r.value) == name
  {
    if name == KindName(MCP23017) then Some(MCP23017)
    else if name == KindName(MCP23008) then Some(MCP23008)
    else None
  }

  /** The constructor's choice of controller: strings are upper-cased and
      looked up, any other value is used as the descriptor, and a missing
      one is a configuration error. */
  function Resolve(c: ControllerOption): (r: Resolution)
    ensures r == Inert <==> c == Named("") || c.Primitive?
    ensures r.Resolved? && c.Named? ==> KindName(r.kind) == UpperCase(c.name)
    ensures r.Resolved? && !c.Named? ==> c == Supplied(r.kind)
  {
    match c
    case Absent => ConfigError
    case Named(s) =>
      if s == "" then Inert
      else if Lookup(UpperCase(s)).Some? then Resolved(Lookup(UpperCase(s)).value)
      else ConfigError
    case Supplied(k) => Resolved(k)
    case Primitive => Inert
  }

  /** Reference definition of a case-insensitive match. */
  predicate EqualsIgnoringCase(s: string, t: string)
  {
    |s| == |t| && forall i :: 0 <= i < |s| ==> Upper(s[i]) == Upper(t[i])
  }

  lemma UpperCaseMatches(s: string, k: Kind)
    ensures UpperCase(s) == KindName(k) <==> EqualsIgnoringCase(s, KindName(k))
  {
    var t := KindName(k);
    assert forall i :: 0 <= i < |t| ==> Upper(t[i]) == t[i];
    if EqualsIgnoringCase(s, t) {
      assert forall i :: 0 <= i < |t| ==> UpperCase(s)[i] == t[i];
    }
  }

  /** A controller name resolves to a family exactly when it equals that
      family's name up to case, and to a configuration error exactly when
      it is non-empty and matches neither family. */
  lemma {:induction false} ResolveByName(s: string, k: Kind)
    requires s != ""
    ensures Resolve(Named(s)) == Resolved(k) <==> EqualsIgnoringCase(s, KindName(k))
    ensures Resolve(Named(s)) == ConfigError <==>
              !EqualsIgnoringCase(s, KindName(MCP23017)) && !EqualsIgnoringCase(s, KindName(MCP23008))
  {
    UpperCaseMatches(s, MCP23017);
    UpperCaseMatches(s, MCP23008);
  }

  /** The resolution never depends on case: a name and its upper-cased
      form resolve alike. */
  lemma ResolveIgnoresCase(s: string)
    ensures Resolve(Named(UpperCase(s))) == Resolve(Named(s))
  {
    var u := UpperCase(s);
    assert forall i :: 0 <= i < |u| ==> Upper(u[i]) == u[i];
    assert UpperCase(u) == u;
  }

  /** Reaching the driver needs a controller: only a missing one raises,
      and a primitive yields the inert object. */
  lemma ResolveNonNamed(c: ControllerOption)
    requires !c.Named?
    ensures Resolve(c) == ConfigError <==> c.Absent?
    ensures c.Supplied? ==> Resolve(c) == Resolved(c.kind)
    ensures c.Primitive? ==> Resolve(c) == Inert
  {
  }
}
