/** Single-bit arithmetic on the 8-bit register bytes of the expander chips.
    The driver never writes part of a register: it edits one bit of a
    shadow byte (`|= 1 << bit` or `&= ~(1 << bit)`) and writes the whole
    byte back. */
module Bits {

  type Byte = bv8

  /** `1 << k` for a bit index within a byte. */
  function Mask(k: nat): Byte
    requires k < 8
  {
    if k == 0 then 0x01 else if k == 1 then 0x02 else if k == 2 then 0x04 else if k == 3 then 0x08
    else if k == 4 then 0x10 else if k == 5 then 0x20 else if k == 6 then 0x40 else 0x80
  }

  /** Bit `k` of `b` as 0 or 1; the driver's `byte >> pin & 0x01`. */
  function Bit(b: Byte, k: nat): (r: int)
    requires k < 8
    ensures r == 0 || r == 1
  {
    if b & Mask(k) != 0 then 1 else 0
  }

  /** The mask test is the driver's shift-and-mask extraction. */
  lemma BitIsShiftAnd(b: Byte, k: nat)
    requires k < 8
    ensures Bit(b, k) == ((b >> k) & 1) as int
  {
  }

  /** Two bytes that agree on all eight bits are the same byte, so a
      contract stated bit by bit pins a byte down completely. */
  lemma BitsDetermineByte(a: Byte, b: Byte)
    requires forall j :: 0 <= j < 8 ==> Bit(a, j) == Bit(b, j)
    ensures a == b
  {
    assert Bit(a, 0) == Bit(b, 0) && Bit(a, 1) == Bit(b, 1);
    assert Bit(a, 2) == Bit(b, 2) && Bit(a, 3) == Bit(b, 3);
    assert Bit(a, 4) == Bit(b, 4) && Bit(a, 5) == Bit(b, 5);
    assert Bit(a, 6) == Bit(b, 6) && Bit(a, 7) == Bit(b, 7);
  }

  lemma SetLeavesOtherBit(b: Byte, k: nat, j: nat)
    requires k < 8 && j < 8 && j != k
    ensures Bit(b | Mask(k), j) == Bit(b, j)
  {
  }

  lemma ClearLeavesOtherBit(b: Byte, k: nat, j: nat)
    requires k < 8 && j < 8 && j != k
    ensures Bit(b & !Mask(k), j) == Bit(b, j)
  {
  }

  /** Set bit `k` of `b` when `on`, clear it otherwise: the read-modify-write
      step shared by pinMode, digitalWrite and pullUp. */
  function UpdateBit(b: Byte, k: nat, on: bool): (r: Byte)
    requires k < 8
    ensures Bit(r, k) == (if on then 1 else 0)
    ensures forall j :: 0 <= j < 8 && j != k ==> Bit(r, j) == Bit(b, j)
  {
    var r := if on then b | Mask(k) else b & !Mask(k);
    assert forall j :: 0 <= j < 8 && j != k ==> Bit(r, j) == Bit(b, j) by {
      forall j | 0 <= j < 8 && j != k
        ensures Bit(r, j) == Bit(b, j)
      {
        if on { SetLeavesOtherBit(b, k, j); } else { ClearLeavesOtherBit(b, k, j); }
      }
    }
    r
  }

  /** Two HIGH edits in a row lose neither: the result is the prior byte
      OR both masks, whichever bits they name. */
  lemma NoLostUpdate(b: Byte, p: nat, q: nat)
    requires p < 8 && q < 8
    ensures UpdateBit(UpdateBit(b, p, true), q, true) == b | Mask(p) | Mask(q)
  {
  }

  /** 0xFF with its low `n` bits cleared: a port byte after its first `n`
      pins were driven to output / low during initialisation. */
  function Cleared(n: nat): (r: Byte)
    requires n <= 8
    ensures forall j :: 0 <= j < 8 ==> Bit(r, j) == (if j < n then 0 else 1)
  {
    0xFF << n
  }

  /** Clearing the next bit of a partly cleared byte extends the cleared run. */
  lemma ClearedStep(n: nat)
    requires n < 8
    ensures UpdateBit(Cleared(n), n, false) == Cleared(n + 1)
  {
  }
}
