/**
 * The Modbus side of the driver: holding registers, the big-endian byte
 * layout of register data (section 4.2 of the Modbus Application Protocol
 * Specification V1.1b3), and a simulated server that answers Read Holding
 * Registers (function code 0x03, section 6.3) and Write Multiple Registers
 * (function code 0x10, section 6.12).
 */
module Modbus {
  import opened Wrappers

  /** An octet of a request or response. */
  type Byte = b: int | 0 <= b < 0x100

  /** The content of one 16-bit holding register. */
  type Word = w: int | 0 <= w < 0x1_0000

  /** Register addresses are 16 bits wide. */
  const AddressSpace := 0x1_0000
  /** Largest quantity of registers one Read Holding Registers request may ask for. */
  const MaxReadQuantity := 0x7D
  /** Largest quantity of registers one Write Multiple Registers request may carry. */
  const MaxWriteQuantity := 0x7B
  /** The all-ones 32-bit value. */
  const MaxUint32 := 0xFFFF_FFFF

  /** Why a request failed. */
  datatype Fault =
    | TransportFailure    // no answer: connection, framing or timeout error
    | IllegalDataAddress  // exception code 02: an addressed register does not exist
    | IllegalDataValue    // exception code 03: the quantity or byte count is out of range

  // ---------------------------------------------------------------------------
  // Big-endian layout: a register travels as its high byte, then its low byte.

  function WordBytes(w: Word): (b: seq<Byte>)
    ensures |b| == 2 && (b[0] as int) * 0x100 + b[1] == w
  {
    [w / 0x100, w % 0x100]
  }

  /** The bytes that carry a sequence of registers, first register first. */
  function Encode(ws: seq<Word>): (b: seq<Byte>)
    ensures |b| == 2 * |ws|
  {
    if ws == [] then [] else WordBytes(ws[0]) + Encode(ws[1..])
  }

  /** `binary.BigEndian.Uint16`: the register held by the first two bytes. */
  function Uint16(b: seq<Byte>): (w: Word)
    requires |b| >= 2
    ensures w / 0x100 == b[0] && w % 0x100 == b[1]
  {
    (b[0] as int) * 0x100 + b[1]
  }

  /** `binary.BigEndian.Uint32`: the 32-bit value held by the first four bytes. */
  function Uint32(b: seq<Byte>): (u: nat)
    requires |b| >= 4
    ensures u <= MaxUint32
  {
    (Uint16(b) as int) * 0x1_0000 + Uint16(b[2..])
  }

  /** The registers carried by an even number of bytes. */
  function Decode(b: seq<Byte>): (ws: seq<Word>)
    requires |b| % 2 == 0
    ensures |ws| == |b| / 2
  {
    if b == [] then [] else [Uint16(b)] + Decode(b[2..])
  }

  /** Decoding the bytes of a register sequence gives the sequence back. */
  lemma {:induction false} DecodeEncode(ws: seq<Word>)
    ensures Decode(Encode(ws)) == ws
  {
    if ws != [] {
      assert Encode(ws)[2..] == Encode(ws[1..]);
      DecodeEncode(ws[1..]);
    }
  }

  /** Encoding the registers decoded from a byte string gives the byte string back. */
  lemma {:induction false} EncodeDecode(b: seq<Byte>)
    requires |b| % 2 == 0
    ensures Encode(Decode(b)) == b
  {
    if b != [] {
      EncodeDecode(b[2..]);
      assert Decode(b)[1..] == Decode(b[2..]);
    }
  }

  /** Register `i` of a sequence sits at bytes `2i` (high) and `2i + 1` (low). */
  lemma {:induction false} EncodeAt(ws: seq<Word>, i: nat)
    requires i < |ws|
    ensures Encode(ws)[2 * i] == ws[i] / 0x100
    ensures Encode(ws)[2 * i + 1] == ws[i] % 0x100
  {
    if i > 0 {
      EncodeAt(ws[1..], i - 1);
      assert Encode(ws) == WordBytes(ws[0]) + Encode(ws[1..]);
    }
  }

  /** The encoding of a register sequence is all zero bytes exactly when every register is zero. */
  lemma ZeroBytesIffZeroWords(ws: seq<Word>)
    ensures (forall k | 0 <= k < |Encode(ws)| :: Encode(ws)[k] == 0) <==> (forall i | 0 <= i < |ws| :: ws[i] == 0)
  {
    if forall k | 0 <= k < |Encode(ws)| :: Encode(ws)[k] == 0 {
      forall i | 0 <= i < |ws|
        ensures ws[i] == 0
      {
        EncodeAt(ws, i);
      }
    }
    if forall i | 0 <= i < |ws| :: ws[i] == 0 {
      forall k | 0 <= k < |Encode(ws)|
        ensures Encode(ws)[k] == 0
      {
        EncodeAt(ws, k / 2);
        assert k == 2 * (k / 2) || k == 2 * (k / 2) + 1;
      }
    }
  }

  /** Reading a 16-bit value at byte `2i` yields register `i`. */
  lemma Uint16At(ws: seq<Word>, i: nat)
    requires i < |ws|
    ensures Uint16(Encode(ws)[2 * i..]) == ws[i]
  {
    EncodeAt(ws, i);
  }

  /** Reading a 32-bit value at byte `2i` joins register `i` (high) and `i + 1` (low). */
  lemma Uint32At(ws: seq<Word>, i: nat)
    requires i + 1 < |ws|
    ensures Uint32(Encode(ws)[2 * i..]) == (ws[i] as int) * 0x1_0000 + ws[i + 1]
  {
    EncodeAt(ws, i);
    EncodeAt(ws, i + 1);
    assert Encode(ws)[2 * i..][2..] == Encode(ws)[2 * (i + 1)..];
  }

  /** The map `m` with the registers from `addr` on replaced by `ws`. */
  function Store(m: map<nat, Word>, addr: nat, ws: seq<Word>): (m': map<nat, Word>)
    requires forall i | addr <= i < addr + |ws| :: i in m
    ensures m'.Keys == m.Keys
    ensures forall i | i in m :: m'[i] == if addr <= i < addr + |ws| then ws[i - addr] else m[i]
    decreases |ws|
  {
    if ws == [] then m else Store(m[addr := ws[0]], addr + 1, ws[1..])
  }

  /**
   * A Modbus server seen through its holding registers. `regs` holds the
   * registers that exist; a read of `(addr, count)` in `unreadable`, or a
   * write starting at an address in `unwritable`, fails in transport.
   */
  class Device {
    var regs: map<nat, Word>
    const unreadable: set<(nat, nat)>
    const unwritable: set<nat>

    constructor (regs: map<nat, Word>, unreadable: set<(nat, nat)>, unwritable: set<nat>)
      ensures this.regs == regs && this.unreadable == unreadable && this.unwritable == unwritable
    {
      this.regs := regs;
      this.unreadable := unreadable;
      this.unwritable := unwritable;
    }

    /** Every register from `addr` to `addr + count - 1` exists. */
    predicate Present(addr: nat, count: nat)
      reads this
    {
      addr + count <= AddressSpace && forall i | addr <= i < addr + count :: i in regs
    }

    /** A read of `count` registers from `addr` is answered with data. */
    predicate Readable(addr: nat, count: nat)
      reads this
    {
      (addr, count) !in unreadable && 1 <= count <= MaxReadQuantity && Present(addr, count)
    }

    /** A write of `count` registers from `addr` is accepted. */
    predicate Writable(addr: nat, count: nat)
      reads this
    {
      addr !in unwritable && 1 <= count <= MaxWriteQuantity && Present(addr, count)
    }

    /** The registers from `addr` to `addr + count - 1`, in order. */
    function Block(addr: nat, count: nat): (ws: seq<Word>)
      requires Present(addr, count)
      reads this
      ensures |ws| == count
      ensures forall i | 0 <= i < count :: ws[i] == regs[addr + i]
      decreases count
    {
      if count == 0 then [] else [regs[addr]] + Block(addr + 1, count - 1)
    }

    /** The big-endian 32-bit value held by registers `addr` (high) and `addr + 1` (low). */
    function Reg32(addr: nat): (u: nat)
      requires addr in regs && addr + 1 in regs
      reads this
      ensures u <= MaxUint32
    {
      (regs[addr] as int) * 0x1_0000 + regs[addr + 1]
    }

    /** Read Holding Registers: the response data, or why there is none. */
    function Read(addr: nat, count: nat): (r: Result<seq<Byte>, Fault>)
      reads this
      ensures r.Success? <==> Readable(addr, count)
      ensures r.Success? ==> |r.value| == 2 * count && Decode(r.value) == Block(addr, count)
      ensures r == Failure(IllegalDataValue) <==> (addr, count) !in unreadable && !(1 <= count <= MaxReadQuantity)
    {
      if (addr, count) in unreadable then Failure(TransportFailure)
      else if !(1 <= count <= MaxReadQuantity) then Failure(IllegalDataValue)
      else if !Present(addr, count) then Failure(IllegalDataAddress)
      else
        var ws := Block(addr, count);
        DecodeEncode(ws);
        Success(Encode(ws))
    }

    /** Write Multiple Registers: on success the registers from `addr` take the decoded `data`. */
    method WriteMultipleRegisters(addr: nat, count: nat, data: seq<Byte>) returns (r: Outcome<Fault>)
      modifies this
      ensures r.Pass? <==> old(Writable(addr, count)) && |data| == 2 * count
      ensures r.Pass? ==> regs == Store(old(regs), addr, Decode(data))
      ensures r.Fail? ==> regs == old(regs)
    {
      if addr in unwritable {
        return Fail(TransportFailure);
      }
      if !(1 <= count <= MaxWriteQuantity) || |data| != 2 * count {
        return Fail(IllegalDataValue);
      }
      if !Present(addr, count) {
        return Fail(IllegalDataAddress);
      }
      regs := Store(regs, addr, Decode(data));
      return Pass;
    }
  }

  /** The 16-bit value at byte `2k` of a read response is register `addr + k`. */
  lemma ReadUint16(dev: Device, addr: nat, count: nat, k: nat)
    requires dev.Readable(addr, count) && k < count
    ensures Uint16(dev.Read(addr, count).value[2 * k..]) == dev.regs[addr + k]
  {
    Uint16At(dev.Block(addr, count), k);
  }

  /** The 32-bit value at byte `2k` of a read response joins registers `addr + k` and `addr + k + 1`. */
  lemma ReadUint32(dev: Device, addr: nat, count: nat, k: nat)
    requires dev.Readable(addr, count) && k + 1 < count
    ensures Uint32(dev.Read(addr, count).value[2 * k..]) == dev.Reg32(addr + k)
  {
    Uint32At(dev.Block(addr, count), k);
  }

  /** Writing the bytes of one register changes that register and no other. */
  lemma StoreWord(m: map<nat, Word>, addr: nat, w: Word)
    requires addr in m
    ensures Store(m, addr, Decode(WordBytes(w))) == m[addr := w]
  {
    assert Encode([w]) == WordBytes(w);
    DecodeEncode([w]);
  }
}
