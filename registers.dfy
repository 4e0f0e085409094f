/** The CPU register file: fourteen 16-bit register pairs, each readable as a
    whole or as a high and a low byte, with indexed 8- and 16-bit access.
    A pair is kept as one 16-bit value whose high byte is bits 15..8 and
    whose low byte is bits 7..0. */
module CpuRegisters {
  import opened Hardware

  /** One register pair. */
  datatype Register = Register(reg: Word)
  {
    /** The whole 16-bit value. */
    function Value(): (v: Word)
      ensures v >> 8 == HighValue() as Word && v & 0xFF == LowValue() as Word
    {
      reg
    }

    /** The high byte: with the low byte it makes up the value. */
    function HighValue(): (b: Byte)
      ensures ((b as Word) << 8) | (reg & 0xFF) == reg
    {
      (reg >> 8) as Byte
    }

    /** The low byte: with the high byte it makes up the value. */
    function LowValue(): (b: Byte)
      ensures (reg & 0xFF00) | (b as Word) == reg
    {
      (reg & 0xFF) as Byte
    }

    /** The register with its whole value replaced. */
    function Set(val: Word): (r: Register)
      ensures r.Value() == val
    {
      Register(val)
    }

    /** The register with its high byte replaced and its low byte kept. */
    function WithHigh(h: Byte): (r: Register)
      ensures r.HighValue() == h && r.LowValue() == LowValue()
    {
      Register(((h as Word) << 8) | (reg & 0xFF))
    }

    /** The register with its low byte replaced and its high byte kept. */
    function WithLow(l: Byte): (r: Register)
      ensures r.LowValue() == l && r.HighValue() == HighValue()
    {
      Register((reg & 0xFF00) | (l as Word))
    }

    /** The value plus one; the unchecked addition panics at 0xFFFF, so the
        caller must stay below it. */
    function Increment(): (r: Register)
      requires reg < 0xFFFF
      ensures r.Value() == Value() + 1 && r.Value() > Value()
    {
      Register(reg + 1)
    }

    /** The value minus one; the unchecked subtraction panics at 0. */
    function Decrement(): (r: Register)
      requires reg > 0
      ensures r.Value() == Value() - 1 && r.Value() < Value()
    {
      Register(reg - 1)
    }
  }

  /** The contents of the whole register file. */
  datatype Pairs = Pairs(
    af: Register, bc: Register, de: Register, hl: Register,
    sp: Register, pc: Register, ix: Register, iy: Register,
    afC: Register, bcC: Register, deC: Register, hlC: Register,
    wz: Register, wzC: Register)

  /** The 16-bit indices: the even numbers 0 to 24. */
  predicate Reg16Index(index: Byte)
  {
    index <= 24 && index & 1 == 0
  }

  /** The pair at a 16-bit index: BC, DE, HL, AF, IX, IY, SP, WZ, then the
      complements of BC, DE, HL, AF and WZ; any other index reads 0. */
  function Reg16(p: Pairs, index: Byte): (w: Word)
    ensures !Reg16Index(index) ==> w == 0
  {
    if index == 0 then p.bc.Value()
    else if index == 2 then p.de.Value()
    else if index == 4 then p.hl.Value()
    else if index == 6 then p.af.Value()
    else if index == 8 then p.ix.Value()
    else if index == 10 then p.iy.Value()
    else if index == 12 then p.sp.Value()
    else if index == 14 then p.wz.Value()
    else if index == 16 then p.bcC.Value()
    else if index == 18 then p.deC.Value()
    else if index == 20 then p.hlC.Value()
    else if index == 22 then p.afC.Value()
    else if index == 24 then p.wzC.Value()
    else 0
  }

  /** The register file with the pair at a 16-bit index replaced. */
  function SetReg16(p: Pairs, index: Byte, val: Word): (r: Pairs)
    requires Reg16Index(index)
    ensures Reg16(r, index) == val && r.pc == p.pc
  {
    if index == 0 then p.(bc := p.bc.Set(val))
    else if index == 2 then p.(de := p.de.Set(val))
    else if index == 4 then p.(hl := p.hl.Set(val))
    else if index == 6 then p.(af := p.af.Set(val))
    else if index == 8 then p.(ix := p.ix.Set(val))
    else if index == 10 then p.(iy := p.iy.Set(val))
    else if index == 12 then p.(sp := p.sp.Set(val))
    else if index == 14 then p.(wz := p.wz.Set(val))
    else if index == 16 then p.(bcC := p.bcC.Set(val))
    else if index == 18 then p.(deC := p.deC.Set(val))
    else if index == 20 then p.(hlC := p.hlC.Set(val))
    else if index == 22 then p.(afC := p.afC.Set(val))
    else p.(wzC := p.wzC.Set(val))
  }

  /** The byte at an 8-bit index: B, C, D, E, H, L, A, F for 0 to 7 (each
      pair high byte first); any other index reads 0. */
  function Reg8(p: Pairs, index: Byte): (b: Byte)
    ensures index >= 8 ==> b == 0
  {
    if index == 0 then p.bc.HighValue()
    else if index == 1 then p.bc.LowValue()
    else if index == 2 then p.de.HighValue()
    else if index == 3 then p.de.LowValue()
    else if index == 4 then p.hl.HighValue()
    else if index == 5 then p.hl.LowValue()
    else if index == 6 then p.af.HighValue()
    else if index == 7 then p.af.LowValue()
    else 0
  }

  /** The register file with the byte at 8-bit index `index` replaced; this
      is the store each byte setter would make if it touched its own byte. */
  function SetByte(p: Pairs, index: Byte, val: Byte): (r: Pairs)
    requires index < 8
    ensures Reg8(r, index) == val && r.pc == p.pc && r.sp == p.sp
  {
    if index == 0 then p.(bc := p.bc.WithHigh(val))
    else if index == 1 then p.(bc := p.bc.WithLow(val))
    else if index == 2 then p.(de := p.de.WithHigh(val))
    else if index == 3 then p.(de := p.de.WithLow(val))
    else if index == 4 then p.(hl := p.hl.WithHigh(val))
    else if index == 5 then p.(hl := p.hl.WithLow(val))
    else if index == 6 then p.(af := p.af.WithHigh(val))
    else p.(af := p.af.WithLow(val))
  }

  /** The byte an indexed 8-bit store reaches: its own, except that the L
      setter stores into E (index 3). */
  function Target8(index: Byte): (t: Byte)
    requires index < 8
    ensures t < 8 && (t == index <==> index != 5)
  {
    if index == 5 then 3 else index
  }

  /** An indexed 8-bit store as the setters make it. */
  function SetReg8(p: Pairs, index: Byte, val: Byte): (r: Pairs)
    requires index < 8
    ensures Reg8(r, Target8(index)) == val && r.pc == p.pc
  {
    SetByte(p, Target8(index), val)
  }

  /** The power-on contents: AF=0x01B0, BC=0x0013, DE=0x00D8, HL=0x014D,
      SP=0xFFFE, PC=0x0100 and every other pair 0. */
  function Boot(): (p: Pairs)
    ensures Reg16(p, 6) == 0x01B0 && Reg16(p, 0) == 0x0013 && Reg16(p, 2) == 0x00D8
    ensures Reg16(p, 4) == 0x014D && Reg16(p, 12) == 0xFFFE && p.pc.Value() == 0x0100
    ensures forall i: Byte :: 8 <= i && i != 12 ==> Reg16(p, i) == 0
  {
    Pairs(Register(0x01B0), Register(0x0013), Register(0x00D8), Register(0x014D),
          Register(0xFFFE), Register(0x0100), Register(0), Register(0),
          Register(0), Register(0), Register(0), Register(0),
          Register(0), Register(0))
  }

  class Registers {
    var af: Register
    var bc: Register
    var de: Register
    var hl: Register
    /** Stack pointer. */
    var sp: Register
    /** Program counter. */
    var pc: Register
    var ix: Register
    var iy: Register
    var afC: Register
    var bcC: Register
    var deC: Register
    var hlC: Register
    var wz: Register
    var wzC: Register

    /** The abstract value of the register file. */
    ghost function Snapshot(): Pairs
      reads this
    {
      Pairs(af, bc, de, hl, sp, pc, ix, iy, afC, bcC, deC, hlC, wz, wzC)
    }

    constructor ()
      ensures Snapshot() == Boot()
    {
      af, bc, de, hl := Register(0x01B0), Register(0x0013), Register(0x00D8), Register(0x014D);
      sp, pc, ix, iy := Register(0xFFFE), Register(0x0100), Register(0), Register(0);
      afC, bcC, deC, hlC := Register(0), Register(0), Register(0), Register(0);
      wz, wzC := Register(0), Register(0);
    }

    // -------------------------------------------------------------------
    // Indexed access

    function GetReg8ByIndex(index: Byte): (b: Byte)
      reads this
      ensures b == Reg8(Snapshot(), index)
    {
      if index == 0 then bc.HighValue()
      else if index == 1 then bc.LowValue()
      else if index == 2 then de.HighValue()
      else if index == 3 then de.LowValue()
      else if index == 4 then hl.HighValue()
      else if index == 5 then hl.LowValue()
      else if index == 6 then af.HighValue()
      else if index == 7 then af.LowValue()
      else 0
    }

    /** Any index past 7 panics in the source. */
    method SetReg8ByIndex(index: Byte, val: Byte)
      requires index < 8
      modifies this
      ensures Snapshot() == SetReg8(old(Snapshot()), index, val)
    {
      if index == 0 {
        SetB(val);
      } else if index == 1 {
        SetC(val);
      } else if index == 2 {
        SetD(val);
      } else if index == 3 {
        SetE(val);
      } else if index == 4 {
        SetH(val);
      } else if index == 5 {
        SetL(val);
      } else if index == 6 {
        SetA(val);
      } else {
        SetF(val);
      }
    }

    function GetReg16ByIndex(index: Byte): (w: Word)
      reads this
      ensures w == Reg16(Snapshot(), index)
    {
      if index == 0 then bc.Value()
      else if index == 2 then de.Value()
      else if index == 4 then hl.Value()
      else if index == 6 then af.Value()
      else if index == 8 then ix.Value()
      else if index == 10 then iy.Value()
      else if index == 12 then sp.Value()
      else if index == 14 then wz.Value()
      else if index == 16 then bcC.Value()
      else if index == 18 then deC.Value()
      else if index == 20 then hlC.Value()
      else if index == 22 then afC.Value()
      else if index == 24 then wzC.Value()
      else 0
    }

    /** Any index that is not an even number up to 24 panics in the source. */
    method SetReg16ByIndex(index: Byte, val: Word)
      requires Reg16Index(index)
      modifies this
      ensures Snapshot() == SetReg16(old(Snapshot()), index, val)
    {
      if index == 0 {
        bc := bc.Set(val);
      } else if index == 2 {
        de := de.Set(val);
      } else if index == 4 {
        hl := hl.Set(val);
      } else if index == 6 {
        af := af.Set(val);
      } else if index == 8 {
        ix := ix.Set(val);
      } else if index == 10 {
        iy := iy.Set(val);
      } else if index == 12 {
        sp := sp.Set(val);
      } else if index == 14 {
        wz := wz.Set(val);
      } else if index == 16 {
        bcC := bcC.Set(val);
      } else if index == 18 {
        deC := deC.Set(val);
      } else if index == 20 {
        hlC := hlC.Set(val);
      } else if index == 22 {
        afC := afC.Set(val);
      } else {
        wzC := wzC.Set(val);
      }
    }

    // -------------------------------------------------------------------
    // Byte setters and getters

    method SetF(val: Byte)
      modifies this
      ensures Snapshot() == SetByte(old(Snapshot()), 7, val)
    {
      af := af.WithLow(val);
    }

    function ValF(): (b: Byte)
      reads this
      ensures b == Reg8(Snapshot(), 7)
    {
      af.LowValue()
    }

    method SetA(val: Byte)
      modifies this
      ensures Snapshot() == SetByte(old(Snapshot()), 6, val)
    {
      af := af.WithHigh(val);
    }

    function ValA(): (b: Byte)
      reads this
      ensures b == Reg8(Snapshot(), 6)
    {
      af.HighValue()
    }

    method SetB(val: Byte)
      modifies this
      ensures Snapshot() == SetByte(old(Snapshot()), 0, val)
    {
      bc := bc.WithHigh(val);
    }

    function ValB(): (b: Byte)
      reads this
      ensures b == Reg8(Snapshot(), 0)
    {
      bc.HighValue()
    }

    method SetC(val: Byte)
      modifies this
      ensures Snapshot() == SetByte(old(Snapshot()), 1, val)
    {
      bc := bc.WithLow(val);
    }

    function ValC(): (b: Byte)
      reads this
      ensures b == Reg8(Snapshot(), 1)
    {
      bc.LowValue()
    }

    method SetD(val: Byte)
      modifies this
      ensures Snapshot() == SetByte(old(Snapshot()), 2, val)
    {
      de := de.WithHigh(val);
    }

    function ValD(): (b: Byte)
      reads this
      ensures b == Reg8(Snapshot(), 2)
    {
      de.HighValue()
    }

    method SetE(val: Byte)
      modifies this
      ensures Snapshot() == SetByte(old(Snapshot()), 3, val)
    {
      de := de.WithLow(val);
    }

    function ValE(): (b: Byte)
      reads this
      ensures b == Reg8(Snapshot(), 3)
    {
      de.LowValue()
    }

    method SetH(val: Byte)
      modifies this
      ensures Snapshot() == SetByte(old(Snapshot()), 4, val)
    {
      hl := hl.WithHigh(val);
    }

    function ValH(): (b: Byte)
      reads this
      ensures b == Reg8(Snapshot(), 4)
    {
      hl.HighValue()
    }

    /** Stores into the low byte of DE, as the source does. */
    method SetL(val: Byte)
      modifies this
      ensures Snapshot() == SetByte(old(Snapshot()), 3, val)
    {
      de := de.WithLow(val);
    }

    /** Reads the low byte of DE (E), as the source does. */
    function ValL(): (b: Byte)
      reads this
      ensures b == Reg8(Snapshot(), 3)
    {
      de.LowValue()
    }

    // -------------------------------------------------------------------
    // Pair setters and getters

    function ValAf(): (w: Word)
      reads this
      ensures w == Reg16(Snapshot(), 6)
    {
      af.Value()
    }

    method SetAf(val: Word)
      modifies this
      ensures Snapshot() == SetReg16(old(Snapshot()), 6, val)
    {
      af := af.Set(val);
    }

    function ValBc(): (w: Word)
      reads this
      ensures w == Reg16(Snapshot(), 0)
    {
      bc.Value()
    }

    method SetBc(val: Word)
      modifies this
      ensures Snapshot() == SetReg16(old(Snapshot()), 0, val)
    {
      bc := bc.Set(val);
    }

    function ValDe(): (w: Word)
      reads this
      ensures w == Reg16(Snapshot(), 2)
    {
      de.Value()
    }

    method SetDe(val: Word)
      modifies this
      ensures Snapshot() == SetReg16(old(Snapshot()), 2, val)
    {
      de := de.Set(val);
    }

    /** Reads WZ (index 14), not HL, as the source does. */
    function ValHl(): (w: Word)
      reads this
      ensures w == Reg16(Snapshot(), 14)
    {
      wz.Value()
    }

    method SetHl(val: Word)
      modifies this
      ensures Snapshot() == SetReg16(old(Snapshot()), 4, val)
    {
      hl := hl.Set(val);
    }

    function ValWz(): (w: Word)
      reads this
      ensures w == Reg16(Snapshot(), 14)
    {
      wz.Value()
    }

    method SetWz(val: Word)
      modifies this
      ensures Snapshot() == SetReg16(old(Snapshot()), 14, val)
    {
      wz := wz.Set(val);
    }

    function ValSp(): (w: Word)
      reads this
      ensures w == Reg16(Snapshot(), 12)
    {
      sp.Value()
    }

    method SetSp(val: Word)
      modifies this
      ensures Snapshot() == SetReg16(old(Snapshot()), 12, val)
    {
      sp := sp.Set(val);
    }

    /** The program counter has no 16-bit index. */
    function ValPc(): (w: Word)
      reads this
      ensures w == Snapshot().pc.Value()
    {
      pc.Value()
    }

    method SetPc(val: Word)
      modifies this
      ensures Snapshot() == old(Snapshot()).(pc := Register(val))
    {
      pc := pc.Set(val);
    }

    // -------------------------------------------------------------------
    // Program counter arithmetic

    /** Advances PC by `inc`; the unchecked addition panics past 0xFFFF. */
    method IncPc(inc: Word)
      requires pc.reg <= 0xFFFF - inc
      modifies this
      ensures pc.reg == old(pc.reg) + inc
      ensures Snapshot() == old(Snapshot()).(pc := pc)
    {
      pc := Register(pc.reg + inc);
    }

    /** Moves PC back by `dec`; the unchecked subtraction panics below 0. */
    method DecPc(dec: Word)
      requires pc.reg >= dec
      modifies this
      ensures pc.reg == old(pc.reg) - dec
      ensures Snapshot() == old(Snapshot()).(pc := pc)
    {
      pc := Register(pc.reg - dec);
    }
  }
}
