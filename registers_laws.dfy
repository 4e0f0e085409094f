/** What the indexed register accesses guarantee: stores read back, touch
    nothing else, and the 8-bit bytes are the halves of the 16-bit pairs.
    The two places where the setters and getters miss their register are
    stated as they are. */
module RegisterLaws {
  import opened Hardware
  import opened CpuRegisters

  /** The 16-bit index of the pair that holds 8-bit index `i`. */
  function PairOf(i: Byte): (j: Byte)
    requires i < 8
    ensures Reg16Index(j) && j <= i < j + 2
  {
    i & 0xFE
  }

  /** Storing a byte at its own index reads back, leaves the other seven
      bytes, and leaves every pair but its own. */
  lemma ByteRoundTrip(p: Pairs, i: Byte, v: Byte)
    requires i < 8
    ensures var r := SetByte(p, i, v);
      && Reg8(r, i) == v
      && (forall j: Byte :: j < 8 && j != i ==> Reg8(r, j) == Reg8(p, j))
      && (forall j: Byte :: j != PairOf(i) ==> Reg16(r, j) == Reg16(p, j))
      && r.pc == p.pc
  {
    var r := SetByte(p, i, v);
    forall j: Byte | j < 8 && j != i
      ensures Reg8(r, j) == Reg8(p, j)
    {
      OtherByte(p, i, v, j);
    }
  }

  lemma OtherByte(p: Pairs, i: Byte, v: Byte, j: Byte)
    requires i < 8 && j < 8 && j != i
    ensures Reg8(SetByte(p, i, v), j) == Reg8(p, j)
  {
    var r := SetByte(p, i, v);
    if i == 0 {
      assert r.bc.LowValue() == p.bc.LowValue();
    } else if i == 1 {
      assert r.bc.HighValue() == p.bc.HighValue();
    } else if i == 2 {
      assert r.de.LowValue() == p.de.LowValue();
    } else if i == 3 {
      assert r.de.HighValue() == p.de.HighValue();
    } else if i == 4 {
      assert r.hl.LowValue() == p.hl.LowValue();
    } else if i == 5 {
      assert r.hl.HighValue() == p.hl.HighValue();
    } else if i == 6 {
      assert r.af.LowValue() == p.af.LowValue();
    } else {
      assert r.af.HighValue() == p.af.HighValue();
    }
  }

  /** The indexed 8-bit store as written: it lands on `Target8(i)`, which is
      its own byte for every index but 5 (L), whose store lands on E. */
  lemma SetReg8Effect(p: Pairs, i: Byte, v: Byte)
    requires i < 8
    ensures var r := SetReg8(p, i, v);
      && Reg8(r, Target8(i)) == v
      && (forall j: Byte :: j < 8 && j != Target8(i) ==> Reg8(r, j) == Reg8(p, j))
      && (i != 5 ==> Reg8(r, i) == v)
      && (i == 5 ==> Reg8(r, i) == Reg8(p, i))
  {
    ByteRoundTrip(p, Target8(i), v);
  }

  /** Storing 0x12 through index 5 on the power-on registers leaves L at
      0x4D and puts 0x12 into E. */
  lemma SetLMissesL()
    ensures Reg8(SetReg8(Boot(), 5, 0x12), 5) == 0x4D
    ensures Reg8(SetReg8(Boot(), 5, 0x12), 3) == 0x12
  {
    SetReg8Effect(Boot(), 5, 0x12);
  }

  /** Storing a pair at a 16-bit index reads back and leaves every other
      index and the program counter. */
  lemma Reg16RoundTrip(p: Pairs, i: Byte, v: Word)
    requires Reg16Index(i)
    ensures var r := SetReg16(p, i, v);
      && Reg16(r, i) == v
      && (forall j: Byte :: j != i ==> Reg16(r, j) == Reg16(p, j))
      && r.pc == p.pc
  {
  }

  /** HL stored through its setter is not what the HL getter returns: the
      getter reads WZ, which is still 0 on the power-on registers. */
  lemma ValHlReadsWz()
    ensures Reg16(SetReg16(Boot(), 4, 0x1234), 14) == 0
    ensures Reg16(SetReg16(Boot(), 4, 0x1234), 4) == 0x1234
  {
    Reg16RoundTrip(Boot(), 4, 0x1234);
  }

  /** The 8-bit indices 2k and 2k+1 are the high and low bytes of the pair
      at 16-bit index 2k. */
  lemma PairHalves(p: Pairs, i: Byte)
    requires i < 8 && i & 1 == 0
    ensures Reg16(p, i) == ((Reg8(p, i) as Word) << 8) | (Reg8(p, i + 1) as Word)
  {
    var r := if i == 0 then p.bc else if i == 2 then p.de else if i == 4 then p.hl else p.af;
    assert Reg16(p, i) == r.reg && Reg8(p, i) == r.HighValue() && Reg8(p, i + 1) == r.LowValue();
    Halves(r);
  }

  lemma Halves(r: Register)
    ensures ((r.HighValue() as Word) << 8) | (r.LowValue() as Word) == r.reg
  {
  }
}
