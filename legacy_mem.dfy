/** The older memory unit: one flat 64 KiB array with a small routing table
    for writes (ROM discarded, echo RAM mirrored, a restricted range
    discarded), raw reads, the cartridge-type lookup and the power-on I/O
    register values. */
module LegacyMemory {
  import opened Hardware
  import MemoryMap

  /** The memory bank controller named by the cartridge header. */
  datatype RomBankingType = Mbc1 | Mbc2 | NoBanking

  /** Addresses in echo RAM, which mirrors [0xC000, 0xDE00). */
  predicate InEcho(addr: Addr)
  {
    0xE000 <= addr < 0xFE00
  }

  /** Addresses a write stores into: not ROM and not [0xFEA0, 0xFEFF). */
  predicate Writable(addr: Addr)
  {
    0x8000 <= addr && !(0xFEA0 <= addr < 0xFEFF)
  }

  /** Whether a write at `addr` reaches byte `k`: its own address when it
      is writable, and for an echo address also the byte 0x2000 below. */
  predicate Reaches(addr: Addr, k: int)
  {
    (k == addr && Writable(addr)) || (InEcho(addr) && k == addr - 0x2000)
  }

  /** The backing store after a routed write, following the routine's own
      recursion: an echo write stores at `addr` and writes again 0x2000
      lower. Every byte the write reaches holds `value` and no other byte
      changes. */
  function Stored(m: seq<Byte>, addr: Addr, value: Byte): (r: seq<Byte>)
    requires |m| == MEM_SIZE
    ensures |r| == MEM_SIZE
    ensures forall k :: 0 <= k < MEM_SIZE ==> r[k] == (if Reaches(addr, k) then value else m[k])
    decreases if InEcho(addr) then 1 else 0
  {
    if addr < 0x8000 then m
    else if InEcho(addr) then Stored(m[addr := value], addr - 0x2000, value)
    else if 0xFEA0 <= addr < 0xFEFF then m
    else m[addr := value]
  }

  /** The controller for a cartridge-type byte. The ranges are exclusive:
      1 and 2 name MBC1, 5 names MBC2, and everything else, 3 and 6
      included, names none. */
  function BankingTypeOfHeader(header: Byte): (t: RomBankingType)
    ensures t == Mbc1 <==> header == 1 || header == 2
    ensures t == Mbc2 <==> header == 5
  {
    if 1 <= header < 3 then Mbc1
    else if 5 <= header < 6 then Mbc2
    else NoBanking
  }

  /** Cartridge types 3 (MBC1 with RAM and battery) and 6 (MBC2 with
      battery) name no controller here, while the newer memory unit's
      inclusive ranges give them MBC1 and MBC2. */
  lemma BatteryCartridgesMissed()
    ensures BankingTypeOfHeader(3) == NoBanking && MemoryMap.BankingTypeOf(3) == MemoryMap.MBC1
    ensures BankingTypeOfHeader(6) == NoBanking && MemoryMap.BankingTypeOf(6) == MemoryMap.MBC2
  {
  }

  class Memory {
    const mem: array<Byte>
    /** Set to none when built and never updated. */
    var romBanking: RomBankingType

    ghost predicate Valid()
      reads this
    {
      mem.Length == MEM_SIZE
    }

    constructor ()
      ensures Valid() && fresh(mem)
      ensures mem[..] == seq(MEM_SIZE, _ => 0) && romBanking == NoBanking
    {
      mem := new Byte[MEM_SIZE](_ => 0);
      romBanking := NoBanking;
    }

    /** The raw byte at `addr`. */
    function ReadByte(addr: Addr): (b: Byte)
      reads this, mem
      requires Valid()
      ensures b == mem[..][addr]
    {
      mem[addr]
    }

    method WriteByte(addr: Addr, value: Byte)
      requires Valid()
      modifies mem
      ensures mem[..] == Stored(old(mem[..]), addr, value)
      decreases if InEcho(addr) then 1 else 0
    {
      if addr < 0x8000 {
        // read-only memory: the write is dropped
      } else if InEcho(addr) {
        mem[addr] := value;
        WriteByte(addr - 0x2000, value);
      } else if 0xFEA0 <= addr < 0xFEFF {
        // restricted range: the write is dropped
      } else {
        mem[addr] := value;
      }
    }

    /** The controller named by the cartridge-type byte at 0x147. */
    function IdentifyBankingType(): (t: RomBankingType)
      reads this, mem
      requires Valid()
      ensures t == BankingTypeOfHeader(mem[..][CARTRIDGE_TYPE])
    {
      BankingTypeOfHeader(ReadByte(CARTRIDGE_TYPE))
    }

    /** Stores the power-on values of the I/O registers. */
    method RamStartup()
      requires Valid()
      modifies mem
      ensures mem[..] == StartupMem(old(mem[..]))
    {
      mem[0xFF05] := 0x00;
      mem[0xFF06] := 0x00;
      mem[0xFF07] := 0x00;
      mem[0xFF10] := 0x80;
      mem[0xFF11] := 0xBF;
      mem[0xFF12] := 0xF3;
      mem[0xFF14] := 0xBF;
      mem[0xFF16] := 0x3F;
      mem[0xFF17] := 0x00;
      mem[0xFF19] := 0xBF;
      mem[0xFF1A] := 0x7F;
      mem[0xFF1B] := 0xFF;
      mem[0xFF1C] := 0x9F;
      mem[0xFF1E] := 0xBF;
      mem[0xFF20] := 0xFF;
      mem[0xFF21] := 0x00;
      mem[0xFF22] := 0x00;
      mem[0xFF23] := 0xBF;
      mem[0xFF24] := 0x77;
      mem[0xFF25] := 0xF3;
      mem[0xFF26] := 0xF1;
      mem[0xFF40] := 0x91;
      mem[0xFF42] := 0x00;
      mem[0xFF43] := 0x00;
      mem[0xFF45] := 0x00;
      mem[0xFF47] := 0xFC;
      mem[0xFF48] := 0xFF;
      mem[0xFF49] := 0xFF;
      mem[0xFF4A] := 0x00;
      mem[0xFF4B] := 0x00;
      mem[0xFFFF] := 0x00;
    }
  }

  // ---------------------------------------------------------------------
  // Laws of the routing table

  /** A write into ROM or into the restricted range changes nothing. */
  lemma DiscardedWrite(m: seq<Byte>, addr: Addr, value: Byte)
    requires |m| == MEM_SIZE && (addr < 0x8000 || 0xFEA0 <= addr < 0xFEFF)
    ensures Stored(m, addr, value) == m
  {
    var r := Stored(m, addr, value);
    assert forall k :: 0 <= k < MEM_SIZE ==> r[k] == m[k];
  }

  /** An echo write stores the byte at its address and 0x2000 below, and
      nowhere else. */
  lemma EchoWrite(m: seq<Byte>, addr: Addr, value: Byte)
    requires |m| == MEM_SIZE && InEcho(addr)
    ensures Stored(m, addr, value) == m[addr := value][addr - 0x2000 := value]
  {
    var r := Stored(m, addr, value);
    var e := m[addr := value][addr - 0x2000 := value];
    assert forall k :: 0 <= k < MEM_SIZE ==> r[k] == e[k];
  }

  /** A write to any other address stores the byte there and nowhere else. */
  lemma PlainWrite(m: seq<Byte>, addr: Addr, value: Byte)
    requires |m| == MEM_SIZE && Writable(addr) && !InEcho(addr)
    ensures Stored(m, addr, value) == m[addr := value]
  {
    var r := Stored(m, addr, value);
    assert forall k :: 0 <= k < MEM_SIZE ==> r[k] == m[addr := value][k];
  }

  /** A byte written to a writable address reads back. */
  lemma WriteThenRead(m: seq<Byte>, addr: Addr, value: Byte)
    requires |m| == MEM_SIZE && Writable(addr)
    ensures Stored(m, addr, value)[addr] == value
  {
  }

  /** A new memory unit reads 0 everywhere; the startup values appear only
      once the startup routine has run. */
  lemma StartupValuesNeedStartup()
    ensures var zero := seq(MEM_SIZE, (_: int) => 0 as Byte);
      && zero[0xFF11] == 0
      && StartupMem(zero)[0xFF11] == 0xBF
      && StartupMem(zero)[0xFF19] == 0xBF
      && StartupMem(zero)[0xFF24] == 0x77
  {
  }
}
