/** The memory unit as the emulator holds it: a mutable object whose backing
    store and external RAM are fixed-size buffers updated in place. Every
    operation is proved to move the abstract state `State()` exactly as the
    corresponding function of MemoryMap says. */
module AddressSpace {
  import opened Hardware
  import opened MemoryMap
  import MemoryLaws

  /** Order of the write routines that call one another: an echo write
      writes again lower down, the input register and the DMA register
      write through helper routines, and those write plain addresses. */
  function CallRank(addr: Addr): nat
  {
    if 0xE000 <= addr < 0xFE00 then 2
    else if addr == INPUT_REGISTER || addr == DMA_REG then 1
    else 0
  }

  class Memory {
    /** The flat backing store covering the whole 16-bit address space. */
    const mem: array<Byte>
    /** The cartridge image; it grows only through forced writes and loads. */
    var rom: seq<Byte>
    /** The four 8 KiB external RAM banks, bank b at offset b * 0x2000. */
    const extRam: array<Byte>
    var bankingType: BankingType
    var romBank: Byte
    var ramBank: RamBank
    var ramWriteEnable: bool
    /** true: writes to [0x4000, 0x6000) select the high ROM bank bits;
        false: they select the RAM bank. */
    var romBankingMode: bool
    /** Latched key nibbles, 0 = pressed. */
    var joypadButtons: Byte
    var joypadDirections: Byte
    /** Cycles left until the next timer tick. */
    var timerCounter: int

    ghost predicate Valid()
      reads this
    {
      mem.Length == MEM_SIZE && extRam.Length == EXT_RAM_SIZE && mem != extRam
    }

    /** The abstract value of the memory unit. */
    ghost function State(): (s: MemState)
      reads this, mem, extRam
      requires Valid()
      ensures s.Valid()
    {
      MemState(mem[..], rom, extRam[..], bankingType, romBank, ramBank, ramWriteEnable,
               romBankingMode, joypadButtons, joypadDirections, timerCounter)
    }

    constructor ()
      ensures Valid() && State() == Initial()
      ensures fresh(mem) && fresh(extRam)
    {
      mem := new Byte[MEM_SIZE](_ => 0);
      rom := [];
      extRam := new Byte[EXT_RAM_SIZE](_ => 0);
      bankingType := NoBanking;
      romBank := 1;
      ramBank := 0;
      ramWriteEnable := false;
      romBankingMode := true;
      joypadButtons := 0x0F;
      joypadDirections := 0x0F;
      timerCounter := 1024;
    }

    // -------------------------------------------------------------------
    // Reading

    function ReadRomByte(index: nat): (b: Byte)
      reads this, mem, extRam
      requires Valid()
      ensures b == RomByte(State(), index)
    {
      if |rom| == 0 then
        if index < mem.Length then mem[index] else 0
      else
        rom[index % |rom|]
    }

    function ReadByte(addr: Addr): (b: Byte)
      reads this, mem, extRam
      requires Valid()
      ensures b == Read(State(), addr)
    {
      if addr < 0x4000 then ReadRomByte(addr)
      else if addr < 0x8000 then ReadRomByte(romBank as int * 0x4000 + (addr - 0x4000))
      else if 0xA000 <= addr < 0xC000 then extRam[ramBank * EXT_RAM_BANK_SIZE + (addr - 0xA000)]
      else mem[addr]
    }

    function ReadWord(addr: Addr): (w: Word)
      reads this, mem, extRam
      requires Valid()
      ensures w == MemoryMap.ReadWord(State(), addr)
    {
      var l := ReadByte(addr) as Word;
      var h := ReadByte((addr + 1) % 0x10000) as Word;
      (h << 8) | l
    }

    function GetClockFreq(): (f: Byte)
      reads this, mem, extRam
      requires Valid()
      ensures f == ClockFreq(State())
    {
      ReadByte(TMC) & 0x3
    }

    function GetColor(colorNum: Byte, addr: Addr): (c: Color)
      reads this, mem, extRam
      requires Valid() && colorNum <= 3
      ensures c == MemoryMap.GetColor(State(), colorNum, addr)
    {
      ShadeColor(PaletteShade(ReadByte(addr), colorNum))
    }

    // -------------------------------------------------------------------
    // Timer and bank control

    method SetClockFrequency()
      requires Valid()
      modifies this
      ensures Valid() && State() == MemoryMap.SetClockFrequency(old(State()))
    {
      var frequency := GetClockFreq();
      timerCounter := TimerPeriod(frequency);
    }

    method HandleBanking(addr: Addr, value: Byte)
      requires Valid() && addr < 0x8000
      modifies this
      ensures Valid() && State() == MemoryMap.HandleBanking(old(State()), addr, value)
    {
      if addr < 0x2000 {
        if bankingType != NoBanking {
          EnableRamBanking(addr, value);
        }
      } else if addr < 0x4000 {
        if bankingType != NoBanking {
          ChangeLowRomBanking(value);
        }
      } else if addr < 0x6000 {
        if bankingType == MBC1 {
          if romBankingMode {
            ChangeHighRomBanking(value);
          } else {
            ChangeRamBanking(value);
          }
        }
      } else if bankingType == MBC1 {
        ChangeBankingMode(value);
      }
    }

    method EnableRamBanking(addr: Addr, value: Byte)
      requires Valid()
      modifies this
      ensures Valid() && State() == MemoryMap.EnableRamBanking(old(State()), addr, value)
    {
      if bankingType == MBC2 && (addr as bv16) & 0x10 == 0x10 {
        return;
      }
      if value & 0xF == 0xA {
        ramWriteEnable := true;
      } else if value & 0xF == 0x0 {
        ramWriteEnable := false;
      }
    }

    method ChangeRamBanking(value: Byte)
      requires Valid()
      modifies this
      ensures Valid() && State() == MemoryMap.ChangeRamBanking(old(State()), value)
    {
      ramBank := if value <= 3 then value as int else 0;
    }

    method ChangeLowRomBanking(value: Byte)
      requires Valid()
      modifies this
      ensures Valid() && State() == MemoryMap.ChangeLowRomBanking(old(State()), value)
    {
      if bankingType == MBC2 {
        romBank := value & 0xF;
        return;
      }
      var lower5 := value & 31;
      var masked := (romBank & 224) | lower5;
      romBank := masked;
      if romBank == 0 {
        romBank := 1;
      }
    }

    method ChangeHighRomBanking(value: Byte)
      requires Valid()
      modifies this
      ensures Valid() && State() == MemoryMap.ChangeHighRomBanking(old(State()), value)
    {
      var masked := (romBank & 31) | (value & 224);
      romBank := masked;
      if romBank == 0 {
        romBank := 1;
      }
    }

    method ChangeBankingMode(value: Byte)
      requires Valid()
      modifies this
      ensures Valid() && State() == MemoryMap.ChangeBankingMode(old(State()), value)
    {
      romBankingMode := value & 0x1 == 0;
      if romBankingMode {
        ramBank := 0;
      }
    }

    // -------------------------------------------------------------------
    // Writing

    method WriteByte(addr: Addr, value: Byte)
      requires Valid()
      modifies this, mem, extRam
      ensures Valid() && State() == Write(old(State()), addr, value)
      decreases CallRank(addr), 1
    {
      if addr < 0x8000 {
        HandleBanking(addr, value);
      } else if 0xA000 <= addr < 0xC000 {
        if ramWriteEnable {
          extRam[ramBank * EXT_RAM_BANK_SIZE + (addr - 0xA000)] := value;
        }
      } else if 0xE000 <= addr < 0xFE00 {
        MemoryLaws.EchoWriteWritesAgain(State(), addr, value);
        mem[addr] := value;
        WriteByte(addr - 0x2000, value);
      } else if 0xFEA0 <= addr < 0xFEFF {
      } else {
        WriteRegister(addr, value);
      }
    }

    /** The rest of WriteByte's routing, for the addresses at and above
        0x8000 outside external RAM, echo RAM and the unusable range. */
    method WriteRegister(addr: Addr, value: Byte)
      requires Valid()
      requires 0x8000 <= addr && !(0xA000 <= addr < 0xC000) && !(0xE000 <= addr < 0xFE00)
      requires !(0xFEA0 <= addr < 0xFEFF)
      modifies this, mem, extRam
      ensures Valid() && State() == MemoryMap.WriteRegister(old(State()), addr, value)
      decreases CallRank(addr), 0
    {
      if addr == TMC {
        WriteTimerControl(value);
      } else if addr == DIVIDER_REGISTER {
        mem[DIVIDER_REGISTER] := 0;
      } else if addr == CURRENT_SCANLINE {
        mem[CURRENT_SCANLINE] := 0;
      } else if addr == INPUT_REGISTER {
        var current := mem[INPUT_REGISTER];
        mem[INPUT_REGISTER] := (value & 0x30) | 0xC0 | (current & 0x0F);
        RecomputeJoypad();
      } else if addr == DMA_REG {
        DmaTransfer(value);
      } else {
        mem[addr] := value;
      }
    }

    /** The timer-control branch of WriteByte: stores the value and reloads
        the countdown when the frequency selector changed. */
    method WriteTimerControl(value: Byte)
      requires Valid()
      modifies this, mem
      ensures Valid() && State() == MemoryMap.WriteRegister(old(State()), TMC, value)
    {
      var currentFrequency := GetClockFreq();
      mem[TMC] := value;
      var newFrequency := GetClockFreq();
      if currentFrequency != newFrequency {
        SetClockFrequency();
      }
    }

    /** Sets bit `n` of IF through the routed write. */
    method RequestInterrupt(n: Byte)
      requires Valid() && n < 8
      modifies this, mem, extRam
      ensures Valid() && State() == MemoryMap.RequestInterrupt(old(State()), n)
      decreases 0, 2
    {
      var request := ReadByte(IF);
      request := request | ((1 as Byte) << n);
      MemoryLaws.RequestInterruptIsRoutedWrite(State(), n);
      WriteByte(IF, request);
    }

    /** Sets bit `n` of IE through the routed write. */
    method EnableInterrupt(n: Byte)
      requires Valid() && n < 8
      modifies this, mem, extRam
      ensures Valid() && State() == MemoryMap.EnableInterrupt(old(State()), n)
    {
      var enabled := ReadByte(IE);
      enabled := enabled | ((1 as Byte) << n);
      WriteByte(IE, enabled);
    }

    /** The low nibble the selected key groups pull down: the button latch
        when bit 5 of `prev` is clear, the direction latch when bit 4 is. */
    method SelectedLines(prev: Byte) returns (lower: Byte)
      requires Valid()
      ensures lower == JoypadLower(State(), prev)
    {
      var selectButtons := prev & 0x20 == 0;
      var selectDirections := prev & 0x10 == 0;
      lower := 0x0F;
      if selectButtons {
        lower := lower & joypadButtons;
      }
      if selectDirections {
        lower := lower & joypadDirections;
      }
    }

    method RecomputeJoypad()
      requires Valid()
      modifies this, mem, extRam
      ensures Valid() && State() == MemoryMap.RecomputeJoypad(old(State()))
      decreases 0, 3
    {
      var prev := mem[INPUT_REGISTER];
      var lower := SelectedLines(prev);
      var next := (prev & 0x30) | 0xC0 | (lower & 0x0F);
      ghost var s := State();
      mem[INPUT_REGISTER] := next;
      ghost var t := s.(mem := s.mem[INPUT_REGISTER := next]);
      assert State() == t;
      var prevLow := prev & 0x0F;
      var nextLow := next & 0x0F;
      assert MemoryMap.RecomputeJoypad(s) ==
        if prevLow & !nextLow != 0 then MemoryMap.RequestInterrupt(t, 4) else t;
      if prevLow & !nextLow != 0 {
        RequestInterrupt(4);
      }
    }

    method UpdateJoypadState(buttons: Byte, directions: Byte)
      requires Valid()
      modifies this, mem, extRam
      ensures Valid() && State() == MemoryMap.UpdateJoypadState(old(State()), buttons, directions)
    {
      joypadButtons := buttons & 0x0F;
      joypadDirections := directions & 0x0F;
      RecomputeJoypad();
    }

    /** Copies the 0xA0 bytes at value * 0x100 into sprite memory, one routed
        write per byte. */
    method DmaTransfer(value: Byte)
      requires Valid()
      modifies this, mem, extRam
      ensures Valid() && State() == DmaFrom(old(State()), value as int * 0x100, 0)
      decreases 0, 2
    {
      var address := value as int * 0x100;
      var i := 0;
      while i < 0xA0
        invariant 0 <= i <= 0xA0 && Valid()
        invariant DmaFrom(State(), address, i) == DmaFrom(old(State()), address, 0)
      {
        var memory := ReadByte(address + i);
        ghost var s := State();
        MemoryLaws.SpriteStore(s, SPRITE_RAM + i, memory);
        MemoryLaws.DmaFromStep(s, address, i);
        WriteByte(SPRITE_RAM + i, memory);
        i := i + 1;
      }
    }

    method WriteWord(addr: Addr, value: Word)
      requires Valid()
      modifies this, mem, extRam
      ensures Valid() && State() == MemoryMap.WriteWord(old(State()), addr, value)
    {
      var l := value & 0xFF;
      var h := (value >> 8) & 0xFF;
      WriteByte(addr, l as Byte);
      WriteByte((addr + 1) % 0x10000, h as Byte);
    }

    method WriteByteForced(addr: Addr, value: Byte)
      requires Valid()
      modifies this, mem, extRam
      ensures Valid() && State() == WriteForced(old(State()), addr, value)
    {
      if addr < 0x8000 {
        if |rom| <= addr {
          rom := rom + seq(addr + 1 - |rom|, _ => 0);
        }
        rom := rom[addr := value];
      } else if 0xA000 <= addr < 0xC000 {
        extRam[ramBank * EXT_RAM_BANK_SIZE + (addr - 0xA000)] := value;
      }
      mem[addr] := value;
    }

    // -------------------------------------------------------------------
    // Startup and loading

    method RefreshRomBankingType()
      requires Valid()
      modifies this
      ensures Valid() && State() == RefreshBankingType(old(State()))
    {
      var header := ReadByte(CARTRIDGE_TYPE);
      if 1 <= header <= 3 {
        bankingType := MBC1;
      } else if 5 <= header <= 6 {
        bankingType := MBC2;
      } else {
        bankingType := NoBanking;
      }
    }

    method RamStartup()
      requires Valid()
      modifies this, mem
      ensures Valid() && State() == MemoryMap.RamStartup(old(State()))
    {
      mem[0xFF05] := 0x00; mem[0xFF06] := 0x00; mem[0xFF07] := 0x00; mem[0xFF10] := 0x80;
      mem[0xFF11] := 0xBF; mem[0xFF12] := 0xF3; mem[0xFF14] := 0xBF; mem[0xFF16] := 0x3F;
      mem[0xFF17] := 0x00; mem[0xFF19] := 0xBF; mem[0xFF1A] := 0x7F; mem[0xFF1B] := 0xFF;
      mem[0xFF1C] := 0x9F; mem[0xFF1E] := 0xBF; mem[0xFF20] := 0xFF; mem[0xFF21] := 0x00;
      mem[0xFF22] := 0x00; mem[0xFF23] := 0xBF; mem[0xFF24] := 0x77; mem[0xFF25] := 0xF3;
      mem[0xFF26] := 0xF1; mem[0xFF40] := 0x91; mem[0xFF42] := 0x00; mem[0xFF43] := 0x00;
      mem[0xFF45] := 0x00; mem[0xFF47] := 0xFC; mem[0xFF48] := 0xFF; mem[0xFF49] := 0xFF;
      mem[0xFF4A] := 0x00; mem[0xFF4B] := 0x00; mem[0xFFFF] := 0x00;
      RefreshRomBankingType();
    }

    method LoadRomData(data: seq<Byte>)
      requires Valid()
      modifies this, mem, extRam
      ensures Valid() && State() == LoadRom(old(State()), data)
    {
      forall i | 0 <= i < mem.Length {
        mem[i] := 0;
      }
      rom := data;
      forall i | 0 <= i < extRam.Length {
        extRam[i] := 0;
      }
      romBank := 1;
      ramBank := 0;
      romBankingMode := true;
      ramWriteEnable := false;
      RefreshRomBankingType();
    }
  }
}
