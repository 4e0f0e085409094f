/** What the memory unit's routing guarantees, proved about the functions of
    MemoryMap: bank-control writes, mirrored and discarded writes, the reset
    registers, the timer selector, sprite DMA, little-endian words, interrupt
    bits, the joypad register and palette decoding. */
module MemoryLaws {
  import opened Hardware
  import opened MemoryMap

  /** The byte with only bit `k` set. */
  function BitMask(k: nat): Byte
    requires k < 8
  {
    if k == 0 then 0x01 else if k == 1 then 0x02 else if k == 2 then 0x04
    else if k == 3 then 0x08 else if k == 4 then 0x10 else if k == 5 then 0x20
    else if k == 6 then 0x40 else 0x80
  }

  /** Bit `k` of a byte. */
  predicate Bit(b: Byte, k: nat)
    requires k < 8
  {
    b & BitMask(k) != 0
  }

  /** Addresses where a program write stores its byte unchanged into the
      backing store (the timer control register included). */
  predicate StoresVerbatim(addr: Addr)
  {
    && 0x8000 <= addr
    && !(0xA000 <= addr < 0xC000)
    && !(0xE000 <= addr < 0xFE00)
    && !(0xFEA0 <= addr < 0xFEFF)
    && addr != DIVIDER_REGISTER && addr != CURRENT_SCANLINE
    && addr != INPUT_REGISTER && addr != DMA_REG
  }

  // ---------------------------------------------------------------------
  // Writes below 0x8000: bank control

  /** A write into the ROM range never reaches the backing store, the ROM
      image, the external RAM, the joypad latches or the timer; without a
      bank controller it changes nothing at all. */
  lemma RomWriteOnlyBanks(s: MemState, addr: Addr, value: Byte)
    requires s.Valid() && addr < 0x8000
    ensures var r := Write(s, addr, value);
      && r.mem == s.mem && r.rom == s.rom && r.extRam == s.extRam
      && r.joypadButtons == s.joypadButtons && r.joypadDirections == s.joypadDirections
      && r.timerCounter == s.timerCounter && r.bankingType == s.bankingType
      && (s.bankingType == NoBanking ==> r == s)
  {
  }

  /** Writes below 0x2000 switch external RAM on (low nibble 0xA), off (low
      nibble 0x0) or leave it; an MBC2 ignores addresses with bit 4 set. */
  lemma RamEnableWrite(s: MemState, addr: Addr, value: Byte)
    requires s.Valid() && addr < 0x2000 && s.bankingType != NoBanking
    ensures var r := Write(s, addr, value);
      && r == s.(ramWriteEnable := r.ramWriteEnable)
      && (if s.bankingType == MBC2 && (addr as bv16) & 0x10 == 0x10 then r.ramWriteEnable == s.ramWriteEnable
          else if value & 0xF == 0xA then r.ramWriteEnable
          else if value & 0xF == 0 then !r.ramWriteEnable
          else r.ramWriteEnable == s.ramWriteEnable)
  {
  }

  /** A write in [0x2000, 0x4000) is a low ROM-bank change whenever there
      is a bank controller. */
  lemma LowRomBankWrite(s: MemState, addr: Addr, value: Byte)
    requires s.Valid() && 0x2000 <= addr < 0x4000
    ensures Write(s, addr, value) == if s.bankingType == NoBanking then s else ChangeLowRomBanking(s, value)
  {
  }

  /** The bank the MBC1 selects from a masked bank number: bank 0 is never
      selected, so 0 becomes 1. */
  lemma NonZeroBank(keep: Byte, keepMask: Byte, value: Byte)
    requires keepMask == 0xE0 || keepMask == 0x1F
    ensures var m := (keep & keepMask) | (value & !keepMask);
      var n: Byte := if m == 0 then 1 else m;
      && n != 0
      && (m != 0 ==> n & keepMask == keep & keepMask && n & !keepMask == value & !keepMask)
  {
  }

  /** The MBC1 low-bank change replaces the five low bank bits, keeps the
      three high ones, and never selects bank 0; an MBC2 takes the value's
      low nibble as the bank. */
  lemma LowRomBankBits(s: MemState, value: Byte)
    requires s.bankingType != NoBanking
    ensures var r := ChangeLowRomBanking(s, value);
      && r == s.(romBank := r.romBank)
      && (s.bankingType == MBC2 ==> r.romBank == value & 0xF)
      && (s.bankingType == MBC1 ==>
            var old_ := s.romBank;
            var new_ := r.romBank;
            && r.romBank != 0
            && (value & 0x1F != 0 || old_ & 0xE0 != 0 ==>
                  new_ & 0xE0 == old_ & 0xE0 && new_ & 0x1F == value & 0x1F)
            && (value & 0x1F == 0 && old_ & 0xE0 == 0 ==> r.romBank == 1))
  {
    if s.bankingType == MBC1 {
      var o := s.romBank;
      var m := (o & 0xE0) | (value & 0x1F);
      NonZeroBank(o, 0xE0, value);
      assert m != 0 <==> value & 0x1F != 0 || o & 0xE0 != 0;
    }
  }

  /** A write in [0x4000, 0x6000) reaches only an MBC1: in ROM banking mode
      it is a high ROM-bank change, otherwise it selects RAM bank 0-3 (larger
      values select bank 0) and leaves the ROM bank alone. */
  lemma HighBankOrRamBankWrite(s: MemState, addr: Addr, value: Byte)
    requires s.Valid() && 0x4000 <= addr < 0x6000
    ensures var r := Write(s, addr, value);
      && (s.bankingType != MBC1 ==> r == s)
      && (s.bankingType == MBC1 && s.romBankingMode ==> r == ChangeHighRomBanking(s, value))
      && (s.bankingType == MBC1 && !s.romBankingMode ==>
            && r == s.(ramBank := r.ramBank)
            && r.ramBank == (if value <= 3 then value as int else 0))
  {
  }

  /** The high-bank change replaces the three high bank bits, keeps the five
      low ones, and never selects bank 0. */
  lemma HighRomBankBits(s: MemState, value: Byte)
    ensures var r := ChangeHighRomBanking(s, value);
      var old_ := s.romBank;
      var new_ := r.romBank;
      && r == s.(romBank := r.romBank)
      && r.romBank != 0
      && (value & 0xE0 != 0 || old_ & 0x1F != 0 ==>
            new_ & 0x1F == old_ & 0x1F && new_ & 0xE0 == value & 0xE0)
      && (value & 0xE0 == 0 && old_ & 0x1F == 0 ==> r.romBank == 1)
  {
    var o := s.romBank;
    var m := (o & 0x1F) | (value & 0xE0);
    NonZeroBank(o, 0x1F, value);
    assert m != 0 <==> value & 0xE0 != 0 || o & 0x1F != 0;
  }

  /** An MBC1 write in [0x6000, 0x8000) selects ROM banking mode exactly when
      bit 0 of the value is 0, and ROM banking mode resets the RAM bank. */
  lemma BankingModeWrite(s: MemState, addr: Addr, value: Byte)
    requires s.Valid() && 0x6000 <= addr < 0x8000
    ensures var r := Write(s, addr, value);
      && (s.bankingType != MBC1 ==> r == s)
      && (s.bankingType == MBC1 ==>
            && r == s.(romBankingMode := r.romBankingMode, ramBank := r.ramBank)
            && (r.romBankingMode <==> value & 1 == 0)
            && r.ramBank == (if r.romBankingMode then 0 else s.ramBank))
  {
  }

  // ---------------------------------------------------------------------
  // Writes at and above 0x8000

  /** External RAM takes the write, in the selected bank, only while it is
      enabled; then the byte reads back. */
  lemma ExternalRamWrite(s: MemState, addr: Addr, value: Byte)
    requires s.Valid() && 0xA000 <= addr < 0xC000
    ensures var r := Write(s, addr, value);
      && (!s.ramWriteEnable ==> r == s)
      && (s.ramWriteEnable ==>
            && r == s.(extRam := s.extRam[ExtRamIndex(s, addr) := value])
            && Read(r, addr) == value)
  {
  }

  /** A write in [0xE000, 0xFE00) stores the byte at the address and at the
      address 0x2000 below it, and nothing else. */
  lemma EchoWrite(s: MemState, addr: Addr, value: Byte)
    requires s.Valid() && 0xE000 <= addr < 0xFE00
    ensures var r := Write(s, addr, value);
      && r == s.(mem := s.mem[addr := value][addr - 0x2000 := value])
      && Read(r, addr) == value && Read(r, addr - 0x2000) == value
  {
  }

  /** An echo write is a store at the address followed by a routed write of
      the same byte 0x2000 lower. */
  lemma EchoWriteWritesAgain(s: MemState, addr: Addr, value: Byte)
    requires s.Valid() && 0xE000 <= addr < 0xFE00
    ensures Write(s, addr, value) == Write(s.(mem := s.mem[addr := value]), addr - 0x2000, value)
  {
  }

  /** Writes in [0xFEA0, 0xFEFF) are discarded. */
  lemma RestrictedWriteDiscarded(s: MemState, addr: Addr, value: Byte)
    requires s.Valid() && 0xFEA0 <= addr < 0xFEFF
    ensures Write(s, addr, value) == s
  {
  }

  /** Writing the divider or the scanline register stores 0, whatever the value. */
  lemma ResetRegisterWrite(s: MemState, addr: Addr, value: Byte)
    requires s.Valid() && (addr == DIVIDER_REGISTER || addr == CURRENT_SCANLINE)
    ensures var r := Write(s, addr, value);
      r == s.(mem := s.mem[addr := 0]) && Read(r, addr) == 0
  {
  }

  /** A timer-control write stores the value, and reloads the countdown from
      the new selector exactly when the two low bits change. */
  lemma TimerControlWrite(s: MemState, value: Byte)
    requires s.Valid()
    ensures var r := Write(s, TMC, value);
      && r == s.(mem := s.mem[TMC := value], timerCounter := r.timerCounter)
      && Read(r, TMC) == value
      && r.timerCounter == (if Read(s, TMC) & 3 != value & 3 then TimerPeriod(value & 3)
                            else s.timerCounter)
  {
  }

  /** The four frequency selectors give the countdowns 1024, 16, 64 and 256. */
  lemma TimerPeriods(s: MemState)
    requires s.Valid()
    ensures var f := ClockFreq(s);
      SetClockFrequency(s).timerCounter == [1024, 16, 64, 256][f as int]
  {
  }

  /** Every other address above 0x8000 stores the byte verbatim. */
  lemma VerbatimWrite(s: MemState, addr: Addr, value: Byte)
    requires s.Valid() && StoresVerbatim(addr)
    ensures var r := Write(s, addr, value);
      && r == s.(mem := s.mem[addr := value], timerCounter := r.timerCounter)
      && (addr != TMC ==> r.timerCounter == s.timerCounter)
      && Read(r, addr) == value
  {
  }

  // ---------------------------------------------------------------------
  // Sprite DMA

  /** `s` differs from `s0` at most in the backing-store bytes of sprite
      bytes 0..i-1. */
  predicate AgreeOutsideSprites(s0: MemState, s: MemState, i: int)
    requires s0.Valid() && s.Valid()
  {
    && s == s0.(mem := s.mem)
    && forall k :: 0 <= k < MEM_SIZE && !(SPRITE_RAM <= k < SPRITE_RAM + i) ==> s.mem[k] == s0.mem[k]
  }

  /** Byte j of any 256-byte page reads the same in two states that differ
      only in sprite bytes below j: every backing-store offset a read uses
      agrees with the address modulo 0x100. */
  lemma ReadOutsideSprites(s0: MemState, s: MemState, i: int, page: int, j: int)
    requires s0.Valid() && s.Valid() && AgreeOutsideSprites(s0, s, i)
    requires 0 <= i <= j < 0xA0 && 0 <= page < 0x100
    ensures Read(s, page * 0x100 + j) == Read(s0, page * 0x100 + j)
  {
  }

  /** A store into sprite memory is a plain store. */
  lemma SpriteStore(s: MemState, w: int, b: Byte)
    requires s.Valid() && SPRITE_RAM <= w < SPRITE_RAM + 0xA0
    ensures Write(s, w, b) == s.(mem := s.mem[w := b])
  {
  }

  /** The copy loop from step i on leaves every byte outside sprite bytes
      i..0x9F as it was. */
  lemma {:induction false} DmaFromKeeps(s: MemState, src: int, i: nat, k: int)
    requires s.Valid() && 0 <= src <= 0xFF00 && i <= 0xA0
    requires 0 <= k < MEM_SIZE && !(SPRITE_RAM + i <= k < SPRITE_RAM + 0xA0)
    ensures DmaFrom(s, src, i).mem[k] == s.mem[k]
    decreases 0xA0 - i
  {
    if i < 0xA0 {
      var t := s.(mem := s.mem[SPRITE_RAM + i := Read(s, src + i)]);
      assert DmaFrom(s, src, i) == DmaFrom(t, src, i + 1);
      DmaFromKeeps(t, src, i + 1, k);
    }
  }

  /** The copy loop from step i on, started from a state that differs from
      `s0` only in the sprite bytes already copied, stores into sprite byte
      k (for k at or past step i) the byte its source address holds in `s0`. */
  lemma {:induction false} DmaFromCopiesByte(s0: MemState, s: MemState, page: int, i: nat, k: int)
    requires s0.Valid() && s.Valid() && i <= 0xA0 && 0 <= page < 0x100
    requires AgreeOutsideSprites(s0, s, i)
    requires SPRITE_RAM + i <= k < SPRITE_RAM + 0xA0
    ensures DmaFrom(s, page * 0x100, i).mem[k] == Read(s0, page * 0x100 + (k - SPRITE_RAM))
    decreases 0xA0 - i
  {
    var src := page * 0x100;
    var b := Read(s, src + i);
    var t := s.(mem := s.mem[SPRITE_RAM + i := b]);
    DmaFromStep(s, src, i);
    if k == SPRITE_RAM + i {
      ReadOutsideSprites(s0, s, i, page, i);
      DmaFromKeeps(t, src, i + 1, k);
    } else {
      AgreeAfterSpriteStore(s0, s, i, b);
      DmaFromCopiesByte(s0, t, page, i + 1, k);
    }
  }

  /** One step of the copy loop stores sprite byte i. */
  lemma DmaFromStep(s: MemState, src: int, i: nat)
    requires s.Valid() && 0 <= src <= 0xFF00 && i < 0xA0
    ensures DmaFrom(s, src, i) == DmaFrom(s.(mem := s.mem[SPRITE_RAM + i := Read(s, src + i)]), src, i + 1)
  {
  }

  /** Storing sprite byte i keeps a state in agreement with `s0` outside
      sprite bytes 0..i. */
  lemma AgreeAfterSpriteStore(s0: MemState, s: MemState, i: int, b: Byte)
    requires s0.Valid() && s.Valid() && 0 <= i < 0xA0 && AgreeOutsideSprites(s0, s, i)
    ensures AgreeOutsideSprites(s0, s.(mem := s.mem[SPRITE_RAM + i := b]), i + 1)
  {
  }

  /** The whole copy loop stores into sprite byte j the byte that address
      page * 0x100 + j held before the copy, and no byte outside sprite
      memory. */
  lemma DmaFromCopies(s: MemState, page: int)
    requires s.Valid() && 0 <= page < 0x100
    ensures var r := DmaFrom(s, page * 0x100, 0);
      && (forall k :: SPRITE_RAM <= k < SPRITE_RAM + 0xA0 ==> r.mem[k] == Read(s, page * 0x100 + (k - SPRITE_RAM)))
      && (forall k :: 0 <= k < MEM_SIZE && !(SPRITE_RAM <= k < SPRITE_RAM + 0xA0) ==> r.mem[k] == s.mem[k])
  {
    forall k | SPRITE_RAM <= k < SPRITE_RAM + 0xA0
      ensures DmaFrom(s, page * 0x100, 0).mem[k] == Read(s, page * 0x100 + (k - SPRITE_RAM))
    {
      DmaFromCopiesByte(s, s, page, 0, k);
    }
    forall k | 0 <= k < MEM_SIZE && !(SPRITE_RAM <= k < SPRITE_RAM + 0xA0)
      ensures DmaFrom(s, page * 0x100, 0).mem[k] == s.mem[k]
    {
      DmaFromKeeps(s, page * 0x100, 0, k);
    }
  }

  /** A write to the DMA register starts the copy of the 0xA0 bytes at
      value * 0x100 into sprite memory (DmaFromCopies says what it does). */
  lemma DmaWriteStartsCopy(s: MemState, value: Byte)
    requires s.Valid()
    ensures Write(s, DMA_REG, value) == DmaFrom(s, value as int * 0x100, 0)
  {
  }

  // ---------------------------------------------------------------------
  // Reads and words

  /** After loading a non-empty image every address below 0x8000 reads the
      image byte at that address modulo the image length (bank 1 is mapped
      at 0x4000), the backing store reads 0, and the controller comes from the
      header byte. */
  lemma LoadRomReads(s: MemState, data: seq<Byte>, addr: Addr)
    requires s.Valid() && |data| > 0
    ensures var r := LoadRom(s, data);
      && r.rom == data && r.romBank == 1 && r.ramBank == 0
      && !r.ramWriteEnable && r.romBankingMode
      && r.bankingType == BankingTypeOf(data[CARTRIDGE_TYPE % |data|])
      && (addr < 0x8000 ==> Read(r, addr) == data[addr % |data|])
      && (StoresVerbatim(addr) ==> Read(r, addr) == 0)
  {
  }

  /** The switchable window reads the image at bank * 0x4000 plus the offset
      into the window, modulo the image length. */
  lemma RomWindowRead(s: MemState, addr: Addr)
    requires s.Valid() && 0x4000 <= addr < 0x8000 && |s.rom| > 0
    ensures Read(s, addr) == s.rom[(s.romBank as int * 0x4000 + addr - 0x4000) % |s.rom|]
  {
  }

  /** Bank 0 reads the image at the address modulo the image length, in
      any state with an image. */
  lemma Bank0Read(s: MemState, addr: Addr)
    requires s.Valid() && |s.rom| > 0 && addr < 0x4000
    ensures Read(s, addr) == s.rom[addr % |s.rom|]
  {
  }

  /** With no image loaded, reads below 0x8000 fall back on the backing
      store: bank 0 reads it at the address, the window at the banked
      offset, and an offset past the store reads 0. */
  lemma EmptyRomReads(s: MemState, addr: Addr)
    requires s.Valid() && |s.rom| == 0 && addr < 0x8000
    ensures addr < 0x4000 ==> Read(s, addr) == s.mem[addr]
    ensures 0x4000 <= addr ==>
      Read(s, addr) == (if RomWindowIndex(s, addr) < MEM_SIZE then s.mem[RomWindowIndex(s, addr)] else 0)
  {
  }

  /** A new memory unit, with no image and ROM bank 1, reads 0 everywhere. */
  lemma InitialReadsZero(addr: Addr)
    ensures Read(Initial(), addr) == 0
  {
  }

  /** The forced write reads back wherever the read maps the address onto
      the stored location: everywhere except the ROM window with a bank
      other than 1. */
  lemma ForcedWriteReadsBack(s: MemState, addr: Addr, value: Byte)
    requires s.Valid() && (addr < 0x4000 || 0x8000 <= addr || s.romBank == 1)
    ensures Read(WriteForced(s, addr, value), addr) == value
  {
    if addr < 0x8000 {
      ForcedRomWriteReadsBack(s, addr, value);
    } else {
      ForcedRamWriteReadsBack(s, addr, value);
    }
  }

  lemma ForcedRomWriteReadsBack(s: MemState, addr: Addr, value: Byte)
    requires s.Valid() && (addr < 0x4000 || (0x4000 <= addr < 0x8000 && s.romBank == 1))
    ensures Read(WriteForced(s, addr, value), addr) == value
  {
    var r := WriteForced(s, addr, value);
    assert |r.rom| > addr && r.rom[addr] == value;
    assert addr % |r.rom| == addr;
    if 0x4000 <= addr {
      assert RomWindowIndex(r, addr) == addr;
    }
  }

  lemma ForcedRamWriteReadsBack(s: MemState, addr: Addr, value: Byte)
    requires s.Valid() && 0x8000 <= addr
    ensures Read(WriteForced(s, addr, value), addr) == value
  {
  }

  /** The split of a word into its two bytes and back. */
  lemma WordBytes(value: Word)
    ensures (((((value >> 8) & 0xFF) as Byte) as Word) << 8) | (((value & 0xFF) as Byte) as Word) == value
  {
  }

  /** A word written where both of its bytes are stored verbatim reads back. */
  lemma WordRoundTrip(s: MemState, addr: Addr, value: Word)
    requires s.Valid() && StoresVerbatim(addr) && StoresVerbatim((addr + 1) % 0x10000)
    ensures ReadWord(WriteWord(s, addr, value), addr) == value
  {
    var r := WriteWord(s, addr, value);
    WordBytesStored(s, addr, value);
    assert ReadWord(r, addr)
      == ((((value >> 8) & 0xFF) as Byte as Word) << 8) | ((value & 0xFF) as Byte as Word);
    WordBytes(value);
  }

  /** Both bytes of a word written where they are stored verbatim read back. */
  lemma WordBytesStored(s: MemState, addr: Addr, value: Word)
    requires s.Valid() && StoresVerbatim(addr) && StoresVerbatim((addr + 1) % 0x10000)
    ensures var r := WriteWord(s, addr, value);
      && Read(r, addr) == (value & 0xFF) as Byte
      && Read(r, (addr + 1) % 0x10000) == ((value >> 8) & 0xFF) as Byte
  {
    var next := (addr + 1) % 0x10000;
    var lo := (value & 0xFF) as Byte;
    var hi := ((value >> 8) & 0xFF) as Byte;
    var t := Write(s, addr, lo);
    VerbatimWrite(s, addr, lo);
    VerbatimWrite(t, next, hi);
    var r := Write(t, next, hi);
    assert Read(r, addr) == lo;
  }

  /** For any state and any two bytes, the word at 0xFFFF takes its low byte
      from 0xFFFF and its high byte from 0x0000. */
  lemma ReadWordWrapsAtEnd(s: MemState, lo: Byte, hi: Byte)
    requires s.Valid()
    ensures var r := WriteForced(WriteForced(s, 0xFFFF, lo), 0x0000, hi);
      ReadWord(r, 0xFFFF) == ((hi as Word) << 8) | (lo as Word)
  {
    var t := WriteForced(s, 0xFFFF, lo);
    var r := WriteForced(t, 0x0000, hi);
    assert Read(t, 0xFFFF) == lo;
    assert Read(r, 0xFFFF) == lo;
    assert Read(r, 0x0000) == hi;
  }

  // ---------------------------------------------------------------------
  // Interrupt bits

  /** The source requests an interrupt with a routed write of IF; that write
      is exactly the store RequestInterrupt makes. */
  lemma RequestInterruptIsRoutedWrite(s: MemState, n: Byte)
    requires s.Valid() && n < 8
    ensures RequestInterrupt(s, n) == Write(s, IF, Read(s, IF) | ((1 as Byte) << n))
  {
  }

  /** Requesting interrupt n sets bit n of IF, keeps its other bits, and
      changes no other byte. */
  lemma RequestInterruptSetsBit(s: MemState, n: Byte)
    requires s.Valid() && n < 8
    ensures var r := RequestInterrupt(s, n);
      && r == s.(mem := r.mem)
      && (forall a :: 0 <= a < MEM_SIZE && a != IF ==> r.mem[a] == s.mem[a])
      && (forall k :: 0 <= k < 8 ==> (Bit(Read(r, IF), k) <==> k == n as int || Bit(Read(s, IF), k)))
  {
    var old_ := Read(s, IF);
    var new_ := old_ | ((1 as Byte) << n);
    assert Read(RequestInterrupt(s, n), IF) == new_;
    forall k | 0 <= k < 8
      ensures Bit(new_, k) <==> k == n as int || Bit(old_, k)
    {
      OrBit(old_, n, k);
    }
  }

  /** Enabling interrupt n sets bit n of IE, keeps its other bits, and
      changes no other byte. */
  lemma EnableInterruptSetsBit(s: MemState, n: Byte)
    requires s.Valid() && n < 8
    ensures var r := EnableInterrupt(s, n);
      && r == s.(mem := r.mem)
      && (forall a :: 0 <= a < MEM_SIZE && a != IE ==> r.mem[a] == s.mem[a])
      && (forall k :: 0 <= k < 8 ==> (Bit(Read(r, IE), k) <==> k == n as int || Bit(Read(s, IE), k)))
  {
    var old_ := Read(s, IE);
    var new_ := old_ | ((1 as Byte) << n);
    assert Read(EnableInterrupt(s, n), IE) == new_;
    forall k | 0 <= k < 8
      ensures Bit(new_, k) <==> k == n as int || Bit(old_, k)
    {
      OrBit(old_, n, k);
    }
  }

  lemma OrBit(b: Byte, n: Byte, k: nat)
    requires n < 8 && k < 8
    ensures Bit(b | ((1 as Byte) << n), k) <==> k == n as int || Bit(b, k)
  {
    assert (1 as Byte) << n == BitMask(n as nat) by {
      if n == 0 {} else if n == 1 {} else if n == 2 {} else if n == 3 {}
      else if n == 4 {} else if n == 5 {} else if n == 6 {} else {}
    }
  }

  // ---------------------------------------------------------------------
  // The joypad register

  /** Recomputing the input register keeps its selection bits, forces bits 6
      and 7 on, and changes no byte but P1 and IF. */
  lemma RecomputeJoypadFrame(s: MemState)
    requires s.Valid()
    ensures var r := RecomputeJoypad(s);
      var prev := s.mem[INPUT_REGISTER];
      && r == s.(mem := r.mem)
      && (forall a :: 0 <= a < MEM_SIZE && a != INPUT_REGISTER && a != IF ==> r.mem[a] == s.mem[a])
      && Read(r, INPUT_REGISTER) & 0xF0 == (prev & 0x30) | 0xC0
  {
    var prev := s.mem[INPUT_REGISTER];
    var next := (prev & 0x30) | 0xC0 | (JoypadLower(s, prev) & 0x0F);
    var t := s.(mem := s.mem[INPUT_REGISTER := next]);
    assert RecomputeJoypad(s).mem[INPUT_REGISTER] == next;
  }

  /** Recomputing the input register requests the joypad interrupt (bit 4
      of IF) exactly when some low line falls from 1 to 0. */
  lemma RecomputeJoypadInterrupt(s: MemState)
    requires s.Valid()
    ensures var r := RecomputeJoypad(s);
      var prev := s.mem[INPUT_REGISTER];
      var next := r.mem[INPUT_REGISTER];
      Bit(Read(r, IF), 4) <==> Bit(Read(s, IF), 4) || (prev & 0x0F) & !(next & 0x0F) != 0
  {
    var prev := s.mem[INPUT_REGISTER];
    var next := (prev & 0x30) | 0xC0 | (JoypadLower(s, prev) & 0x0F);
    var t := s.(mem := s.mem[INPUT_REGISTER := next]);
    assert RecomputeJoypad(s).mem[INPUT_REGISTER] == next;
    if (prev & 0x0F) & !(next & 0x0F) != 0 {
      OrBit(t.mem[IF], 4, 4);
    }
  }

  /** Each low line of the recomputed input register reads 0 exactly when a
      selected key group (bit 5 clear: buttons, bit 4 clear: directions) has
      that key pressed, i.e. latched as 0. */
  lemma RecomputeJoypadLines(s: MemState, k: nat)
    requires s.Valid() && k < 4
    ensures var prev := s.mem[INPUT_REGISTER];
      var next := RecomputeJoypad(s).mem[INPUT_REGISTER];
      !Bit(next, k) <==>
        (prev & 0x20 == 0 && !Bit(s.joypadButtons, k)) || (prev & 0x10 == 0 && !Bit(s.joypadDirections, k))
  {
    RecomputedInput(s);
    LowerBit(s, s.mem[INPUT_REGISTER], k);
  }

  /** The recomputed input register: the old selection bits, bits 6-7 set,
      and the selected lines below. */
  lemma RecomputedInput(s: MemState)
    requires s.Valid()
    ensures var prev := s.mem[INPUT_REGISTER];
      RecomputeJoypad(s).mem[INPUT_REGISTER] == (prev & 0x30) | 0xC0 | (JoypadLower(s, prev) & 0x0F)
  {
    var prev := s.mem[INPUT_REGISTER];
    var next := (prev & 0x30) | 0xC0 | (JoypadLower(s, prev) & 0x0F);
    var t := s.(mem := s.mem[INPUT_REGISTER := next]);
    assert t.mem[INPUT_REGISTER] == next;
  }

  lemma LowerBit(s: MemState, prev: Byte, k: nat)
    requires k < 4
    ensures var next := (prev & 0x30) | 0xC0 | (JoypadLower(s, prev) & 0x0F);
      !Bit(next, k) <==>
        (prev & 0x20 == 0 && !Bit(s.joypadButtons, k)) || (prev & 0x10 == 0 && !Bit(s.joypadDirections, k))
  {
  }

  /** Writing the input register keeps only the value's selection bits (4
      and 5) and then recomputes the register. */
  lemma InputRegisterWrite(s: MemState, value: Byte)
    requires s.Valid()
    ensures var r := Write(s, INPUT_REGISTER, value);
      Read(r, INPUT_REGISTER) & 0xF0 == (value & 0x30) | 0xC0
  {
    var current := s.mem[INPUT_REGISTER];
    var t := s.(mem := s.mem[INPUT_REGISTER := (value & 0x30) | 0xC0 | (current & 0x0F)]);
    RecomputeJoypadFrame(t);
  }

  // ---------------------------------------------------------------------
  // Palettes

  /** Colour number n selects palette bits 2n+1 and 2n. */
  lemma PaletteShadeIsField(palette: Byte, colorNum: Byte)
    requires colorNum <= 3
    ensures PaletteShade(palette, colorNum) == (palette >> (2 * colorNum)) & 3
  {
  }

  /** The palette 0xE4 (11 10 01 00) maps each colour number to its own shade. */
  lemma IdentityPalette(s: MemState, addr: Addr)
    requires s.Valid() && Read(s, addr) == 0xE4
    ensures GetColor(s, 0, addr) == White && GetColor(s, 1, addr) == LightGrey
    ensures GetColor(s, 2, addr) == DarkGrey && GetColor(s, 3, addr) == Black
  {
  }
}
