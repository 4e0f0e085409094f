/** The emulator's address space as a value: the backing store, the cartridge
    ROM image, the external RAM banks and the bank-controller state, with the
    read and write routing of the memory unit as functions over that value.
    The class AddressSpace.Memory is proved to follow these functions. */
module MemoryMap {
  import opened Hardware

  /** The memory bank controller named by the cartridge header. */
  datatype BankingType = NoBanking | MBC1 | MBC2

  /** One of the four 8 KiB external RAM banks. */
  type RamBank = b: int | 0 <= b < 4

  /** The four shades a palette entry can select. */
  datatype Color = White | LightGrey | DarkGrey | Black

  const EXT_RAM_BANK_SIZE: int := 0x2000
  const EXT_RAM_SIZE: int := 4 * EXT_RAM_BANK_SIZE

  /** Everything the memory unit holds. The four external RAM banks are laid
      out one after the other in `extRam`, bank b at offset b * 0x2000. */
  datatype MemState = MemState(
    mem: seq<Byte>,
    rom: seq<Byte>,
    extRam: seq<Byte>,
    bankingType: BankingType,
    romBank: Byte,
    ramBank: RamBank,
    ramWriteEnable: bool,
    romBankingMode: bool,
    joypadButtons: Byte,
    joypadDirections: Byte,
    timerCounter: int)
  {
    predicate Valid() {
      |mem| == MEM_SIZE && |extRam| == EXT_RAM_SIZE
    }
  }

  /** The state of a freshly constructed memory unit. */
  function Initial(): (s: MemState)
    ensures s.Valid()
  {
    MemState(seq(MEM_SIZE, _ => 0), [], seq(EXT_RAM_SIZE, _ => 0), NoBanking,
             1, 0, false, true, 0x0F, 0x0F, 1024)
  }

  // ---------------------------------------------------------------------
  // Reading

  /** A byte of the cartridge image. Offsets past the end of the image wrap
      around its length; with no image loaded the backing store stands in
      for it and offsets past the backing store read 0. */
  function RomByte(s: MemState, index: nat): (b: Byte)
    requires s.Valid()
    ensures |s.rom| > 0 ==> b in s.rom
    ensures |s.rom| == 0 && index >= MEM_SIZE ==> b == 0
  {
    if |s.rom| == 0 then
      if index < |s.mem| then s.mem[index] else 0
    else
      s.rom[index % |s.rom|]
  }

  /** Offset of the switchable ROM window [0x4000, 0x8000) into the image. */
  function RomWindowIndex(s: MemState, addr: Addr): (i: nat)
    requires 0x4000 <= addr < 0x8000
    ensures i / 0x4000 == s.romBank as int && i % 0x4000 == addr - 0x4000
  {
    s.romBank as int * 0x4000 + (addr - 0x4000)
  }

  /** Offset of an external RAM address into the selected bank. */
  function ExtRamIndex(s: MemState, addr: Addr): (i: nat)
    requires 0xA000 <= addr < 0xC000
    ensures i < EXT_RAM_SIZE
  {
    s.ramBank * EXT_RAM_BANK_SIZE + (addr - 0xA000)
  }

  /** The byte a program sees at `addr`. */
  function Read(s: MemState, addr: Addr): (b: Byte)
    requires s.Valid()
    ensures 0x8000 <= addr < 0xA000 || 0xC000 <= addr ==> b == s.mem[addr]
    ensures |s.rom| > 0 && addr < 0x8000 ==> b in s.rom
  {
    if addr < 0x4000 then RomByte(s, addr)
    else if addr < 0x8000 then RomByte(s, RomWindowIndex(s, addr))
    else if 0xA000 <= addr < 0xC000 then s.extRam[ExtRamIndex(s, addr)]
    else s.mem[addr]
  }

  /** A little-endian word; the high byte comes from the next address,
      wrapping from 0xFFFF to 0x0000. */
  function ReadWord(s: MemState, addr: Addr): (w: Word)
    requires s.Valid()
    ensures (w & 0xFF) as Byte == Read(s, addr)
    ensures (w >> 8) as Byte == Read(s, (addr + 1) % 0x10000)
  {
    ((Read(s, (addr + 1) % 0x10000) as Word) << 8) | (Read(s, addr) as Word)
  }

  // ---------------------------------------------------------------------
  // Timer control

  /** The frequency selector: the two low bits of the timer control register. */
  function ClockFreq(s: MemState): (f: Byte)
    requires s.Valid()
    ensures f <= 3
  {
    Read(s, TMC) & 0x3
  }

  /** Cycles per timer tick for each frequency selector. */
  function TimerPeriod(freq: Byte): (p: int)
    ensures p == 16 || p == 64 || p == 256 || p == 1024
    ensures freq > 3 ==> p == 1024
  {
    if freq == 0 then 1024
    else if freq == 1 then 16
    else if freq == 2 then 64
    else if freq == 3 then 256
    else 1024
  }

  /** Reloads the timer countdown from the current frequency selector. */
  function SetClockFrequency(s: MemState): (r: MemState)
    requires s.Valid()
    ensures r == s.(timerCounter := r.timerCounter)
  {
    s.(timerCounter := TimerPeriod(ClockFreq(s)))
  }

  // ---------------------------------------------------------------------
  // Bank control: writes below 0x8000

  function EnableRamBanking(s: MemState, addr: Addr, value: Byte): (r: MemState)
    ensures r == s.(ramWriteEnable := r.ramWriteEnable)
    ensures value & 0xF != 0xA && value & 0xF != 0x0 ==> r == s
  {
    if s.bankingType == MBC2 && (addr as bv16) & 0x10 == 0x10 then s
    else if value & 0xF == 0xA then s.(ramWriteEnable := true)
    else if value & 0xF == 0x0 then s.(ramWriteEnable := false)
    else s
  }

  function ChangeRamBanking(s: MemState, value: Byte): (r: MemState)
    ensures r == s.(ramBank := r.ramBank)
    ensures value <= 3 ==> r.ramBank == value as int
  {
    s.(ramBank := if value <= 3 then value as int else 0)
  }

  function ChangeLowRomBanking(s: MemState, value: Byte): (r: MemState)
    ensures r == s.(romBank := r.romBank)
    ensures s.bankingType != MBC2 ==> r.romBank != 0
  {
    if s.bankingType == MBC2 then s.(romBank := value & 0xF)
    else
      var masked := (s.romBank & 224) | (value & 31);
      s.(romBank := if masked == 0 then 1 else masked)
  }

  function ChangeHighRomBanking(s: MemState, value: Byte): (r: MemState)
    ensures r == s.(romBank := r.romBank) && r.romBank != 0
  {
    var masked := (s.romBank & 31) | (value & 224);
    s.(romBank := if masked == 0 then 1 else masked)
  }

  function ChangeBankingMode(s: MemState, value: Byte): (r: MemState)
    ensures r == s.(romBankingMode := r.romBankingMode, ramBank := r.ramBank)
    ensures r.romBankingMode ==> r.ramBank == 0
    ensures !r.romBankingMode ==> r.ramBank == s.ramBank
  {
    var romMode := value & 0x1 == 0;
    s.(romBankingMode := romMode, ramBank := if romMode then 0 else s.ramBank)
  }

  /** A write below 0x8000: it changes the bank-controller state only. */
  function HandleBanking(s: MemState, addr: Addr, value: Byte): (r: MemState)
    requires addr < 0x8000
    ensures r == s.(romBank := r.romBank, ramBank := r.ramBank,
                    ramWriteEnable := r.ramWriteEnable, romBankingMode := r.romBankingMode)
  {
    if addr < 0x2000 then
      if s.bankingType != NoBanking then EnableRamBanking(s, addr, value) else s
    else if addr < 0x4000 then
      if s.bankingType != NoBanking then ChangeLowRomBanking(s, value) else s
    else if addr < 0x6000 then
      if s.bankingType == MBC1 then
        if s.romBankingMode then ChangeHighRomBanking(s, value) else ChangeRamBanking(s, value)
      else s
    else if s.bankingType == MBC1 then ChangeBankingMode(s, value)
    else s
  }

  // ---------------------------------------------------------------------
  // Writing

  /** The program-visible write. A write into the echo range [0xE000, 0xFE00)
      stores the byte there and is then routed again 0x2000 lower, into work
      RAM; every other address is routed once. No write changes the ROM image
      or the banking type. */
  function Write(s: MemState, addr: Addr, value: Byte): (r: MemState)
    requires s.Valid()
    ensures r.Valid() && r.rom == s.rom && r.bankingType == s.bankingType
  {
    if 0xE000 <= addr < 0xFE00 then Route(s.(mem := s.mem[addr := value]), addr - 0x2000, value)
    else Route(s, addr, value)
  }

  /** The routing of one write outside the echo range, in priority order. */
  function Route(s: MemState, addr: Addr, value: Byte): (r: MemState)
    requires s.Valid() && !(0xE000 <= addr < 0xFE00)
    ensures r.Valid() && r.rom == s.rom && r.bankingType == s.bankingType
  {
    if addr < 0x8000 then
      HandleBanking(s, addr, value)
    else if 0xA000 <= addr < 0xC000 then
      if s.ramWriteEnable then s.(extRam := s.extRam[ExtRamIndex(s, addr) := value]) else s
    else if 0xFEA0 <= addr < 0xFEFF then
      s
    else
      WriteRegister(s, addr, value)
  }

  /** The routing of the remaining addresses: the timer control, divider,
      scanline, input and DMA registers are handled specially, and every
      other address stores the byte verbatim. */
  function WriteRegister(s: MemState, addr: Addr, value: Byte): (r: MemState)
    requires s.Valid()
    ensures r.Valid() && r.rom == s.rom && r.bankingType == s.bankingType
  {
    if addr == TMC then
      var t := s.(mem := s.mem[TMC := value]);
      if ClockFreq(s) != ClockFreq(t) then SetClockFrequency(t) else t
    else if addr == DIVIDER_REGISTER then
      s.(mem := s.mem[DIVIDER_REGISTER := 0])
    else if addr == CURRENT_SCANLINE then
      s.(mem := s.mem[CURRENT_SCANLINE := 0])
    else if addr == INPUT_REGISTER then
      var current := s.mem[INPUT_REGISTER];
      RecomputeJoypad(s.(mem := s.mem[INPUT_REGISTER := (value & 0x30) | 0xC0 | (current & 0x0F)]))
    else if addr == DMA_REG then
      DmaFrom(s, value as int * 0x100, 0)
    else
      s.(mem := s.mem[addr := value])
  }

  /** Sets bit `n` of the interrupt request register. The source does this
      with a routed write of IF; IF is stored verbatim, so that write is this
      store (MemoryLaws.RequestInterruptIsRoutedWrite). */
  function RequestInterrupt(s: MemState, n: Byte): (r: MemState)
    requires s.Valid() && n < 8
    ensures r.Valid() && r.rom == s.rom && r.bankingType == s.bankingType
  {
    s.(mem := s.mem[IF := s.mem[IF] | ((1 as Byte) << n)])
  }

  /** Sets bit `n` of the interrupt enable register. */
  function EnableInterrupt(s: MemState, n: Byte): (r: MemState)
    requires s.Valid() && n < 8
    ensures r.Valid() && r.rom == s.rom && r.bankingType == s.bankingType
  {
    Write(s, IE, Read(s, IE) | ((1 as Byte) << n))
  }

  /** The input register's low nibble as the selected key groups give it. */
  function JoypadLower(s: MemState, prev: Byte): (b: Byte)
    ensures b & 0xF0 == 0
    ensures prev & 0x30 == 0x30 ==> b == 0x0F
  {
    var lower: Byte := 0x0F;
    var lower := if prev & 0x20 == 0 then lower & s.joypadButtons else lower;
    if prev & 0x10 == 0 then lower & s.joypadDirections else lower
  }

  /** Rebuilds the input register from the selection bits and the key
      latches, requesting the joypad interrupt when a selected line falls. */
  function RecomputeJoypad(s: MemState): (r: MemState)
    requires s.Valid()
    ensures r.Valid() && r.rom == s.rom && r.bankingType == s.bankingType
  {
    var prev := s.mem[INPUT_REGISTER];
    var next := (prev & 0x30) | 0xC0 | (JoypadLower(s, prev) & 0x0F);
    var t := s.(mem := s.mem[INPUT_REGISTER := next]);
    if (prev & 0x0F) & !(next & 0x0F) != 0 then RequestInterrupt(t, 4) else t
  }

  /** Latches new key nibbles (0 = pressed) and recomputes the input register. */
  function UpdateJoypadState(s: MemState, buttons: Byte, directions: Byte): (r: MemState)
    requires s.Valid()
    ensures r.Valid() && r.rom == s.rom && r.bankingType == s.bankingType
    ensures r.joypadButtons == buttons & 0x0F && r.joypadDirections == directions & 0x0F
  {
    RecomputeJoypad(s.(joypadButtons := buttons & 0x0F, joypadDirections := directions & 0x0F))
  }

  /** Steps i, i+1, ..., 0x9F of the sprite-memory copy from `src`. Each
      step is, in the source, a routed write into sprite memory, which the
      routing stores verbatim (MemoryLaws.SpriteStore). */
  function DmaFrom(s: MemState, src: int, i: nat): (r: MemState)
    requires s.Valid() && 0 <= src <= 0xFF00 && i <= 0xA0
    ensures r.Valid() && r == s.(mem := r.mem)
    decreases 0xA0 - i
  {
    if i == 0xA0 then s
    else DmaFrom(s.(mem := s.mem[SPRITE_RAM + i := Read(s, src + i)]), src, i + 1)
  }

  /** A little-endian word write: low byte first, then the high byte at the
      next address (wrapping from 0xFFFF to 0x0000). */
  function WriteWord(s: MemState, addr: Addr, value: Word): (r: MemState)
    requires s.Valid()
    ensures r.Valid()
  {
    Write(Write(s, addr, (value & 0xFF) as Byte), (addr + 1) % 0x10000, ((value >> 8) & 0xFF) as Byte)
  }

  /** The write that bypasses the routing table: below 0x8000 it grows the
      ROM image as needed and stores into it, in [0xA000, 0xBFFF] it stores
      into the selected RAM bank, and in every case it also stores into the
      backing store. */
  function WriteForced(s: MemState, addr: Addr, value: Byte): (r: MemState)
    requires s.Valid()
    ensures r.Valid()
  {
    if addr < 0x8000 then
      var rom := if |s.rom| <= addr then s.rom + seq(addr + 1 - |s.rom|, _ => 0) else s.rom;
      s.(rom := rom[addr := value], mem := s.mem[addr := value])
    else if 0xA000 <= addr < 0xC000 then
      s.(extRam := s.extRam[ExtRamIndex(s, addr) := value], mem := s.mem[addr := value])
    else
      s.(mem := s.mem[addr := value])
  }

  // ---------------------------------------------------------------------
  // Startup and ROM loading

  /** The controller named by a cartridge-type header byte. */
  function BankingTypeOf(header: Byte): (t: BankingType)
    ensures t == MBC1 <==> 1 <= header <= 3
    ensures t == MBC2 <==> 5 <= header <= 6
  {
    if 1 <= header <= 3 then MBC1
    else if 5 <= header <= 6 then MBC2
    else NoBanking
  }

  function RefreshBankingType(s: MemState): (r: MemState)
    requires s.Valid()
    ensures r.Valid() && r == s.(bankingType := r.bankingType)
  {
    s.(bankingType := BankingTypeOf(Read(s, CARTRIDGE_TYPE)))
  }

  function RamStartup(s: MemState): (r: MemState)
    requires s.Valid()
    ensures r.Valid() && r == s.(mem := r.mem, bankingType := r.bankingType)
  {
    RefreshBankingType(s.(mem := StartupMem(s.mem)))
  }

  function LoadRom(s: MemState, data: seq<Byte>): (r: MemState)
    requires s.Valid()
    ensures r.Valid() && r.rom == data && r.romBank == 1 && r.ramBank == 0
    ensures r.joypadButtons == s.joypadButtons && r.joypadDirections == s.joypadDirections
    ensures r.timerCounter == s.timerCounter
  {
    RefreshBankingType(s.(mem := seq(MEM_SIZE, _ => 0), rom := data,
                          extRam := seq(EXT_RAM_SIZE, _ => 0), romBank := 1, ramBank := 0,
                          romBankingMode := true, ramWriteEnable := false))
  }

  // ---------------------------------------------------------------------
  // Palettes

  /** The two palette bits (2n+1, 2n) that colour number `n` selects. */
  function PaletteShade(palette: Byte, colorNum: Byte): (shade: Byte)
    requires colorNum <= 3
    ensures shade <= 3
  {
    var hi := 2 * colorNum + 1;
    var lo := 2 * colorNum;
    (((palette & ((1 as Byte) << hi)) >> hi) << 1) | ((palette & ((1 as Byte) << lo)) >> lo)
  }

  function ShadeColor(shade: Byte): (c: Color)
    requires shade <= 3
    ensures c == White <==> shade == 0
    ensures c == Black <==> shade == 3
  {
    if shade == 0 then White
    else if shade == 1 then LightGrey
    else if shade == 2 then DarkGrey
    else Black
  }

  /** The colour that colour number `colorNum` has in the palette at `addr`. */
  function GetColor(s: MemState, colorNum: Byte, addr: Addr): (c: Color)
    requires s.Valid() && colorNum <= 3
    ensures c == White <==> PaletteShade(Read(s, addr), colorNum) == 0
  {
    ShadeColor(PaletteShade(Read(s, addr), colorNum))
  }
}
