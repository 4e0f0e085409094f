/** Machine words and the fixed addresses of the Game Boy (DMG) address space
    that the emulator core refers to by name. */
module Hardware {

  type Byte = bv8
  type Word = bv16

  /** A 16-bit address, kept as an integer so that routing is plain arithmetic. */
  type Addr = a: int | 0 <= a < 0x10000

  /** Size of the flat backing store that covers the whole 16-bit address space. */
  const MEM_SIZE: int := 0x10000

  // Memory-mapped hardware registers.
  const INPUT_REGISTER: Addr := 0xFF00
  const DIVIDER_REGISTER: Addr := 0xFF04
  const TMC: Addr := 0xFF07
  const IF: Addr := 0xFF0F
  const LCD_CONTROL: Addr := 0xFF40
  const LCD_STATUS: Addr := 0xFF41
  const SCROLL_Y: Addr := 0xFF42
  const SCROLL_X: Addr := 0xFF43
  const CURRENT_SCANLINE: Addr := 0xFF44
  const COINCIDENCE_FLAG: Addr := 0xFF45
  const DMA_REG: Addr := 0xFF46
  const BG_PALETTE: Addr := 0xFF47
  const SPRITE_PALETTE_0: Addr := 0xFF48
  const SPRITE_PALETTE_1: Addr := 0xFF49
  const WINDOW_Y: Addr := 0xFF4A
  const WINDOW_X: Addr := 0xFF4B
  const IE: Addr := 0xFFFF

  /** Object attribute memory: 40 sprites of four bytes each. */
  const SPRITE_RAM: Addr := 0xFE00

  /** Cartridge header byte that names the memory bank controller. */
  const CARTRIDGE_TYPE: Addr := 0x147

  const SCREEN_WIDTH: int := 160
  const SCREEN_HEIGHT: int := 144

  /** Length of one scanline in clock cycles. */
  const SCANLINE_CYCLES: int := 456

  /** The power-on values of the I/O registers, as one chain of stores in
      the order the startup routine performs them. */
  function StartupMem(m: seq<Byte>): (r: seq<Byte>)
    requires |m| == MEM_SIZE
    ensures |r| == MEM_SIZE
  {
    m[0xFF05 := 0x00][0xFF06 := 0x00][0xFF07 := 0x00][0xFF10 := 0x80]
     [0xFF11 := 0xBF][0xFF12 := 0xF3][0xFF14 := 0xBF][0xFF16 := 0x3F]
     [0xFF17 := 0x00][0xFF19 := 0xBF][0xFF1A := 0x7F][0xFF1B := 0xFF]
     [0xFF1C := 0x9F][0xFF1E := 0xBF][0xFF20 := 0xFF][0xFF21 := 0x00]
     [0xFF22 := 0x00][0xFF23 := 0xBF][0xFF24 := 0x77][0xFF25 := 0xF3]
     [0xFF26 := 0xF1][0xFF40 := 0x91][0xFF42 := 0x00][0xFF43 := 0x00]
     [0xFF45 := 0x00][0xFF47 := 0xFC][0xFF48 := 0xFF][0xFF49 := 0xFF]
     [0xFF4A := 0x00][0xFF4B := 0x00][0xFFFF := 0x00]
  }

  /** The startup table as a map from address to power-on value. */
  const STARTUP_VALUES: map<int, Byte> := map[
    0xFF05 := 0x00, 0xFF06 := 0x00, 0xFF07 := 0x00, 0xFF10 := 0x80,
    0xFF11 := 0xBF, 0xFF12 := 0xF3, 0xFF14 := 0xBF, 0xFF16 := 0x3F,
    0xFF17 := 0x00, 0xFF19 := 0xBF, 0xFF1A := 0x7F, 0xFF1B := 0xFF,
    0xFF1C := 0x9F, 0xFF1E := 0xBF, 0xFF20 := 0xFF, 0xFF21 := 0x00,
    0xFF22 := 0x00, 0xFF23 := 0xBF, 0xFF24 := 0x77, 0xFF25 := 0xF3,
    0xFF26 := 0xF1, 0xFF40 := 0x91, 0xFF42 := 0x00, 0xFF43 := 0x00,
    0xFF45 := 0x00, 0xFF47 := 0xFC, 0xFF48 := 0xFF, 0xFF49 := 0xFF,
    0xFF4A := 0x00, 0xFF4B := 0x00, 0xFFFF := 0x00]

  /** The startup routine sets exactly the addresses of the table, each to its
      listed value, and leaves every other byte as it was. */
  lemma StartupSetsExactlyTable(m: seq<Byte>, k: int)
    requires |m| == MEM_SIZE && 0 <= k < MEM_SIZE
    ensures k in STARTUP_VALUES ==> StartupMem(m)[k] == STARTUP_VALUES[k]
    ensures k !in STARTUP_VALUES ==> StartupMem(m)[k] == m[k]
  {
  }
}
