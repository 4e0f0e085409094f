# RbGB core in Dafny

This project models the hardware core of RbGB, a Game Boy (DMG) emulator, and
proves properties of the model. It covers five parts:

- **The emulator's memory unit** (`src/emulator/mem.rs`). This is a 64 KiB
  address space backed by a flat byte store, plus a ROM image, four 8 KiB
  external RAM banks, the MBC1/MBC2 bank-controller state, the joypad latches
  and the timer countdown.
  - A write is routed by a fixed-priority table: bank-control writes below
    0x8000, gated external RAM, mirrored echo RAM, a discarded restricted
    range, timer control, DIV/LY reset, the joypad register and OAM DMA.
  - Reads go through the ROM bank window. Separate operations set interrupt
    bits and decode palettes.
- **The picture generator** (`src/emulator/graphics.rs`). It keeps a
  scanline counter and a 160×144 RGB frame buffer. It runs the LCD mode state
  machine (STAT modes, mode and coincidence interrupts), advances the
  scanline (vblank at 144, wrap after 153) and renders the background/window
  tiles and the sprites of the current row.
- **The joypad** (`src/emulator/joypad.rs`). It holds eight key states and
  latches them into the memory unit as a button nibble and a direction
  nibble. A pressed key drives its line to 0.
- **The register file** (`src/registers.rs`). It has 16-bit register pairs
  with high and low halves, power-on values, indexed 8- and 16-bit access,
  and program-counter stepping.
- **The older memory unit** (`src/mem.rs`). It has a smaller routing table
  (ROM discarded, echo RAM mirrored, a restricted range discarded), the
  cartridge-type lookup and the power-on register values.

The model has two layers, in the source's own form:

- **Pure specification functions over values.** These are
  `MemoryMap.MemState` for the memory unit, `Picture.ScreenState` for the
  screen, `CpuRegisters.Pairs` for the register file and `seq<Byte>` for the
  older memory.
- **Classes whose methods change state in place.** These are
  `AddressSpace.Memory`, `Graphics.Screen`, `Input.Joypad`,
  `CpuRegisters.Registers` and `LegacyMemory.Memory`.
  - Each method states its new state as the specification function applied
    to the old state.
  - The `*Laws` modules prove what the source promises about those functions.

Bytes are `bv8` and words `bv16`, so the `wrapping_add` and
`wrapping_sub` of bytes and words are the bit-vectors' own wrap-around. The
address after 0xFFFF in `read_word` and `write_word` wraps by an explicit
`% 0x10000` on integer addresses. The unchecked `u16` additions and
subtractions of the register file are preconditions, as "## Left out" lists.

The fixed I/O addresses have their conventional DMG values. They are listed
in `Hardware`: P1 0xFF00, DIV 0xFF04, TMC 0xFF07, IF 0xFF0F, LCDC 0xFF40,
STAT 0xFF41, LY 0xFF44, LYC 0xFF45, DMA 0xFF46, IE 0xFFFF, OAM 0xFE00, and a
160×144 screen. The module defining them in the repository is not part of
this model.

The two mode thresholds of the LCD state machine are parameters of the
screen (`mode2Bounds`, `mode3Bounds`), because their values are defined in
that same missing module.

## Model

| member | source | states |
|---|---|---|
| Hardware.StartupSetsExactlyTable | src/emulator/mem.rs:266-299 | the startup routine sets exactly the listed I/O registers to their power-on values and leaves every other byte unchanged |
| Hardware.StartupMem | src/emulator/mem.rs:266-299 | the 31 power-on stores keep the 64 KiB store size; which bytes they set is Hardware.StartupSetsExactlyTable |
| MemoryMap.Initial | src/emulator/mem.rs:35-50 | a new memory unit has a 64 KiB store and four 8 KiB external RAM banks |
| MemoryMap.ExtRamIndex | src/emulator/mem.rs:64-70 | an external RAM access at 0xA000-0xBFFF lands inside the bank storage |
| MemoryMap.RomWindowIndex | src/emulator/mem.rs:345-348 | the window offset splits into the selected ROM bank (offset / 0x4000) and the position inside the window (offset mod 0x4000 = addr − 0x4000) |
| MemoryMap.RomByte | src/emulator/mem.rs:385-397 | with an image loaded the byte comes from the image; with none, an offset past the 64 KiB store reads 0; the exact byte read is MemoryLaws.Bank0Read, RomWindowRead and EmptyRomReads |
| MemoryMap.Read | src/emulator/mem.rs:338-359 | a read in 0x8000-0x9FFF or at 0xC000 and above is the raw store byte, and below 0x8000 with an image loaded it is an image byte; below 0x8000 the exact byte is MemoryLaws.Bank0Read, RomWindowRead and EmptyRomReads |
| MemoryMap.ReadWord | src/emulator/mem.rs:133-137 | the low byte of a word is the byte at addr and the high byte the byte at the next address, wrapping 0xFFFF to 0x0000 |
| MemoryMap.ClockFreq | src/emulator/mem.rs:149-151 | the clock frequency is the low two bits of TMC, so at most 3 |
| MemoryMap.TimerPeriod | src/emulator/mem.rs:154-165 | the countdown is always 16, 64, 256 or 1024, and 1024 for a selector above 3 |
| MemoryMap.SetClockFrequency | src/emulator/mem.rs:154-165 | re-deriving the timer changes only the timer countdown |
| MemoryMap.EnableRamBanking | src/emulator/mem.rs:199-211 | only the RAM enable flag changes, and a low nibble other than 0x0 or 0xA changes nothing |
| MemoryMap.ChangeRamBanking | src/emulator/mem.rs:213-221 | only the RAM bank changes, to the value when it is at most 3 |
| MemoryMap.ChangeLowRomBanking | src/emulator/mem.rs:223-240 | only the ROM bank changes, and outside MBC2 it is never 0 |
| MemoryMap.ChangeHighRomBanking | src/emulator/mem.rs:241-249 | only the ROM bank changes, and it is never 0 |
| MemoryMap.ChangeBankingMode | src/emulator/mem.rs:251-261 | only the mode and the RAM bank change; ROM mode resets the RAM bank to 0 and RAM mode keeps it |
| MemoryMap.HandleBanking | src/emulator/mem.rs:167-197 | a bank-control write changes only ROM bank, RAM bank, RAM enable and banking mode |
| MemoryMap.Write | src/emulator/mem.rs:58-103 | a routed write never changes the ROM image or the banking type, and keeps the store sizes |
| MemoryMap.Route | src/emulator/mem.rs:58-103 | one pass of the routing table keeps the ROM image, the banking type and the store sizes |
| MemoryMap.WriteRegister | src/emulator/mem.rs:77-102 | the register branches of the routing table keep the ROM image and the banking type |
| MemoryMap.RequestInterrupt | src/emulator/mem.rs:311-316 | requesting an interrupt keeps the ROM image and the banking type |
| MemoryMap.EnableInterrupt | src/emulator/mem.rs:401-409 | enabling an interrupt keeps the ROM image and the banking type; the bit it sets is MemoryLaws.EnableInterruptSetsBit |
| MemoryMap.RecomputeJoypad | src/emulator/mem.rs:361-383 | rebuilding P1 keeps the ROM image and the banking type |
| MemoryMap.JoypadLower | src/emulator/mem.rs:364-373 | the lower lines fit in the low nibble, and with neither group selected all four read 1 |
| MemoryMap.UpdateJoypadState | src/emulator/mem.rs:318-322 | the latches hold the low nibbles of the new key bytes, and the ROM image and banking type are kept |
| MemoryMap.DmaFrom | src/emulator/mem.rs:412-418 | the DMA copy changes only the byte store |
| MemoryMap.WriteWord | src/emulator/mem.rs:125-130 | a word write keeps the store sizes; its read-back is MemoryLaws.WordRoundTrip |
| MemoryMap.WriteForced | src/emulator/mem.rs:108-122 | the unrouted store keeps the store sizes; its read-back is MemoryLaws.ForcedWriteReadsBack |
| MemoryMap.BankingTypeOf | src/emulator/mem.rs:302-308 | cartridge types 1-3 name MBC1, 5-6 name MBC2, every other type names none (both directions) |
| MemoryMap.RefreshBankingType | src/emulator/mem.rs:302-308 | only the banking type changes |
| MemoryMap.RamStartup | src/emulator/mem.rs:266-308 | only the byte store and the banking type change |
| MemoryMap.LoadRom | src/emulator/mem.rs:325-336 | the image is installed with ROM bank 1 and RAM bank 0, and the key latches and timer countdown are kept |
| MemoryMap.PaletteShade | src/emulator/mem.rs:420-448 | a palette lookup yields a 2-bit shade |
| MemoryMap.ShadeColor | src/emulator/mem.rs:450-456 | shade 0 is White and shade 3 is Black, and only they |
| MemoryMap.GetColor | src/emulator/mem.rs:420-457 | the colour is White iff the palette field of the colour number is 0 |
| MemoryLaws.RomWriteOnlyBanks | src/emulator/mem.rs:58-62 | a write below 0x8000 leaves the store, the ROM, external RAM, the latches and the timer unchanged, and with no controller changes nothing |
| MemoryLaws.RamEnableWrite | src/emulator/mem.rs:199-211 | RAM enable turns on for low nibble 0xA and off for 0x0 and otherwise stays; on MBC2 an address with bit 4 set is ignored |
| MemoryLaws.LowRomBankWrite | src/emulator/mem.rs:175-179 | a write to 0x2000-0x3FFF changes the low bank bits when a controller is present and nothing otherwise |
| MemoryLaws.NonZeroBank | src/emulator/mem.rs:229-239 | merging bank bits and mapping 0 to 1 gives a nonzero bank that keeps the old bits and takes the new ones |
| MemoryLaws.LowRomBankBits | src/emulator/mem.rs:223-240 | MBC2 takes value & 0xF; MBC1 keeps bits 5-7, takes bits 0-4 and never yields bank 0 |
| MemoryLaws.HighBankOrRamBankWrite | src/emulator/mem.rs:181-191 | on MBC1 a write to 0x4000-0x5FFF sets the high bank bits in ROM mode, or else selects RAM bank 0-3 (above 3 gives 0); otherwise nothing changes |
| MemoryLaws.HighRomBankBits | src/emulator/mem.rs:241-249 | the high bank write keeps bits 0-4, takes bits 5-7 and never yields bank 0 |
| MemoryLaws.BankingModeWrite | src/emulator/mem.rs:251-261 | on MBC1 ROM mode is set iff bit 0 of the value is 0, and ROM mode resets the RAM bank to 0 |
| MemoryLaws.ExternalRamWrite | src/emulator/mem.rs:64-70 | an external RAM write takes effect, and reads back, only while RAM is enabled |
| MemoryLaws.EchoWrite | src/emulator/mem.rs:72-75 | an echo write stores the byte at its address and 0x2000 lower, and nowhere else |
| MemoryLaws.EchoWriteWritesAgain | src/emulator/mem.rs:72-75 | an echo write is a store followed by a routed write 0x2000 lower |
| MemoryLaws.RestrictedWriteDiscarded | src/emulator/mem.rs:77-79 | a write in 0xFEA0-0xFEFE changes nothing |
| MemoryLaws.ResetRegisterWrite | src/emulator/mem.rs:87-92 | writing DIV or LY stores 0 whatever the value |
| MemoryLaws.TimerControlWrite | src/emulator/mem.rs:79-86 | writing TMC stores it and re-derives the countdown only when the frequency bits change |
| MemoryLaws.TimerPeriods | src/emulator/mem.rs:154-165 | the countdown for frequencies 0-3 is 1024, 16, 64, 256 |
| MemoryLaws.VerbatimWrite | src/emulator/mem.rs:100-102 | any other address stores the byte raw, and it reads back |
| MemoryLaws.ReadOutsideSprites | src/emulator/mem.rs:412-418 | a DMA source byte outside the copied OAM slots reads the same before and during the copy |
| MemoryLaws.SpriteStore | src/emulator/mem.rs:100-102 | a routed write into OAM is a plain store |
| MemoryLaws.DmaFromKeeps | src/emulator/mem.rs:412-418 | the DMA copy leaves every byte outside the OAM slots it has yet to fill |
| MemoryLaws.DmaFromCopiesByte | src/emulator/mem.rs:412-418 | each OAM slot the copy fills gets the source byte as read before the copy |
| MemoryLaws.DmaFromStep | src/emulator/mem.rs:414-417 | one copy step stores source byte i into OAM slot i |
| MemoryLaws.AgreeAfterSpriteStore | src/emulator/mem.rs:414-417 | a copy step keeps the not-yet-copied region unchanged |
| MemoryLaws.DmaFromCopies | src/emulator/mem.rs:412-418 | DMA from page p copies the 0xA0 bytes at p·0x100 into 0xFE00-0xFE9F and changes no other byte |
| MemoryLaws.DmaWriteStartsCopy | src/emulator/mem.rs:97-99 | a write to the DMA register performs the copy from page value |
| MemoryLaws.LoadRomReads | src/emulator/mem.rs:325-336 | loading a ROM resets the banking state, sets the controller from the header, and reads below 0x8000 come from the image, wrapped by its length |
| MemoryLaws.RomWindowRead | src/emulator/mem.rs:345-349 | a read in 0x4000-0x7FFF returns rom[(bank·0x4000 + addr − 0x4000) mod length] |
| MemoryLaws.Bank0Read | src/emulator/mem.rs:338-397 | in any state with an image, a read below 0x4000 returns rom[addr mod length] |
| MemoryLaws.EmptyRomReads | src/emulator/mem.rs:338-397 | with no image, a read below 0x4000 returns the store byte at addr, and a window read the store byte at bank·0x4000 + addr − 0x4000, or 0 past the store |
| MemoryLaws.InitialReadsZero | src/emulator/mem.rs:35-50 | a new memory unit reads 0 at every address |
| MemoryLaws.ForcedWriteReadsBack | src/emulator/mem.rs:108-122 | a forced write reads back wherever the read maps to the written slot |
| MemoryLaws.ForcedRomWriteReadsBack | src/emulator/mem.rs:108-114 | a forced write into ROM reads back in bank 0 and in the window while bank 1 is selected |
| MemoryLaws.ForcedRamWriteReadsBack | src/emulator/mem.rs:115-122 | a forced write at or above 0x8000 reads back |
| MemoryLaws.WordBytes | src/emulator/mem.rs:125-137 | the low and high bytes of a word rebuild the word |
| MemoryLaws.WordRoundTrip | src/emulator/mem.rs:125-137 | a word written little-endian to two raw-stored addresses reads back |
| MemoryLaws.ReadWordWrapsAtEnd | src/emulator/mem.rs:499-506 | for any state and any two bytes forced into 0xFFFF and 0x0000, the word at 0xFFFF has the first as its low byte and the second as its high byte |
| MemoryLaws.RequestInterruptIsRoutedWrite | src/emulator/mem.rs:311-316 | requesting interrupt n is a routed write of IF with bit n set |
| MemoryLaws.RequestInterruptSetsBit | src/emulator/mem.rs:311-316 | requesting interrupt n sets exactly bit n of IF and changes no other byte |
| MemoryLaws.EnableInterruptSetsBit | src/emulator/mem.rs:401-409 | enabling interrupt n sets exactly bit n of IE and changes no other byte |
| MemoryLaws.OrBit | src/emulator/mem.rs:311-316 | or-ing in bit n sets bit n and keeps the others |
| MemoryLaws.RecomputeJoypadFrame | src/emulator/mem.rs:361-383 | rebuilding P1 keeps the selection bits, sets bits 6-7 and changes no byte but P1 and IF |
| MemoryLaws.RecomputeJoypadInterrupt | src/emulator/mem.rs:375-382 | the joypad interrupt is requested iff some low P1 bit falls from 1 to 0 |
| MemoryLaws.RecomputedInput | src/emulator/mem.rs:361-375 | the rebuilt P1 is the old selection bits, bits 6-7 set, and the selected lines below |
| MemoryLaws.RecomputeJoypadLines | src/emulator/mem.rs:361-376 | a P1 line reads 0 iff a selected group's latch has that line at 0 |
| MemoryLaws.LowerBit | src/emulator/mem.rs:364-375 | each lower P1 bit is the and of the selected latches' bits |
| MemoryLaws.InputRegisterWrite | src/emulator/mem.rs:93-96 | a write to P1 keeps only its selection bits and sets bits 6-7 |
| MemoryLaws.PaletteShadeIsField | src/emulator/mem.rs:426-448 | colour number n selects palette bits 2n+1 and 2n |
| MemoryLaws.IdentityPalette | src/emulator/mem.rs:646-656 | palette 0xE4 maps colour numbers 0-3 to White, LightGrey, DarkGrey, Black |
| AddressSpace.Memory.constructor | src/emulator/mem.rs:35-50 | a new memory unit is the zeroed initial state |
| AddressSpace.Memory.ReadRomByte | src/emulator/mem.rs:385-397 | the ROM read is the specification's wrapped ROM read |
| AddressSpace.Memory.ReadByte | src/emulator/mem.rs:53-55 | a read returns the specification's banked read |
| AddressSpace.Memory.ReadWord | src/emulator/mem.rs:133-137 | a word read is the little-endian pair of byte reads |
| AddressSpace.Memory.GetClockFreq | src/emulator/mem.rs:149-151 | the frequency is the specification's |
| AddressSpace.Memory.GetColor | src/emulator/mem.rs:420-457 | the colour is the specification's palette decoding |
| AddressSpace.Memory.SetClockFrequency | src/emulator/mem.rs:154-165 | the new state is the re-derived timer state |
| AddressSpace.Memory.HandleBanking | src/emulator/mem.rs:167-197 | the new state is the bank-control write's |
| AddressSpace.Memory.EnableRamBanking | src/emulator/mem.rs:199-211 | the new state is the RAM-enable update |
| AddressSpace.Memory.ChangeRamBanking | src/emulator/mem.rs:213-221 | the new state is the RAM bank selection |
| AddressSpace.Memory.ChangeLowRomBanking | src/emulator/mem.rs:223-240 | the new state is the low bank update |
| AddressSpace.Memory.ChangeHighRomBanking | src/emulator/mem.rs:241-249 | the new state is the high bank update |
| AddressSpace.Memory.ChangeBankingMode | src/emulator/mem.rs:251-261 | the new state is the mode update |
| AddressSpace.Memory.WriteByte | src/emulator/mem.rs:58-103 | the new state is the routed write, echo recursion included |
| AddressSpace.Memory.WriteRegister | src/emulator/mem.rs:77-102 | the new state is the register branch of the routing table |
| AddressSpace.Memory.WriteTimerControl | src/emulator/mem.rs:79-86 | the new state is the TMC store with the countdown re-derived |
| AddressSpace.Memory.RequestInterrupt | src/emulator/mem.rs:311-316 | the new state is the IF update |
| AddressSpace.Memory.EnableInterrupt | src/emulator/mem.rs:401-409 | the new state is the IE update |
| AddressSpace.Memory.SelectedLines | src/emulator/mem.rs:364-373 | the lower P1 bits are the and of the selected latches |
| AddressSpace.Memory.RecomputeJoypad | src/emulator/mem.rs:361-383 | the new state is the rebuilt P1 and IF |
| AddressSpace.Memory.UpdateJoypadState | src/emulator/mem.rs:318-322 | the new state has the latches stored and P1 rebuilt |
| AddressSpace.Memory.DmaTransfer | src/emulator/mem.rs:412-418 | the loop leaves the state of the DMA copy |
| AddressSpace.Memory.WriteWord | src/emulator/mem.rs:125-130 | the new state is the two routed byte writes |
| AddressSpace.Memory.WriteByteForced | src/emulator/mem.rs:108-122 | the new state is the unrouted store |
| AddressSpace.Memory.RefreshRomBankingType | src/emulator/mem.rs:302-308 | the banking type is re-read from the header |
| AddressSpace.Memory.RamStartup | src/emulator/mem.rs:266-299 | the new state has the power-on values and the refreshed banking type |
| AddressSpace.Memory.LoadRomData | src/emulator/mem.rs:325-336 | the new state is the loaded ROM |
| Picture.RgbToColor | src/emulator/graphics.rs:68-75 | a triple maps back to a colour of at most 3 |
| Picture.ColorToRgb | src/emulator/graphics.rs:59-66 | every triplet is a grey (three equal bytes), and it is white iff the colour is 0 |
| Picture.ShadeRgb | src/emulator/graphics.rs:199-205 | a palette colour gives the RGB of its shade, and only White gives 255 |
| Picture.PixelIndex | src/emulator/graphics.rs:38-47 | an on-screen pixel's three bytes lie inside its row of the buffer |
| Picture.PutPixel | src/emulator/graphics.rs:43-46 | the buffer keeps its 160×144×3 bytes; the bytes written are PictureLaws.PutPixelFrame |
| Picture.SetPixel | src/emulator/graphics.rs:38-47 | the buffer keeps its size; the off-screen no-op and the bytes written are PictureLaws.SetPixelFrame |
| Picture.GetPixel | src/emulator/graphics.rs:49-57 | an off-screen read gives 0, and every read gives at most 3 |
| Picture.Cleared | src/emulator/graphics.rs:29-36 | the cleared buffer has 160×144×3 bytes; its reading is PictureLaws.ClearedReads |
| Picture.ModeOf | src/emulator/graphics.rs:363-391 | the LCD mode is at most 3 |
| Picture.ChooseMode | src/emulator/graphics.rs:363-391 | the chosen mode is the one the scanline and counter give (ModeOf) |
| Picture.LcdStatus | src/emulator/graphics.rs:335-407 | the status update never touches the frame buffer |
| Picture.LcdEnabled | src/emulator/graphics.rs:409-416 | the display is on iff LCDC is at least 0x80, that is iff its bit 7 is set |
| Picture.WriteStatus | src/emulator/graphics.rs:406 | the STAT store keeps the memory unit well formed; it is the routed write by PictureLaws.StatusWriteIsRoutedWrite |
| Picture.ShowMode | src/emulator/graphics.rs:392-406 | the mode interrupt, coincidence check and STAT store keep the memory unit well formed; their effect is PictureLaws.ShowModeStores |
| Picture.EnterMode | src/emulator/graphics.rs:390-393 | requesting the mode interrupt keeps the memory unit well formed; when it fires is PictureLaws.StatusRequestsInterrupt |
| Picture.ShowCoincidence | src/emulator/graphics.rs:398-406 | the coincidence check keeps the memory unit well formed; the bit it sets is PictureLaws.CoincidenceBit |
| Picture.MarkCoincidence | src/emulator/graphics.rs:398-406 | setting the coincidence bit and storing STAT keeps the memory unit well formed; see PictureLaws.CoincidenceBit |
| Picture.UpdateScreen | src/emulator/graphics.rs:77-116 | an update keeps the screen state well formed; its branches are PictureLaws.UpdateWithLcdOff, UpdateCountsDown and UpdateEndsScanline |
| Picture.AdvanceScanline | src/emulator/graphics.rs:93-115 | the counter restarts at 456 |
| Picture.EnterScanline | src/emulator/graphics.rs:101-114 | the counter is kept; lines from 144 up leave the buffer and visible lines leave the memory unit |
| Picture.DrawScanline | src/emulator/graphics.rs:118-132 | with LCDC bit 7 clear nothing is drawn |
| Picture.CurrentLine | src/emulator/graphics.rs:151 | the current line is a byte |
| Picture.ApplyPaint | src/emulator/graphics.rs:207-217 | one paint step keeps the buffer size; the bytes it writes are PictureLaws.PaintsColumns |
| Picture.Paints | src/emulator/graphics.rs:207-217 | a run of paint steps keeps the buffer size; PictureLaws.PaintsKeepOtherRows and PaintsColumns give its effect |
| Picture.ColorNumber | src/emulator/graphics.rs:196-197 | a pixel's colour number is at most 3 |
| Picture.TileRowAddr | src/emulator/graphics.rs:184-192 | the tile row address, signed or unsigned, stays below 0xFFFF, so its second byte is addressable |
| Picture.TileViewOf | src/emulator/graphics.rs:138-171 | the window is used iff LCDC bit 5 is set and WY ≤ LY; tile numbers are unsigned iff LCDC bit 4; the map row is LY − WY in the window and SCY + LY otherwise, as bytes; the window edge is WX − 7 |
| Picture.TileViewIn | src/emulator/graphics.rs:147-152 | the view takes SCX, WX − 7 and the window test WY ≤ LY from the memory unit |
| Picture.TileXPos | src/emulator/graphics.rs:176-179 | right of the window edge the map column is pixel − (WX − 7); without the window it is pixel + SCX, as bytes |
| Picture.TileMapAddr | src/emulator/graphics.rs:155-182 | the tile-map entry lies in 0x9800-0x9FFF, in the upper map 0x9C00 iff the selected map bit is set |
| Picture.TileColor | src/emulator/graphics.rs:174-206 | the colour is one that the background palette gives some colour number 0-3 |
| Picture.TilePaints | src/emulator/graphics.rs:174-218 | tile rendering paints one entry per screen column |
| Picture.RenderTiles | src/emulator/graphics.rs:134-219 | tile rendering keeps the buffer size; its effect is PictureLaws.RenderTilesColumn and RenderTilesKeepsOtherRows |
| Picture.SpriteTileLine | src/emulator/graphics.rs:248-254 | a sprite's tile row lies within its height, flipped or not |
| Picture.SpriteColorBit | src/emulator/graphics.rs:262-268 | the colour bit of a sprite pixel is 0-7, flipped or not |
| Picture.SpriteAt | src/emulator/graphics.rs:232-236 | a sprite entry is its four OAM bytes, with Y shifted by −16 and X by −8 |
| Picture.SpriteHeight | src/emulator/graphics.rs:226-246 | sprites are 8 lines tall, or 16 iff LCDC bit 2 is set |
| Picture.SpriteOnLine | src/emulator/graphics.rs:248 | a sprite covers a scanline iff the scanline lies within its height below its Y |
| Picture.SpritePalette | src/emulator/graphics.rs:272-275 | the palette is 0xFF49 iff attribute bit 4 is set, and 0xFF48 otherwise |
| Picture.SpritePixelColor | src/emulator/graphics.rs:249-277 | a sprite pixel's colour is one that its palette gives some colour number 0-3 |
| Picture.SpritePaint | src/emulator/graphics.rs:258-322 | a sprite behind the background (attribute bit 7) paints nothing, and a painted pixel is never White and lands at column xPos + 7 − tilePixel |
| Picture.SpritePaints | src/emulator/graphics.rs:245-324 | a sprite on the line paints 8 entries, any other sprite none |
| Picture.SpritesUpTo | src/emulator/graphics.rs:231-331 | drawing the first n sprites keeps the buffer size; its effect is PictureLaws.SpritesEffect |
| Picture.RenderSprites | src/emulator/graphics.rs:221-333 | with control bit 1 clear the sprite pass changes nothing |
| PictureLaws.PutPixelFrame | src/emulator/graphics.rs:38-47 | plotting writes exactly the three bytes at (y·160+x)·3 |
| PictureLaws.PixelsDisjoint | src/emulator/graphics.rs:38-47 | distinct pixels own disjoint buffer bytes |
| PictureLaws.RgbRoundTrip | src/emulator/graphics.rs:59-75 | a colour converted to RGB and back is itself, or 3 above 3 |
| PictureLaws.SetPixelFrame | src/emulator/graphics.rs:38-47 | set_pixel off screen is a no-op; on screen it writes exactly the pixel's three bytes |
| PictureLaws.SetThenGetPixel | src/emulator/graphics.rs:38-57 | a set pixel reads back, any colour above 3 as 3 |
| PictureLaws.SetPixelKeepsOthers | src/emulator/graphics.rs:38-57 | setting one pixel leaves every other pixel's reading |
| PictureLaws.ClearedReads | src/emulator/graphics.rs:29-36 | after clear(c) every pixel reads c, or 3 above 3 |
| PictureLaws.PaintsSnoc | src/emulator/graphics.rs:174-218 | painting a prefix plus one entry is one more paint step |
| PictureLaws.PaintsKeepOtherRows | src/emulator/graphics.rs:207-217 | painting a row writes no byte outside that row |
| PictureLaws.PaintsNeverWhite | src/emulator/graphics.rs:279-280 | paints without White never write a 255 byte |
| PictureLaws.PaintsColumns | src/emulator/graphics.rs:207-217 | painting one entry per column leaves each column with its own colour |
| PictureLaws.PaintsOfSkips | src/emulator/graphics.rs:318-322 | skipped paints leave the buffer unchanged |
| PictureLaws.TilePaintIs | src/emulator/graphics.rs:174-218 | column x of the tile paint is column x's tile colour |
| PictureLaws.RenderTilesKeepsOtherRows | src/emulator/graphics.rs:134-219 | tile rendering writes only row LY |
| PictureLaws.RenderTilesColumn | src/emulator/graphics.rs:134-219 | on a visible line, each column gets the RGB of its tile colour |
| PictureLaws.SpritePaintIs | src/emulator/graphics.rs:258-324 | entry k of a sprite's paints is tile pixel 7 − k |
| PictureLaws.SpriteOffLine | src/emulator/graphics.rs:245 | a sprite not on the current line paints nothing |
| PictureLaws.SpritePaintsSkipWhite | src/emulator/graphics.rs:279-322 | sprites never paint White, and a sprite with attribute bit 7 paints nothing |
| PictureLaws.SpriteBehindBackground | src/emulator/graphics.rs:318-322 | a sprite with attribute bit 7 leaves the buffer unchanged |
| PictureLaws.SpritesEffect | src/emulator/graphics.rs:221-333 | sprite rendering changes only bytes in row LY, and never to 255 |
| PictureLaws.DrawScanlineKeepsOtherRows | src/emulator/graphics.rs:118-132 | drawing a scanline writes only row LY |
| PictureLaws.SpriteFlipFirstLine | src/emulator/graphics.rs:248-254 | a y-flipped sprite's first line reads tile row height |
| PictureLaws.ChooseModeShowsMode | src/emulator/graphics.rs:363-391 | the chosen mode is in STAT bits 0-1, the rest kept, and an interrupt is wanted iff the mode's enable bit is set |
| PictureLaws.StatusWriteIsRoutedWrite | src/emulator/graphics.rs:406 | the status store is the routed write of STAT |
| PictureLaws.ShowModeStores | src/emulator/graphics.rs:392-406 | the status step stores STAT with the coincidence bit and or-s bit 1 into IF when a mode or coincidence interrupt is due |
| PictureLaws.LcdOffStatus | src/emulator/graphics.rs:345-354 | with the LCD off the counter is 456, LY is 0 and the STAT mode is 1 |
| PictureLaws.CoincidenceBit | src/emulator/graphics.rs:398-405 | STAT bit 2 is set iff LY equals LYC, other bits kept |
| PictureLaws.HighBitsAgree | src/emulator/graphics.rs:398-405 | bytes agreeing above bit 1 agree above bit 2 |
| PictureLaws.ShowModeFrame | src/emulator/graphics.rs:392-406 | the status step changes only IF and STAT |
| PictureLaws.ShowModeStatus | src/emulator/graphics.rs:392-406 | the stored STAT has the chosen mode, the coincidence bit iff LY == LYC, and the old enable bits |
| PictureLaws.LcdOnStatus | src/emulator/graphics.rs:356-406 | with the LCD on the status step is the mode choice followed by the store |
| PictureLaws.StatusShowsMode | src/emulator/graphics.rs:356-406 | with the LCD on STAT shows the mode derived from LY and the counter and the coincidence bit, and keeps its enable bits |
| PictureLaws.StatusRequestsInterrupt | src/emulator/graphics.rs:392-405 | interrupt 1 is requested iff the mode changed with its enable bit set, or LY == LYC with bit 6 set |
| PictureLaws.UpdateWithLcdOff | src/emulator/graphics.rs:80-88 | with the LCD off an update only runs the status step: counter 456, LY 0, mode 1, nothing drawn |
| PictureLaws.UpdateCountsDown | src/emulator/graphics.rs:82-93 | while the counter stays positive it is decremented and nothing is drawn |
| PictureLaws.AdvanceScanlineStores | src/emulator/graphics.rs:93-115 | the scanline advance resets the counter, requests vblank at 144, wraps above 153 and draws only below 144 |
| PictureLaws.UpdateEndsScanline | src/emulator/graphics.rs:77-116 | when the counter reaches 0 the update runs the status step and then the scanline advance |
| Graphics.Screen.constructor | src/emulator/graphics.rs:19-27 | a new screen has counter 456 and a zero buffer |
| Graphics.Screen.Clear | src/emulator/graphics.rs:29-36 | the buffer becomes the cleared buffer |
| Graphics.Screen.Plot | src/emulator/graphics.rs:43-46 | the buffer gets one pixel's RGB |
| Graphics.Screen.SetPixel | src/emulator/graphics.rs:38-47 | the buffer is the specification's set_pixel |
| Graphics.Screen.GetPixel | src/emulator/graphics.rs:49-57 | the read is the specification's get_pixel |
| Graphics.Screen.IsLcdEnabled | src/emulator/graphics.rs:409-416 | the LCD is enabled iff LCDC bit 7 is set |
| Graphics.Screen.SetLcdStatus | src/emulator/graphics.rs:335-407 | the new state is the status step |
| Graphics.Screen.ShowStatus | src/emulator/graphics.rs:392-406 | the memory is the mode interrupt, coincidence check and STAT store |
| Graphics.Screen.ShowCoincidence | src/emulator/graphics.rs:398-406 | the memory is the coincidence check and STAT store |
| Graphics.Screen.MarkCoincidence | src/emulator/graphics.rs:398-406 | the memory is the coincidence bit, interrupt and STAT store |
| Graphics.Screen.StoreStatus | src/emulator/graphics.rs:406 | the memory is the STAT store |
| Graphics.Screen.UpdateScreen | src/emulator/graphics.rs:77-116 | the new state is the specification's update |
| Graphics.Screen.NextScanline | src/emulator/graphics.rs:93-115 | the new state is the scanline advance |
| Graphics.Screen.EnterScanline | src/emulator/graphics.rs:101-114 | the new state is the vblank, wrap or draw branch |
| Graphics.Screen.DrawScanline | src/emulator/graphics.rs:118-132 | the buffer is the specification's scanline drawing |
| Graphics.Screen.Apply | src/emulator/graphics.rs:207-217 | the buffer gets one paint |
| Graphics.Screen.TileColorAt | src/emulator/graphics.rs:174-206 | the colour is column pixel's tile colour |
| Graphics.Screen.TilePaintAt | src/emulator/graphics.rs:174-218 | the paint is column pixel's tile paint |
| Graphics.Screen.RenderTiles | src/emulator/graphics.rs:134-219 | the buffer is the specification's tile rendering |
| Graphics.Screen.SpriteEntryAt | src/emulator/graphics.rs:232-236 | the entry is the sprite's four OAM bytes |
| Graphics.Screen.SpritePaintAt | src/emulator/graphics.rs:258-322 | the paint is the sprite pixel's |
| Graphics.Screen.SpriteStep | src/emulator/graphics.rs:258-322 | the paint is entry k of the sprite's paints |
| Graphics.Screen.RenderSprites | src/emulator/graphics.rs:221-333 | the buffer is the specification's sprite rendering |
| Graphics.Screen.DrawSprite | src/emulator/graphics.rs:231-331 | the buffer gets one sprite's paints |
| Graphics.Screen.DrawSpriteLine | src/emulator/graphics.rs:245-330 | the buffer gets an on-line sprite's 8 paints |
| Input.LogKey | src/emulator/joypad.rs:36-54 | only the key the input names changes, and an unknown input changes nothing |
| Input.KeyOf | src/emulator/joypad.rs:40-47 | on a new joypad the key any input names is released; that each input names its own key is Input.LogKey |
| Input.KeyBit | src/emulator/joypad.rs:57-72 | a key's line bit is 0 iff it is pressed |
| Input.Nibble | src/emulator/joypad.rs:57-72 | bit i of a packed nibble is set iff key i is released, and the high nibble is clear |
| Input.ButtonKey | src/emulator/joypad.rs:58-62 | line k of the button group is the key A, B, Select, Start in that order |
| Input.DirectionKey | src/emulator/joypad.rs:64-68 | line k of the direction group is the key Right, Left, Up, Down in that order |
| Input.ButtonNibble | src/emulator/joypad.rs:58-62 | the button nibble packs A, B, Select, Start at bits 0-3 |
| Input.DirectionNibble | src/emulator/joypad.rs:64-68 | the direction nibble packs Right, Left, Up, Down at bits 0-3 |
| Input.Latch | src/emulator/joypad.rs:70-71 | latching the nibbles leaves the memory unit well formed |
| Input.Joypad.constructor | src/emulator/joypad.rs:28-33 | a new joypad has every key released |
| Input.Joypad.LogInput | src/emulator/joypad.rs:36-54 | the key states get the logged key, and the memory unit gets the latched nibbles |
| Input.Joypad.WriteInputToMem | src/emulator/joypad.rs:57-72 | the memory unit gets the button and direction nibbles of the current keys |
| InputLaws.LatchShowsKeys | src/emulator/joypad.rs:57-72 | after latching, a P1 line reads 0 iff a selected key on it is pressed; only P1 and IF change |
| InputLaws.Latched | src/emulator/joypad.rs:70-71 | the latched state holds the two nibbles and rebuilds to the latch |
| InputLaws.LowNibble | src/emulator/joypad.rs:57-69 | a byte with a clear high nibble is its own low nibble |
| InputLaws.FallingLine | src/emulator/mem.rs:375-382 | a low bit falls iff one of lines 0-3 goes from 1 to 0 |
| InputLaws.FallsIsFalling | src/emulator/joypad.rs:57-72 | a line falls iff it read high before the latch and low after |
| InputLaws.LatchInterrupt | src/emulator/joypad.rs:57-72 | latching requests the joypad interrupt iff some line that read high is pulled low by a selected pressed key |
| InputLaws.LatchWithoutFallKeepsIF | src/emulator/joypad.rs:57-72 | if no line falls, IF is unchanged |
| InputLaws.ReleasePullsNoNewLine | src/emulator/joypad.rs:36-54 | releasing a key pulls no new line low |
| InputLaws.ReleaseRequestsNoInterrupt | src/emulator/joypad.rs:123-132 | releasing a latched key requests no interrupt, whatever IF holds |
| InputLaws.SelectionAgrees | src/emulator/mem.rs:364-365 | equal selection bits select the same groups |
| InputLaws.PressAWithButtonsSelected | src/emulator/joypad.rs:89-100 | with P1 0xDF, pressing A shows 0xDE and sets IF bit 4 |
| InputLaws.PressUpWithDirectionsSelected | src/emulator/joypad.rs:102-109 | with P1 0xEF, pressing Up shows 0xEB |
| InputLaws.PressAWithNothingSelected | src/emulator/joypad.rs:111-121 | with P1 0xFF, pressing A leaves P1 at 0xFF and IF unchanged |
| CpuRegisters.Register.HighValue | src/registers.rs:58-60 | the high byte with the low byte rebuilds the register |
| CpuRegisters.Register.Value | src/registers.rs:52-55 | the value is the union of its halves: its top byte is the high half and its bottom byte the low half |
| CpuRegisters.Register.LowValue | src/registers.rs:63-65 | the low byte with the high byte rebuilds the register |
| CpuRegisters.Register.Set | src/registers.rs:48-50 | after set(v) the value is v |
| CpuRegisters.Register.WithHigh | src/registers.rs:38-41 | storing the high half keeps the low half |
| CpuRegisters.Register.WithLow | src/registers.rs:38-41 | storing the low half keeps the high half |
| CpuRegisters.Register.Increment | src/registers.rs:75-79 | the value goes up by exactly 1 |
| CpuRegisters.Register.Decrement | src/registers.rs:68-72 | the value goes down by exactly 1 |
| CpuRegisters.Reg16 | src/registers.rs:141-158 | an index outside the even indices 0-24 reads 0 |
| CpuRegisters.SetReg16 | src/registers.rs:160-177 | the stored pair reads back at its index, and PC is kept |
| CpuRegisters.Reg8 | src/registers.rs:112-124 | an index above 7 reads 0 |
| CpuRegisters.SetByte | src/registers.rs:197-264 | the stored byte reads back at its index, and PC and SP are kept |
| CpuRegisters.Target8 | src/registers.rs:126-138 | the indexed 8-bit store lands on its own index except index 5 |
| CpuRegisters.SetReg8 | src/registers.rs:126-138 | the stored byte reads back at the index it reaches (Target8), and PC is kept |
| CpuRegisters.Boot | src/registers.rs:92-108 | power-on AF 0x01B0, BC 0x0013, DE 0x00D8, HL 0x014D, SP 0xFFFE, PC 0x0100, all else 0 |
| CpuRegisters.Registers.constructor | src/registers.rs:92-108 | new registers hold the power-on values |
| CpuRegisters.Registers.GetReg8ByIndex | src/registers.rs:112-124 | the read is the indexed 8-bit read |
| CpuRegisters.Registers.SetReg8ByIndex | src/registers.rs:126-138 | the new registers are the indexed 8-bit store as written |
| CpuRegisters.Registers.GetReg16ByIndex | src/registers.rs:141-158 | the read is the indexed 16-bit read |
| CpuRegisters.Registers.SetReg16ByIndex | src/registers.rs:160-177 | the new registers are the indexed 16-bit store |
| CpuRegisters.Registers.SetF | src/registers.rs:197-199 | F is stored as byte 7 |
| CpuRegisters.Registers.ValF | src/registers.rs:202-204 | reads byte 7 |
| CpuRegisters.Registers.SetA | src/registers.rs:207-209 | A is stored as byte 6 |
| CpuRegisters.Registers.ValA | src/registers.rs:212-214 | reads byte 6 |
| CpuRegisters.Registers.SetB | src/registers.rs:217-219 | B is stored as byte 0 |
| CpuRegisters.Registers.ValB | src/registers.rs:222-224 | reads byte 0 |
| CpuRegisters.Registers.SetC | src/registers.rs:227-229 | C is stored as byte 1 |
| CpuRegisters.Registers.ValC | src/registers.rs:232-234 | reads byte 1 |
| CpuRegisters.Registers.SetD | src/registers.rs:237-239 | D is stored as byte 2 |
| CpuRegisters.Registers.ValD | src/registers.rs:242-244 | reads byte 2 |
| CpuRegisters.Registers.SetE | src/registers.rs:247-249 | E is stored as byte 3 |
| CpuRegisters.Registers.ValE | src/registers.rs:252-254 | reads byte 3 |
| CpuRegisters.Registers.SetH | src/registers.rs:257-259 | H is stored as byte 4 |
| CpuRegisters.Registers.ValH | src/registers.rs:262-264 | reads byte 4 |
| CpuRegisters.Registers.SetL | src/registers.rs:267-269 | as written, L's store goes to byte 3 (E) |
| CpuRegisters.Registers.ValL | src/registers.rs:272-274 | as written, L's read comes from byte 3 (E) |
| CpuRegisters.Registers.ValAf | src/registers.rs:277-279 | reads pair 6 |
| CpuRegisters.Registers.SetAf | src/registers.rs:282-284 | stores pair 6 |
| CpuRegisters.Registers.ValBc | src/registers.rs:287-289 | reads pair 0 |
| CpuRegisters.Registers.SetBc | src/registers.rs:292-294 | stores pair 0 |
| CpuRegisters.Registers.ValDe | src/registers.rs:297-299 | reads pair 2 |
| CpuRegisters.Registers.SetDe | src/registers.rs:302-304 | stores pair 2 |
| CpuRegisters.Registers.ValHl | src/registers.rs:307-309 | as written, reads pair 14 (WZ) |
| CpuRegisters.Registers.SetHl | src/registers.rs:312-314 | stores pair 4 |
| CpuRegisters.Registers.ValWz | src/registers.rs:317-319 | reads pair 14 |
| CpuRegisters.Registers.SetWz | src/registers.rs:322-324 | stores pair 14 |
| CpuRegisters.Registers.ValPc | src/registers.rs:327-329 | reads the program counter |
| CpuRegisters.Registers.SetPc | src/registers.rs:332-334 | stores the program counter and nothing else |
| CpuRegisters.Registers.ValSp | src/registers.rs:337-339 | reads pair 12 |
| CpuRegisters.Registers.SetSp | src/registers.rs:342-344 | stores pair 12 |
| CpuRegisters.Registers.DecPc | src/registers.rs:379-381 | the program counter goes down by exactly dec, nothing else changes |
| CpuRegisters.Registers.IncPc | src/registers.rs:384-386 | the program counter goes up by exactly inc, nothing else changes |
| RegisterLaws.PairOf | src/registers.rs:112-124 | each 8-bit index lies in the pair at its even index |
| RegisterLaws.ByteRoundTrip | src/registers.rs:197-264 | a byte stored at its own index reads back and leaves the other seven bytes, the other pairs and PC |
| RegisterLaws.OtherByte | src/registers.rs:197-264 | storing one byte leaves any other byte |
| RegisterLaws.SetReg8Effect | src/registers.rs:126-138 | the indexed store reads back for every index but 5, whose store lands on E and leaves L |
| RegisterLaws.SetLMissesL | src/registers.rs:267-274 | storing 0x12 at index 5 on power-on registers leaves L at 0x4D and puts 0x12 in E |
| RegisterLaws.Reg16RoundTrip | src/registers.rs:141-177 | a pair stored at an even index 0-24 reads back and leaves every other index and PC |
| RegisterLaws.ValHlReadsWz | src/registers.rs:307-314 | after storing HL 0x1234 the HL getter's pair, WZ, still reads 0 |
| RegisterLaws.PairHalves | src/registers.rs:112-158 | indices 2k and 2k+1 are the high and low bytes of pair 2k |
| RegisterLaws.Halves | src/registers.rs:58-65 | the high and low halves rebuild the register |
| LegacyMemory.Stored | src/mem.rs:36-52 | a routed write stores the value in every byte it reaches and changes no other byte |
| LegacyMemory.BankingTypeOfHeader | src/mem.rs:55-61 | header 1 or 2 names MBC1, 5 names MBC2, all others none (both directions) |
| LegacyMemory.BatteryCartridgesMissed | src/mem.rs:55-61 | headers 3 and 6 name no controller here, but MBC1/MBC2 in the newer memory unit |
| LegacyMemory.Memory.constructor | src/mem.rs:23-28 | a new memory reads 0 everywhere with no controller |
| LegacyMemory.Memory.ReadByte | src/mem.rs:31-33 | a read returns the raw byte |
| LegacyMemory.Memory.WriteByte | src/mem.rs:36-52 | the new store is the routed write, echo recursion included |
| LegacyMemory.Memory.IdentifyBankingType | src/mem.rs:55-61 | the controller is the one the header byte at 0x147 names |
| LegacyMemory.Memory.RamStartup | src/mem.rs:66-98 | the new store has the power-on I/O values |
| LegacyMemory.DiscardedWrite | src/mem.rs:38-48 | a write below 0x8000 or in 0xFEA0-0xFEFE changes nothing |
| LegacyMemory.EchoWrite | src/mem.rs:42-45 | an echo write stores at its address and 0x2000 lower, and nowhere else |
| LegacyMemory.PlainWrite | src/mem.rs:49-51 | any other writable address stores the byte there and nowhere else |
| LegacyMemory.WriteThenRead | src/mem.rs:31-51 | a byte written to a writable address reads back |
| LegacyMemory.StartupValuesNeedStartup | src/mem.rs:105-113 | a new memory reads 0 at 0xFF11; the power-on values appear only after the startup routine |

## Left out

- The `Arc<Mutex<Memory>>` sharing and its locking. The screen and the joypad hold a plain reference to one memory object.
- SDL window, texture, event and stdin handling and the frame-rate sleep (`src/sdl/`): these are I/O.
- The frame driver in `src/emulator.rs` and the CPU skeleton in `src/cpu.rs`. The driver targets a CPU that is not part of this model, and the CPU has only empty placeholders.
- The stub files `src/graphics.rs`, `src/sound.rs`, `src/main.rs`, `src/lib.rs` and `tests/test_main.rs`: they hold no logic.
- Debug printing (`debug_println!`, `dump_lcd_mem`): it does not affect state.
- The module that defines the I/O address constants and the two mode thresholds is not part of this model. The addresses take their conventional DMG values, and the thresholds are screen parameters with no assumption on their values.
- External RAM is four 8 KiB banks in the source. It is one flat 32 KiB store here, indexed bank·0x2000 + offset, which is the same addressing.
- `CurrentRomBank::from` is defined in a file that is not part of this model. The ROM bank is kept as the byte it is built from.
- The screen's scanline counter is an `i32` in the source. It is an unbounded integer here, so a counter decremented past −2^31 is not modelled.
- The `KeyState` discriminants are not shown. Pressed is taken as 0 and Released as 1, matching the joypad's own scenarios.
- `GameInput` variants other than the eight keys are one `Unknown` input, which the source's catch-all arm ignores.
- `Registers::swap`, `get_16b_sp_reg`, `set_r16sp`, `set_r16af`, `r16af` and `r16sp`. The last four depend on `SP_TABLE`/`AF_TABLE`, which are defined in no file of this model. `swap` and `get_16b_sp_reg` are operand-decoding helpers of the missing CPU.
- The unused `CurrentRomBank` type of `src/mem.rs`.
- The `lo, hi` union of `src/registers.rs` is modelled as the 16-bit value with high = v >> 8 and low = v & 0xFF. The byte layout of a Rust union is not fixed by the language.
- Panics are modelled as preconditions: `get_color` with a colour number above 3, `set_reg8_by_index` above 7, `set_reg16_by_index` off the even indices 0-24, and `request_interrupt` and `enable_interrupt` with an interrupt number of 8 or more (shift overflow).
- CpuRegisters.Registers.IncPc: overflow, which panics in a debug build, is a precondition. The contract gives the new value and no separate monotonicity clause.
- CpuRegisters.Registers.DecPc: underflow is a precondition, for the same reason.
- CpuRegisters.Register.Increment: overflow past 0xFFFF is a precondition.
- CpuRegisters.Register.Decrement: underflow below 0 is a precondition.

## Findings

| source | as written | input that shows it | evidently intended | confidence | as-written member | corrected member |
|---|---|---|---|---|---|---|
| src/registers.rs:267-274 | `set_l`/`val_l` store and read DE's low byte (E), so index 5 of `set_reg8_by_index` lands on E while `get_reg8_by_index(5)` reads HL's low byte | `set_reg8_by_index(5, 0x12)` on power-on registers, then `get_reg8_by_index(5)` gives 0x4D, not 0x12, and E becomes 0x12 | L is HL's low byte, so a store at index 5 reads back | not executed | RegisterLaws.SetLMissesL | RegisterLaws.ByteRoundTrip |
| src/registers.rs:307-309 | `val_hl` returns the WZ pair | `set_hl(0x1234)` on power-on registers, then `val_hl()` gives 0 | `val_hl` returns the HL pair that `set_hl` stores | not executed | RegisterLaws.ValHlReadsWz | RegisterLaws.Reg16RoundTrip |
| src/mem.rs:55-61 | `identify_banking_type` matches the exclusive ranges `1..3` and `5..6` | header byte 3 (MBC1+RAM+battery) or 6 (MBC2+battery) gives no controller | 1-3 name MBC1 and 5-6 name MBC2, as `refresh_rom_banking_type` in src/emulator/mem.rs:302-308 does | not executed | LegacyMemory.BatteryCartridgesMissed | MemoryMap.BankingTypeOf |
