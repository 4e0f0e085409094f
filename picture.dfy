/** The picture generator as values: colours as RGB triplets, the frame
    buffer as a sequence of bytes, and the LCD status update, the scanline
    advance and the tile and sprite renderers as functions over the memory
    map. The class Graphics.Screen is proved to follow these functions. */
module Picture {
  import opened Hardware
  import opened MemoryMap

  /** A pixel as the three bytes the frame buffer stores for it. */
  datatype Rgb = Rgb(red: Byte, green: Byte, blue: Byte)

  /** 160 x 144 pixels of three bytes each. */
  const BUFFER_SIZE: int := SCREEN_HEIGHT * SCREEN_WIDTH * 3

  /** Bytes in one row of the frame buffer. */
  const ROW_BYTES: int := SCREEN_WIDTH * 3

  // ---------------------------------------------------------------------
  // Colours and pixels

  /** The triplet for palette shade 0-3; every larger value is black. */
  function ColorToRgb(color: Byte): (c: Rgb)
    ensures c.red == c.green && c.green == c.blue
    ensures c.red == 255 <==> color == 0
  {
    if color == 0 then Rgb(255, 255, 255)
    else if color == 1 then Rgb(0xCC, 0xCC, 0xCC)
    else if color == 2 then Rgb(0x77, 0x77, 0x77)
    else Rgb(0, 0, 0)
  }

  /** The shade a triplet shows; a triplet that is none of the first three
      shades reads as 3. */
  function RgbToColor(red: Byte, green: Byte, blue: Byte): (color: Byte)
    ensures color <= 3
  {
    if red == 255 && green == 255 && blue == 255 then 0
    else if red == 0xCC && green == 0xCC && blue == 0xCC then 1
    else if red == 0x77 && green == 0x77 && blue == 0x77 then 2
    else 3
  }

  /** The triplet the renderers store for a palette colour: the triplet of
      the shade that names that colour, and for every colour but white no
      byte of it is 255. */
  function ShadeRgb(color: Color): (c: Rgb)
    ensures forall shade: Byte :: shade <= 3 && ShadeColor(shade) == color ==> c == ColorToRgb(shade)
    ensures color != White ==> c.red != 255 && c.green != 255 && c.blue != 255
  {
    match color
    case White => Rgb(255, 255, 255)
    case LightGrey => Rgb(0xCC, 0xCC, 0xCC)
    case DarkGrey => Rgb(0x77, 0x77, 0x77)
    case Black => Rgb(0, 0, 0)
  }

  /** Byte k (0 red, 1 green, 2 blue) of a triplet. */
  function Channel(c: Rgb, k: int): Byte
  {
    if k == 0 then c.red else if k == 1 then c.green else c.blue
  }

  predicate OnScreen(x: int, y: int)
  {
    0 <= x < SCREEN_WIDTH && 0 <= y < SCREEN_HEIGHT
  }

  /** Offset of the first of pixel (x, y)'s three bytes, row by row. */
  function PixelIndex(x: int, y: int): (i: int)
    requires OnScreen(x, y)
    ensures 0 <= i && i + 3 <= BUFFER_SIZE
    ensures y * ROW_BYTES <= i && i + 3 <= y * ROW_BYTES + ROW_BYTES
  {
    (y * SCREEN_WIDTH + x) * 3
  }

  /** Stores a triplet at an on-screen pixel. */
  function PutPixel(buf: seq<Byte>, x: int, y: int, c: Rgb): (r: seq<Byte>)
    requires |buf| == BUFFER_SIZE && OnScreen(x, y)
    ensures |r| == BUFFER_SIZE
  {
    var i := PixelIndex(x, y);
    buf[i := c.red][i + 1 := c.green][i + 2 := c.blue]
  }

  /** Sets a pixel to a shade; off-screen coordinates change nothing. */
  function SetPixel(buf: seq<Byte>, x: nat, y: nat, color: Byte): (r: seq<Byte>)
    requires |buf| == BUFFER_SIZE
    ensures |r| == BUFFER_SIZE
  {
    if !OnScreen(x, y) then buf else PutPixel(buf, x, y, ColorToRgb(color))
  }

  /** The shade of a pixel; off-screen coordinates read 0. */
  function GetPixel(buf: seq<Byte>, x: nat, y: nat): (color: Byte)
    requires |buf| == BUFFER_SIZE
    ensures !OnScreen(x, y) ==> color == 0
    ensures color <= 3
  {
    if !OnScreen(x, y) then 0
    else
      var i := PixelIndex(x, y);
      RgbToColor(buf[i], buf[i + 1], buf[i + 2])
  }

  /** A buffer whose every triplet is the triplet of one shade. */
  function Cleared(color: Byte): (r: seq<Byte>)
    ensures |r| == BUFFER_SIZE
  {
    seq(BUFFER_SIZE, i => Channel(ColorToRgb(color), i % 3))
  }

  // ---------------------------------------------------------------------
  // LCD status and the scanline counter

  /** Everything the screen update reads and changes. */
  datatype ScreenState = ScreenState(counter: int, mem: MemState, buffer: seq<Byte>)
  {
    predicate Valid()
    {
      mem.Valid() && |buffer| == BUFFER_SIZE
    }
  }

  /** Bit 7 of the LCD control register switches the display on. */
  predicate LcdEnabled(s: MemState)
    requires s.Valid()
    ensures LcdEnabled(s) <==> Read(s, LCD_CONTROL) >= 0x80
  {
    Read(s, LCD_CONTROL) & 0x80 != 0
  }

  /** The mode the status register should show: 1 during vertical blank,
      otherwise 2, 3 or 0 as the scanline counter falls past the two bounds. */
  function ModeOf(line: Byte, counter: int, mode2Bounds: int, mode3Bounds: int): (mode: Byte)
    ensures mode <= 3
  {
    if line >= 144 then 1
    else if counter >= mode2Bounds then 2
    else if counter >= mode3Bounds then 3
    else 0
  }

  /** The mode chosen by the status update, the status with its mode bits
      set, and whether the status enables the interrupt for that mode. */
  datatype ModeChoice = ModeChoice(mode: Byte, status: Byte, request: bool)

  function ChooseMode(status: Byte, line: Byte, counter: int, mode2Bounds: int, mode3Bounds: int): (m: ModeChoice)
    ensures m.mode == ModeOf(line, counter, mode2Bounds, mode3Bounds)
  {
    if line >= 144 then
      var st := (status | 0x1) & !0x2;
      ModeChoice(1, st, st & 0x10 != 0)
    else if counter >= mode2Bounds then
      var st := (status | 0x2) & !0x1;
      ModeChoice(2, st, st & 0x20 != 0)
    else if counter >= mode3Bounds then
      ModeChoice(3, status | 0x3, false)
    else
      var st := status & !0x3;
      ModeChoice(0, st, st & 0x08 != 0)
  }

  /** The write of the status register. The source makes it a routed
      write; the status register is stored verbatim, so that write is this
      store (PictureLaws.StatusWriteIsRoutedWrite). */
  function WriteStatus(s: MemState, status: Byte): (r: MemState)
    requires s.Valid()
    ensures r.Valid()
  {
    s.(mem := s.mem[LCD_STATUS := status])
  }

  /** The status update. With the display off it resets the counter and the
      scanline and shows mode 1. Otherwise it shows the current mode,
      requests the LCD interrupt on entering a mode whose interrupt the
      status enables, and sets the coincidence bit when the scanline equals
      the compare register, requesting the LCD interrupt if the status
      enables that too. */
  function LcdStatus(ss: ScreenState, mode2Bounds: int, mode3Bounds: int): (r: ScreenState)
    requires ss.Valid()
    ensures r.Valid() && r.buffer == ss.buffer
  {
    var s := ss.mem;
    var status := Read(s, LCD_STATUS);
    if !LcdEnabled(s) then
      var s1 := WriteForced(s, CURRENT_SCANLINE, 0);
      ss.(counter := SCANLINE_CYCLES, mem := WriteStatus(s1, (status & 0xFC) | 0x1))
    else
      var line := Read(s, CURRENT_SCANLINE);
      ss.(mem := ShowMode(s, status, line, ChooseMode(status, line, ss.counter, mode2Bounds, mode3Bounds)))
  }

  /** The display-on half of the status update, once the mode is chosen. */
  function ShowMode(s: MemState, status: Byte, line: Byte, choice: ModeChoice): (r: MemState)
    requires s.Valid()
    ensures r.Valid()
  {
    ShowCoincidence(EnterMode(s, status, choice), line, choice.status)
  }

  /** Entering a new mode whose interrupt the status enables requests the
      LCD interrupt. */
  function EnterMode(s: MemState, status: Byte, choice: ModeChoice): (r: MemState)
    requires s.Valid()
    ensures r.Valid()
  {
    if choice.request && choice.mode != status & 0x3 then RequestInterrupt(s, 1) else s
  }

  /** Bit 2 of the status shows whether the scanline equals the compare
      register. */
  function ShowCoincidence(s: MemState, line: Byte, chosen: Byte): (r: MemState)
    requires s.Valid()
    ensures r.Valid()
  {
    MarkCoincidence(s, line == Read(s, COINCIDENCE_FLAG), chosen)
  }

  /** Sets or clears bit 2 of the chosen status; with status bit 6 set a
      coincidence requests the LCD interrupt; then the status is written. */
  function MarkCoincidence(s: MemState, coincide: bool, chosen: Byte): (r: MemState)
    requires s.Valid()
    ensures r.Valid()
  {
    var st := if coincide then chosen | 0x4 else chosen & !0x4;
    var s2 := if coincide && st & 0x40 != 0 then RequestInterrupt(s, 1) else s;
    WriteStatus(s2, st)
  }

  /** One call of the screen update after `cycles` clock cycles. */
  function UpdateScreen(ss: ScreenState, cycles: int, mode2Bounds: int, mode3Bounds: int): (r: ScreenState)
    requires ss.Valid()
    ensures r.Valid()
  {
    var t := LcdStatus(ss, mode2Bounds, mode3Bounds);
    if !LcdEnabled(t.mem) then t
    else if t.counter - cycles > 0 then t.(counter := t.counter - cycles)
    else AdvanceScanline(t)
  }

  /** The end of a scanline: the scanline register moves on (wrapping as a
      byte) and the counter restarts; scanline 144 requests the vertical
      blank interrupt, scanlines past 153 go back to 0, and the visible
      scanlines are drawn. */
  function AdvanceScanline(ss: ScreenState): (r: ScreenState)
    requires ss.Valid()
    ensures r.Valid() && r.counter == SCANLINE_CYCLES
  {
    var line := Read(ss.mem, CURRENT_SCANLINE) + 1;
    EnterScanline(ScreenState(SCANLINE_CYCLES, WriteForced(ss.mem, CURRENT_SCANLINE, line), ss.buffer), line)
  }

  /** What the new scanline `line`, already stored, sets off. */
  function EnterScanline(ss: ScreenState, line: Byte): (r: ScreenState)
    requires ss.Valid()
    ensures r.Valid() && r.counter == ss.counter
    ensures line >= 144 ==> r.buffer == ss.buffer
    ensures line < 144 ==> r.mem == ss.mem
  {
    if line == 144 then ss.(mem := RequestInterrupt(ss.mem, 0))
    else if line > 153 then ss.(mem := WriteForced(ss.mem, CURRENT_SCANLINE, 0))
    else if line < 144 then ss.(buffer := DrawScanline(ss.buffer, ss.mem))
    else ss
  }

  /** Draws the current scanline: background tiles when control bit 0 is
      set, then sprites when control bit 1 is set, all only while the
      display is on. */
  function DrawScanline(buf: seq<Byte>, s: MemState): (r: seq<Byte>)
    requires |buf| == BUFFER_SIZE && s.Valid()
    ensures |r| == BUFFER_SIZE
    ensures Read(s, LCD_CONTROL) & 0x80 == 0 ==> r == buf
  {
    var control := Read(s, LCD_CONTROL);
    if control & 0x80 == 0 then buf
    else
      var withTiles := if control & 0x1 != 0 then RenderTiles(buf, s, control) else buf;
      if control & 0x2 != 0 then RenderSprites(withTiles, s, control) else withTiles
  }

  // ---------------------------------------------------------------------
  // Painting a row

  /** One pixel step of a renderer: nothing, or a colour for a column of
      the current scanline. */
  datatype Paint = Skip | Put(x: int, color: Color)

  /** A step stores its colour's triplet when its pixel is on screen. */
  function ApplyPaint(buf: seq<Byte>, line: int, p: Paint): (r: seq<Byte>)
    requires |buf| == BUFFER_SIZE
    ensures |r| == BUFFER_SIZE
  {
    if p.Put? && OnScreen(p.x, line) then PutPixel(buf, p.x, line, ShadeRgb(p.color)) else buf
  }

  /** The steps in order, later steps over earlier ones. */
  function Paints(buf: seq<Byte>, line: int, ps: seq<Paint>): (r: seq<Byte>)
    requires |buf| == BUFFER_SIZE
    ensures |r| == BUFFER_SIZE
    decreases |ps|
  {
    if ps == [] then buf else ApplyPaint(Paints(buf, line, ps[..|ps| - 1]), line, ps[|ps| - 1])
  }

  /** The current scanline as an integer. */
  function CurrentLine(s: MemState): (line: int)
    requires s.Valid()
    ensures 0 <= line < 0x100
  {
    Read(s, CURRENT_SCANLINE) as int
  }

  // ---------------------------------------------------------------------
  // Background and window tiles

  /** Colour number (0-3) of bit `bit` of a tile row given as its two bytes. */
  function ColorNumber(data1: Byte, data2: Byte, bit: Byte): (n: Byte)
    requires bit <= 7
    ensures n <= 3
  {
    (((data2 >> bit) & 1) << 1) | ((data1 >> bit) & 1)
  }

  /** What one scanline of tiles is drawn from: signed or unsigned tile
      numbers, window or background, which tile map, the row within the
      map, and the horizontal scroll and window position. */
  datatype TileView = TileView(unsigned: bool, usingWindow: bool, highMap: bool,
                               yPos: Byte, scrollX: Byte, windowX: Byte)

  function TileViewOf(control: Byte, scrollY: Byte, scrollX: Byte, windowY: Byte, windowXReg: Byte, line: Byte): (v: TileView)
    ensures v.usingWindow <==> control & 0x20 != 0 && windowY <= line
    ensures v.unsigned <==> control & 0x10 != 0
    ensures v.usingWindow ==> v.yPos + windowY == line
    ensures !v.usingWindow ==> v.yPos - scrollY == line
    ensures v.windowX + 7 == windowXReg && v.scrollX == scrollX
  {
    var usingWindow := control & 0x20 != 0 && windowY <= line;
    var highMap := if usingWindow then control & 0x40 != 0 else control & 0x08 != 0;
    var yPos := if usingWindow then line - windowY else scrollY + line;
    TileView(control & 0x10 != 0, usingWindow, highMap, yPos, scrollX, windowXReg - 7)
  }

  /** The view the registers of `s` select. */
  function TileViewIn(s: MemState, control: Byte): (v: TileView)
    requires s.Valid()
    ensures v.scrollX == Read(s, SCROLL_X) && v.windowX + 7 == Read(s, WINDOW_X)
    ensures v.usingWindow <==> control & 0x20 != 0 && Read(s, WINDOW_Y) <= Read(s, CURRENT_SCANLINE)
  {
    TileViewOf(control, Read(s, SCROLL_Y), Read(s, SCROLL_X), Read(s, WINDOW_Y), Read(s, WINDOW_X),
               Read(s, CURRENT_SCANLINE))
  }

  /** The horizontal position within the map that screen column `pixel`
      shows: window-relative right of the window's left edge, scrolled
      otherwise. */
  function TileXPos(v: TileView, pixel: Byte): (x: Byte)
    ensures v.usingWindow && pixel >= v.windowX ==> x + v.windowX == pixel
    ensures !v.usingWindow ==> x - v.scrollX == pixel
  {
    if v.usingWindow && pixel >= v.windowX then pixel - v.windowX else pixel + v.scrollX
  }

  /** The tile-map entry for horizontal map position `xPos`. */
  function TileMapAddr(v: TileView, xPos: Byte): (a: Addr)
    ensures 0x9800 <= a < 0xA000
    ensures v.highMap <==> a >= 0x9C00
  {
    (if v.highMap then 0x9C00 else 0x9800) + (v.yPos / 8) as int * 32 + (xPos / 8) as int
  }

  /** The address of a tile row: the tile's 16 bytes start at 0x8000 plus
      16 times its unsigned number, or at 0x8800 plus 16 times its signed
      number offset by 128; the row is two bytes per line. */
  function TileRowAddr(v: TileView, tileNum: Byte): (a: Addr)
    ensures a < 0xFFFF
  {
    var base := if v.unsigned then 0x8000 + tileNum as int * 16
                else 0x8800 + ((tileNum as int + 128) % 256) * 16;
    base + ((v.yPos % 8) * 2) as int
  }

  /** The colour the tiles give screen column `pixel` of the current
      scanline. */
  function TileColor(s: MemState, control: Byte, pixel: Byte): (c: Color)
    requires s.Valid()
    ensures exists n: Byte :: n <= 3 && c == GetColor(s, n, BG_PALETTE)
  {
    var v := TileViewIn(s, control);
    var xPos := TileXPos(v, pixel);
    var row := TileRowAddr(v, Read(s, TileMapAddr(v, xPos)));
    GetColor(s, ColorNumber(Read(s, row), Read(s, row + 1), 7 - xPos % 8), BG_PALETTE)
  }

  /** The tile pass: screen columns 0-159 in order, each given its tile
      colour (nothing is stored while the scanline is off screen). */
  function TilePaints(s: MemState, control: Byte): (ps: seq<Paint>)
    requires s.Valid()
    ensures |ps| == SCREEN_WIDTH
  {
    seq(SCREEN_WIDTH, x requires 0 <= x < SCREEN_WIDTH => Put(x, TileColor(s, control, x as Byte)))
  }

  function RenderTiles(buf: seq<Byte>, s: MemState, control: Byte): (r: seq<Byte>)
    requires |buf| == BUFFER_SIZE && s.Valid()
    ensures |r| == BUFFER_SIZE
  {
    Paints(buf, CurrentLine(s), TilePaints(s, control))
  }

  // ---------------------------------------------------------------------
  // Sprites

  /** One sprite's four attribute bytes, with the positions shifted to
      screen coordinates. */
  datatype SpriteEntry = SpriteEntry(yPos: int, xPos: int, tile: Byte, attributes: Byte)

  function SpriteAt(s: MemState, sprite: nat): (e: SpriteEntry)
    requires s.Valid() && sprite < 40
    ensures e.yPos + 16 == s.mem[SPRITE_RAM + sprite * 4] as int
    ensures e.xPos + 8 == s.mem[SPRITE_RAM + sprite * 4 + 1] as int
    ensures e.tile == s.mem[SPRITE_RAM + sprite * 4 + 2]
    ensures e.attributes == s.mem[SPRITE_RAM + sprite * 4 + 3]
  {
    var base := SPRITE_RAM + sprite * 4;
    SpriteEntry(Read(s, base) as int - 16, Read(s, base + 1) as int - 8, Read(s, base + 2), Read(s, base + 3))
  }

  /** Sprites are 8 pixels tall, or 16 with control bit 2. */
  function SpriteHeight(control: Byte): (h: int)
    ensures h == 8 || h == 16
    ensures h == 16 <==> control & 0x04 != 0
  {
    if control & 0x04 != 0 then 16 else 8
  }

  predicate SpriteOnLine(e: SpriteEntry, scanline: int, height: int)
    ensures SpriteOnLine(e, scanline, height) <==> 0 <= scanline - e.yPos < height
  {
    e.yPos <= scanline < e.yPos + height
  }

  /** The line of the sprite's tile that `scanline` shows. With attribute
      bit 6 the sprite is flipped vertically, as `height - line`. */
  function SpriteTileLine(e: SpriteEntry, scanline: int, height: int): (line: int)
    requires height == 8 || height == 16
    requires SpriteOnLine(e, scanline, height)
    ensures 0 <= line <= height
  {
    var line := scanline - e.yPos;
    if e.attributes & 0x40 != 0 then -(line - height) else line
  }

  /** The bit of the tile row that tile pixel `tilePixel` (7 = leftmost)
      takes; attribute bit 5 flips the sprite horizontally. */
  function SpriteColorBit(e: SpriteEntry, tilePixel: int): (bit: Byte)
    requires 0 <= tilePixel <= 7
    ensures bit <= 7
  {
    if e.attributes & 0x20 != 0 then (7 - tilePixel) as Byte else tilePixel as Byte
  }

  /** Attribute bit 4 selects the second sprite palette. */
  function SpritePalette(e: SpriteEntry): (a: Addr)
    ensures a == SPRITE_PALETTE_0 || a == SPRITE_PALETTE_1
    ensures a == SPRITE_PALETTE_1 <==> e.attributes & 0x10 != 0
  {
    if e.attributes & 0x10 != 0 then SPRITE_PALETTE_1 else SPRITE_PALETTE_0
  }

  /** The colour tile pixel `tilePixel` of a sprite covering the current
      scanline has. */
  function SpritePixelColor(s: MemState, control: Byte, e: SpriteEntry, tilePixel: int): (c: Color)
    requires s.Valid() && 0 <= tilePixel <= 7
    requires SpriteOnLine(e, CurrentLine(s), SpriteHeight(control))
    ensures exists n: Byte :: n <= 3 && c == GetColor(s, n, SpritePalette(e))
  {
    var line := SpriteTileLine(e, CurrentLine(s), SpriteHeight(control)) * 2;
    var row := 0x8000 + e.tile as int * 16 + line;
    GetColor(s, ColorNumber(Read(s, row), Read(s, row + 1), SpriteColorBit(e, tilePixel)), SpritePalette(e))
  }

  /** One tile pixel of a sprite: skipped when its colour is white or the
      sprite is behind the background (attribute bit 7); otherwise stored
      at column xPos + 7 - tilePixel, if that is on screen. */
  function SpritePaint(s: MemState, control: Byte, e: SpriteEntry, tilePixel: int): (p: Paint)
    requires s.Valid() && 0 <= tilePixel <= 7
    requires SpriteOnLine(e, CurrentLine(s), SpriteHeight(control))
    ensures e.attributes & 0x80 != 0 ==> p == Skip
    ensures p.Put? ==> p.color != White && p.x == e.xPos + (7 - tilePixel)
  {
    var color := SpritePixelColor(s, control, e, tilePixel);
    if color == White || e.attributes & 0x80 != 0 then Skip
    else Put(e.xPos + (7 - tilePixel), color)
  }

  /** A sprite covering the current scanline paints its eight tile pixels
      from tile pixel 7 down; any other sprite paints nothing. */
  function SpritePaints(s: MemState, control: Byte, sprite: nat): (ps: seq<Paint>)
    requires s.Valid() && sprite < 40
    ensures |ps| == 0 || |ps| == 8
  {
    var e := SpriteAt(s, sprite);
    if SpriteOnLine(e, CurrentLine(s), SpriteHeight(control)) then
      seq(8, k requires 0 <= k < 8 => SpritePaint(s, control, e, 7 - k))
    else []
  }

  /** Sprites 0 .. n-1, later sprites drawn over earlier ones. */
  function SpritesUpTo(buf: seq<Byte>, s: MemState, control: Byte, n: nat): (r: seq<Byte>)
    requires |buf| == BUFFER_SIZE && s.Valid() && n <= 40
    ensures |r| == BUFFER_SIZE
  {
    if n == 0 then buf else Paints(SpritesUpTo(buf, s, control, n - 1), CurrentLine(s), SpritePaints(s, control, n - 1))
  }

  /** The sprite pass, enabled by control bit 1. */
  function RenderSprites(buf: seq<Byte>, s: MemState, control: Byte): (r: seq<Byte>)
    requires |buf| == BUFFER_SIZE && s.Valid()
    ensures |r| == BUFFER_SIZE
    ensures control & 0x2 == 0 ==> r == buf
  {
    if control & 0x2 != 0 then SpritesUpTo(buf, s, control, 40) else buf
  }
}
