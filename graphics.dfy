/** The screen as the emulator holds it: a frame buffer updated in place,
    a scanline counter, and the memory unit it shares with the processor.
    Every operation is proved to move `State()` exactly as the
    corresponding function of Picture says. */
module Graphics {
  import opened Hardware
  import opened MemoryMap
  import opened Picture
  import PictureLaws
  import AddressSpace

  class Screen {
    /** Cycles left on the current scanline. */
    var scanlineCounter: int
    /** The memory unit the screen reads its registers from. */
    const memory: AddressSpace.Memory
    /** Three bytes per pixel, row by row. */
    const buffer: array<Byte>
    /** The counter values at which the status moves to mode 2 and mode 3. */
    const mode2Bounds: int
    const mode3Bounds: int

    ghost predicate Valid()
      reads this, memory
    {
      buffer.Length == BUFFER_SIZE && memory.Valid()
      && buffer != memory.mem && buffer != memory.extRam
    }

    /** The abstract value of the screen. */
    ghost function State(): (ss: ScreenState)
      reads this, buffer, memory, memory.mem, memory.extRam
      requires Valid()
      ensures ss.Valid()
    {
      ScreenState(scanlineCounter, memory.State(), buffer[..])
    }

    /** A black-on-zero buffer, the counter at a full scanline. */
    constructor (memory: AddressSpace.Memory, mode2Bounds: int, mode3Bounds: int)
      requires memory.Valid()
      ensures Valid() && fresh(buffer)
      ensures this.memory == memory && this.mode2Bounds == mode2Bounds && this.mode3Bounds == mode3Bounds
      ensures State() == ScreenState(SCANLINE_CYCLES, memory.State(), seq(BUFFER_SIZE, _ => 0))
    {
      this.memory := memory;
      this.mode2Bounds := mode2Bounds;
      this.mode3Bounds := mode3Bounds;
      scanlineCounter := SCANLINE_CYCLES;
      buffer := new Byte[BUFFER_SIZE](_ => 0);
    }

    // -------------------------------------------------------------------
    // Pixels

    /** Fills every pixel with the triplet of one shade. */
    method Clear(color: Byte)
      requires Valid()
      modifies buffer
      ensures Valid() && buffer[..] == Cleared(color)
    {
      var c := ColorToRgb(color);
      var chunk := 0;
      while chunk < BUFFER_SIZE / 3
        invariant 0 <= chunk <= BUFFER_SIZE / 3
        invariant forall j :: 0 <= j < chunk * 3 ==> buffer[j] == Channel(c, j % 3)
      {
        buffer[chunk * 3] := c.red;
        buffer[chunk * 3 + 1] := c.green;
        buffer[chunk * 3 + 2] := c.blue;
        chunk := chunk + 1;
      }
    }

    /** Stores a triplet at an on-screen pixel. */
    method Plot(x: int, y: int, c: Rgb)
      requires Valid() && OnScreen(x, y)
      modifies buffer
      ensures buffer[..] == PutPixel(old(buffer[..]), x, y, c)
    {
      var idx := (y * SCREEN_WIDTH + x) * 3;
      buffer[idx] := c.red;
      buffer[idx + 1] := c.green;
      buffer[idx + 2] := c.blue;
    }

    /** Sets a pixel to a shade; off-screen coordinates change nothing. */
    method SetPixel(x: nat, y: nat, color: Byte)
      requires Valid()
      modifies buffer
      ensures buffer[..] == Picture.SetPixel(old(buffer[..]), x, y, color)
    {
      if x >= SCREEN_WIDTH || y >= SCREEN_HEIGHT {
        return;
      }
      Plot(x, y, ColorToRgb(color));
    }

    /** The shade of a pixel; off-screen coordinates read 0. */
    function GetPixel(x: nat, y: nat): (color: Byte)
      reads this, buffer
      requires buffer.Length == BUFFER_SIZE
      ensures color == Picture.GetPixel(buffer[..], x, y)
    {
      if x >= SCREEN_WIDTH || y >= SCREEN_HEIGHT then 0
      else
        var idx := (y * SCREEN_WIDTH + x) * 3;
        RgbToColor(buffer[idx], buffer[idx + 1], buffer[idx + 2])
    }

    /** Bit 7 of the LCD control register. */
    function IsLcdEnabled(): (enabled: bool)
      reads this, memory, memory.mem, memory.extRam
      requires Valid()
      ensures enabled == LcdEnabled(memory.State())
    {
      memory.ReadByte(LCD_CONTROL) & 0x80 != 0
    }

    // -------------------------------------------------------------------
    // Status and the scanline counter

    /** Updates the status register's mode and coincidence bits and
        requests the LCD interrupt they call for. */
    method SetLcdStatus()
      requires Valid()
      modifies this, memory, memory.mem, memory.extRam
      ensures Valid() && State() == LcdStatus(old(State()), mode2Bounds, mode3Bounds)
    {
      var enabled := IsLcdEnabled();
      var status := memory.ReadByte(LCD_STATUS);
      if !enabled {
        ghost var ss := State();
        scanlineCounter := SCANLINE_CYCLES;
        memory.WriteByteForced(CURRENT_SCANLINE, 0);
        status := (status & 0xFC) | 0x1;
        StoreStatus(status);
        PictureLaws.LcdOffStatus(ss, mode2Bounds, mode3Bounds);
        return;
      }
      PictureLaws.LcdOnStatus(State(), mode2Bounds, mode3Bounds);
      var line := memory.ReadByte(CURRENT_SCANLINE);
      var choice := ChooseMode(status, line, scanlineCounter, mode2Bounds, mode3Bounds);
      ShowStatus(status, line, choice);
    }

    /** The display-on half of the status update once the mode is chosen:
        the interrupt on entering the mode, then the coincidence bit. */
    method ShowStatus(status: Byte, line: Byte, choice: ModeChoice)
      requires Valid()
      modifies memory, memory.mem, memory.extRam
      ensures Valid() && memory.State() == ShowMode(old(memory.State()), status, line, choice)
    {
      if choice.request && choice.mode != status & 0x3 {
        memory.RequestInterrupt(1);
      }
      ShowCoincidence(line, choice.status);
    }

    /** Compares the scanline with the compare register and shows the
        result in the status. */
    method ShowCoincidence(line: Byte, chosen: Byte)
      requires Valid()
      modifies memory, memory.mem, memory.extRam
      ensures Valid() && memory.State() == Picture.ShowCoincidence(old(memory.State()), line, chosen)
    {
      var compare := memory.ReadByte(COINCIDENCE_FLAG);
      MarkCoincidence(line == compare, chosen);
    }

    /** Sets or clears the coincidence bit of the chosen status, requests
        the LCD interrupt on a coincidence when status bit 6 asks for it,
        and writes the status. */
    method MarkCoincidence(coincide: bool, chosen: Byte)
      requires Valid()
      modifies memory, memory.mem, memory.extRam
      ensures Valid() && memory.State() == Picture.MarkCoincidence(old(memory.State()), coincide, chosen)
    {
      var shown := if coincide then chosen | 0x4 else chosen & !0x4;
      if coincide && shown & 0x40 != 0 {
        memory.RequestInterrupt(1);
      }
      StoreStatus(shown);
    }

    /** The routed write of the status register. */
    method StoreStatus(status: Byte)
      requires Valid()
      modifies memory, memory.mem, memory.extRam
      ensures Valid() && memory.State() == WriteStatus(old(memory.State()), status)
    {
      PictureLaws.StatusWriteIsRoutedWrite(memory.State(), status);
      memory.WriteByte(LCD_STATUS, status);
    }

    /** One screen update after `cycles` clock cycles: the status update,
        then, with the display on, the countdown and at its end the move
        to the next scanline. */
    method UpdateScreen(cycles: int)
      requires Valid()
      modifies this, buffer, memory, memory.mem, memory.extRam
      ensures Valid() && State() == Picture.UpdateScreen(old(State()), cycles, mode2Bounds, mode3Bounds)
    {
      SetLcdStatus();
      var enabled := IsLcdEnabled();
      if !enabled {
        return;
      }
      scanlineCounter := scanlineCounter - cycles;
      if scanlineCounter <= 0 {
        NextScanline();
      }
    }

    /** The end of a scanline: the scanline register moves on, the counter
        restarts, and the new scanline takes effect. */
    method NextScanline()
      requires Valid()
      modifies this, buffer, memory, memory.mem, memory.extRam
      ensures Valid() && State() == AdvanceScanline(old(State()))
    {
      var line := memory.ReadByte(CURRENT_SCANLINE) + 1;
      memory.WriteByteForced(CURRENT_SCANLINE, line);
      scanlineCounter := SCANLINE_CYCLES;
      EnterScanline(line);
    }

    /** Scanline 144 requests the vertical blank interrupt, scanlines past
        153 go back to 0, and the visible scanlines are drawn. */
    method EnterScanline(line: Byte)
      requires Valid()
      modifies buffer, memory, memory.mem, memory.extRam
      ensures Valid() && State() == Picture.EnterScanline(old(State()), line)
    {
      if line == 144 {
        memory.RequestInterrupt(0);
      } else if line > 153 {
        memory.WriteByteForced(CURRENT_SCANLINE, 0);
      } else if line < 144 {
        DrawScanline();
      }
    }

    // -------------------------------------------------------------------
    // Drawing

    /** Draws the current scanline as the LCD control register says. */
    method DrawScanline()
      requires Valid()
      modifies buffer
      ensures Valid() && buffer[..] == Picture.DrawScanline(old(buffer[..]), memory.State())
    {
      var control := memory.ReadByte(LCD_CONTROL);
      if control & 0x80 != 0 {
        if control & 0x1 != 0 {
          RenderTiles(control);
        }
        if control & 0x2 != 0 {
          RenderSprites(control);
        }
      }
    }

    /** Carries out one paint step on the current scanline. */
    method Apply(line: int, p: Paint)
      requires Valid()
      modifies buffer
      ensures buffer[..] == ApplyPaint(old(buffer[..]), line, p)
    {
      if p.Put? && 0 <= p.x < SCREEN_WIDTH && 0 <= line < SCREEN_HEIGHT {
        Plot(p.x, line, ShadeRgb(p.color));
      }
    }

    /** The colour the tiles give screen column `pixel`. */
    method TileColorAt(control: Byte, v: TileView, pixel: Byte) returns (color: Color)
      requires Valid() && v == TileViewIn(memory.State(), control)
      ensures color == TileColor(memory.State(), control, pixel)
    {
      var xPos := TileXPos(v, pixel);
      var tileNum := memory.ReadByte(TileMapAddr(v, xPos));
      var row := TileRowAddr(v, tileNum);
      var data1 := memory.ReadByte(row);
      var data2 := memory.ReadByte(row + 1);
      color := memory.GetColor(ColorNumber(data1, data2, 7 - xPos % 8), BG_PALETTE);
    }

    /** The paint step of screen column `pixel`. */
    method TilePaintAt(control: Byte, v: TileView, pixel: int) returns (p: Paint)
      requires Valid() && 0 <= pixel < SCREEN_WIDTH && v == TileViewIn(memory.State(), control)
      ensures p == TilePaints(memory.State(), control)[pixel]
    {
      var color := TileColorAt(control, v, pixel as Byte);
      PictureLaws.TilePaintIs(memory.State(), control, pixel);
      p := Put(pixel, color);
    }

    /** Draws the background or window tiles of the current scanline. */
    method RenderTiles(control: Byte)
      requires Valid()
      modifies buffer
      ensures Valid() && buffer[..] == Picture.RenderTiles(old(buffer[..]), memory.State(), control)
    {
      ghost var ps := TilePaints(memory.State(), control);
      var scrollY := memory.ReadByte(SCROLL_Y);
      var scrollX := memory.ReadByte(SCROLL_X);
      var windowY := memory.ReadByte(WINDOW_Y);
      var windowX := memory.ReadByte(WINDOW_X);
      var line := memory.ReadByte(CURRENT_SCANLINE);
      var v := TileViewOf(control, scrollY, scrollX, windowY, windowX, line);
      var pixel := 0;
      while pixel < SCREEN_WIDTH
        invariant 0 <= pixel <= SCREEN_WIDTH
        invariant buffer[..] == Paints(old(buffer[..]), line as int, ps[..pixel])
      {
        var p := TilePaintAt(control, v, pixel);
        PictureLaws.PaintsSnoc(old(buffer[..]), line as int, ps, pixel);
        Apply(line as int, p);
        pixel := pixel + 1;
      }
      assert ps[..SCREEN_WIDTH] == ps;
    }

    /** One sprite's attribute entry. */
    method SpriteEntryAt(sprite: nat) returns (e: SpriteEntry)
      requires Valid() && sprite < 40
      ensures e == SpriteAt(memory.State(), sprite)
    {
      var index := sprite * 4;
      var yPos := memory.ReadByte(SPRITE_RAM + index) as int - 16;
      var xPos := memory.ReadByte(SPRITE_RAM + index + 1) as int - 8;
      var tile := memory.ReadByte(SPRITE_RAM + index + 2);
      var attributes := memory.ReadByte(SPRITE_RAM + index + 3);
      e := SpriteEntry(yPos, xPos, tile, attributes);
    }

    /** The paint step of one tile pixel of a sprite covering the current
        scanline. */
    method SpritePaintAt(control: Byte, e: SpriteEntry, tilePixel: int) returns (p: Paint)
      requires Valid() && 0 <= tilePixel <= 7
      requires SpriteOnLine(e, CurrentLine(memory.State()), SpriteHeight(control))
      ensures p == SpritePaint(memory.State(), control, e, tilePixel)
    {
      var scanline := memory.ReadByte(CURRENT_SCANLINE) as int;
      var line := SpriteTileLine(e, scanline, SpriteHeight(control)) * 2;
      var row := 0x8000 + e.tile as int * 16 + line;
      var data1 := memory.ReadByte(row);
      var data2 := memory.ReadByte(row + 1);
      var color := memory.GetColor(ColorNumber(data1, data2, SpriteColorBit(e, tilePixel)), SpritePalette(e));
      if color == White || e.attributes & 0x80 != 0 {
        p := Skip;
      } else {
        p := Put(e.xPos + (7 - tilePixel), color);
      }
    }

    /** Paint step k of a sprite covering the current scanline. */
    method SpriteStep(control: Byte, sprite: nat, e: SpriteEntry, k: int) returns (p: Paint)
      requires Valid() && sprite < 40 && e == SpriteAt(memory.State(), sprite) && 0 <= k < 8
      requires SpriteOnLine(e, CurrentLine(memory.State()), SpriteHeight(control))
      ensures |SpritePaints(memory.State(), control, sprite)| == 8
      ensures p == SpritePaints(memory.State(), control, sprite)[k]
    {
      p := SpritePaintAt(control, e, 7 - k);
      PictureLaws.SpritePaintIs(memory.State(), control, sprite, k);
    }

    /** Draws the 40 sprites in order over the current scanline. */
    method RenderSprites(control: Byte)
      requires Valid()
      modifies buffer
      ensures Valid() && buffer[..] == Picture.RenderSprites(old(buffer[..]), memory.State(), control)
    {
      if control & 0x2 == 0 {
        return;
      }
      ghost var s := memory.State();
      var sprite := 0;
      while sprite < 40
        invariant 0 <= sprite <= 40 && memory.State() == s
        invariant buffer[..] == SpritesUpTo(old(buffer[..]), s, control, sprite)
      {
        DrawSprite(control, sprite);
        sprite := sprite + 1;
      }
    }

    /** Draws one sprite if it covers the current scanline. */
    method DrawSprite(control: Byte, sprite: nat)
      requires Valid() && sprite < 40
      modifies buffer
      ensures buffer[..] == Paints(old(buffer[..]), CurrentLine(memory.State()), SpritePaints(memory.State(), control, sprite))
    {
      var e := SpriteEntryAt(sprite);
      var scanline := memory.ReadByte(CURRENT_SCANLINE) as int;
      if SpriteOnLine(e, scanline, SpriteHeight(control)) {
        DrawSpriteLine(control, sprite, e);
      } else {
        PictureLaws.SpriteOffLine(memory.State(), control, sprite);
      }
    }

    /** Draws the eight tile pixels of a sprite covering the current
        scanline, tile pixel 7 first. */
    method DrawSpriteLine(control: Byte, sprite: nat, e: SpriteEntry)
      requires Valid() && sprite < 40 && e == SpriteAt(memory.State(), sprite)
      requires SpriteOnLine(e, CurrentLine(memory.State()), SpriteHeight(control))
      modifies buffer
      ensures buffer[..] == Paints(old(buffer[..]), CurrentLine(memory.State()), SpritePaints(memory.State(), control, sprite))
    {
      ghost var s := memory.State();
      ghost var ps := SpritePaints(s, control, sprite);
      var line := memory.ReadByte(CURRENT_SCANLINE) as int;
      var k := 0;
      while k < 8
        invariant 0 <= k <= 8 && memory.State() == s
        invariant buffer[..] == Paints(old(buffer[..]), line, ps[..k])
      {
        var p := SpriteStep(control, sprite, e, k);
        PictureLaws.PaintsSnoc(old(buffer[..]), line, ps, k);
        Apply(line, p);
        k := k + 1;
      }
      assert ps[..8] == ps;
    }
  }
}
