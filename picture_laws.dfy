/** Properties of the picture generator: the pixel round trip, what the
    renderers may touch, and what the status update and the scanline
    advance do to the registers. */
module PictureLaws {
  import opened Hardware
  import opened MemoryMap
  import opened Picture
  import MemoryLaws

  // ---------------------------------------------------------------------
  // Pixels

  /** Storing a pixel changes its three bytes and no other. */
  lemma PutPixelFrame(buf: seq<Byte>, x: int, y: int, c: Rgb, i: int)
    requires |buf| == BUFFER_SIZE && OnScreen(x, y) && 0 <= i < BUFFER_SIZE
    ensures var p := PixelIndex(x, y);
      PutPixel(buf, x, y, c)[i] == if p <= i < p + 3 then Channel(c, i - p) else buf[i]
  {
  }

  /** Distinct on-screen pixels own disjoint triplets. */
  lemma PixelsDisjoint(x: int, y: int, x2: int, y2: int)
    requires OnScreen(x, y) && OnScreen(x2, y2) && (x, y) != (x2, y2)
    ensures PixelIndex(x, y) + 3 <= PixelIndex(x2, y2) || PixelIndex(x2, y2) + 3 <= PixelIndex(x, y)
  {
    if y == y2 {
    } else if y < y2 {
      assert PixelIndex(x, y) < (y + 1) * ROW_BYTES <= PixelIndex(x2, y2);
    } else {
      assert PixelIndex(x2, y2) < (y2 + 1) * ROW_BYTES <= PixelIndex(x, y);
    }
  }

  /** A triplet of a shade reads back as that shade, and as 3 for every
      value above 3. */
  lemma RgbRoundTrip(color: Byte)
    ensures var c := ColorToRgb(color);
      RgbToColor(c.red, c.green, c.blue) == if color <= 3 then color else 3
  {
  }

  /** Setting an off-screen pixel changes nothing; setting an on-screen one
      writes exactly its three bytes with the shade's triplet. */
  lemma SetPixelFrame(buf: seq<Byte>, x: nat, y: nat, color: Byte, i: int)
    requires |buf| == BUFFER_SIZE && 0 <= i < BUFFER_SIZE
    ensures var r := SetPixel(buf, x, y, color);
      && (!OnScreen(x, y) ==> r == buf)
      && (OnScreen(x, y) ==>
            var p := PixelIndex(x, y);
            r[i] == if p <= i < p + 3 then Channel(ColorToRgb(color), i - p) else buf[i])
  {
    if OnScreen(x, y) {
      PutPixelFrame(buf, x, y, ColorToRgb(color), i);
    }
  }

  /** A pixel set on screen reads back as its shade, and as 3 for every
      value above 3. */
  lemma SetThenGetPixel(buf: seq<Byte>, x: nat, y: nat, color: Byte)
    requires |buf| == BUFFER_SIZE && OnScreen(x, y)
    ensures GetPixel(SetPixel(buf, x, y, color), x, y) == if color <= 3 then color else 3
  {
    RgbRoundTrip(color);
  }

  /** Setting one pixel leaves every other pixel's shade alone. */
  lemma SetPixelKeepsOthers(buf: seq<Byte>, x: nat, y: nat, color: Byte, x2: nat, y2: nat)
    requires |buf| == BUFFER_SIZE && (x, y) != (x2, y2)
    ensures GetPixel(SetPixel(buf, x, y, color), x2, y2) == GetPixel(buf, x2, y2)
  {
    if OnScreen(x, y) && OnScreen(x2, y2) {
      PixelsDisjoint(x, y, x2, y2);
    }
  }

  /** After clearing to a shade, every on-screen pixel reads that shade
      (3 for every value above 3). */
  lemma ClearedReads(color: Byte, x: nat, y: nat)
    requires OnScreen(x, y)
    ensures GetPixel(Cleared(color), x, y) == if color <= 3 then color else 3
  {
    var p := PixelIndex(x, y);
    assert p % 3 == 0 && (p + 1) % 3 == 1 && (p + 2) % 3 == 2;
    RgbRoundTrip(color);
  }

  // ---------------------------------------------------------------------
  // Painting stays in the current scanline's row

  /** Byte i lies outside row `line` of the frame buffer. */
  predicate OutsideRow(i: int, line: int)
  {
    !(line * ROW_BYTES <= i < line * ROW_BYTES + ROW_BYTES)
  }

  /** No step paints white. */
  predicate NoWhite(ps: seq<Paint>)
  {
    forall j :: 0 <= j < |ps| && ps[j].Put? ==> ps[j].color != White
  }

  /** Step j paints column j. */
  predicate PaintsColumnByColumn(ps: seq<Paint>)
  {
    forall j :: 0 <= j < |ps| ==> ps[j].Put? && ps[j].x == j
  }

  /** Painting one more step of a list applies that step last. */
  lemma PaintsSnoc(buf: seq<Byte>, line: int, ps: seq<Paint>, n: int)
    requires |buf| == BUFFER_SIZE && 0 <= n < |ps|
    ensures Paints(buf, line, ps[..n + 1]) == ApplyPaint(Paints(buf, line, ps[..n]), line, ps[n])
  {
    assert ps[..n + 1][..n] == ps[..n];
  }

  /** Painting changes no byte outside the row it paints. */
  lemma {:induction false} PaintsKeepOtherRows(buf: seq<Byte>, line: int, ps: seq<Paint>, i: int)
    requires |buf| == BUFFER_SIZE && 0 <= i < BUFFER_SIZE && OutsideRow(i, line)
    ensures Paints(buf, line, ps)[i] == buf[i]
    decreases |ps|
  {
    if ps != [] {
      var prev := Paints(buf, line, ps[..|ps| - 1]);
      PaintsKeepOtherRows(buf, line, ps[..|ps| - 1], i);
      var p := ps[|ps| - 1];
      if p.Put? && OnScreen(p.x, line) {
        PutPixelFrame(prev, p.x, line, ShadeRgb(p.color), i);
      }
    }
  }

  /** Steps that never paint white never store a byte 255. */
  lemma {:induction false} PaintsNeverWhite(buf: seq<Byte>, line: int, ps: seq<Paint>, i: int)
    requires |buf| == BUFFER_SIZE && 0 <= i < BUFFER_SIZE && NoWhite(ps)
    ensures var r := Paints(buf, line, ps); r[i] == buf[i] || r[i] != 255
    decreases |ps|
  {
    if ps != [] {
      var init := ps[..|ps| - 1];
      assert NoWhite(init) by {
        forall j | 0 <= j < |init| && init[j].Put?
          ensures init[j].color != White
        {
          assert init[j] == ps[j];
        }
      }
      PaintsNeverWhite(buf, line, init, i);
      var prev := Paints(buf, line, init);
      var p := ps[|ps| - 1];
      if p.Put? && OnScreen(p.x, line) {
        PutPixelFrame(prev, p.x, line, ShadeRgb(p.color), i);
      }
    }
  }

  /** Steps that paint columns 0, 1, 2, ... in order leave each of those
      columns of the row holding its step's colour. */
  lemma {:induction false} PaintsColumns(buf: seq<Byte>, line: int, ps: seq<Paint>, x: int, k: int)
    requires |buf| == BUFFER_SIZE && PaintsColumnByColumn(ps)
    requires 0 <= x < |ps| && OnScreen(x, line) && 0 <= k < 3
    ensures Paints(buf, line, ps)[PixelIndex(x, line) + k] == Channel(ShadeRgb(ps[x].color), k)
    decreases |ps|
  {
    var init := ps[..|ps| - 1];
    var prev := Paints(buf, line, init);
    var p := ps[|ps| - 1];
    var i := PixelIndex(x, line) + k;
    if x < |ps| - 1 {
      assert PaintsColumnByColumn(init) by {
        forall j | 0 <= j < |init|
          ensures init[j].Put? && init[j].x == j
        {
          assert init[j] == ps[j];
        }
      }
      PaintsColumns(buf, line, init, x, k);
      assert init[x] == ps[x];
      if OnScreen(p.x, line) {
        PixelsDisjoint(x, line, p.x, line);
        PutPixelFrame(prev, p.x, line, ShadeRgb(p.color), i);
      }
    } else {
      PutPixelFrame(prev, p.x, line, ShadeRgb(p.color), i);
    }
  }

  /** Steps that all skip change nothing. */
  lemma {:induction false} PaintsOfSkips(buf: seq<Byte>, line: int, ps: seq<Paint>)
    requires |buf| == BUFFER_SIZE && forall j :: 0 <= j < |ps| ==> ps[j] == Skip
    ensures Paints(buf, line, ps) == buf
    decreases |ps|
  {
    if ps != [] {
      PaintsOfSkips(buf, line, ps[..|ps| - 1]);
    }
  }

  // ---------------------------------------------------------------------
  // The renderers

  /** Step x of the tile pass paints column x with its tile colour. */
  lemma TilePaintIs(s: MemState, control: Byte, x: int)
    requires s.Valid() && 0 <= x < SCREEN_WIDTH
    ensures TilePaints(s, control)[x] == Put(x, TileColor(s, control, x as Byte))
  {
  }

  /** The tile pass changes no byte outside the current scanline's row
      (none at all when the scanline is off screen). */
  lemma RenderTilesKeepsOtherRows(buf: seq<Byte>, s: MemState, control: Byte, i: int)
    requires |buf| == BUFFER_SIZE && s.Valid() && 0 <= i < BUFFER_SIZE
    requires OutsideRow(i, CurrentLine(s))
    ensures RenderTiles(buf, s, control)[i] == buf[i]
  {
    PaintsKeepOtherRows(buf, CurrentLine(s), TilePaints(s, control), i);
  }

  /** On a visible scanline the tile pass leaves column x holding the
      triplet of the tile colour of column x. */
  lemma RenderTilesColumn(buf: seq<Byte>, s: MemState, control: Byte, x: int, k: int)
    requires |buf| == BUFFER_SIZE && s.Valid() && 0 <= x < SCREEN_WIDTH && 0 <= k < 3
    requires CurrentLine(s) < SCREEN_HEIGHT
    ensures RenderTiles(buf, s, control)[PixelIndex(x, CurrentLine(s)) + k]
            == Channel(ShadeRgb(TileColor(s, control, x as Byte)), k)
  {
    PaintsColumns(buf, CurrentLine(s), TilePaints(s, control), x, k);
  }

  /** Step k of a sprite covering the current scanline paints its tile
      pixel 7 - k. */
  lemma SpritePaintIs(s: MemState, control: Byte, sprite: nat, k: int)
    requires s.Valid() && sprite < 40 && 0 <= k < 8
    requires SpriteOnLine(SpriteAt(s, sprite), CurrentLine(s), SpriteHeight(control))
    ensures |SpritePaints(s, control, sprite)| == 8
    ensures SpritePaints(s, control, sprite)[k] == SpritePaint(s, control, SpriteAt(s, sprite), 7 - k)
  {
  }

  /** A sprite that does not cover the current scanline paints nothing. */
  lemma SpriteOffLine(s: MemState, control: Byte, sprite: nat)
    requires s.Valid() && sprite < 40
    requires !SpriteOnLine(SpriteAt(s, sprite), CurrentLine(s), SpriteHeight(control))
    ensures SpritePaints(s, control, sprite) == []
  {
  }

  /** A sprite never paints white, and a sprite behind the background
      (attribute bit 7) paints nothing. */
  lemma SpritePaintsSkipWhite(s: MemState, control: Byte, sprite: nat)
    requires s.Valid() && sprite < 40
    ensures var ps := SpritePaints(s, control, sprite);
      && NoWhite(ps)
      && (SpriteAt(s, sprite).attributes & 0x80 != 0 ==> forall j :: 0 <= j < |ps| ==> ps[j] == Skip)
  {
  }

  /** A sprite behind the background draws nothing. */
  lemma SpriteBehindBackground(buf: seq<Byte>, s: MemState, control: Byte, sprite: nat)
    requires |buf| == BUFFER_SIZE && s.Valid() && sprite < 40
    requires SpriteAt(s, sprite).attributes & 0x80 != 0
    ensures Paints(buf, CurrentLine(s), SpritePaints(s, control, sprite)) == buf
  {
    SpritePaintsSkipWhite(s, control, sprite);
    PaintsOfSkips(buf, CurrentLine(s), SpritePaints(s, control, sprite));
  }

  /** The sprite pass changes no byte outside the current scanline's row
      and never stores a byte 255 (white sprite pixels are transparent). */
  lemma {:induction false} SpritesEffect(buf: seq<Byte>, s: MemState, control: Byte, n: nat, i: int)
    requires |buf| == BUFFER_SIZE && s.Valid() && n <= 40 && 0 <= i < BUFFER_SIZE
    ensures var r := SpritesUpTo(buf, s, control, n);
      r[i] == buf[i] || (r[i] != 255 && !OutsideRow(i, CurrentLine(s)))
  {
    if n > 0 {
      SpritesEffect(buf, s, control, n - 1, i);
      var prev := SpritesUpTo(buf, s, control, n - 1);
      var ps := SpritePaints(s, control, n - 1);
      SpritePaintsSkipWhite(s, control, n - 1);
      PaintsNeverWhite(prev, CurrentLine(s), ps, i);
      if OutsideRow(i, CurrentLine(s)) {
        PaintsKeepOtherRows(prev, CurrentLine(s), ps, i);
      }
    }
  }

  /** Drawing a scanline changes no byte outside that scanline's row. */
  lemma DrawScanlineKeepsOtherRows(buf: seq<Byte>, s: MemState, i: int)
    requires |buf| == BUFFER_SIZE && s.Valid() && 0 <= i < BUFFER_SIZE
    requires OutsideRow(i, CurrentLine(s))
    ensures DrawScanline(buf, s)[i] == buf[i]
  {
    var control := Read(s, LCD_CONTROL);
    if control & 0x80 != 0 {
      if control & 0x1 != 0 {
        RenderTilesKeepsOtherRows(buf, s, control, i);
      }
      var withTiles := if control & 0x1 != 0 then RenderTiles(buf, s, control) else buf;
      if control & 0x2 != 0 {
        SpritesEffect(withTiles, s, control, 40, i);
      }
    }
  }

  /** The vertical flip `height - line` maps the sprite's first covered
      scanline to tile row `height`. */
  lemma SpriteFlipFirstLine(e: SpriteEntry, height: int)
    requires height == 8 || height == 16
    requires e.attributes & 0x40 != 0
    ensures SpriteTileLine(e, e.yPos, height) == height
  {
  }

  // ---------------------------------------------------------------------
  // Status register

  /** The status bit that enables the LCD interrupt on entering `mode`:
      bit 4 for vertical blank, bit 5 for mode 2, bit 3 for mode 0; mode 3
      has none. */
  predicate EnablesModeInterrupt(status: Byte, mode: Byte)
  {
    || (mode == 1 && status & 0x10 != 0)
    || (mode == 2 && status & 0x20 != 0)
    || (mode == 0 && status & 0x08 != 0)
  }

  /** The mode choice shows ModeOf in the two low bits, keeps the other
      bits, and requests exactly when the status enables that mode's
      interrupt. */
  lemma ChooseModeShowsMode(status: Byte, line: Byte, counter: int, mode2Bounds: int, mode3Bounds: int)
    ensures var c := ChooseMode(status, line, counter, mode2Bounds, mode3Bounds);
      && c.mode == ModeOf(line, counter, mode2Bounds, mode3Bounds)
      && c.status & 0x3 == c.mode
      && c.status & 0xFC == status & 0xFC
      && (c.request <==> EnablesModeInterrupt(status, c.mode))
  {
  }

  /** The routed write of the status register stores the byte. */
  lemma StatusWriteIsRoutedWrite(s: MemState, status: Byte)
    requires s.Valid()
    ensures Write(s, LCD_STATUS, status) == WriteStatus(s, status)
  {
    MemoryLaws.VerbatimWrite(s, LCD_STATUS, status);
  }

  /** The display-on half of the status update, with every read and write
      spelled out as the plain access to the backing store it is. */
  lemma ShowModeStores(s: MemState, status: Byte, line: Byte, c: ModeChoice)
    requires s.Valid()
    ensures var flags1 := if c.request && c.mode != status & 0x3 then s.mem[IF] | 0x2 else s.mem[IF];
      var coincide := line == s.mem[COINCIDENCE_FLAG];
      var st := if coincide then c.status | 0x4 else c.status & !0x4;
      var flags2 := if coincide && st & 0x40 != 0 then flags1 | 0x2 else flags1;
      ShowMode(s, status, line, c) == s.(mem := s.mem[IF := flags2][LCD_STATUS := st])
  {
  }

  /** With the display off the status update restarts the counter, puts the
      scanline at 0 and the status in mode 1, and touches no other byte. */
  lemma LcdOffStatus(ss: ScreenState, mode2Bounds: int, mode3Bounds: int)
    requires ss.Valid() && !LcdEnabled(ss.mem)
    ensures var r := LcdStatus(ss, mode2Bounds, mode3Bounds);
      && r.counter == SCANLINE_CYCLES
      && r.mem == ss.mem.(mem := r.mem.mem)
      && r.mem.mem == ss.mem.mem[CURRENT_SCANLINE := 0][LCD_STATUS := (ss.mem.mem[LCD_STATUS] & 0xFC) | 0x1]
  {
  }

  /** Setting or clearing bit 2 leaves the other bits alone. */
  lemma CoincidenceBit(chosen: Byte, coincide: bool)
    ensures var st := if coincide then chosen | 0x4 else chosen & !0x4;
      && st & 0x3 == chosen & 0x3
      && (st & 0x4 != 0 <==> coincide)
      && st & 0xF8 == chosen & 0xF8
  {
  }

  /** Bytes that agree on bits 2-7 agree on bits 3-7. */
  lemma HighBitsAgree(a: Byte, b: Byte)
    requires a & 0xFC == b & 0xFC
    ensures a & 0xF8 == b & 0xF8
  {
  }

  /** The display-on half, for any mode choice, changes only the status
      and interrupt request registers and stores the chosen status with
      bit 2 showing the coincidence. */
  lemma ShowModeFrame(s: MemState, status: Byte, line: Byte, c: ModeChoice)
    requires s.Valid()
    ensures var r := ShowMode(s, status, line, c);
      && r == s.(mem := r.mem)
      && r.mem == s.mem[IF := r.mem[IF]][LCD_STATUS := r.mem[LCD_STATUS]]
      && r.mem[LCD_STATUS] == if line == s.mem[COINCIDENCE_FLAG] then c.status | 0x4 else c.status & !0x4
  {
    var coincide := line == s.mem[COINCIDENCE_FLAG];
    var st := if coincide then c.status | 0x4 else c.status & !0x4;
    var flags1 := if c.request && c.mode != status & 0x3 then s.mem[IF] | 0x2 else s.mem[IF];
    var flags2 := if coincide && st & 0x40 != 0 then flags1 | 0x2 else flags1;
    ShowModeStores(s, status, line, c);
    var r := ShowMode(s, status, line, c);
    assert r.mem == s.mem[IF := flags2][LCD_STATUS := st];
  }

  /** The display-on half, for any mode choice: only the status and
      interrupt request registers change, and the status keeps the chosen
      low bits and bits 3-7, with bit 2 showing the coincidence. */
  lemma ShowModeStatus(s: MemState, status: Byte, line: Byte, c: ModeChoice)
    requires s.Valid()
    ensures var r := ShowMode(s, status, line, c);
      var st := r.mem[LCD_STATUS];
      && r == s.(mem := r.mem)
      && r.mem == s.mem[IF := r.mem[IF]][LCD_STATUS := st]
      && st & 0x3 == c.status & 0x3
      && (st & 0x4 != 0 <==> line == s.mem[COINCIDENCE_FLAG])
      && st & 0xF8 == c.status & 0xF8
  {
    ShowModeFrame(s, status, line, c);
    CoincidenceBit(c.status, line == s.mem[COINCIDENCE_FLAG]);
  }

  /** With the display on the status update is ShowMode of the chosen mode
      on the current scanline. */
  lemma LcdOnStatus(ss: ScreenState, mode2Bounds: int, mode3Bounds: int)
    requires ss.Valid() && LcdEnabled(ss.mem)
    ensures var s := ss.mem;
      var status := s.mem[LCD_STATUS];
      var line := s.mem[CURRENT_SCANLINE];
      LcdStatus(ss, mode2Bounds, mode3Bounds)
        == ss.(mem := ShowMode(s, status, line, ChooseMode(status, line, ss.counter, mode2Bounds, mode3Bounds)))
  {
  }

  /** With the display on the status update keeps the counter and every byte
      but the status and interrupt request registers; the status shows the
      mode ModeOf gives, its bit 2 is set exactly when the scanline equals
      the compare register, and bits 3-7 are kept. */
  lemma StatusShowsMode(ss: ScreenState, mode2Bounds: int, mode3Bounds: int)
    requires ss.Valid() && LcdEnabled(ss.mem)
    ensures var r := LcdStatus(ss, mode2Bounds, mode3Bounds);
      var s := ss.mem;
      var status := r.mem.mem[LCD_STATUS];
      && r.counter == ss.counter
      && r.mem == s.(mem := r.mem.mem)
      && r.mem.mem == s.mem[IF := r.mem.mem[IF]][LCD_STATUS := status]
      && status & 0x3 == ModeOf(s.mem[CURRENT_SCANLINE], ss.counter, mode2Bounds, mode3Bounds)
      && (status & 0x4 != 0 <==> s.mem[CURRENT_SCANLINE] == s.mem[COINCIDENCE_FLAG])
      && status & 0xF8 == s.mem[LCD_STATUS] & 0xF8
  {
    var s := ss.mem;
    var c := ChooseMode(s.mem[LCD_STATUS], s.mem[CURRENT_SCANLINE], ss.counter, mode2Bounds, mode3Bounds);
    LcdOnStatus(ss, mode2Bounds, mode3Bounds);
    ChooseModeShowsMode(s.mem[LCD_STATUS], s.mem[CURRENT_SCANLINE], ss.counter, mode2Bounds, mode3Bounds);
    ShowModeStatus(s, s.mem[LCD_STATUS], s.mem[CURRENT_SCANLINE], c);
    HighBitsAgree(c.status, s.mem[LCD_STATUS]);
  }

  /** With the display on the status update sets interrupt request bit 1
      exactly when the mode changes into one whose interrupt the status
      enables, or the scanline equals the compare register and status bit
      6 is set; no other request bit changes. */
  lemma StatusRequestsInterrupt(ss: ScreenState, mode2Bounds: int, mode3Bounds: int)
    requires ss.Valid() && LcdEnabled(ss.mem)
    ensures var r := LcdStatus(ss, mode2Bounds, mode3Bounds);
      var s := ss.mem;
      var status := s.mem[LCD_STATUS];
      var line := s.mem[CURRENT_SCANLINE];
      var mode := ModeOf(line, ss.counter, mode2Bounds, mode3Bounds);
      var request := (mode != status & 0x3 && EnablesModeInterrupt(status, mode))
                     || (line == s.mem[COINCIDENCE_FLAG] && status & 0x40 != 0);
      r.mem.mem[IF] == if request then s.mem[IF] | 0x2 else s.mem[IF]
  {
    var s := ss.mem;
    var c := ChooseMode(s.mem[LCD_STATUS], s.mem[CURRENT_SCANLINE], ss.counter, mode2Bounds, mode3Bounds);
    LcdOnStatus(ss, mode2Bounds, mode3Bounds);
    ShowModeStores(s, s.mem[LCD_STATUS], s.mem[CURRENT_SCANLINE], c);
    ChooseModeShowsMode(s.mem[LCD_STATUS], s.mem[CURRENT_SCANLINE], ss.counter, mode2Bounds, mode3Bounds);
  }

  // ---------------------------------------------------------------------
  // The screen update

  /** With the display off an update is the status update alone: the
      counter restarts, the scanline is 0, the status shows mode 1, nothing
      is counted down and nothing is drawn. */
  lemma UpdateWithLcdOff(ss: ScreenState, cycles: int, mode2Bounds: int, mode3Bounds: int)
    requires ss.Valid() && !LcdEnabled(ss.mem)
    ensures var r := UpdateScreen(ss, cycles, mode2Bounds, mode3Bounds);
      && r == LcdStatus(ss, mode2Bounds, mode3Bounds)
      && r.counter == SCANLINE_CYCLES
      && r.buffer == ss.buffer
      && r.mem.mem[CURRENT_SCANLINE] == 0
      && r.mem.mem[LCD_STATUS] & 0x3 == 1
  {
    LcdOffStatus(ss, mode2Bounds, mode3Bounds);
  }

  /** With the display on and cycles left on the scanline, an update counts
      the cycles down, keeps the scanline and draws nothing. */
  lemma UpdateCountsDown(ss: ScreenState, cycles: int, mode2Bounds: int, mode3Bounds: int)
    requires ss.Valid() && LcdEnabled(ss.mem) && ss.counter - cycles > 0
    ensures var r := UpdateScreen(ss, cycles, mode2Bounds, mode3Bounds);
      && r.counter == ss.counter - cycles
      && r.buffer == ss.buffer
      && r.mem.mem[CURRENT_SCANLINE] == ss.mem.mem[CURRENT_SCANLINE]
  {
    StatusShowsMode(ss, mode2Bounds, mode3Bounds);
  }

  /** The end of a scanline, spelled out on the backing store. */
  lemma AdvanceScanlineStores(ss: ScreenState)
    requires ss.Valid()
    ensures var r := AdvanceScanline(ss);
      var next := ss.mem.mem[CURRENT_SCANLINE] + 1;
      && r.counter == SCANLINE_CYCLES
      && (next == 144 ==>
            r.mem.mem == ss.mem.mem[CURRENT_SCANLINE := 144][IF := ss.mem.mem[IF] | 0x1] && r.buffer == ss.buffer)
      && (next > 153 ==> r.mem.mem == ss.mem.mem[CURRENT_SCANLINE := 0] && r.buffer == ss.buffer)
      && (144 < next <= 153 ==> r.mem.mem == ss.mem.mem[CURRENT_SCANLINE := next] && r.buffer == ss.buffer)
      && (next < 144 ==> r.mem.mem == ss.mem.mem[CURRENT_SCANLINE := next] && r.buffer == DrawScanline(ss.buffer, r.mem))
  {
  }

  /** At the end of a scanline (display on, counter run out) the counter
      restarts at 456 and the scanline register moves to the next line:
      line 144 requests the vertical blank interrupt, a line past 153
      becomes 0, and a visible line is drawn. */
  lemma UpdateEndsScanline(ss: ScreenState, cycles: int, mode2Bounds: int, mode3Bounds: int)
    requires ss.Valid() && LcdEnabled(ss.mem) && ss.counter - cycles <= 0
    ensures var r := UpdateScreen(ss, cycles, mode2Bounds, mode3Bounds);
      var t := LcdStatus(ss, mode2Bounds, mode3Bounds);
      var next := ss.mem.mem[CURRENT_SCANLINE] + 1;
      && r.counter == SCANLINE_CYCLES
      && (next == 144 ==>
            r.mem.mem == t.mem.mem[CURRENT_SCANLINE := 144][IF := t.mem.mem[IF] | 0x1] && r.buffer == ss.buffer)
      && (next > 153 ==> r.mem.mem == t.mem.mem[CURRENT_SCANLINE := 0] && r.buffer == ss.buffer)
      && (144 < next <= 153 ==> r.mem.mem == t.mem.mem[CURRENT_SCANLINE := next] && r.buffer == ss.buffer)
      && (next < 144 ==> r.mem.mem == t.mem.mem[CURRENT_SCANLINE := next] && r.buffer == DrawScanline(ss.buffer, r.mem))
  {
    var t := LcdStatus(ss, mode2Bounds, mode3Bounds);
    StatusShowsMode(ss, mode2Bounds, mode3Bounds);
    assert t.mem.mem[CURRENT_SCANLINE] == ss.mem.mem[CURRENT_SCANLINE];
    assert UpdateScreen(ss, cycles, mode2Bounds, mode3Bounds) == AdvanceScanline(t);
    AdvanceScanlineStores(t);
  }
}
