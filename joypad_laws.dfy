/** What latching key states into the memory unit shows in the input
    register P1 and when it requests the joypad interrupt. */
module InputLaws {
  import opened Hardware
  import opened MemoryMap
  import opened MemoryLaws
  import opened Input

  /** Line `k` of P1 is pulled low by key group selection bits `prev`: a
      selected group (bit 5 clear: buttons, bit 4 clear: directions) has its
      key on that line pressed. */
  predicate PulledLow(prev: Byte, keys: Keys, k: nat)
    requires k < 4
  {
    || (prev & 0x20 == 0 && ButtonKey(keys, k) == Pressed)
    || (prev & 0x10 == 0 && DirectionKey(keys, k) == Pressed)
  }

  /** Latching `keys` leaves P1 with its selection bits, bits 6 and 7 set,
      and each low line at 0 exactly when a selected key on it is pressed;
      no byte but P1 and IF changes. */
  lemma LatchShowsKeys(s: MemState, keys: Keys, k: nat)
    requires s.Valid() && k < 4
    ensures var r := Latch(s, keys);
      var prev := s.mem[INPUT_REGISTER];
      && Read(r, INPUT_REGISTER) & 0xF0 == (prev & 0x30) | 0xC0
      && (!Bit(Read(r, INPUT_REGISTER), k) <==> PulledLow(prev, keys, k))
      && (forall a :: 0 <= a < MEM_SIZE && a != INPUT_REGISTER && a != IF ==> r.mem[a] == s.mem[a])
  {
    var t := Latched(s, keys);
    RecomputeJoypadLines(t, k);
    RecomputeJoypadFrame(t);
    var prev := s.mem[INPUT_REGISTER];
    assert !Bit(t.joypadButtons, k) <==> ButtonKey(keys, k) == Pressed;
    assert !Bit(t.joypadDirections, k) <==> DirectionKey(keys, k) == Pressed;
  }

  /** The memory unit with the nibbles of `keys` latched, before P1 is
      rebuilt. */
  function Latched(s: MemState, keys: Keys): (t: MemState)
    requires s.Valid()
    ensures t.Valid() && t.mem == s.mem && RecomputeJoypad(t) == Latch(s, keys)
    ensures t.joypadButtons == ButtonNibble(keys) && t.joypadDirections == DirectionNibble(keys)
  {
    var bn, dn := ButtonNibble(keys), DirectionNibble(keys);
    LowNibble(bn);
    LowNibble(dn);
    s.(joypadButtons := bn & 0x0F, joypadDirections := dn & 0x0F)
  }

  lemma LowNibble(n: Byte)
    requires n & 0xF0 == 0
    ensures n & 0x0F == n
  {
  }

  /** Some low line falls from 1 to 0 between `prev` and `next`, spelled out
      line by line. */
  lemma FallingLine(prev: Byte, next: Byte)
    ensures (prev & 0x0F) & !(next & 0x0F) != 0 <==>
      || (Bit(prev, 0) && !Bit(next, 0)) || (Bit(prev, 1) && !Bit(next, 1))
      || (Bit(prev, 2) && !Bit(next, 2)) || (Bit(prev, 3) && !Bit(next, 3))
  {
  }

  /** Line `k` read high before and a selected key now pulls it low. */
  predicate Falls(s: MemState, keys: Keys, k: nat)
    requires s.Valid() && k < 4
  {
    var prev := s.mem[INPUT_REGISTER];
    Bit(prev, k) && PulledLow(prev, keys, k)
  }

  /** A line falls exactly when it read high before latching and reads low
      after. */
  lemma FallsIsFalling(s: MemState, keys: Keys, k: nat)
    requires s.Valid() && k < 4
    ensures Falls(s, keys, k) <==>
      Bit(s.mem[INPUT_REGISTER], k) && !Bit(Latch(s, keys).mem[INPUT_REGISTER], k)
  {
    LatchShowsKeys(s, keys, k);
  }

  /** Latching `keys` sets the joypad interrupt bit (bit 4 of IF) exactly
      when it was set already or some line that read high is now pulled low
      by a pressed, selected key. */
  lemma LatchInterrupt(s: MemState, keys: Keys)
    requires s.Valid()
    ensures Bit(Read(Latch(s, keys), IF), 4) <==>
      Bit(Read(s, IF), 4) || exists k: nat :: k < 4 && Falls(s, keys, k)
  {
    var t := Latched(s, keys);
    RecomputeJoypadInterrupt(t);
    FallingLine(s.mem[INPUT_REGISTER], Latch(s, keys).mem[INPUT_REGISTER]);
    FallsIsFalling(s, keys, 0);
    FallsIsFalling(s, keys, 1);
    FallsIsFalling(s, keys, 2);
    FallsIsFalling(s, keys, 3);
    if exists k: nat :: k < 4 && Falls(s, keys, k) {
      var k: nat :| k < 4 && Falls(s, keys, k);
      assert k == 0 || k == 1 || k == 2 || k == 3;
    }
  }

  /** Latching a set of keys where no line falls leaves IF as it was. */
  lemma LatchWithoutFallKeepsIF(s: MemState, keys: Keys)
    requires s.Valid()
    requires forall k: nat :: k < 4 ==> !Falls(s, keys, k)
    ensures Latch(s, keys).mem[IF] == s.mem[IF]
  {
    var t := Latched(s, keys);
    var prev := s.mem[INPUT_REGISTER];
    var next := (prev & 0x30) | 0xC0 | (JoypadLower(t, prev) & 0x0F);
    assert RecomputeJoypad(t).mem[INPUT_REGISTER] == next;
    FallingLine(prev, next);
    FallsIsFalling(s, keys, 0);
    FallsIsFalling(s, keys, 1);
    FallsIsFalling(s, keys, 2);
    FallsIsFalling(s, keys, 3);
    assert (prev & 0x0F) & !(next & 0x0F) == 0;
    assert RecomputeJoypad(t) == t.(mem := t.mem[INPUT_REGISTER := next]);
  }

  /** Releasing a key never pulls a line low that was not low before. */
  lemma ReleasePullsNoNewLine(prev: Byte, keys: Keys, input: GameInput, k: nat)
    requires k < 4
    ensures PulledLow(prev, LogKey(keys, input, Released), k) ==> PulledLow(prev, keys, k)
  {
  }

  /** Once the keys are latched, releasing one of them requests no
      interrupt, whatever IF holds in between: releases only raise lines. */
  lemma ReleaseRequestsNoInterrupt(s: MemState, keys: Keys, flags: Byte, input: GameInput)
    requires s.Valid()
    ensures var u := WriteForced(Latch(s, keys), IF, flags);
      Latch(u, LogKey(keys, input, Released)).mem[IF] == flags
  {
    var t := Latch(s, keys);
    var u := WriteForced(t, IF, flags);
    var released := LogKey(keys, input, Released);
    var prev := s.mem[INPUT_REGISTER];
    var shown := u.mem[INPUT_REGISTER];
    assert shown == t.mem[INPUT_REGISTER];
    forall k: nat | k < 4
      ensures !Falls(u, released, k)
    {
      LatchShowsKeys(s, keys, k);
      assert shown & 0x30 == prev & 0x30;
      SelectionAgrees(prev, shown);
      ReleasePullsNoNewLine(shown, keys, input, k);
    }
    LatchWithoutFallKeepsIF(u, released);
  }

  /** Two bytes with the same selection bits select the same key groups. */
  lemma SelectionAgrees(a: Byte, b: Byte)
    requires a & 0x30 == b & 0x30
    ensures (a & 0x20 == 0) == (b & 0x20 == 0) && (a & 0x10 == 0) == (b & 0x10 == 0)
  {
  }

  // ---------------------------------------------------------------------
  // The register values the joypad's own scenarios expect

  /** With only the buttons selected (P1 = 0xDF), pressing A shows 0xDE and
      requests the joypad interrupt. */
  lemma PressAWithButtonsSelected(s: MemState)
    requires s.Valid() && s.mem[INPUT_REGISTER] == 0xDF
    ensures var r := Latch(s, LogKey(AllReleased, A, Pressed));
      Read(r, INPUT_REGISTER) == 0xDE && Bit(Read(r, IF), 4)
  {
    var keys := LogKey(AllReleased, A, Pressed);
    assert Falls(s, keys, 0);
    LatchInterrupt(s, keys);
  }

  /** With only the directions selected (P1 = 0xEF), pressing Up shows 0xEB. */
  lemma PressUpWithDirectionsSelected(s: MemState)
    requires s.Valid() && s.mem[INPUT_REGISTER] == 0xEF
    ensures Read(Latch(s, LogKey(AllReleased, Up, Pressed)), INPUT_REGISTER) == 0xEB
  {
  }

  /** With no group selected (P1 = 0xFF), pressing A leaves P1 at 0xFF and
      IF unchanged. */
  lemma PressAWithNothingSelected(s: MemState)
    requires s.Valid() && s.mem[INPUT_REGISTER] == 0xFF
    ensures var r := Latch(s, LogKey(AllReleased, A, Pressed));
      Read(r, INPUT_REGISTER) == 0xFF && r.mem[IF] == s.mem[IF]
  {
  }
}
