/** The joypad: eight key states that the emulator latches into the memory
    unit as two nibbles, buttons and directions, where a pressed key drives
    its line to 0. The memory unit then rebuilds the input register P1 and
    requests the joypad interrupt when a selected line falls. */
module Input {
  import opened Hardware
  import opened MemoryMap
  import MemoryLaws
  import AddressSpace

  /** The level of a key. The discriminants are 0 for pressed and 1 for
      released, which is what a pressed key pulls its line down to. */
  datatype KeyState = Pressed | Released

  /** The inputs the front end reports; `Unknown` stands for any other key. */
  datatype GameInput = A | B | Start | Select | Up | Down | Left | Right | Unknown

  /** The eight key states the joypad keeps. */
  datatype Keys = Keys(a: KeyState, b: KeyState, start: KeyState, select: KeyState,
                       right: KeyState, left: KeyState, up: KeyState, down: KeyState)

  /** Every key released, the state a new joypad starts in. */
  const AllReleased: Keys :=
    Keys(Released, Released, Released, Released, Released, Released, Released, Released)

  /** The state of the key that `input` names. */
  function KeyOf(keys: Keys, input: GameInput): (k: KeyState)
    requires input != Unknown
    ensures keys == AllReleased ==> k == Released
  {
    match input
    case A => keys.a
    case B => keys.b
    case Start => keys.start
    case Select => keys.select
    case Up => keys.up
    case Down => keys.down
    case Left => keys.left
    case Right => keys.right
  }

  /** Records that the key `input` is now `val`; an unknown input changes
      nothing. */
  function LogKey(keys: Keys, input: GameInput, val: KeyState): (r: Keys)
    ensures forall g :: g != Unknown ==> KeyOf(r, g) == (if g == input then val else KeyOf(keys, g))
    ensures input == Unknown ==> r == keys
  {
    match input
    case A => keys.(a := val)
    case B => keys.(b := val)
    case Start => keys.(start := val)
    case Select => keys.(select := val)
    case Up => keys.(up := val)
    case Down => keys.(down := val)
    case Left => keys.(left := val)
    case Right => keys.(right := val)
    case Unknown => keys
  }

  /** The line level of a key as a byte: the key state's discriminant. */
  function KeyBit(k: KeyState): (b: Byte)
    ensures b <= 1 && (b == 0 <==> k == Pressed)
  {
    if k == Pressed then 0 else 1
  }

  /** Four key levels packed into bits 0 to 3; the high nibble is clear and
      bit i is set exactly when the i-th key is released. */
  function Nibble(k0: KeyState, k1: KeyState, k2: KeyState, k3: KeyState): (n: Byte)
    ensures n & 0xF0 == 0
    ensures MemoryLaws.Bit(n, 0) <==> k0 == Released
    ensures MemoryLaws.Bit(n, 1) <==> k1 == Released
    ensures MemoryLaws.Bit(n, 2) <==> k2 == Released
    ensures MemoryLaws.Bit(n, 3) <==> k3 == Released
  {
    KeyBit(k0) | (KeyBit(k1) << 1) | (KeyBit(k2) << 2) | (KeyBit(k3) << 3)
  }

  /** The button on line `k`: A, B, Select, Start for lines 0 to 3. */
  function ButtonKey(keys: Keys, k: nat): (r: KeyState)
    requires k < 4
    ensures r == KeyOf(keys, [A, B, Select, Start][k])
  {
    if k == 0 then keys.a else if k == 1 then keys.b else if k == 2 then keys.select else keys.start
  }

  /** The direction on line `k`: Right, Left, Up, Down for lines 0 to 3. */
  function DirectionKey(keys: Keys, k: nat): (r: KeyState)
    requires k < 4
    ensures r == KeyOf(keys, [Right, Left, Up, Down][k])
  {
    if k == 0 then keys.right else if k == 1 then keys.left else if k == 2 then keys.up else keys.down
  }

  /** The button nibble handed to the memory unit. */
  function ButtonNibble(keys: Keys): (n: Byte)
    ensures n & 0xF0 == 0
    ensures forall k: nat :: k < 4 ==> (MemoryLaws.Bit(n, k) <==> ButtonKey(keys, k) == Released)
  {
    Nibble(keys.a, keys.b, keys.select, keys.start)
  }

  /** The direction nibble handed to the memory unit. */
  function DirectionNibble(keys: Keys): (n: Byte)
    ensures n & 0xF0 == 0
    ensures forall k: nat :: k < 4 ==> (MemoryLaws.Bit(n, k) <==> DirectionKey(keys, k) == Released)
  {
    Nibble(keys.right, keys.left, keys.up, keys.down)
  }

  /** What latching `keys` does to the memory unit. */
  function Latch(s: MemState, keys: Keys): (r: MemState)
    requires s.Valid()
    ensures r.Valid()
  {
    UpdateJoypadState(s, ButtonNibble(keys), DirectionNibble(keys))
  }

  class Joypad {
    /** The memory unit the joypad shares with the rest of the emulator. */
    const memory: AddressSpace.Memory
    var a: KeyState
    var b: KeyState
    var start: KeyState
    var select: KeyState
    var right: KeyState
    var left: KeyState
    var up: KeyState
    var down: KeyState

    ghost predicate Valid()
      reads this, memory
    {
      memory.Valid()
    }

    /** The abstract value of the joypad's own fields. */
    ghost function KeyStates(): Keys
      reads this
    {
      Keys(a, b, start, select, right, left, up, down)
    }

    constructor (memory: AddressSpace.Memory)
      requires memory.Valid()
      ensures Valid() && this.memory == memory && KeyStates() == AllReleased
    {
      this.memory := memory;
      a, b, start, select := Released, Released, Released, Released;
      right, left, up, down := Released, Released, Released, Released;
    }

    /** Records one key event and latches every key into the memory unit. */
    method LogInput(input: GameInput, val: KeyState)
      requires Valid()
      modifies this, memory, memory.mem, memory.extRam
      ensures Valid() && KeyStates() == LogKey(old(KeyStates()), input, val)
      ensures memory.State() == Latch(old(memory.State()), KeyStates())
    {
      match input {
        case A => a := val;
        case B => b := val;
        case Start => start := val;
        case Select => select := val;
        case Up => up := val;
        case Down => down := val;
        case Left => left := val;
        case Right => right := val;
        case Unknown =>
      }
      WriteInputToMem();
    }

    /** Packs the keys into the button and direction nibbles and hands them
        to the memory unit. */
    method WriteInputToMem()
      requires Valid()
      modifies memory, memory.mem, memory.extRam
      ensures Valid()
      ensures memory.State() == Latch(old(memory.State()), KeyStates())
    {
      var buttons: Byte := 0;
      buttons := buttons | KeyBit(a);
      buttons := buttons | (KeyBit(b) << 1);
      buttons := buttons | (KeyBit(select) << 2);
      buttons := buttons | (KeyBit(start) << 3);

      var directions: Byte := 0;
      directions := directions | KeyBit(right);
      directions := directions | (KeyBit(left) << 1);
      directions := directions | (KeyBit(up) << 2);
      directions := directions | (KeyBit(down) << 3);

      assert buttons == ButtonNibble(KeyStates());
      assert directions == DirectionNibble(KeyStates());
      memory.UpdateJoypadState(buttons, directions);
    }
  }
}
