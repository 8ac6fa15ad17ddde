/**
 * The CHIP-8 processor as far as it exists: nibble packing helpers, the
 * decoded-instruction type, and the register state with its key, timer
 * and fetch transitions. Decoding rejects every opcode, so a cycle
 * fetches a word and then fails.
 */
module Processor {
  import opened Ram

  const NumRegs: nat := 16
  const NumKeys: nat := 16
  /** The processor keeps its own 64 x 32 pixel buffer. */
  const ScreenSize: nat := 64 * 32
  /** Initial stack pointer. */
  const StackBase: Uint16 := 0xFA0
  /** Address at which the host loads the ROM image. */
  const RomBase: Uint16 := 0x200

  // ---------------------------------------------------------------------
  // Nibble helpers
  // ---------------------------------------------------------------------

  /** Packs a high and a low nibble into a byte. */
  function U8FromNibbles(n1: bv8, n2: bv8): (b: bv8)
    ensures n1 < 16 && n2 < 16 ==> b == n1 * 16 + n2
  {
    (n1 << 4) | n2
  }

  /** Packs four nibbles, most significant first, into a word. */
  function U16FromNibbles(n1: bv8, n2: bv8, n3: bv8, n4: bv8): (w: bv16)
    ensures n1 < 16 && n2 < 16 && n3 < 16 && n4 < 16 ==>
      w == (n1 as bv16) * 0x1000 + (n2 as bv16) * 0x100 + (n3 as bv16) * 0x10 + n4 as bv16
  {
    ((n1 as bv16) << 12) | ((n2 as bv16) << 8) | ((n3 as bv16) << 4) | n4 as bv16
  }

  /** Splits a byte into its high and low nibble; packing them again gives the byte back. */
  function U8ToNibbles(b: bv8): (n: (bv8, bv8))
    ensures n.0 < 16 && n.1 < 16
    ensures n.0 * 16 + n.1 == b
    ensures U8FromNibbles(n.0, n.1) == b
  {
    ((0xF0 & b) >> 4, 0x0F & b)
  }

  /** Splits a word into four nibbles, most significant first; packing them again gives the word back. */
  function U16ToNibbles(w: bv16): (n: (bv8, bv8, bv8, bv8))
    ensures n.0 < 16 && n.1 < 16 && n.2 < 16 && n.3 < 16
    ensures U16FromNibbles(n.0, n.1, n.2, n.3) == w
  {
    (((0xF000 & w) >> 12) as bv8,
     ((0x0F00 & w) >> 8) as bv8,
     ((0x00F0 & w) >> 4) as bv8,
     0x0F & (w & 0xFF) as bv8)
  }

  /** Splitting two packed nibbles gives them back. */
  lemma U8NibblesRoundTrip(n1: bv8, n2: bv8)
    requires n1 < 16 && n2 < 16
    ensures U8ToNibbles(U8FromNibbles(n1, n2)) == (n1, n2)
  {
  }

  /** Splitting four packed nibbles gives them back. */
  lemma U16NibblesRoundTrip(n1: bv8, n2: bv8, n3: bv8, n4: bv8)
    requires n1 < 16 && n2 < 16 && n3 < 16 && n4 < 16
    ensures U16ToNibbles(U16FromNibbles(n1, n2, n3, n4)) == (n1, n2, n3, n4)
  {
  }

  /** The worked values: 0xA, 0xB packs to 0xAB, and 0xABCD splits into 0xA, 0xB, 0xC, 0xD. */
  lemma NibbleExamples()
    ensures U8FromNibbles(0xA, 0xB) == 0xAB
    ensures U16FromNibbles(0xA, 0xB, 0xC, 0xD) == 0xABCD
    ensures U8ToNibbles(0xAB) == (0xA, 0xB)
    ensures U16ToNibbles(0xABCD) == (0xA, 0xB, 0xC, 0xD)
  {
  }

  // ---------------------------------------------------------------------
  // Instructions and decoding
  // ---------------------------------------------------------------------

  /** The decoded forms an opcode may take; none is produced yet. */
  datatype Instruction =
    | Clear
    | Return
    | Set(x: bv8, kk: bv8)
    | SetIndex(nnn: bv16)

  /** The fatal conditions of a cycle. */
  datatype Fault = UnimplementedOpcode(opcode: bv16)

  datatype Result<T> = Ok(value: T) | Err(fault: Fault)

  /** Decoding rejects every opcode, reporting the opcode it could not decode. */
  function Decode(opcode: bv16): (r: Result<Instruction>)
    ensures r.Err? && r.fault.opcode == opcode
  {
    match U16ToNibbles(opcode)
    case _ => Err(UnimplementedOpcode(opcode))
  }

  // ---------------------------------------------------------------------
  // Timers
  // ---------------------------------------------------------------------

  /** One frame of a timer: it counts down by one and stops at zero. */
  function TimerStep(t: Uint8): Uint8
  {
    if t > 0 then t - 1 else 0
  }

  /** A timer's value after `n` frames. */
  function TimerAfter(t: Uint8, n: nat): Uint8
  {
    if n == 0 then t else TimerAfter(TimerStep(t), n - 1)
  }

  /** The tone is on while the sound timer is above 2. */
  predicate SoundActive(st: Uint8)
  {
    st > 2
  }

  /** After `n` frames a timer has counted down by `n`, but never below zero. */
  lemma {:induction false} TimerCountsDown(t: Uint8, n: nat)
    ensures TimerAfter(t, n) as int == if n < t as int then t as int - n else 0
  {
    if n > 0 {
      TimerCountsDown(TimerStep(t), n - 1);
    }
  }

  /** Starting from `st`, the tone still plays after `n` frames exactly when `n + 2 < st`. */
  lemma SoundPlaysFor(st: Uint8, n: nat)
    ensures SoundActive(TimerAfter(st, n)) <==> n + 2 < st as int
  {
    TimerCountsDown(st, n);
  }

  // ---------------------------------------------------------------------
  // The processor state
  // ---------------------------------------------------------------------

  class CPU {
    /** General-purpose registers V0 to VF. */
    const v: array<bv8>
    /** Index register. */
    var i: Uint16
    /** Program counter. */
    var pc: Uint16
    /** Stack pointer. */
    var sp: Uint16
    /** Delay timer. */
    var dt: Uint8
    /** Sound timer. */
    var st: Uint8
    /** Which of the 16 keys are held down. */
    const keys: array<bool>
    /** The address space, handed over by the host. */
    const memory: Memory
    /** The pixel buffer reported to the host. */
    const screen: array<bool>

    ghost predicate Valid() {
      v.Length == NumRegs && keys.Length == NumKeys && screen.Length == ScreenSize &&
      keys != screen && memory.Valid()
    }

    /**
     * Takes over `memory`; registers, index, timers, keys and pixels start
     * cleared, the program counter at 0 and the stack pointer at 0xFA0.
     */
    constructor (memory: Memory)
      requires memory.Valid()
      ensures Valid() && this.memory == memory
      ensures fresh(v) && fresh(keys) && fresh(screen)
      ensures forall r :: 0 <= r < NumRegs ==> v[r] == 0
      ensures i == 0 && pc == 0 && sp == StackBase && dt == 0 && st == 0
      ensures forall k :: 0 <= k < NumKeys ==> !keys[k]
      ensures forall k :: 0 <= k < ScreenSize ==> !screen[k]
    {
      v := new bv8[NumRegs](_ => 0);
      i := 0;
      pc := 0;
      sp := StackBase;
      dt := 0;
      st := 0;
      keys := new bool[NumKeys](_ => false);
      this.memory := memory;
      screen := new bool[ScreenSize](_ => false);
    }

    /** Records that `key` is now held down or released; nothing else changes. */
    method PressKey(key: nat, pressed: bool)
      requires Valid() && key < NumKeys
      modifies keys
      ensures keys[..] == old(keys[..])[key := pressed]
    {
      keys[key] := pressed;
    }

    /** The pixels, for presentation. */
    function ScreenBuffer(): (b: seq<bool>)
      reads screen
      requires Valid()
      ensures |b| == ScreenSize
    {
      screen[..]
    }

    /** Whether the host should play the tone. */
    function IsSoundPlaying(): (playing: bool)
      reads this
      ensures playing <==> st > 2
      ensures playing ==> st != 0
    {
      SoundActive(st)
    }

    /** Reads the big-endian word at the program counter and steps past it. */
    method Fetch() returns (opcode: bv16)
      requires Valid() && pc as int + 1 < RamSize
      modifies this`pc
      ensures opcode == memory.ReadU16(old(pc))
      ensures pc == old(pc) + 2
      ensures unchanged(memory.bytes)
    {
      opcode := memory.ReadU16(pc);
      pc := pc + 2;
    }

    /**
     * One cycle: fetch, decode, execute. Decoding fails for every word, so
     * the cycle always ends in that fault, after the fetch has moved the
     * program counter.
     */
    method Tick() returns (outcome: Result<()>)
      requires Valid() && pc as int + 1 < RamSize
      modifies this`pc
      ensures pc == old(pc) + 2
      ensures outcome == Err(UnimplementedOpcode(memory.ReadU16(old(pc))))
    {
      var opcode := Fetch();
      var inst := Decode(opcode);
      // Executing an instruction changes nothing: its body is empty.
      outcome := if inst.Ok? then Ok(()) else Err(inst.fault);
    }

    /** One frame of both timers; nothing else changes. */
    method TickTimers()
      modifies this`dt, this`st
      ensures dt == TimerStep(old(dt)) && st == TimerStep(old(st))
    {
      if dt > 0 {
        dt := dt - 1;
      }
      if st > 0 {
        st := st - 1;
      }
    }
  }

  /**
   * The host loads a ROM at 0x200, but the program counter starts at 0, so
   * the first cycle fetches the word at address 0 of a fresh store and
   * fails on it.
   */
  method FirstTickScenario() returns (outcome: Result<()>, pc: Uint16)
    ensures outcome == Err(UnimplementedOpcode(0)) && pc == 2
  {
    var memory := new Memory();
    memory.Load([0x6A, 0x05, 0xFA, 0x1E], RomBase);
    var cpu := new CPU(memory);
    outcome := cpu.Tick();
    pc := cpu.pc;
  }

  /** Pressing key 3 and releasing key 5 on a fresh processor: only key 3 is down. */
  method PressKeyScenario() returns (down: seq<bool>)
    ensures down == seq(NumKeys, k => k == 3)
  {
    var memory := new Memory();
    var cpu := new CPU(memory);
    cpu.PressKey(3, true);
    cpu.PressKey(5, false);
    down := cpu.keys[..];
  }
}
