/**
 * The CHIP-8 address space: a fixed store of 4096 bytes, addressed by
 * 16-bit offsets. Every access outside the store is a fatal error in
 * chip8-rs, so every operation carries the in-bounds precondition.
 */
module Ram {

  /**
   * Rust's `u8` and `u16` where the source uses them as numbers (addresses,
   * coordinates, counters). A debug build panics when arithmetic on them
   * overflows; the newtypes make Dafny check the same. Bytes and words the
   * source handles bit by bit are `bv8` and `bv16`.
   */
  newtype Uint8 = x: int | 0 <= x < 0x100
  newtype Uint16 = x: int | 0 <= x < 0x1_0000

  /** Capacity of the store in bytes. */
  const RamSize: nat := 4096

  class Memory {
    /** The byte cells; the array itself never changes, only its contents. */
    const bytes: array<bv8>

    ghost predicate Valid() {
      bytes.Length == RamSize
    }

    /** A fresh store holds 4096 zero bytes. */
    constructor ()
      ensures Valid() && fresh(bytes)
      ensures forall k :: 0 <= k < RamSize ==> bytes[k] == 0
    {
      bytes := new bv8[RamSize](_ => 0);
    }

    /** Number of addressable bytes. */
    function Size(): (n: nat)
      requires Valid()
      ensures n == RamSize
    {
      bytes.Length
    }

    /** The byte at `pos`. */
    function ReadU8(pos: Uint16): (b: bv8)
      reads bytes
      requires Valid() && pos as int < RamSize
      ensures pos as int + 1 < RamSize ==> b == (ReadU16(pos) >> 8) as bv8
    {
      bytes[pos]
    }

    /** The big-endian word at `pos`: high byte at `pos`, low byte at `pos + 1`. */
    function ReadU16(pos: Uint16): (w: bv16)
      reads bytes
      requires Valid() && pos as int + 1 < RamSize
      ensures (w >> 8) as bv8 == bytes[pos] && (w & 0xFF) as bv8 == bytes[pos + 1]
    {
      var hi := bytes[pos] as bv16;
      var lo := bytes[pos + 1] as bv16;
      (hi << 8) | lo
    }

    /** Copies `src` into the cells `pos .. pos + |src|`; nothing else changes. */
    method Load(src: seq<bv8>, pos: Uint16)
      requires Valid() && pos as int + |src| <= RamSize
      modifies bytes
      ensures bytes[..] == old(bytes[..])[..pos] + src + old(bytes[..])[pos as int + |src|..]
      ensures forall k :: 0 <= k < |src| ==> ReadU8(pos + k as Uint16) == src[k]
    {
      forall k | pos as int <= k < pos as int + |src| {
        bytes[k] := src[k - pos as int];
      }
      assert bytes[..] == old(bytes[..])[..pos] + src + old(bytes[..])[pos as int + |src|..];
    }

    /** Stores `val` at `pos`; nothing else changes. */
    method WriteU8(pos: Uint16, val: bv8)
      requires Valid() && pos as int < RamSize
      modifies bytes
      ensures bytes[..] == old(bytes[..])[pos := val]
      ensures ReadU8(pos) == val
    {
      bytes[pos] := val;
    }

    /** Stores `val` big-endian at `pos` and `pos + 1`; nothing else changes. */
    method WriteU16(pos: Uint16, val: bv16)
      requires Valid() && pos as int + 1 < RamSize
      modifies bytes
      ensures bytes[..] == old(bytes[..])[pos := (val >> 8) as bv8][pos + 1 := (val & 0xFF) as bv8]
      ensures ReadU16(pos) == val
    {
      var hi := (val >> 8) as bv8;
      var lo := (val & 0xFF) as bv8;
      bytes[pos] := hi;
      bytes[pos + 1] := lo;
    }
  }

  /** Loading 64 bytes of 0xFF at 1024 into a fresh store: the range holds them, the byte after it stays 0. */
  method LoadScenario() returns (first: bv8, last: bv8, past: bv8)
    ensures first == 0xFF && last == 0xFF && past == 0
  {
    var mem := new Memory();
    mem.Load(seq(64, _ => 0xFF), 1024);
    first := mem.ReadU8(1024);
    last := mem.ReadU8(1024 + 63);
    past := mem.ReadU8(1024 + 64);
  }

  /** Writing 0xFF at 0 of a fresh store: it reads back, and the next byte is untouched. */
  method ReadWriteU8Scenario() returns (written: bv8, next: bv8)
    ensures written == 0xFF && next == 0
  {
    var mem := new Memory();
    mem.WriteU8(0, 0xFF);
    written := mem.ReadU8(0);
    next := mem.ReadU8(1);
  }

  /** Writing 0xFFFF at 0 of a fresh store: words at 0, 1 and 2 read 0xFFFF, 0xFF00 and 0. */
  method ReadWriteU16Scenario() returns (at0: bv16, at1: bv16, at2: bv16)
    ensures at0 == 0xFFFF && at1 == 0xFF00 && at2 == 0
  {
    var mem := new Memory();
    mem.WriteU16(0, 0xFFFF);
    at0 := mem.ReadU16(0);
    at1 := mem.ReadU16(1);
    at2 := mem.ReadU16(2);
  }
}
