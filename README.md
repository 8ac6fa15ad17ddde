# CHIP-8 interpreter core (chip8-rs), modelled in Dafny

This project models the three emulation components of the chip8-rs CHIP-8
interpreter and proves properties of them:

- `memory.dfy`, module `Ram`: the 4096-byte address space (`Memory`), a class
  over a fixed `array<bv8>` with bulk load, byte access and big-endian word
  access. Each access outside the store is a fatal index error in
  chip8-rs, so each operation carries its exact in-bounds precondition.
- `screen.dfy`, module `Display`: the 64 x 32 boolean framebuffer (`Screen`),
  a class over a fixed `array<bool>` with `Clear` and the XOR sprite `Draw`.
  `Draw` keeps the source's nested loops. It is proved against a pure
  specification. `Hits` lists the cells the loops toggle, in visiting order.
  `Toggles` folds the toggles over the buffer and accumulates the collision
  flag. The lemmas say what that fold means: which cells flip, when the
  collision flag is raised, that drawing twice restores the screen, that
  blank sprites change nothing, and that every index lies below 2048.
- `cpu.dfy`, module `Processor`: the nibble pack/unpack helpers, the
  `Instruction` type, decoding, and the `CPU` record with `PressKey`,
  `ScreenBuffer`, `IsSoundPlaying`, `Fetch`, `Tick` and `TickTimers`.

Modelling conventions:

- Rust `u8`/`u16` values that the source uses as numbers are the newtypes
  `Uint8` and `Uint16`. These include addresses, coordinates, the program
  counter and the timers. A debug build panics when arithmetic on them
  overflows, and Dafny checks the same on the newtypes. The preconditions
  of `Fetch` (`pc + 1 < 4096`) and of `Draw` (`i + rows <= 4096`) are the
  memory index bounds, and these already keep the `u16` additions
  `pc + 2` and `i + row` in range. Only `Draw`'s `NoU8Overflow` (`x + column`
  and `y + row` must fit in a `u8`) comes from the overflow checks. Bytes
  and words that the source handles bit by bit are `bv8` and `bv16`.
- A panic on a bad index or an overflow becomes a precondition. The one
  error every input reaches is the failure of `decode`, which is modelled
  as a value: `Decode` returns `Err(UnimplementedOpcode(opcode))`.
- `Draw`'s overflow precondition `NoU8Overflow` is exact. It constrains
  only the columns and rows whose sprite bit is set, because the source
  adds `x + x_line` and `y + y_line` only for those. A release build wraps
  these additions instead. That gives the same cell, because 256 is a
  multiple of both 64 and 32.
- A sprite of more than 32 rows can toggle the same cell twice. The general
  statement about cells is therefore by parity (`ToggledCell`, `DrawCell`).
  For sprites of at most 32 rows, `DrawWithinHeightCells` says exactly which
  cells flip. `DrawWithinHeightCollision` says that the collision flag is
  raised iff one of those cells was lit before the draw.

Where this code departs from usual CHIP-8 practice (programs start at
0x200, a full opcode table, a processor that draws into a screen), the model
follows the code:

- The program counter starts at 0 (src/cpu.rs:91), not at the ROM base
  0x200. `FirstTickScenario` shows the consequence. With a ROM loaded at
  0x200, the first cycle fetches the word at address 0.
- `decode` rejects every opcode (src/cpu.rs:119-123) and `execute` is empty
  (src/cpu.rs:125). No instruction semantics exist in the code, so none are
  modelled.
- The processor keeps its own 2048-cell pixel array (src/cpu.rs:75) and does
  not use `Screen`. Nothing in the processor draws into it.

`TimerStep`, `TimerAfter`, `SoundActive`,
`ColumnOf`, `RowOf`, `BitSet`, `NoU8Overflow`, `Visited`, `SomeLitHit`,
`SomeLitCell`, `Odd` and `Distinct` are plain lookups or
definitions without contracts of their own. What they mean is stated by the
members that use them in the table below.

## Model

| member | source | states |
|---|---|---|
| `Ram.Memory.constructor` | src/memory.rs:7-9 | A new store holds 4096 bytes, all zero. |
| `Ram.Memory.Size` | src/memory.rs:11-13 | The store's size is 4096. |
| `Ram.Memory.ReadU8` | src/memory.rs:26-28 | Requires `pos < 4096`. Returns the byte at `pos`, which is the high byte of the big-endian word `ReadU16(pos)` whenever that word exists. `Load` and `WriteU8` read back through it. |
| `Ram.Memory.ReadU16` | src/memory.rs:20-24 | Requires `pos + 1 < 4096`. The word's high byte is the byte at `pos` and its low byte the byte at `pos + 1` (big-endian). |
| `Ram.Memory.Load` | src/memory.rs:15-18 | Requires `pos + len(src) <= 4096`. Afterwards the cells `pos .. pos + len(src)` read back as `src`, and every other cell keeps its old value. |
| `Ram.Memory.WriteU8` | src/memory.rs:37-39 | Requires `pos < 4096`. Afterwards the byte at `pos` is `val` (as `read_u8` sees it), and no other cell changes. |
| `Ram.Memory.WriteU16` | src/memory.rs:30-35 | Requires `pos + 1 < 4096`. Stores `val >> 8` at `pos` and the low byte at `pos + 1`, and nothing else changes. `ReadU16(pos)` then returns `val`. |
| `Ram.LoadScenario` | src/memory.rs:52-60 | After loading 64 bytes of 0xFF at 1024 into a fresh store, bytes 1024 and 1087 are 0xFF and byte 1088 is still 0. |
| `Ram.ReadWriteU8Scenario` | src/memory.rs:62-69 | After writing 0xFF at 0 of a fresh store, it reads back and byte 1 is still 0. |
| `Ram.ReadWriteU16Scenario` | src/memory.rs:71-78 | After writing 0xFFFF at 0 of a fresh store, the words at 0, 1 and 2 read 0xFFFF, 0xFF00 and 0. |
| `Display.Cell` | src/screen.rs:29-31 | The cell index is below 2048. Its column is `(x + c) mod 64` and its row is `(y + r) mod 32`: the sprite wraps instead of being clipped. |
| `Display.RowHits` | src/screen.rs:27-31 | Every cell visited by one sprite row has an index below 2048. |
| `Display.Hits` | src/screen.rs:25-31 | Every cell visited by the draw loops has an index below 2048. |
| `Display.Toggles` | src/screen.rs:33-34 | Toggling cells one by one while accumulating the flag keeps the buffer's length. |
| `Display.DrawSprite` | src/screen.rs:23-39 | Drawing keeps the buffer at 2048 cells. |
| `Display.SpriteAt` | src/screen.rs:25-26 | The sprite has `rows` rows, and row `r` is the byte at `i + r`. |
| `Display.ToggledCell` | src/screen.rs:33-34 | A cell ends up flipped exactly when it was toggled an odd number of times; otherwise it keeps its value. |
| `Display.ToggleStep` | src/screen.rs:33-34 | Toggling one more cell flips it and ORs its previous value into the flag. |
| `Display.CollisionOfDistinct` | src/screen.rs:24-38 | When no cell is toggled twice, the flag is true iff some toggled cell was lit before the draw. |
| `Display.LitHitIsLitCell` | src/screen.rs:25-33 | If some visited cell is lit, then some set bit of the sprite lands on a lit cell. |
| `Display.LitCellIsLitHit` | src/screen.rs:25-33 | If some set bit of the sprite lands on a lit cell, then some visited cell is lit. |
| `Display.TogglesTwice` | src/screen.rs:33-34 | Applying the same toggles twice restores the buffer. |
| `Display.CellCoordinates` | src/screen.rs:29-31 | A cell's column and row offsets from `(x, y)` give back the sprite column and row, modulo 64 and 32. |
| `Display.RowHitsMember` | src/screen.rs:27-31 | A cell is visited by a row iff some set bit of that row (MSB first) lands on it. |
| `Display.HitsMember` | src/screen.rs:25-31 | A cell is visited by the draw iff some set bit of some row lands on it. |
| `Display.RowHitsDistinct` | src/screen.rs:27-31 | One row never visits a cell twice, and all its cells lie in screen row `(y + r) mod 32`. |
| `Display.HitsDistinct` | src/screen.rs:25-31 | With at most 32 rows, the draw never visits a cell twice. |
| `Display.HitsRowsDistinct` | src/screen.rs:25-31 | The first `n <= 32` rows never visit a cell twice, and every cell they visit lies within `n` screen rows below `y` (wrapping). |
| `Display.VisitColumn` | src/screen.rs:27-34 | Visiting column `c` of row `r` toggles cell `Cell(x, y, r, c)` and ORs its previous value into the flag exactly when bit `c` (MSB first) is set; otherwise nothing changes. |
| `Display.DrawCell` | src/screen.rs:25-35 | A cell that no set bit lands on is unchanged. Any other cell flips iff it is hit an odd number of times. |
| `Display.DrawWithinHeightCell` | src/screen.rs:25-35 | With at most 32 rows, a cell changes iff the draw visits it. |
| `Display.DrawWithinHeightCells` | src/screen.rs:25-35 | With at most 32 rows, a cell changes iff some set bit `c` of some row `r` lands on it at `((x+c) mod 64) + 64*((y+r) mod 32)`. |
| `Display.DrawWithinHeightCollision` | src/screen.rs:24-38 | With at most 32 rows, the draw reports a collision iff some cell a set bit lands on was lit before the draw. |
| `Display.DrawBlank` | src/screen.rs:25-28 | Drawing no rows, or rows with no bit set, leaves the buffer unchanged and returns false. |
| `Display.DrawTwiceRestores` | src/screen.rs:34 | Drawing the same sprite at the same place twice restores the buffer. |
| `Display.FullRowTwice` | src/screen.rs:23-39 | Drawing an all-set 8x1 sprite on a blank screen returns false. Drawing it again returns true and leaves the screen blank. |
| `Display.WrapAtRightEdge` | src/screen.rs:29-31 | Drawing an all-set 8x1 sprite at (60, 0) on a blank screen lights columns 60-63 and 0-3 of row 0 and nothing else, without collision. |
| `Display.Screen.constructor` | src/screen.rs:11-13 | A new screen has 2048 unlit cells. |
| `Display.Screen.Buffer` | src/screen.rs:15-17 | The buffer handed out has 2048 cells. |
| `Display.Screen.Clear` | src/screen.rs:19-21 | Afterwards every cell is unlit. |
| `Display.Screen.Draw` | src/screen.rs:23-39 | Requires that every sprite row read lies below 4096, and that `x + c` and `y + r` fit in a `u8` for every set bit. The new buffer and the returned flag are those of `DrawSprite` on the old buffer and the sprite read from memory. |
| `Processor.U8FromNibbles` | src/cpu.rs:3-5 | For nibbles `a, b < 16`, the result is `a*16 + b`. |
| `Processor.U16FromNibbles` | src/cpu.rs:12-14 | For nibbles below 16, the result is `n1*0x1000 + n2*0x100 + n3*0x10 + n4`. |
| `Processor.U8ToNibbles` | src/cpu.rs:21-23 | Both halves are below 16, `hi*16 + lo` is the byte, and packing them gives the byte back. |
| `Processor.U16ToNibbles` | src/cpu.rs:32-39 | All four parts are below 16, and packing them gives the word back. |
| `Processor.U8NibblesRoundTrip` | src/cpu.rs:3-23 | Splitting two packed nibbles gives them back. |
| `Processor.U16NibblesRoundTrip` | src/cpu.rs:12-39 | Splitting four packed nibbles gives them back. |
| `Processor.NibbleExamples` | src/cpu.rs:7-48 | Checks the source's test values: 0xA,0xB gives 0xAB; 0xA,0xB,0xC,0xD gives 0xABCD; and the inverse splits. |
| `Processor.Decode` | src/cpu.rs:119-123 | Every opcode fails to decode, and the failure names that opcode. |
| `Processor.TimerCountsDown` | src/cpu.rs:133-140 | After `n` frames, a timer that started at `t` holds `t - n` if `n < t` and 0 otherwise. It never goes below zero. |
| `Processor.SoundPlaysFor` | src/cpu.rs:109-111 | The tone (sound timer above 2) still plays after `n` frames iff `n + 2 < st`. |
| `Processor.CPU.constructor` | src/cpu.rs:87-99 | All V registers, I, DT and ST are 0. PC is 0 and SP is 0xFA0. All keys and pixels are off, and the memory is the one handed in. |
| `Processor.CPU.PressKey` | src/cpu.rs:101-103 | Requires `key < 16`. Sets `keys[key]` to `pressed`, and nothing else changes. |
| `Processor.CPU.ScreenBuffer` | src/cpu.rs:105-107 | The pixel buffer handed out has 2048 cells. |
| `Processor.CPU.IsSoundPlaying` | src/cpu.rs:109-111 | True iff ST > 2, so never while the sound timer is stopped at 0. `SoundPlaysFor` says how long it stays true. |
| `Processor.CPU.Fetch` | src/cpu.rs:113-117 | Requires `pc + 1 < 4096`. Returns the big-endian word at the old PC, advances PC by 2, and leaves memory unchanged. |
| `Processor.CPU.Tick` | src/cpu.rs:127-131 | Requires `pc + 1 < 4096`. PC advances by 2, and the cycle always ends in the fault `UnimplementedOpcode` for the fetched word. |
| `Processor.CPU.TickTimers` | src/cpu.rs:133-140 | DT and ST each take one timer step (down by one unless already 0), and nothing else changes. |
| `Processor.FirstTickScenario` | src/cpu.rs:87-131 | With a ROM loaded at 0x200 of a fresh store, the first cycle of a new processor fetches address 0. It fails on opcode 0 and leaves PC at 2. |
| `Processor.PressKeyScenario` | src/cpu.rs:101-103 | On a new processor, pressing key 3 and releasing key 5 leaves exactly key 3 down. |

## Left out

- src/main.rs is not part of this model. It holds the SDL window and event loop, frame pacing with wall-clock time, command-line parsing and the scancode-to-key mapping, all host input/output.
- src/buzzer.rs is not part of this model. It is an audio callback producing a floating-point square wave.
- src/rom.rs is not part of this model. It reads a file from disk. Only its load address 0x200 appears, as `Processor.RomBase`.
- The font table module is not part of this model. The scenarios load ROM bytes directly.
- `execute` (src/cpu.rs:125) has an empty body. `decode` fails before it is ever reached, so `Tick` stops at the decode fault and models no execution.
- The full CHIP-8 instruction set (arithmetic flags, BCD, call stack, key waits, sprite drawing by instruction) does not exist in this code and is not modelled.
- Ownership: `CPU::new` and `Screen::draw` take `Memory` by value, so the caller gives it up. The model passes a reference instead. The Rust type system's guarantee that nobody else keeps the memory is not modelled.
- Release-build wrapping of `u8`/`u16` arithmetic is not modelled. The model follows the overflow checks of a debug build, which turn into preconditions.
- `Processor.U8FromNibbles`: its contract describes the result only for inputs below 16. For wider inputs the function still computes the source's shift-and-or, but no contract states what that gives.
- `Processor.U16FromNibbles`: its contract describes the result only for inputs below 16, for the same reason.
