/** Crash-safe store over two 1 KB flash blocks (src/flash.c).

    `data` is the block the application reads; `code` is the back-up block.
    An erase and the programming of one 16-bit word are atomic, and the power
    may fail between any two of them.  Programming can only clear bits. */
module Flash {

  const SIZE := 1024
  const MAGIC_LEN := 4

  // Atomic steps of a full back-up or restore: one erase and 512 words.
  const BLOCK_STEPS := 513
  const WRITE_STEPS := 2 * BLOCK_STEPS
  const FORMAT_STEPS := 3

  type uint16 = n: nat | n < 0x1_0000
  type Bytes = s: seq<bv8> | |s| < 0x1_0000
  type Block = b: seq<bv8> | |b| == SIZE witness seq(SIZE, _ => 0)

  datatype Store = Store(data: Block, code: Block)

  datatype Option<+T> = None | Some(value: T)

  /** A uint32_t magic as its four little-endian bytes: byte k is what
      `magic >> 8 * k` stores, and two words are equal when their bytes are. */
  type Magic = m: seq<bv8> | |m| == MAGIC_LEN witness [0, 0, 0, 0]

  /** The erased pattern, which the store cannot tell from a written magic. */
  const NO_MAGIC: Magic := [0xff, 0xff, 0xff, 0xff]

  predicate MagicOk(b: Block, magic: Magic) {
    b[..MAGIC_LEN] == magic
  }

  /** What programming makes of a cell: bits only go from 1 to 0. */
  function Burn(cell: bv8, v: bv8): bv8 {
    cell & v
  }

  // ----- What an operation leaves behind when cut after k atomic steps ----

  /** Byte i after the bytes of a write request are laid over `base`.  The end of
      the range is computed in 16 bits, as the caller's two uint16_t values are. */
  function Overlay(base: Block, offset: uint16, bytes: Bytes): Block {
    seq(SIZE, i requires 0 <= i < SIZE => OverlayByte(base, offset, bytes, i))
  }

  function OverlayByte(base: Block, offset: uint16, bytes: Bytes, i: nat): bv8
    requires i < SIZE
  {
    if offset <= i < (offset + |bytes|) % 0x1_0000 then bytes[i - offset] else base[i]
  }

  /** An erased block after the top `words` words of `img` were programmed. */
  function Partial(img: Block, words: nat): Block {
    seq(SIZE, i requires 0 <= i < SIZE => if SIZE - 2 * words <= i then img[i] else 0xff)
  }

  /** A freshly formatted block: the magic and nothing else. */
  function Formatted(magic: Magic): Block {
    FormattedUpTo(magic, MAGIC_LEN)
  }

  function FormattedUpTo(word: seq<bv8>, n: nat): Block
    requires n <= |word|
  {
    seq(SIZE, i requires 0 <= i < SIZE => if i < n then word[i] else 0xff)
  }

  function RestoreCut(s: Store, k: nat): Store {
    if k == 0 then s else s.(data := Partial(s.code, k - 1))
  }

  function WriteCut(s: Store, offset: uint16, bytes: Bytes, k: nat): Store {
    if offset < MAGIC_LEN || k == 0 then s
    else
      var img := Overlay(s.data, offset, bytes);
      if k <= BLOCK_STEPS then s.(code := Partial(img, k - 1))
      else RestoreCut(s.(code := img), k - BLOCK_STEPS)
  }

  function FormatCut(s: Store, magic: Magic, k: nat): Store {
    if k == 0 then s
    else s.(data := FormattedUpTo(magic, if k == 1 then 0 else if k == 2 then 2 else MAGIC_LEN))
  }

  function InitCut(s: Store, magic: Magic, force: bool, k: nat): Store {
    if MagicOk(s.data, magic) then s
    else if MagicOk(s.code, magic) then RestoreCut(s, k)
    else if force then FormatCut(s, magic, k)
    else s
  }

  function WriteSteps(offset: uint16): nat {
    if offset < MAGIC_LEN then 0 else WRITE_STEPS
  }

  function InitSteps(s: Store, magic: Magic, force: bool): nat {
    if MagicOk(s.data, magic) then 0
    else if MagicOk(s.code, magic) then BLOCK_STEPS
    else if force then FORMAT_STEPS
    else 0
  }

  lemma BurnErased(v: bv8)
    ensures Burn(0xff, v) == v
  {
  }

  /** Programming the next word of an erased tail acts as an assignment. */
  lemma PartialStep(b: Block, img: Block, k: nat)
    requires k < SIZE / 2 && b == Partial(img, k)
    ensures var i := SIZE - 2 - 2 * k;
      b[i := Burn(b[i], img[i])][i + 1 := Burn(b[i + 1], img[i + 1])] == Partial(img, k + 1)
  {
    hide Burn;
    BurnErased(img[SIZE - 2 - 2 * k]);
    BurnErased(img[SIZE - 1 - 2 * k]);
  }

  lemma FormatStep(b: Block, word: seq<bv8>, n: nat)
    requires n + 2 <= |word| <= SIZE && b == FormattedUpTo(word, n)
    ensures b[n := Burn(b[n], word[n])][n + 1 := Burn(b[n + 1], word[n + 1])] == FormattedUpTo(word, n + 2)
  {
    hide Burn;
    BurnErased(word[n]);
    BurnErased(word[n + 1]);
  }

  /** How a call ends when `power` steps are left: the blocks, whether it
      returned at all, and then what it returned. */
  datatype Outcome = Outcome(store: Store, alive: bool, result: bool)

  function AfterInit(s: Store, magic: Magic, force: bool, power: nat): Outcome {
    var steps := InitSteps(s, magic, force);
    Outcome(InitCut(s, magic, force, Min(steps, power)), power >= steps,
            MagicOk(s.data, magic) || MagicOk(s.code, magic) || force)
  }

  function AfterWrite(s: Store, offset: uint16, bytes: Bytes, power: nat): Outcome {
    var steps := WriteSteps(offset);
    Outcome(WriteCut(s, offset, bytes, Min(steps, power)), power >= steps, offset >= MAGIC_LEN)
  }

  function Min(a: nat, b: nat): nat {
    if a <= b then a else b
  }

  // ----- The driver -----------------------------------------------------

  /** The two blocks, the RAM copy of the magic, and `power`: the number of
      atomic flash steps that still succeed before the supply fails.  Every
      operation reports through `alive` whether it ran to its return. */
  class Driver {
    const data: array<bv8>
    const code: array<bv8>
    var magic: Magic
    var power: nat

    ghost predicate Valid()
      reads this
    {
      data != code && data.Length == SIZE && code.Length == SIZE
    }

    ghost function Blocks(): Store
      requires Valid()
      reads this, data, code
    {
      Store(data[..], code[..])
    }

    /** Erases a whole block in one atomic step. */
    method Erase(b: array<bv8>) returns (alive: bool)
      requires Valid() && (b == data || b == code)
      modifies this`power, b
      ensures alive <==> old(power) > 0
      ensures power == if alive then old(power) - 1 else 0
      ensures !alive ==> b[..] == old(b[..])
      ensures alive ==> forall i :: 0 <= i < SIZE ==> b[i] == 0xff
    {
      if power == 0 { return false; }
      power := power - 1;
      forall i | 0 <= i < SIZE { b[i] := 0xff; }
      return true;
    }

    /** Programs the word at byte address i in one atomic step; bits only go from 1 to 0. */
    method Program(b: array<bv8>, i: nat, hi: bv8, lo: bv8) returns (alive: bool)
      requires Valid() && (b == data || b == code)
      requires i + 1 < SIZE
      modifies this`power, b
      ensures alive <==> old(power) > 0
      ensures power == if alive then old(power) - 1 else 0
      ensures !alive ==> b[..] == old(b[..])
      ensures alive ==> b[..] == old(b[..])[i := Burn(old(b[i]), lo)][i + 1 := Burn(old(b[i + 1]), hi)]
    {
      hide Burn;
      if power == 0 { return false; }
      power := power - 1;
      b[i] := Burn(b[i], lo);
      b[i + 1] := Burn(b[i + 1], hi);
      return true;
    }

    /** Copies the back-up over the data block, magic last. */
    method Restore() returns (alive: bool)
      requires Valid()
      modifies this`power, data
      ensures alive <==> old(power) >= BLOCK_STEPS
      ensures power == if alive then old(power) - BLOCK_STEPS else 0
      ensures Blocks() == RestoreCut(old(Blocks()), if alive then BLOCK_STEPS else old(power))
    {
      hide Burn;
      alive := Erase(data);
      if !alive { return; }
      var i := SIZE - 2;
      ghost var words := 0;
      while i >= 0
        invariant 0 <= words <= SIZE / 2 && i == SIZE - 2 - 2 * words
        invariant power == old(power) - 1 - words
        invariant data[..] == Partial(code[..], words)
      {
        PartialStep(data[..], code[..], words);
        alive := Program(data, i, code[i + 1], code[i]);
        if !alive { return; }
        i, words := i - 2, words + 1;
      }
    }

    method Init(newMagic: Magic, force: bool) returns (alive: bool, result: bool)
      requires Valid()
      modifies this, data
      ensures magic == newMagic
      ensures Outcome(Blocks(), alive, result) == AfterInit(old(Blocks()), newMagic, force, old(power))
      ensures power == if alive then old(power) - InitSteps(old(Blocks()), newMagic, force) else 0
    {
      magic := newMagic;
      if data[..MAGIC_LEN] == magic { return true, true; }
      if code[..MAGIC_LEN] == magic {
        alive := Restore();
        return alive, true;
      }
      if !force { return true, false; }
      alive := Format();
      return alive, true;
    }

    /** The tail of `flash_init`: erase the data block and program the magic. */
    method Format() returns (alive: bool)
      requires Valid()
      modifies this`power, data
      ensures alive <==> old(power) >= FORMAT_STEPS
      ensures power == if alive then old(power) - FORMAT_STEPS else 0
      ensures Blocks() == FormatCut(old(Blocks()), magic, if alive then FORMAT_STEPS else old(power))
    {
      alive := Erase(data);
      if !alive { return; }
      alive := ProgramMagic(0);
      if !alive { return; }
      alive := ProgramMagic(2);
    }

    /** Programs bytes n and n + 1 of the magic. */
    method ProgramMagic(n: nat) returns (alive: bool)
      requires Valid() && n + 2 <= MAGIC_LEN
      requires data[..] == FormattedUpTo(magic, n)
      modifies this`power, data
      ensures alive <==> old(power) > 0
      ensures power == if alive then old(power) - 1 else 0
      ensures data[..] == FormattedUpTo(magic, if alive then n + 2 else n)
    {
      hide Burn;
      FormatStep(data[..], magic, n);
      alive := Program(data, n, magic[n + 1], magic[n]);
    }

    /** The first half of `flash_write`: erase the back-up block and program the
        new image into it, magic last. */
    method BackUp(offset: uint16, bytes: Bytes) returns (alive: bool)
      requires Valid() && offset >= MAGIC_LEN
      modifies this`power, code
      ensures alive <==> old(power) >= BLOCK_STEPS
      ensures power == if alive then old(power) - BLOCK_STEPS else 0
      ensures Blocks() == WriteCut(old(Blocks()), offset, bytes, if alive then BLOCK_STEPS else old(power))
    {
      hide Burn;
      alive := Erase(code);
      if !alive { return; }
      ghost var img := Overlay(data[..], offset, bytes);
      var end := (offset + |bytes|) % 0x1_0000;
      var i := SIZE - 2;
      ghost var words := 0;
      while i >= 0
        invariant 0 <= words <= SIZE / 2 && i == SIZE - 2 - 2 * words
        invariant power == old(power) - 1 - words
        invariant code[..] == Partial(img, words)
      {
        var hi := if offset <= i + 1 < end then bytes[i + 1 - offset] else data[i + 1];
        var lo := if offset <= i < end then bytes[i - offset] else data[i];
        assert hi == img[i + 1] && lo == img[i];
        PartialStep(code[..], img, words);
        alive := Program(code, i, hi, lo);
        if !alive { return; }
        i, words := i - 2, words + 1;
      }
    }

    method Write(offset: uint16, bytes: Bytes) returns (alive: bool, result: bool)
      requires Valid()
      modifies this`power, data, code
      ensures Outcome(Blocks(), alive, result) == AfterWrite(old(Blocks()), offset, bytes, old(power))
      ensures power == if alive then old(power) - WriteSteps(offset) else 0
    {
      if offset < MAGIC_LEN { return true, false; }
      alive := BackUp(offset, bytes);
      if !alive { return alive, true; }
      assert code[..] == Overlay(data[..], offset, bytes);
      alive := Restore();
      return alive, true;
    }

    /** Nothing keeps a read inside the block; `behind` is the memory after it. */
    method Read(offset: nat, size: nat, behind: seq<bv8>) returns (result: bool, bytes: seq<bv8>)
      requires Valid() && offset + size <= SIZE + |behind|
      ensures result <==> MagicOk(data[..], magic)
      ensures bytes == if result then (data[..] + behind)[offset..offset + size] else []
      ensures result && offset + size <= SIZE ==> bytes == data[offset..offset + size]
    {
      bytes := [];
      if data[..MAGIC_LEN] != magic { return false, bytes; }
      ghost var memory := data[..] + behind;
      for i := 0 to size
        invariant bytes == memory[offset..offset + i]
      {
        bytes := bytes + [if offset + i < SIZE then data[offset + i] else behind[offset + i - SIZE]];
      }
      return true, bytes;
    }
  }
}
