/** The NV10-family tiling model: the status word a tile region reports for a
    pitch, the linear-to-tiled address mapping, and the bank shift derived from
    the global memory configuration word. All values are 32-bit unsigned
    integers of the C source, modelled as bv32 so that shifts, sums and
    products wrap exactly as they do there. */
module TileModel {
  import opened Wrappers

  /** The sentinel compute_status returns for a pitch with no status word. */
  const INVALID: bv32 := 0xffff_ffff

  /** The only bits a pitch may have set. */
  const PITCH_MASK: bv32 := 0xff00

  /** The four normalised pitch shapes, indexed by their factor. */
  const PitchShapes: seq<bv32> := [0x100, 0x300, 0x500, 0x700]

  /** The cell-bits table of get_bankshift, per partition configuration;
      it has three initialisers, so entry 3 is zero. */
  function CellBits(partcfg: int): int
  {
    if partcfg == 0 then 3 else if partcfg == 1 then 4 else if partcfg == 2 then 2 else 0
  }

  /** A pitch compute_status accepts at all (it aborts on any other). */
  predicate WellFormedPitch(pitch: bv32) {
    pitch & !PITCH_MASK == 0
  }

  /** The normalising loop of compute_status as a recursion: a non-zero
      multiple of 0x100 below 0x10000 is shifted right until bit 8 is set.
      The result is the normalised value and the number of shifts. */
  function Normalise(q: bv32): (bv32, nat)
    requires q != 0 && q & 0xff == 0 && q <= 0xffff
    decreases q
  {
    if q & 0x100 != 0 then (q, 0)
    else
      var (norm, shift) := Normalise(q >> 1);
      (norm, shift + 1)
  }

  /** The loop stops after at most seven shifts, and what it stops at is
      the input shifted right by the count, with bit 8 set and bits 0..7 clear. */
  lemma {:induction false} NormaliseFacts(q: bv32)
    requires q != 0 && q & 0xff == 0 && q <= 0xffff
    ensures Normalise(q).1 <= 7 && Normalise(q).0 == q >> Normalise(q).1
    ensures Normalise(q).0 & 0x1ff == 0x100
    decreases q
  {
    if q & 0x100 == 0 {
      NormaliseFacts(q >> 1);
    }
  }

  /** One step of the normalising loop keeps its precondition and adds one
      to the shift count. */
  lemma NormaliseStep(q: bv32, next: bv32)
    requires q != 0 && q & 0xff == 0 && q <= 0xffff && q & 0x100 == 0
    requires next == q >> 1
    ensures next != 0 && next & 0xff == 0 && next <= 0xffff
    ensures Normalise(q).0 == Normalise(next).0 && Normalise(q).1 == Normalise(next).1 + 1
  {
  }

  /** The switch at the end of compute_status: the status word of a
      normalised pitch and its shift count, or INVALID. */
  function StatusCase(norm: bv32, shift: nat): bv32
    requires shift <= 7
  {
    if shift == 0 then INVALID
    else if norm == 0x100 then 0 | ((shift as bv32) << 4)
    else if norm == 0x300 then 1 | ((shift as bv32) << 4)
    else if norm == 0x500 then 2 | ((shift as bv32) << 4)
    else if norm == 0x700 then 3 | ((shift as bv32) << 4)
    else INVALID
  }

  /** The status word of a well-formed pitch, or INVALID. It is either
      the sentinel or a status word with factor 0..3 and shift 1..7, which
      is never 0 and leaves the enable bit clear. */
  function StatusOf(pitch: bv32): (status: bv32)
    requires WellFormedPitch(pitch)
    ensures status == INVALID || (IsStatusWord(status) && 0 < status < 0x80)
  {
    if pitch == 0 then INVALID
    else
      NormaliseFacts(pitch);
      StatusCaseShape(Normalise(pitch).0, Normalise(pitch).1);
      StatusCase(Normalise(pitch).0, Normalise(pitch).1)
  }

  /** Every branch of the switch gives the sentinel or a status word. */
  lemma StatusCaseShape(norm: bv32, shift: nat)
    requires shift <= 7
    ensures StatusCase(norm, shift) == INVALID || (IsStatusWord(StatusCase(norm, shift)) && 0 < StatusCase(norm, shift) < 0x80)
  {
    if shift != 0 {
      StatusWordFields(0, shift as bv32);
      StatusWordFields(1, shift as bv32);
      StatusWordFields(2, shift as bv32);
      StatusWordFields(3, shift as bv32);
    }
  }
  /** A pitch for which the hardware has a status word. */
  predicate ValidPitch(pitch: bv32) {
    WellFormedPitch(pitch) && StatusOf(pitch) != INVALID
  }

  /** The factor field (low nibble) of a status word. */
  function Factor(status: bv32): bv32 { status & 0xf }

  /** The shift field of a status word. */
  function Shift(status: bv32): bv32 { status >> 4 }

  /** A status word as compute_status can produce it. */
  predicate IsStatusWord(status: bv32) {
    Factor(status) < 4 && 1 <= Shift(status) <= 7
  }

  /** The pitch a status word stands for: the shape of its factor, shifted. */
  function PitchOfStatus(status: bv32): bv32
    requires IsStatusWord(status)
  {
    PitchShapes[Factor(status)] << Shift(status)
  }

  /** compute_status: the status word of a pitch, by the source's loop. */
  method ComputeStatus(pitch0: bv32) returns (status: bv32)
    requires WellFormedPitch(pitch0)
    ensures status == StatusOf(pitch0)
  {
    if pitch0 == 0 {
      return INVALID;
    }
    NormaliseFacts(pitch0);
    var pitch := pitch0;
    var shift: nat := 0;
    while pitch & 0x100 == 0
      invariant pitch != 0 && pitch & 0xff == 0 && pitch <= 0xffff
      invariant Normalise(pitch).0 == Normalise(pitch0).0
      invariant Normalise(pitch).1 + shift == Normalise(pitch0).1
      decreases pitch
    {
      var next := pitch >> 1;
      NormaliseStep(pitch, next);
      pitch := next;
      shift := shift + 1;
    }
    assert Normalise(pitch) == (pitch, 0);
    assert StatusOf(pitch0) == StatusCase(pitch, shift);
    if shift == 0 {
      return INVALID;
    }
    if pitch == 0x100 {
      status := 0 | ((shift as bv32) << 4);
    } else if pitch == 0x300 {
      status := 1 | ((shift as bv32) << 4);
    } else if pitch == 0x500 {
      status := 2 | ((shift as bv32) << 4);
    } else if pitch == 0x700 {
      status := 3 | ((shift as bv32) << 4);
    } else {
      status := INVALID;
    }
  }

  /** Pitch zero and every pitch already normalised (bit 8 set) have no
      status word; in particular neither 0x100 nor 0x300 is valid. */
  lemma InvalidPitches(pitch: bv32)
    requires WellFormedPitch(pitch)
    requires pitch == 0 || pitch & 0x100 != 0
    ensures StatusOf(pitch) == INVALID
  {
  }

  /** The fields of `factor | shift << 4` are factor and shift. */
  lemma StatusWordFields(factor: bv32, shift: bv32)
    requires factor < 4 && 1 <= shift <= 7
    ensures Factor(factor | (shift << 4)) == factor && Shift(factor | (shift << 4)) == shift
    ensures factor | (shift << 4) < 0x80 && factor | (shift << 4) != 0
  {
  }

  /** A valid status word has factor 0..3 and shift 1..7, and is never 0;
      its shift and factor are those of the normalised pitch. */
  lemma StatusShape(pitch: bv32)
    requires ValidPitch(pitch)
    ensures IsStatusWord(StatusOf(pitch))
    ensures StatusOf(pitch) < 0x80 && StatusOf(pitch) != 0
    ensures Normalise(pitch).1 <= 7 && Shift(StatusOf(pitch)) == Normalise(pitch).1 as bv32
    ensures PitchShapes[Factor(StatusOf(pitch))] == Normalise(pitch).0
  {
    NormaliseFacts(pitch);
    assert 1 <= Normalise(pitch).1 as bv32 <= 7;
    if Normalise(pitch).0 == 0x100 {
      StatusWordFields(0, Normalise(pitch).1 as bv32);
    } else if Normalise(pitch).0 == 0x300 {
      StatusWordFields(1, Normalise(pitch).1 as bv32);
    } else if Normalise(pitch).0 == 0x500 {
      StatusWordFields(2, Normalise(pitch).1 as bv32);
    } else {
      StatusWordFields(3, Normalise(pitch).1 as bv32);
    }
  }

  /** Round trip: the status word of a valid pitch decodes to that pitch. */
  lemma StatusRoundTrip(pitch: bv32)
    requires ValidPitch(pitch)
    ensures IsStatusWord(StatusOf(pitch))
    ensures PitchOfStatus(StatusOf(pitch)) == pitch
  {
    StatusShape(pitch);
    NormaliseFacts(pitch);
    var (norm, shift) := Normalise(pitch);
    // the shifted-out bits are the clear bits 8 .. 8 + shift - 1 and 0 .. 7
    assert norm == pitch >> shift && norm & 0xff == 0;
    assert norm << shift == pitch;
  }

  /** The converse direction: every shape shifted by 1..7 that is a
      well-formed pitch gets exactly the status word `factor | shift << 4`. */
  lemma StatusOfShape(factor: bv32, shift: bv32)
    requires factor < 4 && 1 <= shift <= 7
    requires WellFormedPitch(PitchShapes[factor] << shift)
    ensures StatusOf(PitchShapes[factor] << shift) == factor | (shift << 4)
  {
    var shape := PitchShapes[factor];
    var pitch := shape << shift;
    assert shape & 0x1ff == 0x100;
    NormaliseFacts(pitch);
    var (norm, r) := Normalise(pitch);
    // bit 8 + shift is the lowest set bit of the pitch, so the normalising
    // shift count is exactly `shift`
    assert r as bv32 == shift;
    assert norm == shape;
  }

  /** compute_status is injective on valid pitches. */
  lemma StatusInjective(p: bv32, q: bv32)
    requires ValidPitch(p) && ValidPitch(q)
    requires StatusOf(p) == StatusOf(q)
    ensures p == q
  {
    StatusRoundTrip(p);
    StatusRoundTrip(q);
  }

  /** The largest valid pitch is 0xe000 (shape 0x700 shifted by 5). */
  lemma LargestValidPitch(pitch: bv32)
    requires ValidPitch(pitch)
    ensures pitch <= 0xe000
  {
    StatusRoundTrip(pitch);
    var s := StatusOf(pitch);
    assert pitch == PitchShapes[Factor(s)] << Shift(s);
  }

  /** Concrete status words. */
  lemma StatusExamples()
    ensures StatusOf(0x200) == 0x10 && StatusOf(0x600) == 0x11
    ensures StatusOf(0xa00) == 0x12 && StatusOf(0xe00) == 0x13
    ensures StatusOf(0xe000) == 0x53 && StatusOf(0x8000) == 0x70
    ensures StatusOf(0x100) == INVALID && StatusOf(0x300) == INVALID
    ensures StatusOf(0) == INVALID && StatusOf(0xff00) == INVALID
  {
    StatusOfShape(0, 1);
    StatusOfShape(1, 1);
    StatusOfShape(2, 1);
    StatusOfShape(3, 1);
    StatusOfShape(3, 5);
    StatusOfShape(0, 7);
  }

  /** The shift of a valid pitch's status word. */
  function PitchShift(pitch: bv32): (shift: bv32)
    requires ValidPitch(pitch)
    ensures 1 <= shift <= 7
  {
    StatusShape(pitch);
    StatusOf(pitch) >> 4
  }

  /** A valid pitch is a non-zero multiple of 256. */
  lemma ValidPitchAligned(pitch: bv32)
    requires ValidPitch(pitch)
    ensures pitch != 0 && pitch & 0xff == 0
  {
  }

  // translate_addr names its intermediate values x (laddr % pitch), y
  // (laddr / pitch), ix, iy, tx and ty; the last four are functions here, and
  // the address is assembled from x and y as parameters, so that proofs about
  // the bit layout never have to reason about the division itself.

  /** ix: the byte within a tile line. */
  function ColumnByte(x: bv32): bv32 {
    x & 0xff
  }

  /** iy: the line within a tile. It is taken from the linear address shifted
      by the pitch's status shift, not from y. */
  function IntraRow(laddr: bv32, shift: bv32, bankshift: bv32): bv32
    requires shift <= 7 && 8 <= bankshift < 32
  {
    (laddr >> (shift + 8)) & ((1 << (bankshift - 8)) - 1)
  }

  /** tx: the tile column. */
  function TileColumn(x: bv32): bv32 {
    x >> 8
  }

  /** ty: the tile row. */
  function TileRow(y: bv32, bankshift: bv32): bv32
    requires 8 <= bankshift < 32
  {
    y >> (bankshift - 8)
  }

  /** Every part of the pre-flip address except the byte within the line. */
  function TileOffset(iy: bv32, tx: bv32, ty: bv32, pitch: bv32, bankshift: bv32): bv32
    requires 8 <= bankshift < 32
  {
    (iy << 8) + (tx << bankshift) + ty * (pitch << (bankshift - 8))
  }

  /** The address translate_addr computes before its two bit flips, from
      the pitch, its status shift, the linear address and its column x and
      row y. */
  function PreFlipAddr(pitch: bv32, shift: bv32, laddr: bv32, x: bv32, y: bv32, bankshift: bv32): bv32
    requires shift <= 7 && 8 <= bankshift < 32
  {
    ColumnByte(x)
      + TileOffset(IntraRow(laddr, shift, bankshift), TileColumn(x), TileRow(y, bankshift), pitch, bankshift)
  }

  /** Bank interleave: odd tile rows have bit `bankshift` flipped. */
  function BankFlip(addr: bv32, ty: bv32, bankshift: bv32): bv32
    requires bankshift < 32
  {
    if ty & 1 != 0 then addr ^ (1 << bankshift) else addr
  }

  /** The partition-flip quirk: bit 0x10 flips where bit 0x100 is set. */
  function PartitionFlip(addr: bv32, partflip: bool): bv32 {
    if partflip && addr & 0x100 != 0 then addr ^ 0x10 else addr
  }

  /** The address after the bank flip and before the partition flip. */
  function Banked(pitch: bv32, shift: bv32, laddr: bv32, x: bv32, y: bv32, bankshift: bv32): bv32
    requires shift <= 7 && 8 <= bankshift < 32
  {
    BankFlip(PreFlipAddr(pitch, shift, laddr, x, y, bankshift), TileRow(y, bankshift), bankshift)
  }

  /** The tiled address assembled from x and y, with both flips applied. */
  function Tiled(pitch: bv32, shift: bv32, laddr: bv32, x: bv32, y: bv32, bankshift: bv32, partflip: bool): bv32
    requires shift <= 7 && 8 <= bankshift < 32
  {
    PartitionFlip(Banked(pitch, shift, laddr, x, y, bankshift), partflip)
  }

  /** translate_addr: the tiled address of linear address `laddr`. Without
      the partition flip, the byte within the tile line is the low byte of
      the column `laddr % pitch`. */
  function TranslateAddr(pitch: bv32, laddr: bv32, bankshift: bv32, partflip: bool): (a: bv32)
    requires ValidPitch(pitch) && 8 <= bankshift < 32
    ensures !partflip ==> a & 0xff == (laddr % pitch) & 0xff
  {
    ValidPitchAligned(pitch);
    TiledLowByte(pitch, PitchShift(pitch), laddr, laddr % pitch, laddr / pitch, bankshift);
    Tiled(pitch, PitchShift(pitch), laddr, laddr % pitch, laddr / pitch, bankshift, partflip)
  }

  /** BankFlip changes bit `bankshift` exactly when the tile row is odd. */
  lemma BankFlipXor(addr: bv32, ty: bv32, bankshift: bv32)
    requires bankshift < 32
    ensures BankFlip(addr, ty, bankshift) ^ addr == (if ty & 1 == 1 then 1 << bankshift else 0)
  {
  }

  /** PartitionFlip changes bit 0x10 exactly when bit 0x100 is set. */
  lemma PartitionFlipXor(addr: bv32)
    ensures PartitionFlip(addr, true) ^ PartitionFlip(addr, false) == (if addr & 0x100 != 0 then 0x10 else 0)
  {
  }

  /** The line, tile-column and tile-row parts are multiples of 256 when the
      pitch is and the bank shift is at least 8. */
  lemma TileOffsetLowByte(iy: bv32, tx: bv32, ty: bv32, pitch: bv32, bankshift: bv32)
    requires pitch & 0xff == 0 && 8 <= bankshift < 32
    ensures TileOffset(iy, tx, ty, pitch, bankshift) & 0xff == 0
  {
    assert (pitch << (bankshift - 8)) & 0xff == 0;
    assert (ty * (pitch << (bankshift - 8))) & 0xff == 0;
  }

  /** The low byte of the pre-flip address is the low byte of x. */
  lemma PreFlipLowByte(pitch: bv32, shift: bv32, laddr: bv32, x: bv32, y: bv32, bankshift: bv32)
    requires pitch & 0xff == 0 && shift <= 7 && 8 <= bankshift < 32
    ensures PreFlipAddr(pitch, shift, laddr, x, y, bankshift) & 0xff == x & 0xff
  {
    TileOffsetLowByte(IntraRow(laddr, shift, bankshift), TileColumn(x), TileRow(y, bankshift), pitch, bankshift);
  }

  /** Without the partition flip, the low byte of the tiled address is the
      low byte of x: the bank flip is above bit 7. */
  lemma TiledLowByte(pitch: bv32, shift: bv32, laddr: bv32, x: bv32, y: bv32, bankshift: bv32)
    requires pitch & 0xff == 0 && shift <= 7 && 8 <= bankshift < 32
    ensures Tiled(pitch, shift, laddr, x, y, bankshift, false) & 0xff == x & 0xff
  {
    PreFlipLowByte(pitch, shift, laddr, x, y, bankshift);
  }

  /** Without the partition flip, the tiled address differs from the
      pre-flip address exactly in bit `bankshift`, exactly for odd tile rows. */
  lemma TiledBankFlip(pitch: bv32, shift: bv32, laddr: bv32, x: bv32, y: bv32, bankshift: bv32)
    requires shift <= 7 && 8 <= bankshift < 32
    ensures Tiled(pitch, shift, laddr, x, y, bankshift, false) ^ PreFlipAddr(pitch, shift, laddr, x, y, bankshift)
              == (if TileRow(y, bankshift) & 1 == 1 then 1 << bankshift else 0)
  {
  }

  /** The partition flip of translate_addr is applied last, to the address
      the translation has without it (PartitionFlipXor says what it changes). */
  lemma TranslatePartFlip(pitch: bv32, laddr: bv32, bankshift: bv32)
    requires ValidPitch(pitch) && 8 <= bankshift < 32
    ensures TranslateAddr(pitch, laddr, bankshift, true)
              == PartitionFlip(TranslateAddr(pitch, laddr, bankshift, false), true)
  {
  }

  /** Bit `mask` of a word, as the int 0 or 1. */
  function BitOf(cfg: bv32, mask: bv32): int { if cfg & mask != 0 then 1 else 0 }

  /** The colbits field (bits 24..27) of the configuration word, as the int
      get_bankshift holds it. */
  function ColBits(cfg: bv32): int {
    BitOf(cfg, 0x0100_0000) + 2 * BitOf(cfg, 0x0200_0000) + 4 * BitOf(cfg, 0x0400_0000) + 8 * BitOf(cfg, 0x0800_0000)
  }

  /** The partition configuration field (bits 4..5), as an int. */
  function PartCfg(cfg: bv32): int {
    BitOf(cfg, 0x10) + 2 * BitOf(cfg, 0x20)
  }

  /** The two fields hold what the shifts and masks of the source extract,
      as far as the guards of the lowering walk read them. */
  lemma ConfigFields(cfg: bv32)
    ensures ColBits(cfg) > 8 <==> (cfg >> 24) & 0xf > 8
    ensures PartCfg(cfg) == 0 <==> (cfg >> 4) & 3 == 0
    ensures PartCfg(cfg) == 1 <==> (cfg >> 4) & 3 == 1
    ensures PartCfg(cfg) == 2 <==> (cfg >> 4) & 3 == 2
  {
    NibbleAboveEight(cfg);
  }

  /** The two fields are exactly `cfg >> 24 & 0xf` and `cfg >> 4 & 3`. */
  lemma FieldValues(cfg: bv32)
    ensures ColBits(cfg) == ((cfg >> 24) & 0xf) as int
    ensures PartCfg(cfg) == ((cfg >> 4) & 3) as int
  {
  }

  lemma NibbleAboveEight(cfg: bv32)
    ensures (cfg >> 24) & 0xf > 8 <==> cfg & 0x0800_0000 != 0 && cfg & 0x0700_0000 != 0
    ensures cfg & 0x0700_0000 != 0 <==>
              cfg & 0x0100_0000 != 0 || cfg & 0x0200_0000 != 0 || cfg & 0x0400_0000 != 0
  {
  }

  /** get_bankshift, applied to the configuration word it reads. Partition
      configuration 3 reads the implicitly zero fourth cell-bits entry, so
      the bank shift never exceeds 15 + 4. */
  function BankShift(cfg: bv32): (bs: int)
    ensures 0 <= bs <= 19
    ensures PartCfg(cfg) == 3 ==> bs == ColBits(cfg)
  {
    ColBits(cfg) + CellBits(PartCfg(cfg))
  }

  /** The bit fields of the configuration word the walk below may change:
      colbits (24..27) and the partition configuration (4..5). */
  const WALK_BITS: bv32 := 0x0f00_0030

  /** `next` is one bank shift below `cfg` and differs from it only in the
      colbits and partition configuration fields. */
  predicate StepsDown(cfg: bv32, next: bv32) {
    BankShift(next) + 1 == BankShift(cfg) && (next ^ cfg) & !WALK_BITS == 0
  }

  /** One step of the bank-shift lowering walk in test_format_bs: drop
      colbits by one while it exceeds 8, else move partition configuration 1
      to 0, else 0 to 2 (not on chipset 0x10); None where none applies.
      Every step lowers the bank shift by exactly one and touches only the
      colbits and partition configuration fields. */
  function LowerStep(cfg: bv32, chipset: bv32): (next: Option<bv32>)
    ensures next.Some? ==> StepsDown(cfg, next.value)
  {
    if ColBits(cfg) > 8 then
      ColBitsDown(cfg);
      Some(cfg - (1 << 24))
    else if PartCfg(cfg) == 1 then
      PartCfgCleared(cfg);
      Some(cfg & 0xffff_ffcf)
    else if PartCfg(cfg) == 0 && chipset != 0x10 then
      PartCfgRaised(cfg);
      Some(cfg | 0x20)
    else None
  }

  /** Subtracting 1 << 24 from a colbits above 8 takes one off the field
      without a borrow out of it. */
  lemma ColBitsDown(cfg: bv32)
    requires ColBits(cfg) > 8
    ensures ColBits(cfg - (1 << 24)) == ColBits(cfg) - 1 && PartCfg(cfg - (1 << 24)) == PartCfg(cfg)
    ensures StepsDown(cfg, cfg - (1 << 24))
  {
    FieldValues(cfg);
    FieldValues(cfg - (1 << 24));
    NibbleDown(cfg);
  }

  /** The same on the word: with the colbits nibble above 8 the subtraction
      stays inside the nibble. */
  lemma NibbleDown(cfg: bv32)
    requires (cfg >> 24) & 0xf > 8
    ensures ((cfg - (1 << 24)) >> 24) & 0xf == ((cfg >> 24) & 0xf) - 1
    ensures ((cfg - (1 << 24)) >> 4) & 3 == (cfg >> 4) & 3
    ensures ((cfg - (1 << 24)) ^ cfg) & !WALK_BITS == 0
  {
  }

  /** Clearing bits 4..5 turns partition configuration 1 into 0. */
  lemma PartCfgCleared(cfg: bv32)
    requires PartCfg(cfg) == 1
    ensures ColBits(cfg & 0xffff_ffcf) == ColBits(cfg) && PartCfg(cfg & 0xffff_ffcf) == 0
    ensures StepsDown(cfg, cfg & 0xffff_ffcf)
  {
  }

  /** Setting bit 5 turns partition configuration 0 into 2. */
  lemma PartCfgRaised(cfg: bv32)
    requires PartCfg(cfg) == 0
    ensures ColBits(cfg | 0x20) == ColBits(cfg) && PartCfg(cfg | 0x20) == 2
    ensures StepsDown(cfg, cfg | 0x20)
  {
  }

  /** A step is refused exactly when colbits is at most 8 and the partition
      configuration is 2 or 3, or 0 on chipset 0x10. */
  lemma LowerStepRefused(cfg: bv32, chipset: bv32)
    ensures LowerStep(cfg, chipset).None? <==>
              ColBits(cfg) <= 8 && (PartCfg(cfg) >= 2 || (PartCfg(cfg) == 0 && chipset == 0x10))
  {
    assert PartCfg(cfg) <= 3;
  }

  /** The whole walk from `cfg` down to bank shift `bs`: the configuration
      word it leaves in place, or None where a step is refused. A walk that
      succeeds ends at exactly the requested bank shift. */
  function Walk(cfg: bv32, bs: int, chipset: bv32): (r: Option<bv32>)
    requires bs <= BankShift(cfg)
    ensures r.Some? ==> BankShift(r.value) == bs
    decreases BankShift(cfg)
  {
    if bs == BankShift(cfg) then Some(cfg)
    else match LowerStep(cfg, chipset)
      case None => None
      case Some(next) => Walk(next, bs, chipset)
  }

  /** A step taken while above the target keeps the walk at or above it. */
  lemma WalkStepBound(cfg: bv32, bs: int, chipset: bv32, next: bv32)
    requires bs < BankShift(cfg) && LowerStep(cfg, chipset) == Some(next)
    ensures bs <= BankShift(next) < BankShift(cfg)
  {
  }

  /** Unfolding one step of the walk. */
  lemma WalkStep(cfg: bv32, bs: int, chipset: bv32, next: bv32)
    requires bs < BankShift(cfg) && LowerStep(cfg, chipset) == Some(next)
    requires bs <= BankShift(next)
    ensures Walk(cfg, bs, chipset) == Walk(next, bs, chipset)
  {
  }

  /** A walk that succeeds has changed only the colbits and partition
      configuration fields. */
  lemma {:induction false} WalkKeepsOtherBits(cfg: bv32, bs: int, chipset: bv32)
    requires bs <= BankShift(cfg)
    requires Walk(cfg, bs, chipset).Some?
    ensures (Walk(cfg, bs, chipset).value ^ cfg) & !WALK_BITS == 0
    decreases BankShift(cfg)
  {
    if bs != BankShift(cfg) {
      match LowerStep(cfg, chipset)
      case Some(next) =>
        WalkStepBound(cfg, bs, chipset, next);
        WalkStep(cfg, bs, chipset, next);
        WalkKeepsOtherBits(next, bs, chipset);
        XorMaskTrans(Walk(next, bs, chipset).value, next, cfg, WALK_BITS);
    }
  }

  /** Agreement outside a mask is transitive. */
  lemma XorMaskTrans(a: bv32, b: bv32, c: bv32, mask: bv32)
    requires (a ^ b) & !mask == 0 && (b ^ c) & !mask == 0
    ensures (a ^ c) & !mask == 0
  {
    assert a ^ c == (a ^ b) ^ (b ^ c);
  }
}
