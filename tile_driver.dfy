// The hardware test driver of hwtest/nv10_tile.c: the status and format
// tests, the bank-shift walk around the format test, and the fold of the
// test results into the process exit status.
//
// A card is a register file and a VRAM image, both maps the driver writes.
// What the hardware answers is not computed here: the status register and
// the tiled aperture are given as functions of the card's state (`statusHw`
// and `aperture`), and every contract is stated against those answers.

module TileDriver {
  import opened Wrappers
  import opened TileModel

  /** Register offsets of the memory controller used by the tests. */
  const CFG: int := 0x10_0200
  const CTRL: int := 0x10_0240
  const LIMIT: int := 0x10_0244
  const PITCH: int := 0x10_0248
  const STATUS: int := 0x10_024c

  /** The region-enable bit of the control register and of the status word. */
  const ENABLE: bv32 := 0x8000_0000
  /** The tag the format test puts on every VRAM word it writes. */
  const MARK: bv32 := 0xc000_0000
  /** The limit the format test programs for tile region 0. */
  const LIMIT_VALUE: bv32 := 0x000f_c000

  /** The tiled window compared against translate_addr, the untranslated
      window after it, and the extent of the VRAM fill. */
  const TILED_END: int := 0x10_0000
  const LINEAR_END: int := 0x18_0000
  const FILL_END: int := 0x20_0000

  type Regs = map<int, bv32>
  type Vram = map<int, bv32>

  // ---------------------------------------------------------------------
  // Test results and the exit status of main
  // ---------------------------------------------------------------------

  /** The outcome of one hardware test. */
  datatype TestResult = Pass | NotApplicable | Unprepared | Fail

  /** Severity of a result; main keeps the largest one it has seen. */
  function Rank(r: TestResult): (k: nat)
    ensures k <= 3
    ensures k == 0 <==> r == Pass
  {
    match r
    case Pass => 0
    case NotApplicable => 1
    case Unprepared => 2
    case Fail => 3
  }

  /** The worst severity of a run, folded from the left from 0 as main
      does; it bounds the rank of every test and is itself a rank. */
  function MaxRank(rs: seq<TestResult>): (w: nat)
    ensures w <= 3
    ensures forall i :: 0 <= i < |rs| ==> Rank(rs[i]) <= w
  {
    if |rs| == 0 then 0
    else
      var init := rs[..|rs| - 1];
      assert forall i :: 0 <= i < |init| ==> rs[i] == init[i];
      var w := MaxRank(init);
      if w < Rank(rs[|rs| - 1]) then Rank(rs[|rs| - 1]) else w
  }

  /** The fold yields 0 for no tests, and otherwise the rank of some test. */
  lemma {:induction false} MaxRankIsMaximum(rs: seq<TestResult>)
    ensures |rs| == 0 ==> MaxRank(rs) == 0
    ensures |rs| > 0 ==> exists i :: 0 <= i < |rs| && Rank(rs[i]) == MaxRank(rs)
  {
    if |rs| > 0 {
      var init := rs[..|rs| - 1];
      MaxRankIsMaximum(init);
      if MaxRank(init) <= Rank(rs[|rs| - 1]) {
        assert Rank(rs[|rs| - 1]) == MaxRank(rs);
      } else {
        var k :| 0 <= k < |init| && Rank(init[k]) == MaxRank(init);
        assert rs[k] == init[k];
      }
    }
  }

  /** The run is a pass exactly when every test passed. */
  lemma MaxRankPass(rs: seq<TestResult>)
    ensures MaxRank(rs) == 0 <==> forall i :: 0 <= i < |rs| ==> rs[i] == Pass
  {
    MaxRankIsMaximum(rs);
  }

  /** The loop of main over the test results (hwtest/nv10_tile.c:253-257). */
  method Worst(rs: seq<TestResult>) returns (worst: nat)
    ensures worst == MaxRank(rs)
  {
    worst := 0;
    var i := 0;
    while i < |rs|
      invariant 0 <= i <= |rs|
      invariant worst == MaxRank(rs[..i])
    {
      assert rs[..i + 1][..i] == rs[..i];
      var res := Rank(rs[i]);
      if worst < res {
        worst := res;
      }
      i := i + 1;
    }
    assert rs[..i] == rs;
  }

  /** main runs the tests only on a chipset of 0x10..0x19 whose memory
      controller is up (bit 20 of register 0x200). */
  predicate Ready(chipset: bv32, pmcEnable: bv32) {
    0x10 <= chipset < 0x1a && pmcEnable & (1 << 20) != 0
  }

  /** The exit status of main once a card is chosen, for the results `rs`
      of its tests: 2 for a chipset outside 0x10..0x19, 3 when the memory
      controller is down; on a ready card 0 exactly when every test passed,
      and 4 as soon as one failed. */
  function ExitStatus(chipset: bv32, pmcEnable: bv32, rs: seq<TestResult>): (code: nat)
    ensures chipset < 0x10 || chipset >= 0x1a ==> code == 2
    ensures 0x10 <= chipset < 0x1a && pmcEnable & (1 << 20) == 0 ==> code == 3
    ensures Ready(chipset, pmcEnable) ==> (code == 0 <==> forall i :: 0 <= i < |rs| ==> rs[i] == Pass)
    ensures Ready(chipset, pmcEnable) && (exists i :: 0 <= i < |rs| && rs[i] == Fail) ==> code == 4
  {
    MaxRankPass(rs);
    if chipset < 0x10 || chipset >= 0x1a then 2
    else if pmcEnable & (1 << 20) == 0 then 3
    else if MaxRank(rs) == 0 then 0
    else MaxRank(rs) + 1
  }

  /** On a ready card, runs of different worst severities end with
      different exit statuses. */
  lemma ExitStatusDistinguishes(chipset: bv32, pmcEnable: bv32, rs: seq<TestResult>, ts: seq<TestResult>)
    requires Ready(chipset, pmcEnable)
    ensures MaxRank(rs) != MaxRank(ts) ==> ExitStatus(chipset, pmcEnable, rs) != ExitStatus(chipset, pmcEnable, ts)
  {
    MaxRankPass(rs);
    MaxRankPass(ts);
  }

  // ---------------------------------------------------------------------
  // Conversion of the tests' int loop counters to 32-bit words
  // ---------------------------------------------------------------------

  /** A non-negative int converted to uint32, bit by bit from the bottom;
      the bits above the 32nd are shifted out, as the C conversion wraps.
      It is defined bit by bit, and bounded by the chains of small lemmas
      below, rather than as `(n % 0x1_0000_0000) as bv32`, because the
      solver handles the shifts far more cheaply than the cast. */
  function U32(n: nat): bv32
  {
    if n == 0 then 0 else (U32(n / 2) << 1) | Bit(n)
  }

  /** Below 16 the conversion keeps the number's four bits. */
  lemma U32Nibble(n: nat)
    requires n < 16
    ensures U32(n) <= 15
  {
    var q1 := n / 2;
    var q2 := q1 / 2;
    var q3 := q2 / 2;
    assert q3 / 2 == 0 && q3 <= 1;
    U32Unfold(n);
    U32Unfold(q1);
    U32Unfold(q2);
    U32Unfold(q3);
    FourBits(U32(q2), U32(q1), U32(n), Bit(q3), Bit(q2), Bit(q1), Bit(n));
  }

  /** Four bits shifted in one at a time stay below 16. */
  lemma FourBits(u2: bv32, u1: bv32, u0: bv32, b3: bv32, b2: bv32, b1: bv32, b0: bv32)
    requires b0 <= 1 && b1 <= 1 && b2 <= 1 && b3 <= 1
    requires u2 == (b3 << 1) | b2 && u1 == (u2 << 1) | b1 && u0 == (u1 << 1) | b0
    ensures u0 <= 15
  {
  }

  /** Below 2^8 the conversion keeps the number's low byte: four more bits
      on top of the nibble of n / 16. */
  lemma U32Small(n: nat)
    requires n < 0x100
    ensures U32(n) <= 0xff
  {
    var q1 := n / 2;
    var q2 := q1 / 2;
    var q3 := q2 / 2;
    var q4 := q3 / 2;
    U32Nibble(q4);
    U32Unfold(n);
    U32Unfold(q1);
    U32Unfold(q2);
    U32Unfold(q3);
    FourMore(U32(q4), U32(q3), U32(q2), U32(q1), U32(n), Bit(q3), Bit(q2), Bit(q1), Bit(n));
  }

  /** Four bits shifted in on top of a value below 16 stay below 256. */
  lemma FourMore(u4: bv32, u3: bv32, u2: bv32, u1: bv32, u0: bv32, b3: bv32, b2: bv32, b1: bv32, b0: bv32)
    requires u4 <= 15 && b0 <= 1 && b1 <= 1 && b2 <= 1 && b3 <= 1
    requires u3 == (u4 << 1) | b3 && u2 == (u3 << 1) | b2 && u1 == (u2 << 1) | b1 && u0 == (u1 << 1) | b0
    ensures u0 <= 0xff
  {
  }

  /** The lowest bit of n as a word. */
  function Bit(n: nat): bv32 { if n % 2 == 0 then 0 else 1 }

  lemma U32Unfold(n: nat)
    ensures U32(n) == (U32(n / 2) << 1) | Bit(n)
  {
  }

  /** A bank shift of 8..31 converts to a shift amount of 8..31. */
  lemma ShiftAmount(n: nat)
    requires 8 <= n < 32
    ensures 8 <= U32(n) < 32
  {
    var q1 := n / 2;
    var q2 := q1 / 2;
    var q3 := q2 / 2;
    var q4 := q3 / 2;
    assert q4 / 2 == 0 && 1 <= q3 <= 3 && q4 <= 1 && (q4 == 0 ==> q3 % 2 == 1);
    U32Unfold(n);
    U32Unfold(q1);
    U32Unfold(q2);
    U32Unfold(q3);
    U32Unfold(q4);
    FiveBits(U32(q3), U32(q2), U32(q1), U32(n), Bit(q4), Bit(q3), Bit(q2), Bit(q1), Bit(n));
  }

  /** Five bits shifted in one at a time, the top two not both clear. */
  lemma FiveBits(u3: bv32, u2: bv32, u1: bv32, u0: bv32, b4: bv32, b3: bv32, b2: bv32, b1: bv32, b0: bv32)
    requires b0 <= 1 && b1 <= 1 && b2 <= 1 && b3 <= 1 && b4 <= 1 && (b3 == 1 || b4 == 1)
    requires u3 == (b4 << 1) | b3 && u2 == (u3 << 1) | b2 && u1 == (u2 << 1) | b1 && u0 == (u1 << 1) | b0
    ensures 8 <= u0 < 32
  {
  }

  /** The pitch of iteration i of the pitch loops, i << 8. */
  function PitchAt(i: nat): (pitch: bv32)
    requires i < 0x100
    ensures WellFormedPitch(pitch)
  {
    U32Small(i);
    U32(i) << 8
  }

  /** What test_format expects to read at byte j of the tiled window: the
      fill's tag on the translated address. */
  function ExpectedTiled(pitch: bv32, bankshift: int, partflip: bool, j: nat): (w: bv32)
    requires ValidPitch(pitch) && 8 <= bankshift < 32
    ensures w & MARK == MARK
  {
    ShiftAmount(bankshift);
    MARK | TranslateAddr(pitch, U32(j), U32(bankshift), partflip)
  }

  /** What test_status expects the status register to read for `pitch`:
      0 for an invalid pitch; for a valid one, the status word under the
      region's enable bit, which is set exactly when the region is enabled. */
  function ExpectedStatus(pitch: bv32, enabled: bool): (e: bv32)
    requires WellFormedPitch(pitch)
    ensures !ValidPitch(pitch) ==> e == 0
    ensures ValidPitch(pitch) ==> e & !ENABLE == StatusOf(pitch)
    ensures ValidPitch(pitch) ==> (e & ENABLE != 0 <==> enabled)
    ensures ValidPitch(pitch) ==> e != 0
  {
    if StatusOf(pitch) == INVALID then 0
    else
      StatusBelowEnable(StatusOf(pitch));
      if enabled then StatusOf(pitch) | ENABLE
      else StatusOf(pitch)
  }

  lemma StatusBelowEnable(s: bv32)
    requires s < 0x80 && s != 0
    ensures (s | ENABLE) & !ENABLE == s && (s | ENABLE) & ENABLE != 0 && (s | ENABLE) != 0
    ensures s & !ENABLE == s && s & ENABLE == 0
  {
  }

  /** Registers after region 0 is disabled and given `pitch`. */
  function DisabledRegs(r: Regs, pitch: bv32): Regs
  {
    r[CTRL := 0][PITCH := pitch]
  }

  /** Registers after region 0 is then enabled. */
  function EnabledRegs(r: Regs, pitch: bv32): Regs
  {
    DisabledRegs(r, pitch)[CTRL := ENABLE]
  }

  /** Whether the format test reverses the partition bit: only on chipset
      0x15 with partition configuration 1. */
  function PartFlip(chipset: bv32, cfg: bv32): (flip: bool)
    ensures flip ==> chipset == 0x15 && PartCfg(cfg) == 1
    ensures chipset == 0x15 && PartCfg(cfg) == 1 ==> flip
  {
    chipset == 0x15 && cfg & 0x30 == 0x10
  }

  /** The control register of tile region i. */
  function CtrlReg(i: nat): int
  {
    CTRL + 0x10 * i
  }

  /** Registers after the control registers of regions 0..n-1 are cleared. */
  function ClearedRegs(r: Regs, n: nat): Regs
    requires n <= 8
  {
    if n == 0 then r else ClearedRegs(r, n - 1)[CtrlReg(n - 1) := 0]
  }

  /** Clearing writes 0 to the first n control registers and leaves every
      other register alone, the pitch and limit registers among them. */
  lemma {:induction false} ClearedRegsSpec(r: Regs, n: nat)
    requires n <= 8
    ensures forall k :: 0 <= k < n ==> CtrlReg(k) in ClearedRegs(r, n) && ClearedRegs(r, n)[CtrlReg(k)] == 0
    ensures forall a :: (forall k :: 0 <= k < n ==> a != CtrlReg(k)) ==>
              (a in ClearedRegs(r, n) <==> a in r) && (a in r ==> ClearedRegs(r, n)[a] == r[a])
  {
    if n > 0 {
      ClearedRegsSpec(r, n - 1);
    }
  }

  /** The VRAM word the fill writes at byte address a. */
  function Marker(a: nat): bv32
  {
    MARK | U32(a)
  }

  /** VRAM after the fill of the first n bytes, one word every 4 bytes. */
  function Filled(v: Vram, n: nat): Vram
    requires n % 4 == 0
  {
    if n == 0 then v else Filled(v, n - 4)[n - 4 := Marker(n - 4)]
  }

  /** The fill tags every word below n with its own address. */
  lemma {:induction false} FilledTags(v: Vram, n: nat)
    requires n % 4 == 0
    ensures forall a :: 0 <= a < n && a % 4 == 0 ==> a in Filled(v, n) && Filled(v, n)[a] == Marker(a)
  {
    if n > 0 {
      FilledTags(v, n - 4);
      var prev := Filled(v, n - 4);
      forall a | 0 <= a < n && a % 4 == 0
        ensures a in Filled(v, n) && Filled(v, n)[a] == Marker(a)
      {
        if a < n - 4 {
          assert a in prev && prev[a] == Marker(a);
        }
      }
    }
  }

  /** The fill leaves every other VRAM byte address alone. */
  lemma {:induction false} FilledKeeps(v: Vram, n: nat)
    requires n % 4 == 0
    ensures forall a :: (a < 0 || a >= n || a % 4 != 0) ==>
              (a in Filled(v, n) <==> a in v) && (a in v ==> Filled(v, n)[a] == v[a])
  {
    if n > 0 {
      FilledKeeps(v, n - 4);
    }
  }

  /** Registers while pitch `pitch` is being checked. */
  function ActiveRegs(c: Regs, pitch: bv32): Regs
  {
    c[PITCH := pitch][LIMIT := LIMIT_VALUE][CTRL := ENABLE]
  }

  /** Registers after pitch `pitch` was checked and region 0 disabled again. */
  function ParkedRegs(c: Regs, pitch: bv32): Regs
  {
    ActiveRegs(c, pitch)[CTRL := 0]
  }

  /** Registers when the pitch loop has run n iterations over cleared
      registers c: untouched until a valid pitch was programmed, then parked
      at the last valid one. */
  function PitchLoopRegs(c: Regs, n: nat): Regs
    requires n <= 0x100
  {
    if n == 0 then c
    else if ValidPitch(PitchAt(n - 1)) then ParkedRegs(c, PitchAt(n - 1))
    else PitchLoopRegs(c, n - 1)
  }

  /** Registers at the end of the format test, for the registers it started from. */
  function FormatFinalRegs(r: Regs): Regs
  {
    PitchLoopRegs(ClearedRegs(r, 8), 0x100)
  }

  // Map updates that overwrite earlier ones.

  lemma UpdateTwice<K, V>(m: map<K, V>, k: K, v: V, w: V)
    ensures m[k := v][k := w] == m[k := w]
  {
  }

  /** Programming region 0 again overrides the pitch programmed before. */
  lemma DisabledTwice(r: Regs, p: bv32, q: bv32)
    ensures DisabledRegs(DisabledRegs(r, p), q) == DisabledRegs(r, q)
    ensures EnabledRegs(DisabledRegs(r, p), q) == EnabledRegs(r, q)
  {
    assert DisabledRegs(DisabledRegs(r, p), q) == DisabledRegs(r, q);
  }

  /** Re-enabling and disabling region 0 leaves it as it was disabled. */
  lemma EnableThenDisable(r: Regs, p: bv32)
    ensures EnabledRegs(r, p)[CTRL := 0] == DisabledRegs(r, p)
  {
    assert EnabledRegs(r, p)[CTRL := 0] == DisabledRegs(r, p);
  }

  /** Programming a pitch overrides whichever pitch the loop left parked. */
  lemma {:induction false} PitchLoopActive(c: Regs, n: nat, p: bv32)
    requires n <= 0x100
    ensures ActiveRegs(PitchLoopRegs(c, n), p) == ActiveRegs(c, p)
  {
    if n > 0 {
      if ValidPitch(PitchAt(n - 1)) {
        assert ActiveRegs(ParkedRegs(c, PitchAt(n - 1)), p) == ActiveRegs(c, p);
      } else {
        PitchLoopActive(c, n - 1, p);
      }
    }
  }

  lemma UpdateRestore<K, V>(m: map<K, V>, k: K)
    requires k in m
    ensures m[k := m[k]] == m
  {
  }

  class Card {
    /** The memory controller's registers. */
    var regs: Regs
    /** VRAM, word by byte address. */
    var vram: Vram
    /** The card's chipset number. */
    const chipset: bv32
    /** What the status register of region 0 reads in a register state. */
    const statusHw: Regs -> bv32
    /** What the VRAM aperture reads at a byte address, through the tile
        regions a register state programs. */
    const aperture: (Regs, Vram, int) -> bv32

    constructor (chipset: bv32, statusHw: Regs -> bv32, aperture: (Regs, Vram, int) -> bv32,
                 regs: Regs, vram: Vram)
      ensures this.chipset == chipset && this.statusHw == statusHw && this.aperture == aperture
      ensures this.regs == regs && this.vram == vram
    {
      this.chipset := chipset;
      this.statusHw := statusHw;
      this.aperture := aperture;
      this.regs := regs;
      this.vram := vram;
    }

    /** Both status reads of iteration i of test_status match the oracle. */
    predicate StatusAgrees(r: Regs, i: nat)
      requires i < 0x100
    {
      statusHw(DisabledRegs(r, PitchAt(i))) == ExpectedStatus(PitchAt(i), false) &&
      statusHw(EnabledRegs(r, PitchAt(i))) == ExpectedStatus(PitchAt(i), true)
    }

    /** The first n iterations of test_status all read as expected. */
    ghost predicate StatusAgreesUpTo(r: Regs, n: nat)
      requires n <= 0x100
    {
      forall k :: 0 <= k < n ==> StatusAgrees(r, k)
    }

    lemma StatusAgreesStep(r: Regs, n: nat)
      requires n < 0x100 && StatusAgreesUpTo(r, n) && StatusAgrees(r, n)
      ensures StatusAgreesUpTo(r, n + 1)
    {
    }

    /** One iteration of test_status: program `PitchAt(i)` into the disabled
        region 0 and compare the status, then enable the region, compare
        again and disable it; a mismatch in the first compare skips the
        second. Either way region 0 is left disabled at that pitch. */
    method StatusRound(i: nat) returns (ok: bool)
      requires i < 0x100
      modifies this
      ensures ok <==> StatusAgrees(old(regs), i)
      ensures regs == DisabledRegs(old(regs), PitchAt(i)) && vram == old(vram)
    {
      var pitch := PitchAt(i);
      regs := regs[CTRL := 0];
      regs := regs[PITCH := pitch];
      var exp := ComputeStatus(pitch);
      if exp == INVALID {
        exp := 0;
      }
      assert exp == ExpectedStatus(pitch, false);
      assert regs == DisabledRegs(old(regs), pitch);
      var got := statusHw(regs);
      if exp != got {
        return false;
      }
      regs := regs[CTRL := ENABLE];
      exp := ComputeStatus(pitch);
      if exp == INVALID {
        exp := 0;
      } else {
        exp := exp | ENABLE;
      }
      assert exp == ExpectedStatus(pitch, true);
      assert regs == EnabledRegs(old(regs), pitch);
      got := statusHw(regs);
      EnableThenDisable(old(regs), pitch);
      regs := regs[CTRL := 0];
      ok := exp == got;
    }

    /** test_status: every pitch is checked in turn, and the first mismatch
        fails the test and leaves region 0 disabled at that pitch. */
    method TestStatus() returns (res: TestResult)
      modifies this
      ensures res == Pass || res == Fail
      ensures res == Pass <==> forall i :: 0 <= i < 0x100 ==> StatusAgrees(old(regs), i)
      ensures res == Pass ==> regs == DisabledRegs(old(regs), PitchAt(0xff))
      ensures res == Fail ==>
                exists i :: (0 <= i < 0x100 && !StatusAgrees(old(regs), i) &&
                             (forall k :: 0 <= k < i ==> StatusAgrees(old(regs), k)) &&
                             regs == DisabledRegs(old(regs), PitchAt(i)))
      ensures vram == old(vram)
    {
      var i := 0;
      while i < 0x100
        invariant 0 <= i <= 0x100
        invariant StatusAgreesUpTo(old(regs), i)
        invariant i == 0 ==> regs == old(regs)
        invariant i > 0 ==> regs == DisabledRegs(old(regs), PitchAt(i - 1))
        invariant vram == old(vram)
      {
        if i > 0 {
          DisabledTwice(old(regs), PitchAt(i - 1), PitchAt(i));
        }
        var ok := StatusRound(i);
        if !ok {
          assert !StatusAgrees(old(regs), i);
          return Fail;
        }
        StatusAgreesStep(old(regs), i);
        i := i + 1;
      }
      return Pass;
    }

    /** One word of the tiled window reads as translate_addr predicts. */
    predicate TiledWordOk(pitch: bv32, bankshift: int, partflip: bool, r: Regs, v: Vram, j: nat)
      requires ValidPitch(pitch) && 8 <= bankshift < 32
    {
      aperture(r, v, j) == ExpectedTiled(pitch, bankshift, partflip, j)
    }

    /** The words below n of the tiled window all read as predicted. */
    ghost predicate TiledUpTo(pitch: bv32, bankshift: int, partflip: bool, r: Regs, v: Vram, n: int)
      requires ValidPitch(pitch) && 8 <= bankshift < 32
    {
      forall k :: 0 <= k < n && k % 4 == 0 ==> TiledWordOk(pitch, bankshift, partflip, r, v, k)
    }

    lemma TiledUpToStep(pitch: bv32, bankshift: int, partflip: bool, r: Regs, v: Vram, n: int)
      requires ValidPitch(pitch) && 8 <= bankshift < 32 && 0 <= n && n % 4 == 0
      requires TiledUpTo(pitch, bankshift, partflip, r, v, n) && TiledWordOk(pitch, bankshift, partflip, r, v, n)
      ensures TiledUpTo(pitch, bankshift, partflip, r, v, n + 4)
    {
    }

    /** One word past the tiled window reads untranslated. */
    predicate LinearWordOk(r: Regs, v: Vram, j: nat)
    {
      aperture(r, v, j) == Marker(j)
    }

    /** Every checked word reads as expected for one programmed pitch. */
    ghost predicate PitchOk(pitch: bv32, bankshift: int, partflip: bool, r: Regs, v: Vram)
      requires ValidPitch(pitch) && 8 <= bankshift < 32
    {
      (forall j :: 0 <= j < TILED_END && j % 4 == 0 ==> TiledWordOk(pitch, bankshift, partflip, r, v, j)) &&
      (forall j :: TILED_END <= j < LINEAR_END && j % 4 == 0 ==> LinearWordOk(r, v, j))
    }

    /** Every valid pitch among the first n reads as expected once programmed
        into cleared registers `c` over the filled VRAM `v`. */
    ghost predicate PitchesOk(bankshift: int, partflip: bool, c: Regs, v: Vram, n: nat)
      requires 8 <= bankshift < 32 && n <= 0x100
    {
      forall i :: 0 <= i < n && ValidPitch(PitchAt(i)) ==>
        PitchOk(PitchAt(i), bankshift, partflip, ActiveRegs(c, PitchAt(i)), v)
    }

    /** Extending the pitch loop by one iteration adds the check of that
        iteration's pitch, when it is valid. */
    lemma PitchesOkStep(bankshift: int, partflip: bool, c: Regs, v: Vram, n: nat)
      requires 8 <= bankshift < 32 && n < 0x100
      ensures PitchesOk(bankshift, partflip, c, v, n + 1) <==>
                PitchesOk(bankshift, partflip, c, v, n) &&
                (ValidPitch(PitchAt(n)) ==> PitchOk(PitchAt(n), bankshift, partflip, ActiveRegs(c, PitchAt(n)), v))
    {
    }

    /** test_format passes on the registers and VRAM it starts from. */
    ghost predicate FormatPasses(r: Regs, v: Vram)
      requires CFG in r && 8 <= BankShift(r[CFG])
    {
      PitchesOk(BankShift(r[CFG]), PartFlip(chipset, r[CFG]), ClearedRegs(r, 8), Filled(v, FILL_END), 0x100)
    }

    /** The first compare loop of test_format; it stops at the first mismatch. */
    method CompareTiled(pitch: bv32, bankshift: int, partflip: bool) returns (ok: bool)
      requires ValidPitch(pitch) && 8 <= bankshift < 32
      ensures ok <==> forall j :: 0 <= j < TILED_END && j % 4 == 0 ==>
                        TiledWordOk(pitch, bankshift, partflip, regs, vram, j)
    {
      var j := 0;
      while j < TILED_END
        invariant 0 <= j <= TILED_END && j % 4 == 0
        invariant TiledUpTo(pitch, bankshift, partflip, regs, vram, j)
      {
        if !TiledWordOk(pitch, bankshift, partflip, regs, vram, j) {
          return false;
        }
        TiledUpToStep(pitch, bankshift, partflip, regs, vram, j);
        j := j + 4;
      }
      return true;
    }

    /** The second compare loop of test_format; it stops at the first mismatch. */
    method CompareLinear() returns (ok: bool)
      ensures ok <==> forall j :: TILED_END <= j < LINEAR_END && j % 4 == 0 ==> LinearWordOk(regs, vram, j)
    {
      var j := TILED_END;
      while j < LINEAR_END
        invariant TILED_END <= j <= LINEAR_END && j % 4 == 0
        invariant forall k :: TILED_END <= k < j && k % 4 == 0 ==> LinearWordOk(regs, vram, k)
      {
        var got := aperture(regs, vram, j);
        var exp := MARK | U32(j);
        if got != exp {
          assert !LinearWordOk(regs, vram, j);
          return false;
        }
        j := j + 4;
      }
      return true;
    }

    /** The clearing loop of test_format. */
    method ClearControls()
      modifies this
      ensures regs == ClearedRegs(old(regs), 8) && vram == old(vram)
    {
      var i := 0;
      while i < 8
        invariant 0 <= i <= 8
        invariant regs == ClearedRegs(old(regs), i) && vram == old(vram)
      {
        regs := regs[CtrlReg(i) := 0];
        i := i + 1;
      }
    }

    /** The fill loop of test_format. */
    method FillVram()
      modifies this
      ensures vram == Filled(old(vram), FILL_END) && regs == old(regs)
    {
      var a := 0;
      while a < FILL_END
        invariant 0 <= a <= FILL_END && a % 4 == 0
        invariant vram == Filled(old(vram), a) && regs == old(regs)
      {
        vram := vram[a := Marker(a)];
        a := a + 4;
      }
    }

    /** One pitch of test_format: program region 0 with `pitch`, compare
        both windows (the second is compared even when the first failed)
        and disable the region again. */
    method CheckPitch(pitch: bv32, bankshift: int, partflip: bool) returns (ok: bool)
      requires ValidPitch(pitch) && 8 <= bankshift < 32
      modifies this
      ensures ok <==> PitchOk(pitch, bankshift, partflip, ActiveRegs(old(regs), pitch), vram)
      ensures regs == ParkedRegs(old(regs), pitch) && vram == old(vram)
    {
      regs := regs[PITCH := pitch];
      regs := regs[LIMIT := LIMIT_VALUE];
      regs := regs[CTRL := ENABLE];
      ok := true;
      var tiledOk := CompareTiled(pitch, bankshift, partflip);
      if !tiledOk {
        ok := false;
      }
      var linearOk := CompareLinear();
      if !linearOk {
        ok := false;
      }
      regs := regs[CTRL := 0];
    }

    /** Iteration i of the pitch loop of test_format: an invalid pitch is
        skipped, a valid one is checked. */
    method PitchRound(i: nat, bankshift: int, partflip: bool, ghost c: Regs) returns (ok: bool)
      requires i < 0x100 && 8 <= bankshift < 32 && regs == PitchLoopRegs(c, i)
      modifies this
      ensures ok <==> (ValidPitch(PitchAt(i)) ==> PitchOk(PitchAt(i), bankshift, partflip, ActiveRegs(c, PitchAt(i)), vram))
      ensures regs == PitchLoopRegs(c, i + 1) && vram == old(vram)
    {
      var pitch := PitchAt(i);
      var status := ComputeStatus(pitch);
      if status == INVALID {
        return true;
      }
      PitchLoopActive(c, i, pitch);
      ok := CheckPitch(pitch, bankshift, partflip);
    }

    /** test_format: clear the control registers, fill VRAM, then program
        every valid pitch into region 0 in turn and compare both windows;
        the test fails exactly when some word of some pitch mismatches. */
    method TestFormat() returns (res: TestResult)
      requires CFG in regs && 8 <= BankShift(regs[CFG])
      modifies this
      ensures vram == Filled(old(vram), FILL_END)
      ensures regs == FormatFinalRegs(old(regs))
      ensures res == Pass || res == Fail
      ensures res == Pass <==> FormatPasses(old(regs), old(vram))
    {
      var bankshift := BankShift(regs[CFG]);
      res := Pass;
      var isNv15 := chipset == 0x15;
      var partflip := isNv15 && regs[CFG] & 0x30 == 0x10;
      ClearControls();
      FillVram();
      ghost var c := regs;
      ghost var v := vram;
      var i := 0;
      while i < 0x100
        invariant 0 <= i <= 0x100
        invariant vram == v
        invariant regs == PitchLoopRegs(c, i)
        invariant res == Pass || res == Fail
        invariant res == Pass <==> PitchesOk(bankshift, partflip, c, v, i)
      {
        var ok := PitchRound(i, bankshift, partflip, c);
        if !ok {
          res := Fail;
        }
        PitchesOkStep(bankshift, partflip, c, v, i);
        i := i + 1;
      }
    }

    /** The lowering loop of test_format_bs: step the configuration
        register down until it selects bank shift `bs`, writing every step
        to the register. A refused step restores the register's original
        value and gives up. */
    method LowerBankShift(bs: int) returns (reached: bool)
      requires CFG in regs && bs <= BankShift(regs[CFG])
      modifies this
      ensures reached <==> Walk(old(regs)[CFG], bs, chipset).Some?
      ensures reached ==> regs == old(regs)[CFG := Walk(old(regs)[CFG], bs, chipset).value]
      ensures !reached ==> regs == old(regs)
      ensures bs == BankShift(old(regs)[CFG]) ==> reached && regs == old(regs)
      ensures vram == old(vram)
    {
      var orig := regs[CFG];
      var cfg := orig;
      var bankshift := BankShift(regs[CFG]);
      UpdateRestore(regs, CFG);
      while bs < bankshift
        invariant regs == old(regs)[CFG := cfg] && vram == old(vram)
        invariant bankshift == BankShift(cfg) && bs <= bankshift
        invariant Walk(orig, bs, chipset) == Walk(cfg, bs, chipset)
        decreases bankshift
      {
        var prev := cfg;
        if ColBits(cfg) > 8 {
          cfg := cfg - (1 << 24);
          assert LowerStep(prev, chipset) == Some(cfg);
        } else {
          var partcfg := PartCfg(cfg);
          if partcfg == 1 {
            cfg := cfg & 0xffff_ffcf;
            assert LowerStep(prev, chipset) == Some(cfg);
          } else if partcfg == 0 && chipset != 0x10 {
            cfg := cfg | 0x20;
            assert LowerStep(prev, chipset) == Some(cfg);
          } else {
            assert LowerStep(prev, chipset) == None;
            UpdateTwice(old(regs), CFG, prev, orig);
            regs := regs[CFG := orig];
            return false;
          }
        }
        WalkStepBound(prev, bs, chipset, cfg);
        WalkStep(prev, bs, chipset, cfg);
        UpdateTwice(old(regs), CFG, prev, cfg);
        regs := regs[CFG := cfg];
        bankshift := BankShift(regs[CFG]);
      }
      return true;
    }

    /** test_format_bs: lower the bank shift to `bs`, run test_format there
        and restore the configuration register. Not applicable, with
        nothing changed, when the bank shift is already below `bs` or a
        lowering step is refused. */
    method TestFormatBs(bs: int) returns (res: TestResult)
      requires CFG in regs && 8 <= bs
      modifies this
      ensures bs > BankShift(old(regs)[CFG]) ==>
                res == NotApplicable && regs == old(regs) && vram == old(vram)
      ensures bs <= BankShift(old(regs)[CFG]) && Walk(old(regs)[CFG], bs, chipset).None? ==>
                res == NotApplicable && regs == old(regs) && vram == old(vram)
      ensures bs <= BankShift(old(regs)[CFG]) && Walk(old(regs)[CFG], bs, chipset).Some? ==>
                var c := Walk(old(regs)[CFG], bs, chipset).value;
                (res == Pass || res == Fail) &&
                (res == Pass <==> FormatPasses(old(regs)[CFG := c], old(vram))) &&
                regs == FormatFinalRegs(old(regs)[CFG := c])[CFG := old(regs)[CFG]] &&
                vram == Filled(old(vram), FILL_END)
    {
      var orig := regs[CFG];
      var bankshift := BankShift(regs[CFG]);
      if bs > bankshift {
        return NotApplicable;
      }
      var reached := LowerBankShift(bs);
      if !reached {
        return NotApplicable;
      }
      res := TestFormat();
      regs := regs[CFG := orig];
    }
  }
}
