# NV10 tile-region model and VBIOS timing-table configuration, in Dafny

This project models two small pieces of the envytools hardware tools.

**hwtest/nv10_tile.c** is a hardware self-test for the tile regions of NV10-family GPUs.

- **`tile_model.dfy`** (`TileModel`) covers the pure part:
  - `compute_status`, which turns a tile pitch into the status word the hardware reports;
  - `translate_addr`, which maps a linear VRAM address to its tiled address;
  - `get_bankshift`, which decodes the bank shift from the memory configuration word;
  - the bank-shift lowering step of `test_format_bs`.

  All 32-bit unsigned values are `bv32`, so the wrap-around of shifts, sums and products is exact. `compute_status` is also given as a method with the source's normalising loop, proved equal to its specification function.
- **`tile_driver.dfy`** (`TileDriver`) covers the test driver:
  - `test_status`, `test_format` and `test_format_bs`;
  - the result fold and exit code of `main`.

  The card is a class `Card`:
  - the register file and VRAM are map-valued fields that the methods update;
  - the chipset is a constant;
  - what the hardware answers is given by two constant functions. `statusHw` is the status register read as a function of the register file. `aperture` is a VRAM read as a function of the register file, the VRAM contents and the offset.

  Every test method is proved against a specification predicate. A check passes exactly when every observed word equals the expected one, and the method returns the register and VRAM state as a function of the old state.

**nva/nvamemtiming.c** is a memory-timing reverse-engineering tool. **`memtiming.dfy`** (`MemTiming`) models:

- `read_timings`: it checks the timing-table header of the VBIOS image and locates the selected entry;
- the option loop of `parse_cmd_line`, with its AUTO / MANUAL / BITFIELD mode rule, followed by the card-number and argument-count checks.

The configuration structure is a class `Conf`.

Two behaviours of the code are worth noting:

- **`compute_status`.** It rejects any pitch that needs no normalising shift (hwtest/nv10_tile.c:49-50). So 0x100 and 0x300 are invalid, and 0x200 maps to 0x10, 0x600 to 0x11, 0xa00 to 0x12 and 0xe00 to 0x13 (`TileModel.StatusExamples`).
- **`test_status`, disabled region.** The expected value is the raw status word (hwtest/nv10_tile.c:77-79). It is 0 only for an invalid pitch.

## Model

| member | source | states |
|---|---|---|
| TileModel.ComputeStatus | hwtest/nv10_tile.c:41-69 | the normalising loop and the factor switch compute exactly StatusOf(pitch) for every pitch inside the 0xff00 mask |
| TileModel.NormaliseFacts | hwtest/nv10_tile.c:46-48 | the normalising loop stops within 7 shifts, at the pitch shifted right by the count, with bit 8 set and the low byte clear |
| TileModel.NormaliseStep | hwtest/nv10_tile.c:47-48 | one iteration keeps the loop's precondition and adds one to the shift count |
| TileModel.InvalidPitches | hwtest/nv10_tile.c:44-50 | pitch 0, and every pitch with bit 8 already set (shift count 0), gets 0xffffffff |
| TileModel.StatusOf | hwtest/nv10_tile.c:41-69 | compute_status returns the sentinel 0xffffffff or a status word with factor 0..3 and shift 1..7, which is non-zero and leaves the enable bit clear |
| TileModel.StatusCaseShape | hwtest/nv10_tile.c:49-68 | every branch of the final switch gives the sentinel or such a status word |
| TileModel.StatusWordFields | hwtest/nv10_tile.c:68 | the status word `factor` or-ed with `shift << 4` has factor and shift as its fields, is non-zero and is below the enable bit |
| TileModel.StatusShape | hwtest/nv10_tile.c:46-68 | a valid status word has factor 0..3 and shift 1..7, is non-zero and below 0x80, and its fields are the shift count and the shape of the normalised pitch |
| TileModel.StatusRoundTrip | hwtest/nv10_tile.c:46-68 | round trip: `[0x100,0x300,0x500,0x700][s & 0xf] << (s >> 4)` gives back the pitch, for the status word s of any valid pitch |
| TileModel.StatusOfShape | hwtest/nv10_tile.c:46-68 | converse: a shape shifted by 1..7 that fits the mask has the status word `factor` or-ed with `shift << 4` |
| TileModel.StatusInjective | hwtest/nv10_tile.c:41-69 | compute_status is injective on valid pitches |
| TileModel.LargestValidPitch | hwtest/nv10_tile.c:42-68 | no valid pitch exceeds 0xe000 |
| TileModel.StatusExamples | hwtest/nv10_tile.c:41-69 | 0x200→0x10, 0x600→0x11, 0xa00→0x12, 0xe00→0x13, 0xe000→0x53, 0x8000→0x70; 0, 0x100, 0x300 and 0xff00 are invalid |
| TileModel.PitchShift | hwtest/nv10_tile.c:102-103 | the shift translate_addr takes from the status word of a valid pitch is 1..7 |
| TileModel.ValidPitchAligned | hwtest/nv10_tile.c:42-45 | a valid pitch is non-zero with a clear low byte |
| TileModel.TranslateAddr | hwtest/nv10_tile.c:101-116 | without the partition flip, the low byte of the tiled address is the low byte of the column `laddr % pitch`, for every valid pitch and 8 ≤ bankshift < 32 |
| TileModel.BankFlipXor | hwtest/nv10_tile.c:111-112 | the bank flip toggles exactly bit `bankshift`, and exactly when ty is odd |
| TileModel.PartitionFlipXor | hwtest/nv10_tile.c:113-114 | the partition flip changes only bit 0x10, and only when bit 0x100 of the address is set |
| TileModel.TileOffsetLowByte | hwtest/nv10_tile.c:110 | the row, column-tile and row-tile summands are multiples of 256 when bankshift ≥ 8 |
| TileModel.PreFlipLowByte | hwtest/nv10_tile.c:106-110 | the low byte of the pre-flip sum is the low byte of x |
| TileModel.TiledLowByte | hwtest/nv10_tile.c:106-112 | without the partition flip, the low byte of the tiled address is the low byte of x |
| TileModel.TiledBankFlip | hwtest/nv10_tile.c:109-112 | the tiled address differs from the pre-flip sum by exactly `1 << bankshift` when ty is odd, and not at all otherwise |
| TileModel.TranslatePartFlip | hwtest/nv10_tile.c:113-115 | translate_addr with partflip is the partition flip applied to translate_addr without it |
| TileModel.FieldValues | hwtest/nv10_tile.c:120-121 | the colbits and partcfg fields are `cfg >> 24 & 0xf` and `cfg >> 4 & 3` |
| TileModel.ConfigFields | hwtest/nv10_tile.c:174-180 | the walk's guards on colbits > 8 and on partcfg 0, 1, 2 read the same fields as the source's shifts and masks |
| TileModel.NibbleAboveEight | hwtest/nv10_tile.c:174 | colbits > 8 exactly when bit 27 and one of bits 24..26 are set |
| TileModel.BankShift | hwtest/nv10_tile.c:118-125 | get_bankshift is always in 0..19; partcfg 3 reads the zero fourth cellbits entry, so the result is colbits alone |
| TileModel.LowerStep | hwtest/nv10_tile.c:174-188 | each step the walk takes lowers get_bankshift by exactly 1 and changes only the colbits and partcfg fields |
| TileModel.ColBitsDown | hwtest/nv10_tile.c:174-175 | `cfg -= 1 << 24` with colbits above 8 takes exactly one off colbits, keeps partcfg, so lowers the bank shift by 1, and changes no other field |
| TileModel.NibbleDown | hwtest/nv10_tile.c:174-175 | the same on the word: the subtraction borrows nothing out of the colbits nibble |
| TileModel.PartCfgCleared | hwtest/nv10_tile.c:178-179 | `cfg &= 0xffffffcf` turns partcfg 1 into 0 and keeps colbits, so lowers the bank shift by 1 (cell bits 4 to 3), changing no other field |
| TileModel.PartCfgRaised | hwtest/nv10_tile.c:180-181 | setting bit 0x20 turns partcfg 0 into 2 and keeps colbits, so lowers the bank shift by 1 (cell bits 3 to 2), changing no other field |
| TileModel.LowerStepRefused | hwtest/nv10_tile.c:174-185 | a step is refused exactly when colbits ≤ 8 and partcfg is 2 or 3, or 0 on chipset 0x10 |
| TileModel.Walk | hwtest/nv10_tile.c:173-189 | a walk that completes ends at exactly the requested bank shift |
| TileModel.WalkStepBound | hwtest/nv10_tile.c:173-188 | a step taken while above the target stays at or above it, and strictly below where it was |
| TileModel.WalkStep | hwtest/nv10_tile.c:173-189 | the walk from a configuration equals the walk from its successor |
| TileModel.WalkKeepsOtherBits | hwtest/nv10_tile.c:173-189 | a completed walk changes no bit outside colbits and partcfg |
| TileDriver.Rank | hwtest/nv10_tile.c:253-257 | the ranks of the four results are 0..3, and only PASS has rank 0 |
| TileDriver.MaxRank | hwtest/nv10_tile.c:252-257 | the fold of `worst` over the results bounds every test's rank and is at most 3 |
| TileDriver.MaxRankIsMaximum | hwtest/nv10_tile.c:252-257 | the fold's result is attained by some test, and is 0 for no tests |
| TileDriver.MaxRankPass | hwtest/nv10_tile.c:253-257 | the fold's result is 0 exactly when every test passed |
| TileDriver.Worst | hwtest/nv10_tile.c:252-257 | the `worst` loop computes the maximum rank of the results |
| TileDriver.ExitStatus | hwtest/nv10_tile.c:244-275 | the exit code, for the results of the tests, is 2 for a chipset outside 0x10..0x19 and 3 when bit 20 of register 0x200 is clear; on a ready card it is 0 exactly when every test passed, and 4 when some test failed |
| TileDriver.ExitStatusDistinguishes | hwtest/nv10_tile.c:272-275 | on a ready card, runs of different worst results end with different exit codes |
| TileDriver.PitchAt | hwtest/nv10_tile.c:73-74 | the pitch `i << 8` of a loop index i < 0x100 lies inside the 0xff00 mask |
| TileDriver.ExpectedStatus | hwtest/nv10_tile.c:77-90 | the expected status is 0 for an invalid pitch; for a valid pitch it is non-zero, carries the status word under bit 31, and has bit 31 set exactly when the region is enabled |
| TileDriver.ExpectedTiled | hwtest/nv10_tile.c:146 | every word expected in the tiled window carries the fill's tag 0xc0000000 |
| TileDriver.PartFlip | hwtest/nv10_tile.c:131-132 | partflip holds exactly when the chipset is 0x15 and `cfg & 0x30 == 0x10` |
| TileDriver.ClearedRegsSpec | hwtest/nv10_tile.c:133-134 | the clearing loop zeroes the control registers of all regions cleared so far and leaves every other register alone, the pitch and limit registers between them included |
| TileDriver.FilledTags | hwtest/nv10_tile.c:135-136 | after the fill loop, every word offset below the bound holds 0xc0000000 or-ed with the offset |
| TileDriver.FilledKeeps | hwtest/nv10_tile.c:135-136 | the fill loop leaves every other offset as it was |
| TileDriver.Card.StatusRound | hwtest/nv10_tile.c:74-96 | one pitch of test_status: ok exactly when both observed status reads match, leaving the region disabled with that pitch |
| TileDriver.Card.TestStatus | hwtest/nv10_tile.c:71-99 | PASS exactly when every pitch agrees in both phases; FAIL at the first mismatching pitch with all earlier ones agreeing; VRAM untouched |
| TileDriver.Card.CompareTiled | hwtest/nv10_tile.c:144-152 | ok exactly when every word below 0x100000 reads 0xc0000000 or-ed with `translate_addr(pitch, j, bankshift, partflip)` |
| TileDriver.Card.CompareLinear | hwtest/nv10_tile.c:153-161 | ok exactly when every word from 0x100000 to 0x180000 reads 0xc0000000 or-ed with j |
| TileDriver.Card.ClearControls | hwtest/nv10_tile.c:133-134 | the eight control registers are zeroed, VRAM untouched |
| TileDriver.Card.FillVram | hwtest/nv10_tile.c:135-136 | VRAM becomes the filled pattern below 0x200000, registers untouched |
| TileDriver.Card.CheckPitch | hwtest/nv10_tile.c:141-162 | with the region programmed for the pitch, ok exactly when both compare loops pass; the region is disabled afterwards |
| TileDriver.Card.PitchRound | hwtest/nv10_tile.c:137-163 | one pass of the pitch loop: invalid pitches are skipped, and for a valid one the result is that pitch's comparisons |
| TileDriver.Card.TestFormat | hwtest/nv10_tile.c:127-165 | PASS or FAIL, and PASS exactly when every valid pitch matches the model at every compared word; the final registers and VRAM as functions of the initial ones |
| TileDriver.Card.LowerBankShift | hwtest/nv10_tile.c:168-189 | the walk loop reaches the bank shift exactly when Walk does, and then holds its word in the configuration register; on refusal the original word is restored; when bs is already the bank shift the loop does not run and no register changes |
| TileDriver.Card.TestFormatBs | hwtest/nv10_tile.c:167-193 | NA without a register change when bs is above the bank shift or the walk is refused; otherwise test_format's verdict on the lowered configuration, with the original configuration word restored |
| MemTiming.Apply | nva/nvamemtiming.c:89-116 | one option is refused exactly for -h, for -e or -v in the bitfield mode and for -b in the manual mode; an accepted option keeps MANUAL or BITFIELD and moves AUTO to the mode it selects |
| MemTiming.Run | nva/nvamemtiming.c:88-116 | a completed option loop that starts outside AUTO ends in the mode it started in |
| MemTiming.RunAppend | nva/nvamemtiming.c:88-116 | running the options of `a` and then those of `b` is running `a + b`; a refused prefix refuses the whole run |
| MemTiming.RunAccepts | nva/nvamemtiming.c:88-106 | the option loop completes exactly when no -h is given and MANUAL and BITFIELD options are not both given; it then ends in the mode asked for, or in AUTO |
| MemTiming.ModeSticks | nva/nvamemtiming.c:85-116 | in a run from any start, AUTO included, once the first i options have moved the mode out of AUTO, a completed run ends in that mode |
| MemTiming.RunStops | nva/nvamemtiming.c:88-106 | once usage is called, no later option undoes it |
| MemTiming.EntryLocation | nva/nvamemtiming.c:61-74 | an entry is found exactly for table version 0x10 and an entry below the count, with the header's entry length |
| MemTiming.LocationInTable | nva/nvamemtiming.c:67-74 | for entry ≥ 0, a found entry lies after the header and inside count × length bytes |
| MemTiming.LocationsDisjoint | nva/nvamemtiming.c:74 | different entries of one table do not overlap |
| MemTiming.Conf.ReadTimings | nva/nvamemtiming.c:56-77 | returns 0 or -1; 0 exactly when the entry is found, and then the entry length and offset are set; on -1 both are unchanged; nothing else changes |
| MemTiming.Conf.ParseCmdLine | nva/nvamemtiming.c:79-134 | usage exactly when the option loop refuses, or when the card exists but the argument count is not 4; 1 exactly when the card number is too large; on success the file, table offset, entry and performance level come from the four arguments, and otherwise the table offset, entry and performance level keep their values; the entry length and offset never change |

## Left out

- test_scan and its TEST_BITSCAN macro: the macro is defined in hwtest.h, which is not part of this model.
- Device access (nva_init, nva_rd32/nva_wr32, vram_rd32/vram_wr32, nva_cards): registers and VRAM are maps; hardware reads are the functions `statusHw` and `aperture`; the chipset is a constant.
- printf/fprintf reporting and the colour tables of main: output only.
- main's option parsing and card selection: none of the properties above depends on them.
- The HWTEST_RES_* values are not part of this model. The results are ranked PASS 0, NA 1, UNPREP 2 and FAIL 3, and the fold starts at 0 = PASS.
- TileDriver.Card.TestFormat: requires a bank shift of at least 8, because translate_addr computes `1 << (bankshift - 8)`; test_format is only reached from test_format_bs with bs 10..13.
- TileModel.TiledBankFlip: is stated over the column x and row y of the address rather than over `laddr % pitch` and `laddr / pitch`; the contract of TranslateAddr makes that connection for the low byte.
- Register 0x100200 is assumed to read back the last value written to it. The walk re-reads it through get_bankshift (hwtest/nv10_tile.c:188), and test_format reads it for the bank shift and partflip (hwtest/nv10_tile.c:129, 132); the model reads it as a map lookup.
- MemTiming.Conf.ReadTimings: requires the four header bytes to be inside the image. The source reads them without a bounds check.
- MemTiming.Conf.ParseCmdLine: options arrive already split by getopt, with their sscanf-converted argument; the hexadecimal and decimal converters of the positional arguments are function parameters. A failed sscanf, which leaves the field unchanged, is not modelled.
- The field widths of nvamemtiming.h are not part of this model: its fields are unbounded integers.
- MemTiming.LocationInTable: is stated for entry ≥ 0 only. The type of timing.entry is not part of this model; like read_timings (nva/nvamemtiming.c:67), EntryLocation puts no lower bound on the entry, so a negative entry passes the count check and its offset lies before the table's entries.
- signal_handler and usage's messages: process control and output. usage is modelled as the Usage outcome.
- vbios_read, complete_dump, bitfield_check and manual_check: their code is not part of this model.
