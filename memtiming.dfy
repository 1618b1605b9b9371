// The configuration stage of nva/nvamemtiming.c: the option loop of
// parse_cmd_line with its three-state mode rule, and read_timings, which
// validates the VBIOS timing-table header and locates the selected entry.
//
// getopt, sscanf and atoi are not modelled: options arrive already split,
// each with the number its argument converts to, and the two converters of
// the positional arguments are given as functions.

module MemTiming {
  import opened Wrappers

  /** A byte of the VBIOS image. */
  type Byte = x: int | 0 <= x < 256

  /** What the tool does once the timing table is read. */
  datatype Mode = Auto | Manual | Bitfield

  /** One option as getopt reports it for the option string "htb:c:e:v:";
      `Unknown` is any other character getopt returns, which the switch
      ignores. */
  datatype Opt =
    | OptE(index: int)
    | OptV(value: int)
    | OptB(bitIndex: int)
    | OptC(card: int)
    | OptT
    | OptH
    | Unknown

  /** The fields the option loop writes. */
  datatype Settings = Settings(mode: Mode, cnum: int, mmiotrace: bool,
                               manualIndex: int, manualValue: int, bitfieldIndex: int)

  /** How parse_cmd_line ends: it returns 0, it returns 1 because the card
      does not exist, or it calls usage, which exits. */
  datatype ParseOutcome = Parsed | NoSuchCard | Usage

  /** -e and -v select the manual mode. */
  predicate IsManualOpt(o: Opt) { o.OptE? || o.OptV? }

  /** One pass of the option loop: the new settings, or None where usage is
      called. -e and -v are refused in the bitfield mode, -b in the manual
      mode, -h always. An accepted option leaves a MANUAL or BITFIELD mode
      as it is, and moves AUTO to the mode the option selects. */
  function Apply(s: Settings, o: Opt): (r: Option<Settings>)
    ensures r.None? <==> o.OptH? || (IsManualOpt(o) && s.mode == Bitfield) || (o.OptB? && s.mode == Manual)
    ensures r.Some? && s.mode != Auto ==> r.value.mode == s.mode
    ensures r.Some? && s.mode == Auto ==>
              r.value.mode == (if IsManualOpt(o) then Manual else if o.OptB? then Bitfield else Auto)
  {
    match o
    case OptE(index) =>
      if s.mode != Auto && s.mode != Manual then assert s.mode == Bitfield; None
      else Some(s.(mode := Manual, manualIndex := index))
    case OptV(value) =>
      if s.mode != Auto && s.mode != Manual then assert s.mode == Bitfield; None
      else Some(s.(mode := Manual, manualValue := value))
    case OptB(bitIndex) =>
      if s.mode != Auto && s.mode != Bitfield then assert s.mode == Manual; None
      else Some(s.(mode := Bitfield, bitfieldIndex := bitIndex))
    case OptC(card) => Some(s.(cnum := card))
    case OptT => Some(s.(mmiotrace := true))
    case OptH => None
    case Unknown => Some(s)
  }

  /** The option loop over `opts`, in order, from settings `s`. A run that
      starts outside AUTO and completes ends in the mode it started in. */
  function Run(s: Settings, opts: seq<Opt>): (r: Option<Settings>)
    ensures r.Some? && s.mode != Auto ==> r.value.mode == s.mode
  {
    if |opts| == 0 then Some(s)
    else match Run(s, opts[..|opts| - 1])
      case None => None
      case Some(t) => Apply(t, opts[|opts| - 1])
  }

  /** Some option selects the manual mode, or the start is already manual. */
  predicate WantsManual(s: Settings, opts: seq<Opt>)
  {
    s.mode == Manual || exists i :: 0 <= i < |opts| && IsManualOpt(opts[i])
  }

  /** Some option selects the bitfield mode, or the start is already bitfield. */
  predicate WantsBitfield(s: Settings, opts: seq<Opt>)
  {
    s.mode == Bitfield || exists i :: 0 <= i < |opts| && opts[i].OptB?
  }

  /** The mode rule in closed form: the option loop completes exactly when
      there is no -h and the manual and bitfield modes are not both asked
      for, in whatever order; it then ends in the mode asked for, and stays
      in the starting mode when none is. */
  lemma {:induction false} RunAccepts(s: Settings, opts: seq<Opt>)
    ensures Run(s, opts).Some? <==>
              (forall i :: 0 <= i < |opts| ==> !opts[i].OptH?) &&
              !(WantsManual(s, opts) && WantsBitfield(s, opts))
    ensures Run(s, opts).Some? ==>
              (WantsManual(s, opts) ==> Run(s, opts).value.mode == Manual) &&
              (WantsBitfield(s, opts) ==> Run(s, opts).value.mode == Bitfield) &&
              (!WantsManual(s, opts) && !WantsBitfield(s, opts) ==> Run(s, opts).value.mode == s.mode)
  {
    if |opts| > 0 {
      var init := opts[..|opts| - 1];
      var o := opts[|opts| - 1];
      RunAccepts(s, init);
      assert forall i :: 0 <= i < |init| ==> init[i] == opts[i];
      WantsSplit(s, opts);
    }
  }

  /** The wants of a run are those of all but its last option, plus the last. */
  lemma WantsSplit(s: Settings, opts: seq<Opt>)
    requires |opts| > 0
    ensures WantsManual(s, opts) <==>
              WantsManual(s, opts[..|opts| - 1]) || IsManualOpt(opts[|opts| - 1])
    ensures WantsBitfield(s, opts) <==>
              WantsBitfield(s, opts[..|opts| - 1]) || opts[|opts| - 1].OptB?
  {
    var init := opts[..|opts| - 1];
    assert forall i :: 0 <= i < |init| ==> init[i] == opts[i];
  }

  /** Running `a` and then `b` is the run of `a + b`. */
  lemma {:induction false} RunAppend(s: Settings, a: seq<Opt>, b: seq<Opt>)
    ensures Run(s, a).Some? ==> Run(s, a + b) == Run(Run(s, a).value, b)
    ensures Run(s, a).None? ==> Run(s, a + b).None?
    decreases |b|
  {
    if |b| > 0 {
      var b0 := b[..|b| - 1];
      RunAppend(s, a, b0);
      assert (a + b)[..|a + b| - 1] == a + b0;
      assert (a + b)[|a + b| - 1] == b[|b| - 1];
    } else {
      assert a + b == a;
    }
  }

  /** The mode never returns to AUTO: once the first i options have moved
      the mode out of AUTO, a run that completes ends in that mode, so
      MANUAL and BITFIELD never both occur. */
  lemma ModeSticks(s: Settings, opts: seq<Opt>, i: nat)
    requires i <= |opts| && Run(s, opts[..i]).Some? && Run(s, opts[..i]).value.mode != Auto
    requires Run(s, opts).Some?
    ensures Run(s, opts).value.mode == Run(s, opts[..i]).value.mode
  {
    RunAppend(s, opts[..i], opts[i..]);
    assert opts[..i] + opts[i..] == opts;
  }

  /** The settings parse_cmd_line starts its option loop from; the manual and
      bitfield fields keep whatever the caller's structure held. */
  function Initial(manualIndex: int, manualValue: int, bitfieldIndex: int): Settings
  {
    Settings(Auto, 0, false, manualIndex, manualValue, bitfieldIndex)
  }

  /** The header of the timing table: version, header length, entry count
      and entry length, its first four bytes. */
  datatype TimingHeader = TimingHeader(version: Byte, headerLen: Byte, count: Byte, entryLen: Byte)

  function HeaderAt(data: seq<Byte>, offset: int): TimingHeader
    requires 0 <= offset
    requires offset + 4 <= |data|
  {
    TimingHeader(data[offset], data[offset + 1], data[offset + 2], data[offset + 3])
  }

  /** Where read_timings finds entry `entry` of the table at `tableOffset`:
      its length and its offset. A table of version 0x10 locates exactly
      the entries below its count, with the header's entry length. */
  function EntryLocation(h: TimingHeader, tableOffset: int, entry: int): (loc: Option<(int, int)>)
    ensures loc.Some? <==> h.version == 0x10 && entry < h.count
    ensures loc.Some? ==> loc.value.0 == h.entryLen
  {
    if h.version != 0x10 then None
    else if entry >= h.count then None
    else Some((h.entryLen, tableOffset + h.headerLen + entry * h.entryLen))
  }

  /** An entry of a valid table lies inside the table, after the header and
      within count * length bytes of it. */
  lemma LocationInTable(h: TimingHeader, tableOffset: int, entry: int)
    requires 0 <= entry
    requires EntryLocation(h, tableOffset, entry).Some?
    ensures var (len, off) := EntryLocation(h, tableOffset, entry).value;
            tableOffset + h.headerLen <= off &&
            off + len <= tableOffset + h.headerLen + h.count * h.entryLen
  {
    MulMonotone(entry + 1, h.count, h.entryLen);
  }

  /** Two different entries of a valid table do not overlap. */
  lemma LocationsDisjoint(h: TimingHeader, tableOffset: int, i: int, j: int)
    requires 0 <= i < j
    requires EntryLocation(h, tableOffset, j).Some?
    ensures EntryLocation(h, tableOffset, i).Some?
    ensures EntryLocation(h, tableOffset, i).value.1 + h.entryLen <= EntryLocation(h, tableOffset, j).value.1
  {
    MulMonotone(i + 1, j, h.entryLen);
  }

  lemma MulMonotone(a: int, b: int, c: nat)
    requires a <= b
    ensures a * c <= b * c
  {
  }

  class Conf {
    var data: seq<Byte>
    var timingTableOffset: int
    var timingEntryLength: int
    var timingEntryOffset: int
    var timingEntry: int
    var perflvl: int
    var file: Option<string>
    var settings: Settings

    constructor (data: seq<Byte>)
      ensures this.data == data && settings == Initial(0, 0, 0)
    {
      this.data := data;
      timingTableOffset := 0;
      timingEntryLength := 0;
      timingEntryOffset := 0;
      timingEntry := 0;
      perflvl := 0;
      file := None;
      settings := Initial(0, 0, 0);
    }

    /** read_timings: check the table version and the entry number, then
        record the entry's length and offset; -1, with nothing changed, on
        either failure. */
    method ReadTimings() returns (r: int)
      requires 0 <= timingTableOffset && timingTableOffset + 4 <= |data|
      modifies this
      ensures data == old(data) && timingTableOffset == old(timingTableOffset) && timingEntry == old(timingEntry)
      ensures settings == old(settings) && perflvl == old(perflvl) && file == old(file)
      ensures r == 0 || r == -1
      ensures var loc := EntryLocation(HeaderAt(data, timingTableOffset), timingTableOffset, timingEntry);
              (r == 0 <==> loc.Some?) &&
              (loc.Some? ==> timingEntryLength == loc.value.0 && timingEntryOffset == loc.value.1) &&
              (loc.None? ==> timingEntryLength == old(timingEntryLength) && timingEntryOffset == old(timingEntryOffset))
    {
      var header := data[timingTableOffset..timingTableOffset + 4];
      if header[0] != 0x10 {
        return -1;
      }
      if timingEntry >= header[2] {
        return -1;
      }
      timingEntryLength := header[3];
      timingEntryOffset := timingTableOffset + header[1] + timingEntry * header[3];
      return 0;
    }

    /** parse_cmd_line: run the option loop from AUTO, then check the card
        number against the number of cards, then take the four positional
        arguments: the VBIOS file, the table offset (hexadecimal), the entry
        and the performance level. */
    method ParseCmdLine(opts: seq<Opt>, cardsNum: int, operands: seq<string>,
                        hex: string -> int, dec: string -> int) returns (out: ParseOutcome)
      modifies this
      ensures var run := Run(Initial(old(settings).manualIndex, old(settings).manualValue,
                                     old(settings).bitfieldIndex), opts);
              (out == Usage <==> run.None? || (run.value.cnum < cardsNum && |operands| != 4)) &&
              (out == NoSuchCard <==> run.Some? && run.value.cnum >= cardsNum) &&
              (run.Some? ==> settings == run.value) &&
              (out == NoSuchCard ==> file == None) &&
              (out == Parsed ==> file == Some(operands[0]) && timingTableOffset == hex(operands[1]) &&
                                 timingEntry == dec(operands[2]) && perflvl == dec(operands[3]))
      ensures out != Parsed ==>
                timingTableOffset == old(timingTableOffset) && timingEntry == old(timingEntry) &&
                perflvl == old(perflvl)
      ensures timingEntryLength == old(timingEntryLength) && timingEntryOffset == old(timingEntryOffset)
      ensures data == old(data)
    {
      settings := Initial(settings.manualIndex, settings.manualValue, settings.bitfieldIndex);
      file := None;
      ghost var start := settings;
      var i := 0;
      while i < |opts|
        invariant 0 <= i <= |opts|
        invariant Run(start, opts[..i]) == Some(settings)
        invariant data == old(data) && file == None
        invariant timingTableOffset == old(timingTableOffset) && timingEntry == old(timingEntry)
        invariant perflvl == old(perflvl)
        invariant timingEntryLength == old(timingEntryLength) && timingEntryOffset == old(timingEntryOffset)
      {
        assert opts[..i + 1][..i] == opts[..i];
        match opts[i] {
        case OptE(index) =>
          if settings.mode != Auto && settings.mode != Manual {
            RunStops(start, opts, i + 1);
            return Usage;
          }
          settings := settings.(mode := Manual, manualIndex := index);
        case OptV(value) =>
          if settings.mode != Auto && settings.mode != Manual {
            RunStops(start, opts, i + 1);
            return Usage;
          }
          settings := settings.(mode := Manual, manualValue := value);
        case OptB(bitIndex) =>
          if settings.mode != Auto && settings.mode != Bitfield {
            RunStops(start, opts, i + 1);
            return Usage;
          }
          settings := settings.(mode := Bitfield, bitfieldIndex := bitIndex);
        case OptC(card) =>
          settings := settings.(cnum := card);
        case OptT =>
          settings := settings.(mmiotrace := true);
        case OptH =>
          RunStops(start, opts, i + 1);
          return Usage;
        case Unknown =>
        }
        i := i + 1;
      }
      assert opts[..i] == opts;
      if settings.cnum >= cardsNum {
        return NoSuchCard;
      }
      if |operands| != 4 {
        return Usage;
      }
      file := Some(operands[0]);
      timingTableOffset := hex(operands[1]);
      timingEntry := dec(operands[2]);
      perflvl := dec(operands[3]);
      return Parsed;
    }
  }

  /** Once the option loop has called usage, no later option undoes it. */
  lemma {:induction false} RunStops(s: Settings, opts: seq<Opt>, n: nat)
    requires n <= |opts| && Run(s, opts[..n]).None?
    ensures Run(s, opts).None?
    decreases |opts| - n
  {
    if n < |opts| {
      assert opts[..n + 1][..n] == opts[..n];
      RunStops(s, opts, n + 1);
    } else {
      assert opts[..n] == opts;
    }
  }
}
