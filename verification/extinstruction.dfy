/** The undocumented opcodes and the loader that adds them to the legal
    table (pkg/extinstruction.go).

    The source issues one guarded insert per undocumented opcode, in a fixed
    order; the guard is the same as the legal file's, so the insert is
    Instruction.LoadInstruction and the loader is a fold of it over the list
    below. */
module ExtInstruction {
  import opened Instruction

  /** The twelve jam opcodes. */
  const JamOpcodes: set<Byte> := {0x02, 0x12, 0x22, 0x32, 0x42, 0x52, 0x62, 0x72, 0x92, 0xB2, 0xD2, 0xF2}

  /** Base cycles of the NOP variants, by addressing mode. */
  function NopCycles(m: AddressingMode): (r: Option<Byte>)
  {
    match m
    case Implied => Some(2)
    case Immediate => Some(2)
    case ZeroPage => Some(3)
    case ZeroPageX => Some(4)
    case Absolute => Some(4)
    case AbsoluteX => Some(4)
    case _ => None
  }

  /** The read-modify-write undocumented families. */
  predicate ReadModifyWrite(m: Mnemonic)
  {
    match m
    case DCP | ISC | RLA | RRA | SLO | SRE => true
    case _ => false
  }

  /** Base cycles shared by the read-modify-write families, by mode. */
  function ReadModifyWriteCycles(m: AddressingMode): (r: Option<Byte>)
  {
    match m
    case ZeroPage => Some(5)
    case ZeroPageX => Some(6)
    case Absolute => Some(6)
    case AbsoluteX => Some(7)
    case AbsoluteY => Some(7)
    case XIndirect => Some(8)
    case IndirectY => Some(8)
    case _ => None
  }

  /** The k-th insert of the extended loader, in source order. The index
      finds every entry at its own position, so no opcode is loaded twice. */
  function ExtendedAt(k: nat): (e: Entry)
    requires k < 105
    ensures ExtendedIndex(e.opcode) == Some(k)
  {
    if k < 12 then JamLoads(k)
    else if k < 39 then NopLoads(k)
    else if k < 44 then ImmediateLoads(k)
    else if k < 51 then DcpLoads(k)
    else if k < 58 then IscLoads(k)
    else if k < 66 then LasLaxLxaLoads(k)
    else if k < 73 then RlaLoads(k)
    else if k < 80 then RraLoads(k)
    else if k < 89 then SaxSbxShLoads(k)
    else if k < 96 then SloLoads(k)
    else if k < 103 then SreLoads(k)
    else TasUsbLoads(k)
  }

  /** The family rules of the extended list: JAM sits only at the jam
      opcodes, Implied with two cycles; NOP and the read-modify-write
      families follow their mode-to-cycles maps; no extended entry is
      Relative or Accumulator, and bases run from 2 to 8. */
  lemma ExtendedFamilies(k: nat)
    requires k < 105
    ensures var e := ExtendedAt(k);
      && (e.mnemonic == JAM ==> e.opcode in JamOpcodes && e.mode == Implied && e.baseCycles == 2)
      && (e.mnemonic == NOP ==> NopCycles(e.mode) == Some(e.baseCycles))
      && (ReadModifyWrite(e.mnemonic) ==> ReadModifyWriteCycles(e.mode) == Some(e.baseCycles))
      && e.mode != Relative && e.mode != Accumulator
      && 2 <= e.baseCycles <= 8
  {
    if k < 12 { }  // JamLoads
    else if k < 39 { }  // NopLoads
    else if k < 44 { }  // ImmediateLoads
    else if k < 51 { }  // DcpLoads
    else if k < 58 { }  // IscLoads
    else if k < 66 { }  // LasLaxLxaLoads
    else if k < 73 { }  // RlaLoads
    else if k < 80 { }  // RraLoads
    else if k < 89 { }  // SaxSbxShLoads
    else if k < 96 { }  // SloLoads
    else if k < 103 { }  // SreLoads
    else { }  // TasUsbLoads
  }

  /** The twelve JAM (processor lock) opcodes (pkg/extinstruction.go:9-20). */
  function JamLoads(k: nat): (e: Entry)
    requires k < 12
    ensures e.mnemonic == JAM && e.mode == Implied && e.baseCycles == 2
    ensures e.opcode in JamOpcodes
    ensures ExtendedIndex(e.opcode) == Some(k)
  {
    match k
    case 0 => Entry(JAM, Implied, 0x02, 2)
    case 1 => Entry(JAM, Implied, 0x12, 2)
    case 2 => Entry(JAM, Implied, 0x22, 2)
    case 3 => Entry(JAM, Implied, 0x32, 2)
    case 4 => Entry(JAM, Implied, 0x42, 2)
    case 5 => Entry(JAM, Implied, 0x52, 2)
    case 6 => Entry(JAM, Implied, 0x62, 2)
    case 7 => Entry(JAM, Implied, 0x72, 2)
    case 8 => Entry(JAM, Implied, 0x92, 2)
    case 9 => Entry(JAM, Implied, 0xB2, 2)
    case 10 => Entry(JAM, Implied, 0xD2, 2)
    case _ => Entry(JAM, Implied, 0xF2, 2)
  }

  /** The undocumented NOP variants (pkg/extinstruction.go:23-49). */
  function NopLoads(k: nat): (e: Entry)
    requires 12 <= k < 39
    ensures e.mnemonic == NOP
    ensures NopCycles(e.mode) == Some(e.baseCycles)
    ensures ExtendedIndex(e.opcode) == Some(k)
  {
    match k
    case 12 => Entry(NOP, Implied, 0x1A, 2)
    case 13 => Entry(NOP, Implied, 0x3A, 2)
    case 14 => Entry(NOP, Implied, 0x5A, 2)
    case 15 => Entry(NOP, Implied, 0x7A, 2)
    case 16 => Entry(NOP, Implied, 0xDA, 2)
    case 17 => Entry(NOP, Implied, 0xFA, 2)
    case 18 => Entry(NOP, Immediate, 0x80, 2)
    case 19 => Entry(NOP, Immediate, 0x82, 2)
    case 20 => Entry(NOP, Immediate, 0x89, 2)
    case 21 => Entry(NOP, Immediate, 0xC2, 2)
    case 22 => Entry(NOP, Immediate, 0xE2, 2)
    case 23 => Entry(NOP, ZeroPage, 0x04, 3)
    case 24 => Entry(NOP, ZeroPage, 0x44, 3)
    case 25 => Entry(NOP, ZeroPage, 0x64, 3)
    case 26 => Entry(NOP, ZeroPageX, 0x14, 4)
    case 27 => Entry(NOP, ZeroPageX, 0x34, 4)
    case 28 => Entry(NOP, ZeroPageX, 0x54, 4)
    case 29 => Entry(NOP, ZeroPageX, 0x74, 4)
    case 30 => Entry(NOP, ZeroPageX, 0xD4, 4)
    case 31 => Entry(NOP, ZeroPageX, 0xF4, 4)
    case 32 => Entry(NOP, Absolute, 0x0C, 4)
    case 33 => Entry(NOP, AbsoluteX, 0x1C, 4)
    case 34 => Entry(NOP, AbsoluteX, 0x3C, 4)
    case 35 => Entry(NOP, AbsoluteX, 0x5C, 4)
    case 36 => Entry(NOP, AbsoluteX, 0x7C, 4)
    case 37 => Entry(NOP, AbsoluteX, 0xDC, 4)
    case _ => Entry(NOP, AbsoluteX, 0xFC, 4)
  }

  /** ALR, ANC, ANE and ARR, all immediate with two cycles (pkg/extinstruction.go:51-62). */
  function ImmediateLoads(k: nat): (e: Entry)
    requires 39 <= k < 44
    ensures e.mnemonic in {ALR, ANC, ANE, ARR}
    ensures e.mode == Immediate && e.baseCycles == 2
    ensures ExtendedIndex(e.opcode) == Some(k)
  {
    match k
    case 39 => Entry(ALR, Immediate, 0x4B, 2)
    case 40 => Entry(ANC, Immediate, 0x0B, 2)
    case 41 => Entry(ANC, Immediate, 0x2B, 2)
    case 42 => Entry(ANE, Immediate, 0x8B, 2)
    case _ => Entry(ARR, Immediate, 0x6B, 2)
  }

  /** DCP, a DEC followed by CMP (pkg/extinstruction.go:64-71). */
  function DcpLoads(k: nat): (e: Entry)
    requires 44 <= k < 51
    ensures e.mnemonic == DCP
    ensures ReadModifyWriteCycles(e.mode) == Some(e.baseCycles)
    ensures ExtendedIndex(e.opcode) == Some(k)
  {
    match k
    case 44 => Entry(DCP, ZeroPage, 0xC7, 5)
    case 45 => Entry(DCP, ZeroPageX, 0xD7, 6)
    case 46 => Entry(DCP, Absolute, 0xCF, 6)
    case 47 => Entry(DCP, AbsoluteX, 0xDF, 7)
    case 48 => Entry(DCP, AbsoluteY, 0xDB, 7)
    case 49 => Entry(DCP, XIndirect, 0xC3, 8)
    case _ => Entry(DCP, IndirectY, 0xD3, 8)
  }

  /** ISC, an INC followed by SBC (pkg/extinstruction.go:73-80). */
  function IscLoads(k: nat): (e: Entry)
    requires 51 <= k < 58
    ensures e.mnemonic == ISC
    ensures ReadModifyWriteCycles(e.mode) == Some(e.baseCycles)
    ensures ExtendedIndex(e.opcode) == Some(k)
  {
    match k
    case 51 => Entry(ISC, ZeroPage, 0xE7, 5)
    case 52 => Entry(ISC, ZeroPageX, 0xF7, 6)
    case 53 => Entry(ISC, Absolute, 0xEF, 6)
    case 54 => Entry(ISC, AbsoluteX, 0xFF, 7)
    case 55 => Entry(ISC, AbsoluteY, 0xFB, 7)
    case 56 => Entry(ISC, XIndirect, 0xE3, 8)
    case _ => Entry(ISC, IndirectY, 0xF3, 8)
  }

  /** LAS, LAX and LXA (pkg/extinstruction.go:82-94). */
  function LasLaxLxaLoads(k: nat): (e: Entry)
    requires 58 <= k < 66
    ensures e.mnemonic in {LAS, LAX, LXA}
    ensures e.mode != Relative && e.mode != Accumulator
    ensures 2 <= e.baseCycles <= 8
    ensures ExtendedIndex(e.opcode) == Some(k)
  {
    match k
    case 58 => Entry(LAS, AbsoluteY, 0xBB, 4)
    case 59 => Entry(LAX, ZeroPage, 0xA7, 3)
    case 60 => Entry(LAX, ZeroPageY, 0xB7, 4)
    case 61 => Entry(LAX, Absolute, 0xAF, 4)
    case 62 => Entry(LAX, AbsoluteY, 0xBF, 4)
    case 63 => Entry(LAX, XIndirect, 0xA3, 6)
    case 64 => Entry(LAX, IndirectY, 0xB3, 5)
    case _ => Entry(LXA, Immediate, 0xAB, 2)
  }

  /** RLA, a ROL followed by AND (pkg/extinstruction.go:96-103). */
  function RlaLoads(k: nat): (e: Entry)
    requires 66 <= k < 73
    ensures e.mnemonic == RLA
    ensures ReadModifyWriteCycles(e.mode) == Some(e.baseCycles)
    ensures ExtendedIndex(e.opcode) == Some(k)
  {
    match k
    case 66 => Entry(RLA, ZeroPage, 0x27, 5)
    case 67 => Entry(RLA, ZeroPageX, 0x37, 6)
    case 68 => Entry(RLA, Absolute, 0x2F, 6)
    case 69 => Entry(RLA, AbsoluteX, 0x3F, 7)
    case 70 => Entry(RLA, AbsoluteY, 0x3B, 7)
    case 71 => Entry(RLA, XIndirect, 0x23, 8)
    case _ => Entry(RLA, IndirectY, 0x33, 8)
  }

  /** RRA, a ROR followed by ADC (pkg/extinstruction.go:105-112). */
  function RraLoads(k: nat): (e: Entry)
    requires 73 <= k < 80
    ensures e.mnemonic == RRA
    ensures ReadModifyWriteCycles(e.mode) == Some(e.baseCycles)
    ensures ExtendedIndex(e.opcode) == Some(k)
  {
    match k
    case 73 => Entry(RRA, ZeroPage, 0x67, 5)
    case 74 => Entry(RRA, ZeroPageX, 0x77, 6)
    case 75 => Entry(RRA, Absolute, 0x6F, 6)
    case 76 => Entry(RRA, AbsoluteX, 0x7F, 7)
    case 77 => Entry(RRA, AbsoluteY, 0x7B, 7)
    case 78 => Entry(RRA, XIndirect, 0x63, 8)
    case _ => Entry(RRA, IndirectY, 0x73, 8)
  }

  /** SAX, SBX, SHA, SHX and SHY (pkg/extinstruction.go:114-131). */
  function SaxSbxShLoads(k: nat): (e: Entry)
    requires 80 <= k < 89
    ensures e.mnemonic in {SAX, SBX, SHA, SHX, SHY}
    ensures e.mode != Relative && e.mode != Accumulator
    ensures 2 <= e.baseCycles <= 8
    ensures ExtendedIndex(e.opcode) == Some(k)
  {
    match k
    case 80 => Entry(SAX, ZeroPage, 0x87, 3)
    case 81 => Entry(SAX, ZeroPageY, 0x97, 4)
    case 82 => Entry(SAX, Absolute, 0x8F, 4)
    case 83 => Entry(SAX, XIndirect, 0x83, 6)
    case 84 => Entry(SBX, Immediate, 0xCB, 2)
    case 85 => Entry(SHA, AbsoluteY, 0x9F, 5)
    case 86 => Entry(SHA, IndirectY, 0x93, 6)
    case 87 => Entry(SHX, AbsoluteY, 0x9E, 5)
    case _ => Entry(SHY, AbsoluteX, 0x9C, 5)
  }

  /** SLO, an ASL followed by ORA (pkg/extinstruction.go:133-140). */
  function SloLoads(k: nat): (e: Entry)
    requires 89 <= k < 96
    ensures e.mnemonic == SLO
    ensures ReadModifyWriteCycles(e.mode) == Some(e.baseCycles)
    ensures ExtendedIndex(e.opcode) == Some(k)
  {
    match k
    case 89 => Entry(SLO, ZeroPage, 0x07, 5)
    case 90 => Entry(SLO, ZeroPageX, 0x17, 6)
    case 91 => Entry(SLO, Absolute, 0x0F, 6)
    case 92 => Entry(SLO, AbsoluteX, 0x1F, 7)
    case 93 => Entry(SLO, AbsoluteY, 0x1B, 7)
    case 94 => Entry(SLO, XIndirect, 0x03, 8)
    case _ => Entry(SLO, IndirectY, 0x13, 8)
  }

  /** SRE, an LSR followed by EOR (pkg/extinstruction.go:142-149). */
  function SreLoads(k: nat): (e: Entry)
    requires 96 <= k < 103
    ensures e.mnemonic == SRE
    ensures ReadModifyWriteCycles(e.mode) == Some(e.baseCycles)
    ensures ExtendedIndex(e.opcode) == Some(k)
  {
    match k
    case 96 => Entry(SRE, ZeroPage, 0x47, 5)
    case 97 => Entry(SRE, ZeroPageX, 0x57, 6)
    case 98 => Entry(SRE, Absolute, 0x4F, 6)
    case 99 => Entry(SRE, AbsoluteX, 0x5F, 7)
    case 100 => Entry(SRE, AbsoluteY, 0x5B, 7)
    case 101 => Entry(SRE, XIndirect, 0x43, 8)
    case _ => Entry(SRE, IndirectY, 0x53, 8)
  }

  /** TAS, and USB (the undocumented SBC immediate) (pkg/extinstruction.go:151-155). */
  function TasUsbLoads(k: nat): (e: Entry)
    requires 103 <= k < 105
    ensures e.mnemonic in {TAS, USB}
    ensures e.mode != Relative && e.mode != Accumulator
    ensures 2 <= e.baseCycles <= 8
    ensures ExtendedIndex(e.opcode) == Some(k)
  {
    match k
    case 103 => Entry(TAS, AbsoluteY, 0x9B, 5)
    case _ => Entry(USB, Immediate, 0xEB, 2)
  }

  /** The 105 undocumented opcodes in load order (pkg/extinstruction.go:8-155). */
  function ExtendedInstructions(): (es: seq<Entry>)
    ensures |es| == 105
    ensures forall k | 0 <= k < 105 :: es[k] == ExtendedAt(k)
    ensures Fits(LegalInstructions(), es)
  {
    seq(105, k requires 0 <= k < 105 => ExtendedAt(k))
  }

  /** Position of an opcode in the extended list, or None when the list does
      not load it. Split by the opcode's high nibble. */
  function ExtendedIndex(op: Byte): (r: Option<nat>)
    ensures r.Some? <==> LegalAt(op).None?
    ensures r.Some? ==> r.value < 105
  {
    if op < 0x10 then ExtendedIndexRow0(op)
    else if op < 0x20 then ExtendedIndexRow1(op)
    else if op < 0x30 then ExtendedIndexRow2(op)
    else if op < 0x40 then ExtendedIndexRow3(op)
    else if op < 0x50 then ExtendedIndexRow4(op)
    else if op < 0x60 then ExtendedIndexRow5(op)
    else if op < 0x70 then ExtendedIndexRow6(op)
    else if op < 0x80 then ExtendedIndexRow7(op)
    else if op < 0x90 then ExtendedIndexRow8(op)
    else if op < 0xA0 then ExtendedIndexRow9(op)
    else if op < 0xB0 then ExtendedIndexRowA(op)
    else if op < 0xC0 then ExtendedIndexRowB(op)
    else if op < 0xD0 then ExtendedIndexRowC(op)
    else if op < 0xE0 then ExtendedIndexRowD(op)
    else if op < 0xF0 then ExtendedIndexRowE(op)
    else ExtendedIndexRowF(op)
  }

  function ExtendedIndexRow0(op: Byte): (r: Option<nat>)
    requires 0x00 <= op <= 0x0F
    ensures r.Some? <==> LegalRow0(op).None?
    ensures r.Some? ==> r.value < 105
  {
    match op
    case 0x02 => Some(0)
    case 0x03 => Some(94)
    case 0x04 => Some(23)
    case 0x07 => Some(89)
    case 0x0B => Some(40)
    case 0x0C => Some(32)
    case 0x0F => Some(91)
    case _ => None
  }

  function ExtendedIndexRow1(op: Byte): (r: Option<nat>)
    requires 0x10 <= op <= 0x1F
    ensures r.Some? <==> LegalRow1(op).None?
    ensures r.Some? ==> r.value < 105
  {
    match op
    case 0x12 => Some(1)
    case 0x13 => Some(95)
    case 0x14 => Some(26)
    case 0x17 => Some(90)
    case 0x1A => Some(12)
    case 0x1B => Some(93)
    case 0x1C => Some(33)
    case 0x1F => Some(92)
    case _ => None
  }

  function ExtendedIndexRow2(op: Byte): (r: Option<nat>)
    requires 0x20 <= op <= 0x2F
    ensures r.Some? <==> LegalRow2(op).None?
    ensures r.Some? ==> r.value < 105
  {
    match op
    case 0x22 => Some(2)
    case 0x23 => Some(71)
    case 0x27 => Some(66)
    case 0x2B => Some(41)
    case 0x2F => Some(68)
    case _ => None
  }

  function ExtendedIndexRow3(op: Byte): (r: Option<nat>)
    requires 0x30 <= op <= 0x3F
    ensures r.Some? <==> LegalRow3(op).None?
    ensures r.Some? ==> r.value < 105
  {
    match op
    case 0x32 => Some(3)
    case 0x33 => Some(72)
    case 0x34 => Some(27)
    case 0x37 => Some(67)
    case 0x3A => Some(13)
    case 0x3B => Some(70)
    case 0x3C => Some(34)
    case 0x3F => Some(69)
    case _ => None
  }

  function ExtendedIndexRow4(op: Byte): (r: Option<nat>)
    requires 0x40 <= op <= 0x4F
    ensures r.Some? <==> LegalRow4(op).None?
    ensures r.Some? ==> r.value < 105
  {
    match op
    case 0x42 => Some(4)
    case 0x43 => Some(101)
    case 0x44 => Some(24)
    case 0x47 => Some(96)
    case 0x4B => Some(39)
    case 0x4F => Some(98)
    case _ => None
  }

  function ExtendedIndexRow5(op: Byte): (r: Option<nat>)
    requires 0x50 <= op <= 0x5F
    ensures r.Some? <==> LegalRow5(op).None?
    ensures r.Some? ==> r.value < 105
  {
    match op
    case 0x52 => Some(5)
    case 0x53 => Some(102)
    case 0x54 => Some(28)
    case 0x57 => Some(97)
    case 0x5A => Some(14)
    case 0x5B => Some(100)
    case 0x5C => Some(35)
    case 0x5F => Some(99)
    case _ => None
  }

  function ExtendedIndexRow6(op: Byte): (r: Option<nat>)
    requires 0x60 <= op <= 0x6F
    ensures r.Some? <==> LegalRow6(op).None?
    ensures r.Some? ==> r.value < 105
  {
    match op
    case 0x62 => Some(6)
    case 0x63 => Some(78)
    case 0x64 => Some(25)
    case 0x67 => Some(73)
    case 0x6B => Some(43)
    case 0x6F => Some(75)
    case _ => None
  }

  function ExtendedIndexRow7(op: Byte): (r: Option<nat>)
    requires 0x70 <= op <= 0x7F
    ensures r.Some? <==> LegalRow7(op).None?
    ensures r.Some? ==> r.value < 105
  {
    match op
    case 0x72 => Some(7)
    case 0x73 => Some(79)
    case 0x74 => Some(29)
    case 0x77 => Some(74)
    case 0x7A => Some(15)
    case 0x7B => Some(77)
    case 0x7C => Some(36)
    case 0x7F => Some(76)
    case _ => None
  }

  function ExtendedIndexRow8(op: Byte): (r: Option<nat>)
    requires 0x80 <= op <= 0x8F
    ensures r.Some? <==> LegalRow8(op).None?
    ensures r.Some? ==> r.value < 105
  {
    match op
    case 0x80 => Some(18)
    case 0x82 => Some(19)
    case 0x83 => Some(83)
    case 0x87 => Some(80)
    case 0x89 => Some(20)
    case 0x8B => Some(42)
    case 0x8F => Some(82)
    case _ => None
  }

  function ExtendedIndexRow9(op: Byte): (r: Option<nat>)
    requires 0x90 <= op <= 0x9F
    ensures r.Some? <==> LegalRow9(op).None?
    ensures r.Some? ==> r.value < 105
  {
    match op
    case 0x92 => Some(8)
    case 0x93 => Some(86)
    case 0x97 => Some(81)
    case 0x9B => Some(103)
    case 0x9C => Some(88)
    case 0x9E => Some(87)
    case 0x9F => Some(85)
    case _ => None
  }

  function ExtendedIndexRowA(op: Byte): (r: Option<nat>)
    requires 0xA0 <= op <= 0xAF
    ensures r.Some? <==> LegalRowA(op).None?
    ensures r.Some? ==> r.value < 105
  {
    match op
    case 0xA3 => Some(63)
    case 0xA7 => Some(59)
    case 0xAB => Some(65)
    case 0xAF => Some(61)
    case _ => None
  }

  function ExtendedIndexRowB(op: Byte): (r: Option<nat>)
    requires 0xB0 <= op <= 0xBF
    ensures r.Some? <==> LegalRowB(op).None?
    ensures r.Some? ==> r.value < 105
  {
    match op
    case 0xB2 => Some(9)
    case 0xB3 => Some(64)
    case 0xB7 => Some(60)
    case 0xBB => Some(58)
    case 0xBF => Some(62)
    case _ => None
  }

  function ExtendedIndexRowC(op: Byte): (r: Option<nat>)
    requires 0xC0 <= op <= 0xCF
    ensures r.Some? <==> LegalRowC(op).None?
    ensures r.Some? ==> r.value < 105
  {
    match op
    case 0xC2 => Some(21)
    case 0xC3 => Some(49)
    case 0xC7 => Some(44)
    case 0xCB => Some(84)
    case 0xCF => Some(46)
    case _ => None
  }

  function ExtendedIndexRowD(op: Byte): (r: Option<nat>)
    requires 0xD0 <= op <= 0xDF
    ensures r.Some? <==> LegalRowD(op).None?
    ensures r.Some? ==> r.value < 105
  {
    match op
    case 0xD2 => Some(10)
    case 0xD3 => Some(50)
    case 0xD4 => Some(30)
    case 0xD7 => Some(45)
    case 0xDA => Some(16)
    case 0xDB => Some(48)
    case 0xDC => Some(37)
    case 0xDF => Some(47)
    case _ => None
  }

  function ExtendedIndexRowE(op: Byte): (r: Option<nat>)
    requires 0xE0 <= op <= 0xEF
    ensures r.Some? <==> LegalRowE(op).None?
    ensures r.Some? ==> r.value < 105
  {
    match op
    case 0xE2 => Some(22)
    case 0xE3 => Some(56)
    case 0xE7 => Some(51)
    case 0xEB => Some(104)
    case 0xEF => Some(53)
    case _ => None
  }

  function ExtendedIndexRowF(op: Byte): (r: Option<nat>)
    requires 0xF0 <= op <= 0xFF
    ensures r.Some? <==> LegalRowF(op).None?
    ensures r.Some? ==> r.value < 105
  {
    match op
    case 0xF2 => Some(11)
    case 0xF3 => Some(57)
    case 0xF4 => Some(31)
    case 0xF7 => Some(52)
    case 0xFA => Some(17)
    case 0xFB => Some(55)
    case 0xFC => Some(38)
    case 0xFF => Some(54)
    case _ => None
  }

  /** No two entries of the list target the same opcode. */
  predicate Distinct(es: seq<Entry>)
  {
    forall j, k | 0 <= j < k < |es| :: es[j].opcode != es[k].opcode
  }

  /** The list can be loaded into t without hitting an occupied slot. */
  predicate Fits(t: Table, es: seq<Entry>)
  {
    && Distinct(es)
    && forall k | 0 <= k < |es| :: t[es[k].opcode].None?
  }

  /** Entry k of es meets a taken slot: one occupied in t, or one an earlier
      entry of es has filled. */
  predicate Collides(t: Table, es: seq<Entry>, k: nat)
    requires k < |es|
  {
    t[es[k].opcode].Some? || exists j | 0 <= j < k :: es[j].opcode == es[k].opcode
  }

  /** After the first insert, entry k + 1 collides in t exactly when entry k
      of the tail collides in the new table. */
  lemma CollidesStep(t: Table, es: seq<Entry>, t': Table, k: nat)
    requires |es| > 0 && t[es[0].opcode].None?
    requires t' == t[es[0].opcode := Some(es[0])]
    requires k < |es| - 1
    ensures Collides(t', es[1..], k) <==> Collides(t, es, k + 1)
  {
    var tail := es[1..];
    assert tail[k] == es[k + 1];
    if Collides(t, es, k + 1) && t[es[k + 1].opcode].None? {
      var j :| 0 <= j < k + 1 && es[j].opcode == es[k + 1].opcode;
      if j > 0 {
        assert tail[j - 1].opcode == tail[k].opcode;
      }
    }
    if Collides(t', tail, k) && t'[tail[k].opcode].None? {
      var j :| 0 <= j < k && tail[j].opcode == tail[k].opcode;
      assert es[j + 1].opcode == es[k + 1].opcode;
    }
  }

  /** Loads every entry of es in order; the first insert that meets a taken
      slot aborts the whole load and reports that entry's opcode. */
  function LoadAll(t: Table, es: seq<Entry>): (r: LoadResult)
    ensures r.Loaded? ==> forall i: Byte :: t[i].Some? ==> r.table[i] == t[i]
    ensures r.Loaded? ==> forall k | 0 <= k < |es| :: r.table[es[k].opcode] == Some(es[k])
    ensures r.Loaded? ==>
      forall i: Byte :: (forall k | 0 <= k < |es| :: es[k].opcode != i) ==> r.table[i] == t[i]
    ensures r.DuplicateOpcode? ==>
      exists k | 0 <= k < |es| ::
        && es[k].opcode == r.opcode
        && Collides(t, es, k)
        && forall j | 0 <= j < k :: !Collides(t, es, j)
    decreases |es|
  {
    if |es| == 0 then Loaded(t)
    else
      var e := es[0];
      match LoadInstruction(t, e.opcode, e.mnemonic, e.mode, e.baseCycles)
      case DuplicateOpcode(op) =>
        assert Collides(t, es, 0);
        DuplicateOpcode(op)
      case Loaded(t') =>
        var r := LoadAll(t', es[1..]);
        if r.Loaded? then r
        else
          var k :| 0 <= k < |es| - 1 && es[1..][k].opcode == r.opcode && Collides(t', es[1..], k)
            && forall j | 0 <= j < k :: !Collides(t', es[1..], j);
          CollidesStep(t, es, t', k);
          assert forall j | 0 <= j < k :: Collides(t', es[1..], j) <==> Collides(t, es, j + 1) by {
            forall j | 0 <= j < k { CollidesStep(t, es, t', j); }
          }
          assert !Collides(t, es, 0);
          assert forall j | 0 <= j < k + 1 :: !Collides(t, es, j) by {
            forall j | 0 <= j < k + 1 ensures !Collides(t, es, j) {
              if j > 0 { assert !Collides(t', es[1..], j - 1); }
            }
          }
          assert es[k + 1].opcode == r.opcode;
          r
  }

  /** The load succeeds exactly when the list fits: its opcodes are pairwise
      distinct and each targets an empty slot. */
  lemma {:induction false} LoadAllSucceedsIff(t: Table, es: seq<Entry>)
    ensures LoadAll(t, es).Loaded? <==> Fits(t, es)
    decreases |es|
  {
    if |es| > 0 {
      var e := es[0];
      var r := LoadInstruction(t, e.opcode, e.mnemonic, e.mode, e.baseCycles);
      if r.Loaded? {
        LoadAllSucceedsIff(r.table, es[1..]);
        FitsStep(t, es, r.table);
      } else {
        assert !Fits(t, es) by {
          assert t[es[0].opcode].Some?;
        }
      }
    }
  }

  /** After the first insert, the list fits iff its tail fits the new table. */
  lemma FitsStep(t: Table, es: seq<Entry>, t': Table)
    requires |es| > 0 && t[es[0].opcode].None?
    requires t' == t[es[0].opcode := Some(es[0])]
    ensures Fits(t, es) <==> Fits(t', es[1..])
  {
    var tail := es[1..];
    assert forall k | 0 <= k < |tail| :: tail[k] == es[k + 1];
    if Fits(t', tail) {
      forall j, k | 0 <= j < k < |es| ensures es[j].opcode != es[k].opcode {
        if j > 0 {
          assert tail[j - 1].opcode != tail[k - 1].opcode;
        } else {
          assert t'[tail[k - 1].opcode].None?;
        }
      }
    }
  }

  /** A successful load fills one new slot per entry. */
  lemma {:induction false} LoadAllCount(t: Table, es: seq<Entry>)
    requires Fits(t, es)
    ensures LoadAll(t, es).Loaded?
    ensures Occupied(LoadAll(t, es).table) == Occupied(t) + |es|
    decreases |es|
  {
    LoadAllSucceedsIff(t, es);
    if |es| > 0 {
      var e := es[0];
      LoadFillsOneSlot(t, e.opcode, e.mnemonic, e.mode, e.baseCycles);
      var t' := LoadInstruction(t, e.opcode, e.mnemonic, e.mode, e.baseCycles).table;
      FitsStep(t, es, t');
      LoadAllCount(t', es[1..]);
    }
  }

  /** Loading into a slot that a previous load filled always aborts. */
  lemma SecondLoadAborts(t: Table, opcode: Byte, m: Mnemonic, am: AddressingMode, cycles: Byte,
                         m': Mnemonic, am': AddressingMode, cycles': Byte)
    requires t[opcode].None?
    ensures LoadInstruction(t, opcode, m, am, cycles).Loaded?
    ensures LoadInstruction(LoadInstruction(t, opcode, m, am, cycles).table, opcode, m', am', cycles')
            == DuplicateOpcode(opcode)
  {
  }

  /** Two inserts at different opcodes give the same table in either order,
      so the load order of a fitting list does not matter. */
  lemma LoadsCommute(t: Table, a: Entry, b: Entry)
    requires a.opcode != b.opcode && t[a.opcode].None? && t[b.opcode].None?
    ensures LoadAll(t, [a, b]).Loaded? && LoadAll(t, [b, a]).Loaded?
    ensures LoadAll(t, [a, b]).table == LoadAll(t, [b, a]).table
  {
    LoadAllSucceedsIff(t, [a, b]);
    LoadAllSucceedsIff(t, [b, a]);
    var ab := LoadAll(t, [a, b]).table;
    var ba := LoadAll(t, [b, a]).table;
    forall i: Byte ensures ab[i] == ba[i] {
      if i == a.opcode {
        assert [a, b][0] == a && [b, a][1] == a;
      } else if i == b.opcode {
        assert [a, b][1] == b && [b, a][0] == b;
      }
    }
  }

  /** A list with pairwise-distinct opcodes never collides with itself, so a
      load of it can only abort on a slot that was taken before it ran. */
  lemma DistinctAbortsOnTaken(t: Table, es: seq<Entry>)
    requires Distinct(es)
    ensures LoadAll(t, es).DuplicateOpcode? ==> t[LoadAll(t, es).opcode].Some?
  {
    var r := LoadAll(t, es);
    if r.DuplicateOpcode? {
      var k :| 0 <= k < |es| && es[k].opcode == r.opcode && Collides(t, es, k);
    }
  }

  /** The extended loader of pkg/extinstruction.go:6-157: it succeeds exactly
      when the list fits the table, and it can only abort on a slot that was
      occupied before it started. */
  function LoadExtendedInstructions(t: Table): (r: LoadResult)
    ensures r.Loaded? <==> Fits(t, ExtendedInstructions())
    ensures r.DuplicateOpcode? ==> t[r.opcode].Some?
  {
    var es := ExtendedInstructions();
    LoadAllSucceedsIff(t, es);
    DistinctAbortsOnTaken(t, es);
    LoadAll(t, es)
  }

  /** Every opcode the index knows is the opcode stored at that position.
      The index rows and the soundness lemmas below are split by opcode range
      only to keep each proof obligation small. */
  lemma ExtendedIndexSound()
    ensures forall op: Byte :: ExtendedIndex(op).Some? ==> ExtendedAt(ExtendedIndex(op).value).opcode == op
  {
    forall op: Byte | ExtendedIndex(op).Some?
      ensures ExtendedAt(ExtendedIndex(op).value).opcode == op
    {
      if op < 0x08 { ExtendedIndexSound00(op); }
      else if op < 0x10 { ExtendedIndexSound08(op); }
      else if op < 0x18 { ExtendedIndexSound10(op); }
      else if op < 0x20 { ExtendedIndexSound18(op); }
      else if op < 0x28 { ExtendedIndexSound20(op); }
      else if op < 0x30 { ExtendedIndexSound28(op); }
      else if op < 0x38 { ExtendedIndexSound30(op); }
      else if op < 0x40 { ExtendedIndexSound38(op); }
      else if op < 0x48 { ExtendedIndexSound40(op); }
      else if op < 0x50 { ExtendedIndexSound48(op); }
      else if op < 0x58 { ExtendedIndexSound50(op); }
      else if op < 0x60 { ExtendedIndexSound58(op); }
      else if op < 0x68 { ExtendedIndexSound60(op); }
      else if op < 0x70 { ExtendedIndexSound68(op); }
      else if op < 0x78 { ExtendedIndexSound70(op); }
      else if op < 0x80 { ExtendedIndexSound78(op); }
      else if op < 0x88 { ExtendedIndexSound80(op); }
      else if op < 0x90 { ExtendedIndexSound88(op); }
      else if op < 0x98 { ExtendedIndexSound90(op); }
      else if op < 0xA0 { ExtendedIndexSound98(op); }
      else if op < 0xA8 { ExtendedIndexSoundA0(op); }
      else if op < 0xB0 { ExtendedIndexSoundA8(op); }
      else if op < 0xB8 { ExtendedIndexSoundB0(op); }
      else if op < 0xC0 { ExtendedIndexSoundB8(op); }
      else if op < 0xC8 { ExtendedIndexSoundC0(op); }
      else if op < 0xD0 { ExtendedIndexSoundC8(op); }
      else if op < 0xD8 { ExtendedIndexSoundD0(op); }
      else if op < 0xE0 { ExtendedIndexSoundD8(op); }
      else if op < 0xE8 { ExtendedIndexSoundE0(op); }
      else if op < 0xF0 { ExtendedIndexSoundE8(op); }
      else if op < 0xF8 { ExtendedIndexSoundF0(op); }
      else { ExtendedIndexSoundF8(op); }
    }
  }

  // Soundness of the reverse index, eight opcodes at a time.

  lemma ExtendedIndexSound00(op: Byte)
    requires 0x00 <= op <= 0x07
    ensures ExtendedIndexRow0(op).Some? ==> ExtendedAt(ExtendedIndexRow0(op).value).opcode == op
  {
  }

  lemma ExtendedIndexSound08(op: Byte)
    requires 0x08 <= op <= 0x0F
    ensures ExtendedIndexRow0(op).Some? ==> ExtendedAt(ExtendedIndexRow0(op).value).opcode == op
  {
  }

  lemma ExtendedIndexSound10(op: Byte)
    requires 0x10 <= op <= 0x17
    ensures ExtendedIndexRow1(op).Some? ==> ExtendedAt(ExtendedIndexRow1(op).value).opcode == op
  {
  }

  lemma ExtendedIndexSound18(op: Byte)
    requires 0x18 <= op <= 0x1F
    ensures ExtendedIndexRow1(op).Some? ==> ExtendedAt(ExtendedIndexRow1(op).value).opcode == op
  {
  }

  lemma ExtendedIndexSound20(op: Byte)
    requires 0x20 <= op <= 0x27
    ensures ExtendedIndexRow2(op).Some? ==> ExtendedAt(ExtendedIndexRow2(op).value).opcode == op
  {
  }

  lemma ExtendedIndexSound28(op: Byte)
    requires 0x28 <= op <= 0x2F
    ensures ExtendedIndexRow2(op).Some? ==> ExtendedAt(ExtendedIndexRow2(op).value).opcode == op
  {
  }

  lemma ExtendedIndexSound30(op: Byte)
    requires 0x30 <= op <= 0x37
    ensures ExtendedIndexRow3(op).Some? ==> ExtendedAt(ExtendedIndexRow3(op).value).opcode == op
  {
  }

  lemma ExtendedIndexSound38(op: Byte)
    requires 0x38 <= op <= 0x3F
    ensures ExtendedIndexRow3(op).Some? ==> ExtendedAt(ExtendedIndexRow3(op).value).opcode == op
  {
  }

  lemma ExtendedIndexSound40(op: Byte)
    requires 0x40 <= op <= 0x47
    ensures ExtendedIndexRow4(op).Some? ==> ExtendedAt(ExtendedIndexRow4(op).value).opcode == op
  {
  }

  lemma ExtendedIndexSound48(op: Byte)
    requires 0x48 <= op <= 0x4F
    ensures ExtendedIndexRow4(op).Some? ==> ExtendedAt(ExtendedIndexRow4(op).value).opcode == op
  {
  }

  lemma ExtendedIndexSound50(op: Byte)
    requires 0x50 <= op <= 0x57
    ensures ExtendedIndexRow5(op).Some? ==> ExtendedAt(ExtendedIndexRow5(op).value).opcode == op
  {
  }

  lemma ExtendedIndexSound58(op: Byte)
    requires 0x58 <= op <= 0x5F
    ensures ExtendedIndexRow5(op).Some? ==> ExtendedAt(ExtendedIndexRow5(op).value).opcode == op
  {
  }

  lemma ExtendedIndexSound60(op: Byte)
    requires 0x60 <= op <= 0x67
    ensures ExtendedIndexRow6(op).Some? ==> ExtendedAt(ExtendedIndexRow6(op).value).opcode == op
  {
  }

  lemma ExtendedIndexSound68(op: Byte)
    requires 0x68 <= op <= 0x6F
    ensures ExtendedIndexRow6(op).Some? ==> ExtendedAt(ExtendedIndexRow6(op).value).opcode == op
  {
  }

  lemma ExtendedIndexSound70(op: Byte)
    requires 0x70 <= op <= 0x77
    ensures ExtendedIndexRow7(op).Some? ==> ExtendedAt(ExtendedIndexRow7(op).value).opcode == op
  {
  }

  lemma ExtendedIndexSound78(op: Byte)
    requires 0x78 <= op <= 0x7F
    ensures ExtendedIndexRow7(op).Some? ==> ExtendedAt(ExtendedIndexRow7(op).value).opcode == op
  {
  }

  lemma ExtendedIndexSound80(op: Byte)
    requires 0x80 <= op <= 0x87
    ensures ExtendedIndexRow8(op).Some? ==> ExtendedAt(ExtendedIndexRow8(op).value).opcode == op
  {
  }

  lemma ExtendedIndexSound88(op: Byte)
    requires 0x88 <= op <= 0x8F
    ensures ExtendedIndexRow8(op).Some? ==> ExtendedAt(ExtendedIndexRow8(op).value).opcode == op
  {
  }

  lemma ExtendedIndexSound90(op: Byte)
    requires 0x90 <= op <= 0x97
    ensures ExtendedIndexRow9(op).Some? ==> ExtendedAt(ExtendedIndexRow9(op).value).opcode == op
  {
  }

  lemma ExtendedIndexSound98(op: Byte)
    requires 0x98 <= op <= 0x9F
    ensures ExtendedIndexRow9(op).Some? ==> ExtendedAt(ExtendedIndexRow9(op).value).opcode == op
  {
  }

  lemma ExtendedIndexSoundA0(op: Byte)
    requires 0xA0 <= op <= 0xA7
    ensures ExtendedIndexRowA(op).Some? ==> ExtendedAt(ExtendedIndexRowA(op).value).opcode == op
  {
  }

  lemma ExtendedIndexSoundA8(op: Byte)
    requires 0xA8 <= op <= 0xAF
    ensures ExtendedIndexRowA(op).Some? ==> ExtendedAt(ExtendedIndexRowA(op).value).opcode == op
  {
  }

  lemma ExtendedIndexSoundB0(op: Byte)
    requires 0xB0 <= op <= 0xB7
    ensures ExtendedIndexRowB(op).Some? ==> ExtendedAt(ExtendedIndexRowB(op).value).opcode == op
  {
  }

  lemma ExtendedIndexSoundB8(op: Byte)
    requires 0xB8 <= op <= 0xBF
    ensures ExtendedIndexRowB(op).Some? ==> ExtendedAt(ExtendedIndexRowB(op).value).opcode == op
  {
  }

  lemma ExtendedIndexSoundC0(op: Byte)
    requires 0xC0 <= op <= 0xC7
    ensures ExtendedIndexRowC(op).Some? ==> ExtendedAt(ExtendedIndexRowC(op).value).opcode == op
  {
  }

  lemma ExtendedIndexSoundC8(op: Byte)
    requires 0xC8 <= op <= 0xCF
    ensures ExtendedIndexRowC(op).Some? ==> ExtendedAt(ExtendedIndexRowC(op).value).opcode == op
  {
  }

  lemma ExtendedIndexSoundD0(op: Byte)
    requires 0xD0 <= op <= 0xD7
    ensures ExtendedIndexRowD(op).Some? ==> ExtendedAt(ExtendedIndexRowD(op).value).opcode == op
  {
  }

  lemma ExtendedIndexSoundD8(op: Byte)
    requires 0xD8 <= op <= 0xDF
    ensures ExtendedIndexRowD(op).Some? ==> ExtendedAt(ExtendedIndexRowD(op).value).opcode == op
  {
  }

  lemma ExtendedIndexSoundE0(op: Byte)
    requires 0xE0 <= op <= 0xE7
    ensures ExtendedIndexRowE(op).Some? ==> ExtendedAt(ExtendedIndexRowE(op).value).opcode == op
  {
  }

  lemma ExtendedIndexSoundE8(op: Byte)
    requires 0xE8 <= op <= 0xEF
    ensures ExtendedIndexRowE(op).Some? ==> ExtendedAt(ExtendedIndexRowE(op).value).opcode == op
  {
  }

  lemma ExtendedIndexSoundF0(op: Byte)
    requires 0xF0 <= op <= 0xF7
    ensures ExtendedIndexRowF(op).Some? ==> ExtendedAt(ExtendedIndexRowF(op).value).opcode == op
  {
  }

  lemma ExtendedIndexSoundF8(op: Byte)
    requires 0xF8 <= op <= 0xFF
    ensures ExtendedIndexRowF(op).Some? ==> ExtendedAt(ExtendedIndexRowF(op).value).opcode == op
  {
  }

  /** The 105 extended opcodes are pairwise distinct. */
  lemma ExtendedDistinct()
    ensures Distinct(ExtendedInstructions())
  {
    var es := ExtendedInstructions();
    forall j, k | 0 <= j < k < |es| ensures es[j].opcode != es[k].opcode {
      assert ExtendedIndex(es[j].opcode) == Some(j);
      assert ExtendedIndex(es[k].opcode) == Some(k);
    }
  }

  /** The extended list fits into the legal table, so loading it never
      aborts. */
  lemma ExtendedFitsLegal()
    ensures Fits(LegalInstructions(), ExtendedInstructions())
    ensures LoadExtendedInstructions(LegalInstructions()).Loaded?
  {
    ExtendedDistinct();
    LoadAllSucceedsIff(LegalInstructions(), ExtendedInstructions());
  }
}
