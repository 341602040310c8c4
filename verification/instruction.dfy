/** The legal 6502/2A03 opcode table and its guarded single-slot insert
    (pkg/instruction.go).

    The source keeps the table as a 256-element slice of references indexed by
    the opcode byte; a nil element marks an opcode the legal set does not
    define. Here the table is an immutable sequence of 256 optional entries,
    and the insert is a total function that returns either the new table or
    the opcode it refused to overwrite. */
module Instruction {

  /** An unsigned 8-bit value (Go's uint8). */
  type Byte = x: int | 0 <= x < 256

  datatype Option<+T> = None | Some(value: T)

  /** The semantics unit of an entry, reduced to its mnemonic tag. The legal
      set comes first, then the undocumented opcodes loaded by the extended
      loader. */
  datatype Mnemonic =
    | ADC | AND | ASL | BCC | BCS | BEQ | BIT | BMI | BNE | BPL | BRK | BVC | BVS
    | CLC | CLD | CLI | CLV | CMP | CPX | CPY | DEC | DEX | DEY | EOR | INC | INX
    | INY | JMP | JSR | LDA | LDX | LDY | LSR | NOP | ORA | PHA | PHP | PLA | PLP
    | ROL | ROR | RTI | RTS | SBC | SEC | SED | SEI | STA | STX | STY | TAX | TAY
    | TSX | TXA | TXS | TYA
    | JAM | ALR | ANC | ANE | ARR | DCP | ISC | LAS | LAX | LXA | RLA | RRA | SAX
    | SBX | SHA | SHX | SHY | SLO | SRE | TAS | USB

  /** The thirteen addressing modes (IMPL, A, IMMED, ZPG, ZPG_X, ZPG_Y, ABS,
      ABS_X, ABS_Y, IND, X_IND, IND_Y, REL in the source). */
  datatype AddressingMode =
    | Implied | Accumulator | Immediate
    | ZeroPage | ZeroPageX | ZeroPageY
    | Absolute | AbsoluteX | AbsoluteY
    | Indirect | XIndirect | IndirectY
    | Relative

  /** One table entry: semantics tag, addressing mode, opcode byte and the
      base cycle count before any variable-cycle adjustment. */
  datatype Entry = Entry(mnemonic: Mnemonic, mode: AddressingMode, opcode: Byte, baseCycles: Byte)

  /** A table always has one slot per opcode byte. */
  type Table = t: seq<Option<Entry>> | |t| == 256 witness seq(256, i => None)

  /** Outcome of loading into a table: the updated table, or the opcode whose
      slot was already taken (the source panics in that case). */
  datatype LoadResult = Loaded(table: Table) | DuplicateOpcode(opcode: Byte)

  /** Number of occupied slots. */
  function Occupied(t: seq<Option<Entry>>): (n: nat)
  {
    if |t| == 0 then 0 else (if t[0].Some? then 1 else 0) + Occupied(t[1..])
  }

  /** The guarded insert: refuses an occupied slot, otherwise stores an entry
      whose opcode field is the slot index and leaves every other slot alone. */
  function LoadInstruction(t: Table, opcode: Byte, m: Mnemonic, am: AddressingMode, cycles: Byte): (r: LoadResult)
    ensures r.DuplicateOpcode? <==> t[opcode].Some?
    ensures r.DuplicateOpcode? ==> r.opcode == opcode
    ensures r.Loaded? ==> r.table[opcode] == Some(Entry(m, am, opcode, cycles))
    ensures r.Loaded? ==> forall i: Byte :: i != opcode ==> r.table[i] == t[i]
  {
    if t[opcode].Some? then DuplicateOpcode(opcode)
    else Loaded(t[opcode := Some(Entry(m, am, opcode, cycles))])
  }

  /** A successful insert fills exactly one more slot. */
  lemma {:induction false} LoadFillsOneSlot(t: Table, opcode: Byte, m: Mnemonic, am: AddressingMode, cycles: Byte)
    requires t[opcode].None?
    ensures LoadInstruction(t, opcode, m, am, cycles).Loaded?
    ensures Occupied(LoadInstruction(t, opcode, m, am, cycles).table) == Occupied(t) + 1
  {
    OccupiedUpdate(t, opcode, Some(Entry(m, am, opcode, cycles)));
  }

  /** Filling an empty slot of any sequence raises the count by one. */
  lemma {:induction false} OccupiedUpdate(t: seq<Option<Entry>>, i: nat, v: Option<Entry>)
    requires i < |t| && t[i].None? && v.Some?
    ensures Occupied(t[i := v]) == Occupied(t) + 1
  {
    if i == 0 {
      assert t[i := v][1..] == t[1..];
    } else {
      assert t[i := v][1..] == t[1..][i - 1 := v];
      OccupiedUpdate(t[1..], i - 1, v);
    }
  }

  /** The count reaches the length exactly when no slot is empty. */
  lemma {:induction false} OccupiedFull(t: seq<Option<Entry>>)
    ensures Occupied(t) <= |t|
    ensures Occupied(t) == |t| <==> forall i | 0 <= i < |t| :: t[i].Some?
  {
    if |t| > 0 {
      OccupiedFull(t[1..]);
      assert forall i | 1 <= i < |t| :: t[i] == t[1..][i - 1];
    }
  }

  /** Final cycles of one execution: the base count plus the extra cycles an
      instruction with a cycle-tweak capability reports (None when the
      instruction has no such capability). */
  function FinalCycles(e: Entry, tweak: Option<Byte>): (c: nat)
    ensures c >= e.baseCycles
    ensures c <= e.baseCycles + 255
    ensures tweak.None? ==> c == e.baseCycles
    ensures tweak.Some? ==> c == e.baseCycles + tweak.value
  {
    match tweak
    case None => e.baseCycles
    case Some(extra) => e.baseCycles + extra
  }

  /** Extra cycles only ever add: a larger tweak never yields fewer cycles,
      and the difference to the base is exactly the tweak. */
  lemma FinalCyclesAdditive(e: Entry, a: Byte, b: Byte)
    requires a <= b
    ensures FinalCycles(e, Some(a)) <= FinalCycles(e, Some(b))
    ensures FinalCycles(e, Some(b)) - FinalCycles(e, None) == b
  {
  }

  // ---------------------------------------------------------------------
  // The legal table, transcribed slot by slot in blocks of sixteen.
  // ---------------------------------------------------------------------

  /** The legal entry at one opcode slot, or None for a nil slot. */
  function LegalAt(op: Byte): (r: Option<Entry>)
  {
    if op < 0x10 then LegalRow0(op)
    else if op < 0x20 then LegalRow1(op)
    else if op < 0x30 then LegalRow2(op)
    else if op < 0x40 then LegalRow3(op)
    else if op < 0x50 then LegalRow4(op)
    else if op < 0x60 then LegalRow5(op)
    else if op < 0x70 then LegalRow6(op)
    else if op < 0x80 then LegalRow7(op)
    else if op < 0x90 then LegalRow8(op)
    else if op < 0xA0 then LegalRow9(op)
    else if op < 0xB0 then LegalRowA(op)
    else if op < 0xC0 then LegalRowB(op)
    else if op < 0xD0 then LegalRowC(op)
    else if op < 0xE0 then LegalRowD(op)
    else if op < 0xF0 then LegalRowE(op)
    else LegalRowF(op)
  }

  /** Opcodes 0x00-0x0F (pkg/instruction.go:35-50). */
  function LegalRow0(op: Byte): (r: Option<Entry>)
    requires 0x00 <= op <= 0x0F
  {
    match op
    case 0x00 => Some(Entry(BRK, Immediate, 0x00, 7))
    case 0x01 => Some(Entry(ORA, XIndirect, 0x01, 6))
    case 0x02 => None
    case 0x03 => None
    case 0x04 => None
    case 0x05 => Some(Entry(ORA, ZeroPage, 0x05, 3))
    case 0x06 => Some(Entry(ASL, ZeroPage, 0x06, 5))
    case 0x07 => None
    case 0x08 => Some(Entry(PHP, Implied, 0x08, 3))
    case 0x09 => Some(Entry(ORA, Immediate, 0x09, 2))
    case 0x0A => Some(Entry(ASL, Accumulator, 0x0A, 2))
    case 0x0B => None
    case 0x0C => None
    case 0x0D => Some(Entry(ORA, Absolute, 0x0D, 4))
    case 0x0E => Some(Entry(ASL, Absolute, 0x0E, 4))
    case _ => None  // 0x0F
  }

  /** Opcodes 0x10-0x1F (pkg/instruction.go:52-67). */
  function LegalRow1(op: Byte): (r: Option<Entry>)
    requires 0x10 <= op <= 0x1F
  {
    match op
    case 0x10 => Some(Entry(BPL, Relative, 0x10, 2))
    case 0x11 => Some(Entry(ORA, IndirectY, 0x11, 6))
    case 0x12 => None
    case 0x13 => None
    case 0x14 => None
    case 0x15 => Some(Entry(ORA, ZeroPageX, 0x15, 4))
    case 0x16 => Some(Entry(ASL, ZeroPageX, 0x16, 6))
    case 0x17 => None
    case 0x18 => Some(Entry(CLC, Implied, 0x18, 2))
    case 0x19 => Some(Entry(ORA, AbsoluteY, 0x19, 4))
    case 0x1A => None
    case 0x1B => None
    case 0x1C => None
    case 0x1D => Some(Entry(ORA, AbsoluteX, 0x1D, 4))
    case 0x1E => Some(Entry(ASL, AbsoluteX, 0x1E, 7))
    case _ => None  // 0x1F
  }

  /** Opcodes 0x20-0x2F (pkg/instruction.go:69-84). */
  function LegalRow2(op: Byte): (r: Option<Entry>)
    requires 0x20 <= op <= 0x2F
  {
    match op
    case 0x20 => Some(Entry(JSR, Absolute, 0x20, 6))
    case 0x21 => Some(Entry(AND, XIndirect, 0x21, 6))
    case 0x22 => None
    case 0x23 => None
    case 0x24 => Some(Entry(BIT, ZeroPage, 0x24, 3))
    case 0x25 => Some(Entry(AND, ZeroPage, 0x25, 3))
    case 0x26 => Some(Entry(ROL, ZeroPage, 0x26, 5))
    case 0x27 => None
    case 0x28 => Some(Entry(PLP, Implied, 0x28, 4))
    case 0x29 => Some(Entry(AND, Immediate, 0x29, 2))
    case 0x2A => Some(Entry(ROL, Accumulator, 0x2A, 2))
    case 0x2B => None
    case 0x2C => Some(Entry(BIT, Absolute, 0x2C, 4))
    case 0x2D => Some(Entry(AND, Absolute, 0x2D, 4))
    case 0x2E => Some(Entry(ROL, Absolute, 0x2E, 6))
    case _ => None  // 0x2F
  }

  /** Opcodes 0x30-0x3F (pkg/instruction.go:86-101). */
  function LegalRow3(op: Byte): (r: Option<Entry>)
    requires 0x30 <= op <= 0x3F
  {
    match op
    case 0x30 => Some(Entry(BMI, Relative, 0x30, 2))
    case 0x31 => Some(Entry(AND, IndirectY, 0x31, 5))
    case 0x32 => None
    case 0x33 => None
    case 0x34 => None
    case 0x35 => Some(Entry(AND, ZeroPageX, 0x35, 4))
    case 0x36 => Some(Entry(ROL, ZeroPageX, 0x36, 6))
    case 0x37 => None
    case 0x38 => Some(Entry(SEC, Implied, 0x38, 2))
    case 0x39 => Some(Entry(AND, AbsoluteY, 0x39, 4))
    case 0x3A => None
    case 0x3B => None
    case 0x3C => None
    case 0x3D => Some(Entry(AND, AbsoluteX, 0x3D, 4))
    case 0x3E => Some(Entry(ROL, AbsoluteX, 0x3E, 7))
    case _ => None  // 0x3F
  }

  /** Opcodes 0x40-0x4F (pkg/instruction.go:103-118). */
  function LegalRow4(op: Byte): (r: Option<Entry>)
    requires 0x40 <= op <= 0x4F
  {
    match op
    case 0x40 => Some(Entry(RTI, Implied, 0x40, 6))
    case 0x41 => Some(Entry(EOR, XIndirect, 0x41, 6))
    case 0x42 => None
    case 0x43 => None
    case 0x44 => None
    case 0x45 => Some(Entry(EOR, ZeroPage, 0x45, 3))
    case 0x46 => Some(Entry(LSR, ZeroPage, 0x46, 5))
    case 0x47 => None
    case 0x48 => Some(Entry(PHA, Implied, 0x48, 3))
    case 0x49 => Some(Entry(EOR, Immediate, 0x49, 2))
    case 0x4A => Some(Entry(LSR, Accumulator, 0x4A, 2))
    case 0x4B => None
    case 0x4C => Some(Entry(JMP, Absolute, 0x4C, 3))
    case 0x4D => Some(Entry(EOR, Absolute, 0x4D, 4))
    case 0x4E => Some(Entry(LSR, Absolute, 0x4E, 6))
    case _ => None  // 0x4F
  }

  /** Opcodes 0x50-0x5F (pkg/instruction.go:119-134). */
  function LegalRow5(op: Byte): (r: Option<Entry>)
    requires 0x50 <= op <= 0x5F
  {
    match op
    case 0x50 => Some(Entry(BVC, Relative, 0x50, 2))
    case 0x51 => Some(Entry(EOR, IndirectY, 0x51, 5))
    case 0x52 => None
    case 0x53 => None
    case 0x54 => None
    case 0x55 => Some(Entry(EOR, ZeroPageX, 0x55, 4))
    case 0x56 => Some(Entry(LSR, ZeroPageX, 0x56, 6))
    case 0x57 => None
    case 0x58 => Some(Entry(CLI, Implied, 0x58, 2))
    case 0x59 => Some(Entry(EOR, AbsoluteY, 0x59, 4))
    case 0x5A => None
    case 0x5B => None
    case 0x5C => None
    case 0x5D => Some(Entry(EOR, AbsoluteX, 0x5D, 4))
    case 0x5E => Some(Entry(LSR, AbsoluteX, 0x5E, 7))
    case _ => None  // 0x5F
  }

  /** Opcodes 0x60-0x6F (pkg/instruction.go:136-151). */
  function LegalRow6(op: Byte): (r: Option<Entry>)
    requires 0x60 <= op <= 0x6F
  {
    match op
    case 0x60 => Some(Entry(RTS, Implied, 0x60, 6))
    case 0x61 => Some(Entry(ADC, XIndirect, 0x61, 6))
    case 0x62 => None
    case 0x63 => None
    case 0x64 => None
    case 0x65 => Some(Entry(ADC, ZeroPage, 0x65, 3))
    case 0x66 => Some(Entry(ROR, ZeroPage, 0x66, 5))
    case 0x67 => None
    case 0x68 => Some(Entry(PLA, Implied, 0x68, 4))
    case 0x69 => Some(Entry(ADC, Immediate, 0x69, 2))
    case 0x6A => Some(Entry(ROR, Accumulator, 0x6A, 2))
    case 0x6B => None
    case 0x6C => Some(Entry(JMP, Indirect, 0x6C, 5))
    case 0x6D => Some(Entry(ADC, Absolute, 0x6D, 4))
    case 0x6E => Some(Entry(ROR, Absolute, 0x6E, 6))
    case _ => None  // 0x6F
  }

  /** Opcodes 0x70-0x7F (pkg/instruction.go:153-168). */
  function LegalRow7(op: Byte): (r: Option<Entry>)
    requires 0x70 <= op <= 0x7F
  {
    match op
    case 0x70 => Some(Entry(BVS, Relative, 0x70, 2))
    case 0x71 => Some(Entry(ADC, IndirectY, 0x71, 5))
    case 0x72 => None
    case 0x73 => None
    case 0x74 => None
    case 0x75 => Some(Entry(ADC, ZeroPageX, 0x75, 4))
    case 0x76 => Some(Entry(ROR, ZeroPageX, 0x76, 6))
    case 0x77 => None
    case 0x78 => Some(Entry(SEI, Implied, 0x78, 2))
    case 0x79 => Some(Entry(ADC, AbsoluteY, 0x79, 4))
    case 0x7A => None
    case 0x7B => None
    case 0x7C => None
    case 0x7D => Some(Entry(ADC, AbsoluteX, 0x7D, 4))
    case 0x7E => Some(Entry(ROR, AbsoluteX, 0x7E, 7))
    case _ => None  // 0x7F
  }

  /** Opcodes 0x80-0x8F (pkg/instruction.go:170-185). */
  function LegalRow8(op: Byte): (r: Option<Entry>)
    requires 0x80 <= op <= 0x8F
  {
    match op
    case 0x80 => None
    case 0x81 => Some(Entry(STA, XIndirect, 0x81, 6))
    case 0x82 => None
    case 0x83 => None
    case 0x84 => Some(Entry(STY, ZeroPage, 0x84, 3))
    case 0x85 => Some(Entry(STA, ZeroPage, 0x85, 3))
    case 0x86 => Some(Entry(STX, ZeroPage, 0x86, 3))
    case 0x87 => None
    case 0x88 => Some(Entry(DEY, Implied, 0x88, 2))
    case 0x89 => None
    case 0x8A => Some(Entry(TXA, Implied, 0x8A, 2))
    case 0x8B => None
    case 0x8C => Some(Entry(STY, Absolute, 0x8C, 4))
    case 0x8D => Some(Entry(STA, Absolute, 0x8D, 4))
    case 0x8E => Some(Entry(STX, Absolute, 0x8E, 4))
    case _ => None  // 0x8F
  }

  /** Opcodes 0x90-0x9F (pkg/instruction.go:187-202). */
  function LegalRow9(op: Byte): (r: Option<Entry>)
    requires 0x90 <= op <= 0x9F
  {
    match op
    case 0x90 => Some(Entry(BCC, Relative, 0x90, 2))
    case 0x91 => Some(Entry(STA, IndirectY, 0x91, 6))
    case 0x92 => None
    case 0x93 => None
    case 0x94 => Some(Entry(STY, ZeroPageX, 0x94, 4))
    case 0x95 => Some(Entry(STA, ZeroPageX, 0x95, 4))
    case 0x96 => Some(Entry(STX, ZeroPageY, 0x96, 4))
    case 0x97 => None
    case 0x98 => Some(Entry(TYA, Implied, 0x98, 2))
    case 0x99 => Some(Entry(STA, AbsoluteY, 0x99, 5))
    case 0x9A => Some(Entry(TXS, Implied, 0x9A, 2))
    case 0x9B => None
    case 0x9C => None
    case 0x9D => Some(Entry(STA, AbsoluteX, 0x9D, 5))
    case 0x9E => None
    case _ => None  // 0x9F
  }

  /** Opcodes 0xA0-0xAF (pkg/instruction.go:204-219). */
  function LegalRowA(op: Byte): (r: Option<Entry>)
    requires 0xA0 <= op <= 0xAF
  {
    match op
    case 0xA0 => Some(Entry(LDY, Immediate, 0xA0, 2))
    case 0xA1 => Some(Entry(LDA, XIndirect, 0xA1, 6))
    case 0xA2 => Some(Entry(LDX, Immediate, 0xA2, 2))
    case 0xA3 => None
    case 0xA4 => Some(Entry(LDY, ZeroPage, 0xA4, 3))
    case 0xA5 => Some(Entry(LDA, ZeroPage, 0xA5, 3))
    case 0xA6 => Some(Entry(LDX, ZeroPage, 0xA6, 3))
    case 0xA7 => None
    case 0xA8 => Some(Entry(TAY, Implied, 0xA8, 2))
    case 0xA9 => Some(Entry(LDA, Immediate, 0xA9, 2))
    case 0xAA => Some(Entry(TAX, Implied, 0xAA, 2))
    case 0xAB => None
    case 0xAC => Some(Entry(LDY, Absolute, 0xAC, 4))
    case 0xAD => Some(Entry(LDA, Absolute, 0xAD, 4))
    case 0xAE => Some(Entry(LDX, Absolute, 0xAE, 4))
    case _ => None  // 0xAF
  }

  /** Opcodes 0xB0-0xBF (pkg/instruction.go:221-236). */
  function LegalRowB(op: Byte): (r: Option<Entry>)
    requires 0xB0 <= op <= 0xBF
  {
    match op
    case 0xB0 => Some(Entry(BCS, Relative, 0xB0, 2))
    case 0xB1 => Some(Entry(LDA, IndirectY, 0xB1, 5))
    case 0xB2 => None
    case 0xB3 => None
    case 0xB4 => Some(Entry(LDY, ZeroPageX, 0xB4, 4))
    case 0xB5 => Some(Entry(LDA, ZeroPageX, 0xB5, 4))
    case 0xB6 => Some(Entry(LDX, ZeroPageY, 0xB6, 4))
    case 0xB7 => None
    case 0xB8 => Some(Entry(CLV, Implied, 0xB8, 2))
    case 0xB9 => Some(Entry(LDA, AbsoluteY, 0xB9, 4))
    case 0xBA => Some(Entry(TSX, Implied, 0xBA, 2))
    case 0xBB => None
    case 0xBC => Some(Entry(LDY, AbsoluteX, 0xBC, 4))
    case 0xBD => Some(Entry(LDA, AbsoluteX, 0xBD, 4))
    case 0xBE => Some(Entry(LDX, AbsoluteY, 0xBE, 4))
    case _ => None  // 0xBF
  }

  /** Opcodes 0xC0-0xCF (pkg/instruction.go:238-253). */
  function LegalRowC(op: Byte): (r: Option<Entry>)
    requires 0xC0 <= op <= 0xCF
  {
    match op
    case 0xC0 => Some(Entry(CPY, Immediate, 0xC0, 2))
    case 0xC1 => Some(Entry(CMP, XIndirect, 0xC1, 6))
    case 0xC2 => None
    case 0xC3 => None
    case 0xC4 => Some(Entry(CPY, ZeroPage, 0xC4, 3))
    case 0xC5 => Some(Entry(CMP, ZeroPage, 0xC5, 3))
    case 0xC6 => Some(Entry(DEC, ZeroPage, 0xC6, 5))
    case 0xC7 => None
    case 0xC8 => Some(Entry(INY, Implied, 0xC8, 2))
    case 0xC9 => Some(Entry(CMP, Immediate, 0xC9, 2))
    case 0xCA => Some(Entry(DEX, Implied, 0xCA, 2))
    case 0xCB => None
    case 0xCC => Some(Entry(CPY, Absolute, 0xCC, 4))
    case 0xCD => Some(Entry(CMP, Absolute, 0xCD, 4))
    case 0xCE => Some(Entry(DEC, Absolute, 0xCE, 6))
    case _ => None  // 0xCF
  }

  /** Opcodes 0xD0-0xDF (pkg/instruction.go:255-270). */
  function LegalRowD(op: Byte): (r: Option<Entry>)
    requires 0xD0 <= op <= 0xDF
  {
    match op
    case 0xD0 => Some(Entry(BNE, Relative, 0xD0, 2))
    case 0xD1 => Some(Entry(CMP, IndirectY, 0xD1, 5))
    case 0xD2 => None
    case 0xD3 => None
    case 0xD4 => None
    case 0xD5 => Some(Entry(CMP, ZeroPageX, 0xD5, 4))
    case 0xD6 => Some(Entry(DEC, ZeroPageX, 0xD6, 6))
    case 0xD7 => None
    case 0xD8 => Some(Entry(CLD, Implied, 0xD8, 2))
    case 0xD9 => Some(Entry(CMP, AbsoluteY, 0xD9, 4))
    case 0xDA => None
    case 0xDB => None
    case 0xDC => None
    case 0xDD => Some(Entry(CMP, AbsoluteX, 0xDD, 4))
    case 0xDE => Some(Entry(DEC, AbsoluteX, 0xDE, 7))
    case _ => None  // 0xDF
  }

  /** Opcodes 0xE0-0xEF (pkg/instruction.go:272-287). */
  function LegalRowE(op: Byte): (r: Option<Entry>)
    requires 0xE0 <= op <= 0xEF
  {
    match op
    case 0xE0 => Some(Entry(CPX, Immediate, 0xE0, 2))
    case 0xE1 => Some(Entry(SBC, XIndirect, 0xE1, 6))
    case 0xE2 => None
    case 0xE3 => None
    case 0xE4 => Some(Entry(CPX, ZeroPage, 0xE4, 3))
    case 0xE5 => Some(Entry(SBC, ZeroPage, 0xE5, 3))
    case 0xE6 => Some(Entry(INC, ZeroPage, 0xE6, 5))
    case 0xE7 => None
    case 0xE8 => Some(Entry(INX, Implied, 0xE8, 2))
    case 0xE9 => Some(Entry(SBC, Immediate, 0xE9, 2))
    case 0xEA => Some(Entry(NOP, Implied, 0xEA, 2))
    case 0xEB => None
    case 0xEC => Some(Entry(CPX, Absolute, 0xEC, 4))
    case 0xED => Some(Entry(SBC, Absolute, 0xED, 4))
    case 0xEE => Some(Entry(INC, Absolute, 0xEE, 6))
    case _ => None  // 0xEF
  }

  /** Opcodes 0xF0-0xFF (pkg/instruction.go:289-304). */
  function LegalRowF(op: Byte): (r: Option<Entry>)
    requires 0xF0 <= op <= 0xFF
  {
    match op
    case 0xF0 => Some(Entry(BEQ, Relative, 0xF0, 2))
    case 0xF1 => Some(Entry(SBC, IndirectY, 0xF1, 5))
    case 0xF2 => None
    case 0xF3 => None
    case 0xF4 => None
    case 0xF5 => Some(Entry(SBC, ZeroPageX, 0xF5, 4))
    case 0xF6 => Some(Entry(INC, ZeroPageX, 0xF6, 6))
    case 0xF7 => None
    case 0xF8 => Some(Entry(SED, Implied, 0xF8, 2))
    case 0xF9 => Some(Entry(SBC, AbsoluteY, 0xF9, 4))
    case 0xFA => None
    case 0xFB => None
    case 0xFC => None
    case 0xFD => Some(Entry(SBC, AbsoluteX, 0xFD, 4))
    case 0xFE => Some(Entry(INC, AbsoluteX, 0xFE, 7))
    case _ => None  // 0xFF
  }

  /** The 256-slot legal table (pkg/instruction.go:34-305). */
  function LegalInstructions(): (t: Table)
    ensures forall op: Byte :: t[op] == LegalAt(op)
    ensures forall op: Byte :: t[op].Some? ==> t[op].value.opcode == op
    ensures forall op: Byte :: t[op].Some? ==> 2 <= t[op].value.baseCycles <= 7
  {
    seq(256, i requires 0 <= i < 256 => LegalAt(i))
  }

  /** Relative mode is used exactly by the eight branch opcodes, each with
      a base of two cycles. */
  lemma LegalRelative()
    ensures forall op: Byte :: LegalAt(op).Some? && LegalAt(op).value.mode == Relative <==>
      op in {0x10, 0x30, 0x50, 0x70, 0x90, 0xB0, 0xD0, 0xF0}
    ensures forall op: Byte :: LegalAt(op).Some? && LegalAt(op).value.mode == Relative ==>
      LegalAt(op).value.baseCycles == 2 &&
      LegalAt(op).value.mnemonic in {BPL, BMI, BVC, BVS, BCC, BCS, BNE, BEQ}
  {
  }

  /** Accumulator mode is used exactly by ASL, ROL, LSR and ROR at 0x0A,
      0x2A, 0x4A and 0x6A, each with a base of two cycles. */
  lemma LegalAccumulator()
    ensures forall op: Byte :: LegalAt(op).Some? && LegalAt(op).value.mode == Accumulator <==>
      op in {0x0A, 0x2A, 0x4A, 0x6A}
    ensures LegalAt(0x0A) == Some(Entry(ASL, Accumulator, 0x0A, 2))
    ensures LegalAt(0x2A) == Some(Entry(ROL, Accumulator, 0x2A, 2))
    ensures LegalAt(0x4A) == Some(Entry(LSR, Accumulator, 0x4A, 2))
    ensures LegalAt(0x6A) == Some(Entry(ROR, Accumulator, 0x6A, 2))
  {
  }
}
