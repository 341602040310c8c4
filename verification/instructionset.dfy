/** The complete opcode table: the legal table followed by the extended
    loader, an independent slot-by-slot definition of the result, and the
    facts that hold of it. */
module InstructionSet {
  import opened Instruction
  import opened ExtInstruction

  /** Table construction: start from the legal table and load the
      undocumented opcodes into it. */
  function Build(): (r: LoadResult)
    ensures r.Loaded?
  {
    ExtendedFitsLegal();
    LoadExtendedInstructions(LegalInstructions())
  }

  /** Reference definition of the complete table: the legal entry where
      there is one, otherwise the extended entry that targets the slot. */
  function CompleteAt(op: Byte): (r: Option<Entry>)
  {
    if LegalAt(op).Some? then LegalAt(op)
    else match ExtendedIndex(op)
      case Some(k) => Some(ExtendedAt(k))
      case None => None
  }

  /** The reference table as a whole: every one of its 256 slots is
      occupied, by an entry for its own opcode. */
  function CompleteTable(): (t: Table)
    ensures forall op: Byte :: t[op].Some? && t[op].value.opcode == op
  {
    CompleteTotal();
    seq(256, i requires 0 <= i < 256 => CompleteAt(i))
  }

  /** Construction never aborts; every legal slot keeps its legal entry and
      every nil slot receives the extended entry that targets it. */
  lemma BuildSucceeds()
    ensures Build().Loaded?
    ensures forall op: Byte :: Build().table[op] == CompleteAt(op)
  {
    ExtendedFitsLegal();
    ExtendedIndexSound();
    var es := ExtendedInstructions();
    var t := Build().table;
    forall op: Byte | LegalAt(op).None? ensures t[op] == CompleteAt(op) {
      var k := ExtendedIndex(op).value;
      assert es[k].opcode == op;
    }
  }

  /** Construction produces exactly the reference table. */
  lemma BuildIsComplete()
    ensures Build() == Loaded(CompleteTable())
  {
    BuildSucceeds();
    var t := Build().table;
    var c := CompleteTable();
    assert forall i | 0 <= i < 256 :: t[i] == c[i];
    assert t == c;
  }

  /** The family rules of the extended list, for every position. */
  lemma AllExtendedFamilies()
    ensures forall k | 0 <= k < 105 ::
      var e := ExtendedAt(k);
      && (e.mnemonic == JAM ==> e.opcode in JamOpcodes && e.mode == Implied && e.baseCycles == 2)
      && (e.mnemonic == NOP ==> NopCycles(e.mode) == Some(e.baseCycles))
      && (ReadModifyWrite(e.mnemonic) ==> ReadModifyWriteCycles(e.mode) == Some(e.baseCycles))
      && e.mode != Relative && e.mode != Accumulator
      && 2 <= e.baseCycles <= 8
  {
    forall k | 0 <= k < 105 {
      ExtendedFamilies(k);
    }
  }

  /** Every slot of the complete table is occupied by an entry for its own
      opcode. */
  lemma CompleteTotal()
    ensures forall op: Byte :: CompleteAt(op).Some? && CompleteAt(op).value.opcode == op
  {
    ExtendedIndexSound();
  }

  /** 151 legal entries plus 105 extended ones fill all 256 slots. */
  lemma BuildCounts()
    ensures Occupied(LegalInstructions()) == 151
    ensures Build().Loaded? && Occupied(Build().table) == 256
  {
    BuildSucceeds();
    CompleteTotal();
    var t := Build().table;
    assert forall i | 0 <= i < |t| :: t[i].Some?;
    OccupiedFull(t);
    ExtendedFitsLegal();
    LoadAllCount(LegalInstructions(), ExtendedInstructions());
  }

  /** Base cycles of the complete table range from 2 to 8. */
  lemma CompleteCycleRange(op: Byte)
    ensures CompleteAt(op).Some? && 2 <= CompleteAt(op).value.baseCycles <= 8
  {
    CompleteTotal();
    AllExtendedFamilies();
    assert forall op: Byte :: LegalAt(op).Some? ==> 2 <= LegalAt(op).value.baseCycles <= 7;
  }

  /** The legal table holds none of the read-modify-write or jam mnemonics. */
  lemma LegalHasNoIllegalFamily()
    ensures forall op: Byte :: LegalAt(op).Some? ==>
      !ReadModifyWrite(LegalAt(op).value.mnemonic) && LegalAt(op).value.mnemonic != JAM
  {
  }

  /** The jam opcodes below 0x40 hold JAM entries, Implied with two cycles. */
  lemma JamLow()
    ensures forall op: Byte :: op in JamOpcodes && op < 0x40 ==>
      CompleteAt(op) == Some(Entry(JAM, Implied, op, 2))
  {
  }

  /** The jam opcodes from 0x40 to 0x7F hold JAM entries, Implied with two
      cycles. */
  lemma JamMid()
    ensures forall op: Byte :: op in JamOpcodes && 0x40 <= op < 0x80 ==>
      CompleteAt(op) == Some(Entry(JAM, Implied, op, 2))
  {
  }

  /** The jam opcodes from 0x80 up hold JAM entries, Implied with two cycles. */
  lemma JamHigh()
    ensures forall op: Byte :: op in JamOpcodes && op >= 0x80 ==>
      CompleteAt(op) == Some(Entry(JAM, Implied, op, 2))
  {
  }

  /** JAM sits exactly at the twelve jam opcodes, always Implied with a base
      of two cycles. */
  lemma JamFamily(op: Byte)
    ensures CompleteAt(op).Some?
    ensures CompleteAt(op).value.mnemonic == JAM <==> op in JamOpcodes
    ensures op in JamOpcodes ==> CompleteAt(op) == Some(Entry(JAM, Implied, op, 2))
  {
    CompleteTotal();
    if op in JamOpcodes {
      if op < 0x40 { JamLow(); }
      else if op < 0x80 { JamMid(); }
      else { JamHigh(); }
    } else {
      LegalHasNoIllegalFamily();
      AllExtendedFamilies();
    }
  }

  /** The only legal NOP is the Implied one at 0xEA. */
  lemma LegalNop()
    ensures forall op: Byte :: LegalAt(op).Some? && LegalAt(op).value.mnemonic == NOP <==> op == 0xEA
    ensures LegalAt(0xEA) == Some(Entry(NOP, Implied, 0xEA, 2))
  {
  }

  /** Every NOP entry, legal or extended, uses a mode of the NOP map and has
      that mode's cycle count. */
  lemma NopFamily(op: Byte)
    ensures CompleteAt(op).Some?
    ensures CompleteAt(op).value.mnemonic == NOP ==>
      NopCycles(CompleteAt(op).value.mode) == Some(CompleteAt(op).value.baseCycles)
  {
    CompleteTotal();
    AllExtendedFamilies();
    LegalNop();
  }

  /** DCP, ISC, RLA, RRA, SLO and SRE all follow the one mode-to-cycles map. */
  lemma ReadModifyWriteFamilies(op: Byte)
    ensures CompleteAt(op).Some?
    ensures ReadModifyWrite(CompleteAt(op).value.mnemonic) ==>
      ReadModifyWriteCycles(CompleteAt(op).value.mode) == Some(CompleteAt(op).value.baseCycles)
  {
    CompleteTotal();
    AllExtendedFamilies();
    LegalHasNoIllegalFamily();
  }

  /** The eight branch opcodes. */
  const BranchOpcodes: set<Byte> := {0x10, 0x30, 0x50, 0x70, 0x90, 0xB0, 0xD0, 0xF0}

  /** In the complete table too, Relative mode is used exactly by the
      branches (two base cycles) and Accumulator mode exactly by the four
      shifts and rotates. */
  lemma CompleteRelativeAndAccumulator(op: Byte)
    ensures CompleteAt(op).Some?
    ensures CompleteAt(op).value.mode == Relative <==> op in BranchOpcodes
    ensures op in BranchOpcodes ==> CompleteAt(op).value.baseCycles == 2
    ensures CompleteAt(op).value.mode == Accumulator <==> op in {0x0A, 0x2A, 0x4A, 0x6A}
  {
    CompleteTotal();
    AllExtendedFamilies();
    LegalRelative();
    LegalAccumulator();
  }

  /** Fixture entries: LDA immediate and JMP indirect. */
  lemma LoadAndJumpFixtures()
    ensures CompleteAt(0xA9) == Some(Entry(LDA, Immediate, 0xA9, 2))
    ensures CompleteAt(0x6C) == Some(Entry(JMP, Indirect, 0x6C, 5))
  {
  }

  /** Fixture entries: ASL absolute (four cycles, as the literal gives it) and
      the legal NOP. */
  lemma ShiftAndNopFixtures()
    ensures CompleteAt(0x0E) == Some(Entry(ASL, Absolute, 0x0E, 4))
    ensures CompleteAt(0xEA) == Some(Entry(NOP, Implied, 0xEA, 2))
  {
  }

  /** Fixture entries loaded by the extended loader. */
  lemma ExtendedFixtures()
    ensures CompleteAt(0xC7) == Some(Entry(DCP, ZeroPage, 0xC7, 5))
    ensures CompleteAt(0xEB) == Some(Entry(USB, Immediate, 0xEB, 2))
  {
  }
}
