# sim6502 opcode table in Dafny

This project models the opcode table of the sim6502 6502/2A03 simulator. The table has 256 slots indexed by opcode byte. Each occupied slot holds:

- a semantics unit, reduced here to a `Mnemonic` tag;
- an addressing mode;
- the opcode byte itself;
- a base cycle count.

The table is built in two stages:

1. **The legal table.** `pkg/instruction.go` writes the 151 documented opcodes as one slice literal. It leaves the other 105 slots nil.
2. **The extended loader.** `pkg/extinstruction.go` adds the 105 undocumented opcodes. Each is one guarded insert, issued in a fixed order. The guard panics if the slot is already taken. The legal file has an identical insert, `loadAdditionalInstruction`.

Modules:

- `Instruction` (`instruction.dfy`):
  - the entry, table and load-result types;
  - the guarded insert `LoadInstruction`, with the panic modelled as `DuplicateOpcode(opcode)`;
  - the additive cycle-tweak contract `FinalCycles`;
  - the legal table, transcribed slot by slot in sixteen rows.
- `ExtInstruction` (`extinstruction.dfy`):
  - the 105 extended inserts in source order (`ExtendedAt`), grouped by family;
  - the reverse index from opcode to load position (`ExtendedIndex`);
  - the loader as a fold of the insert (`LoadAll`), with its abort condition characterised exactly.
- `InstructionSet` (`instructionset.dfy`):
  - table construction (`Build`);
  - an independent slot-by-slot reference definition of its result (`CompleteAt`);
  - the facts that hold of the finished table: it is total, the family rules hold, and the fixture entries are as expected.

## Model

| member | source | states |
|---|---|---|
| Instruction.LoadInstruction | pkg/instruction.go:307-312 | aborts with the opcode exactly when the slot is occupied; otherwise stores an entry whose opcode field equals the slot index and leaves every other slot unchanged |
| Instruction.LoadFillsOneSlot | pkg/instruction.go:307-312 | an insert into a nil slot succeeds and raises the number of occupied slots by exactly one |
| Instruction.FinalCycles | pkg/instruction.go:22-31 | final cycles are the base plus the reported extra cycles when the instruction has a tweak, and exactly the base otherwise; so they are never below the base |
| Instruction.FinalCyclesAdditive | pkg/instruction.go:22-31 | extra cycles are added on top of the base: a larger tweak never gives fewer cycles, and final minus base equals the tweak |
| Instruction.LegalInstructions | pkg/instruction.go:33-305 | the legal table has 256 slots; every non-nil slot holds an entry whose opcode equals its index, with a base of 2 to 7 cycles |
| Instruction.LegalRelative | pkg/instruction.go:34-305 | Relative mode appears at exactly the eight branch opcodes; each is one of BPL/BMI/BVC/BVS/BCC/BCS/BNE/BEQ with two cycles |
| Instruction.LegalAccumulator | pkg/instruction.go:34-305 | Accumulator mode appears at exactly 0x0A, 0x2A, 0x4A and 0x6A: ASL, ROL, LSR and ROR, each with two cycles |
| ExtInstruction.ExtendedAt | pkg/extinstruction.go:6-157 | the k-th extended insert targets an opcode whose reverse index is k, so no two inserts share an opcode |
| ExtInstruction.ExtendedFamilies | pkg/extinstruction.go:8-155 | JAM is loaded only at the jam opcodes, Implied with two cycles; NOP and the read-modify-write families follow their mode-to-cycles maps; no extended entry is Relative or Accumulator; bases run from 2 to 8 |
| ExtInstruction.JamLoads | pkg/extinstruction.go:8-20 | the twelve JAM inserts are Implied with two cycles, at the jam opcodes |
| ExtInstruction.NopLoads | pkg/extinstruction.go:22-49 | each undocumented NOP has the cycle count its mode has in the NOP map |
| ExtInstruction.ImmediateLoads | pkg/extinstruction.go:51-62 | ALR, ANC, ANE and ARR are Immediate with two cycles |
| ExtInstruction.DcpLoads | pkg/extinstruction.go:64-71 | DCP follows the read-modify-write mode-to-cycles map |
| ExtInstruction.IscLoads | pkg/extinstruction.go:73-80 | ISC follows the read-modify-write mode-to-cycles map |
| ExtInstruction.LasLaxLxaLoads | pkg/extinstruction.go:82-94 | the LAS/LAX/LXA inserts are neither Relative nor Accumulator and take 2 to 8 cycles |
| ExtInstruction.RlaLoads | pkg/extinstruction.go:96-103 | RLA follows the read-modify-write mode-to-cycles map |
| ExtInstruction.RraLoads | pkg/extinstruction.go:105-112 | RRA follows the read-modify-write mode-to-cycles map |
| ExtInstruction.SaxSbxShLoads | pkg/extinstruction.go:114-131 | the SAX/SBX/SHA/SHX/SHY inserts are neither Relative nor Accumulator and take 2 to 8 cycles |
| ExtInstruction.SloLoads | pkg/extinstruction.go:133-140 | SLO follows the read-modify-write mode-to-cycles map |
| ExtInstruction.SreLoads | pkg/extinstruction.go:142-149 | SRE follows the read-modify-write mode-to-cycles map |
| ExtInstruction.TasUsbLoads | pkg/extinstruction.go:151-155 | the TAS and USB inserts are neither Relative nor Accumulator and take 2 to 8 cycles |
| ExtInstruction.ExtendedInstructions | pkg/extinstruction.go:6-157 | the loader issues 105 inserts with pairwise-distinct opcodes, each into a nil slot of the legal table |
| ExtInstruction.ExtendedIndex | pkg/extinstruction.go:8-155 | an opcode is loaded by the extended loader exactly when its legal slot is nil |
| ExtInstruction.ExtendedIndexSound | pkg/extinstruction.go:8-155 | the reverse index is a true inverse: the insert at an opcode's position targets that opcode |
| ExtInstruction.LoadAll | pkg/extinstruction.go:6-164 | on success, every occupied slot is kept, every insert's entry is stored, and untargeted slots are unchanged; on abort, the reported opcode is that of the first insert meeting a slot that is occupied or was filled earlier |
| ExtInstruction.LoadExtendedInstructions | pkg/extinstruction.go:6-157 | the extended loader succeeds on a table exactly when its list fits that table, and it can only abort on a slot that was occupied before it ran, never because the list collides with itself |
| ExtInstruction.LoadAllSucceedsIff | pkg/extinstruction.go:159-164 | a list of inserts loads without panicking exactly when its opcodes are pairwise distinct and each targets a nil slot |
| ExtInstruction.LoadAllCount | pkg/extinstruction.go:159-164 | a successful load fills exactly one new slot per insert |
| ExtInstruction.SecondLoadAborts | pkg/extinstruction.go:159-164 | loading twice at the same opcode always panics on the second insert |
| ExtInstruction.LoadsCommute | pkg/extinstruction.go:159-164 | two inserts at different nil slots give the same table in either order |
| ExtInstruction.ExtendedDistinct | pkg/extinstruction.go:8-155 | the 105 extended opcodes are pairwise distinct |
| ExtInstruction.ExtendedFitsLegal | pkg/extinstruction.go:6-157 | every extended opcode targets a nil slot of the legal table, so construction never panics |
| InstructionSet.Build | pkg/extinstruction.go:6-157 | loading the extended instructions into the legal table never panics |
| InstructionSet.CompleteTable | pkg/extinstruction.go:6-157 | the reference table built slot by slot is total: each of its 256 slots holds an entry for its own opcode |
| InstructionSet.BuildSucceeds | pkg/extinstruction.go:6-157 | construction succeeds; each legal slot keeps its legal entry and each nil slot receives the extended entry that targets it |
| InstructionSet.BuildIsComplete | pkg/extinstruction.go:6-157 | the constructed table equals the independent reference table |
| InstructionSet.AllExtendedFamilies | pkg/extinstruction.go:8-155 | the extended family rules hold at every load position |
| InstructionSet.CompleteTotal | pkg/extinstruction.go:6-157 | after loading, every one of the 256 slots holds an entry for its own opcode |
| InstructionSet.BuildCounts | pkg/extinstruction.go:6-157 | the legal table occupies 151 slots, and the constructed table occupies all 256 (151 + 105) |
| InstructionSet.CompleteCycleRange | pkg/extinstruction.go:8-155 | every entry of the complete table has a base of 2 to 8 cycles |
| InstructionSet.LegalHasNoIllegalFamily | pkg/instruction.go:34-305 | the legal table contains no JAM and no read-modify-write undocumented mnemonic |
| InstructionSet.JamLow | pkg/extinstruction.go:9-12 | the jam opcodes below 0x40 hold Implied JAM entries with two cycles |
| InstructionSet.JamMid | pkg/extinstruction.go:13-16 | the jam opcodes 0x40 to 0x7F hold Implied JAM entries with two cycles |
| InstructionSet.JamHigh | pkg/extinstruction.go:17-20 | the jam opcodes from 0x80 up hold Implied JAM entries with two cycles |
| InstructionSet.JamFamily | pkg/extinstruction.go:8-20 | a slot holds JAM exactly when its opcode is one of the twelve jam opcodes, and there it is Implied with two cycles |
| InstructionSet.LegalNop | pkg/instruction.go:34-305 | the only legal NOP is the Implied one at 0xEA, with two cycles |
| InstructionSet.NopFamily | pkg/extinstruction.go:22-49 | every NOP in the complete table, legal or undocumented, has the cycle count of its mode in the NOP map |
| InstructionSet.ReadModifyWriteFamilies | pkg/extinstruction.go:64-149 | DCP, ISC, RLA, RRA, SLO and SRE all share one mode-to-cycles map (ZPG 5, ZPG_X 6, ABS 6, ABS_X 7, ABS_Y 7, X_IND 8, IND_Y 8) |
| InstructionSet.CompleteRelativeAndAccumulator | pkg/instruction.go:34-305 | in the complete table, Relative mode is used exactly by the eight branches (two cycles each), and Accumulator mode exactly by 0x0A, 0x2A, 0x4A and 0x6A |
| InstructionSet.LoadAndJumpFixtures | pkg/instruction.go:148-213 | slot 0xA9 holds LDA Immediate with two cycles; slot 0x6C holds JMP Indirect with five |
| InstructionSet.ShiftAndNopFixtures | pkg/instruction.go:49-282 | slot 0x0E holds ASL Absolute with four cycles; slot 0xEA holds the Implied NOP with two |
| InstructionSet.ExtendedFixtures | pkg/extinstruction.go:65-155 | after loading, slot 0xC7 holds DCP ZeroPage with five cycles, and slot 0xEB holds USB Immediate with two |

## Left out

- Instruction semantics (`Exec`) and processor state are left out. They live in files outside this model. An entry keeps only a mnemonic tag in place of its implementation object.
- Mnemonic strings and the panic message text are left out; they are diagnostics only. A panic is the `DuplicateOpcode(opcode)` result.
- Concrete `TweakCycles` implementations (page-cross and branch penalties) are left out; they are not part of this model. The extra cycles are an abstract `Option<Byte>` parameter: `None` for an instruction without the capability, `Some(extra)` for one that reports `extra` cycles.
- Instruction.FinalCycles: the sum of base and extra cycles is an unbounded integer. The code that adds them and its integer width are not part of this model, so no 8-bit wrap-around is applied.
- Go object identity, shared implementation objects and in-place mutation are left out. The table is an immutable sequence. The Go guard panics before it writes anything, so the table is left unchanged. Correspondingly, a `DuplicateOpcode` result from a single insert carries no table, and the caller's table is the unchanged one.
- ExtInstruction.LoadAll: an aborted load returns only the offending opcode. In Go, the inserts made before the panicking one stay in the slice, because the slice is mutated in place. The model does not describe that partially filled slice.
- The memory port, the execution driver, decimal mode, and the hardware instability of ANE, LXA, SHA and TAS are left out; none of them is part of the table code.
- `loadAdditionalInstruction` and `loadExtendedInstruction` are the same code. Both are modelled by one function, `Instruction.LoadInstruction`.
- Opcode 0xEA is loaded only by the legal table. The extended loader never targets it, so there is no duplicate NOP to reconcile. The model follows the code and proves that every opcode is assigned exactly once.
- Two legal entries are transcribed exactly as the literal gives them, even though 6502 references commonly differ:
  - BRK at 0x00 is Immediate with 7 cycles;
  - ASL Absolute at 0x0E has 4 cycles.
