# MegaGB core, modelled and verified in Dafny

MegaGB is an emulator for the Game Boy (DMG) and Game Boy Color (CGB) written in C. Alongside it
sit an older flat-memory "VM" variant of the same emulator, an early Game Boy Advance ARM7TDMI
core, and three Python scripts that compare instruction traces. This project models the core of
each part and proves what the code promises about it.

- **Game Boy / Game Boy Color** (`gb/cpu.c`, `gb/gb.c`, `src/display.c`, the `gb/mbc*.c` memory bank
  controllers, `gb/debug.c`):
  - the SM83 register file and flag packing (modules `Bits`, `GbState`);
  - the ALU, rotates, shifts, bit operations and DAA (`GbAlu`);
  - the opcode decode (`GbDecode`), the instruction semantics (`GbExec`) and the dispatch loop with
    its interrupt and HALT handling (`GbCpu`, `GbDispatch`);
  - the memory map of `readAddr`/`writeAddr`: banked WRAM and VRAM, PPU locks, I/O write masks and
    colour-RAM auto-increment (`GbBus`);
  - the timer, joypad and OAM-DMA bookkeeping of `gb/gb.c` (`GbTimer`, `GbDma`) and the header
    checksum check (`BootCheck`);
  - the STAT and PPU-mode logic, the palettes and the pixel FIFO of `src/display.c` (`GbDisplay`,
    `GbFifo`);
  - MBC1, MBC2, MBC3 and MBC5 and their dispatch (`GbMbc1`, `GbMbc2`, `GbMbc3`, `GbMbc5`, `GbMbc`,
    `GbCart`);
  - the disassembler tables (`GbDebug`).
- **Legacy VM** (`src/cpu.c`, `src/mbc.c`, `src/mbc1.c`, `src/cartridge.c`, `src/vm.c`):
  - the 64 KiB `MEM` array and its bank copies (`VmState`, `VmBanks`);
  - the legacy MBC1 (`VmMbc1`) and the legacy `readAddr`/`writeAddr` (`VmMemory`);
  - the stack, interrupt and HALT part of the legacy CPU (`VmCpu`);
  - the cartridge header parser (`VmCartridge`);
  - boot, controller allocation and the run loop (`VmBoot`).
- **Game Boy Advance** (`gba/arm7tdmi.c`, `gba/debugGBA.c`, `gba/gba.c`):
  - CPSR, condition codes and the operand-2 barrel shifter (`GbaState`, `GbaShifter`);
  - banked-register mode switching (`GbaBanks`);
  - the 12-bit decode table (`GbaDecode`);
  - the prefetch queue, `stepCPU` and the emulator loop (`GbaCpu`);
  - the disassembler table and trace line (`GbaDebug`);
  - the little-endian bus (`GbaBus`).
- **Trace scripts** (`debug/autodebug.py`, `debug/test_scripts/autodebug.py`,
  `debug/test_scripts/gbamismatch.py`):
  - the first-mismatch scan (`LogDiff`);
  - the context printer and the two interactive scans (`AutoDebug`, `AutoDebugPrompt`,
    `GbaMismatch`);
  - all built on a small model of Python strings and program outcomes (`PyScript`).

The code's own state becomes Dafny state. `GB`, `VM`, `Gba`, the FIFO and the MBC records are
classes with array fields, and the operations that change them are methods. Each method's
`ensures` ties the new state to a pure function of the old one, and lemmas prove what the source
promises about those functions. Pure code (decode tables, the shifter, the header parser, the
scripts' scans) is written as functions.

Integers keep the source's widths. Bytes are `bv8`, Game Boy words `bv16` and ARM words `bv32`, so
wrap-around is the bit-vector's own. A `log_fatal` (which exits the process) becomes an error
outcome: an `ok` flag or an `Option`, with the state left as it was at the call.

## Model

| member | source | states |
|---|---|---|
| Bits.WordBytes | gb/cpu.c:135-137 | a register pair read as a 16-bit value is its high register times 256 plus its low register |
| Bits.JoinHiLo | gb/cpu.c:141-146 | splitting a 16-bit value into its two bytes and joining them again gives the value back |
| Bits.HiLoJoin | gb/cpu.c:135-146 | joining two bytes and splitting the result gives the two bytes back |
| Bits.IncCarry | gb/cpu.c:141-146 | incrementing a pair whose low byte is 0xFF clears the low byte and carries into the high byte |
| Bits.IncNoCarry | gb/cpu.c:141-146 | incrementing a pair whose low byte is below 0xFF changes only the low byte |
| Bits.BoolByte | gb/cpu.c:120-127 | a C truth value stored in a flag or byte is 1 exactly when it holds and 0 otherwise |
| Bits.Signed8 | gb/cpu.c:1088-1096 | `(int8_t)` reads a byte as a two's-complement value in [-128, 128) congruent to the byte modulo 256 |
| BootCheck.LogoPrefixOnly | gb/gb.c:191 | the memcmp compares the first 0x18 logo bytes only: anything after them may differ |
| BootCheck.FoldIsNegatedSum | gb/gb.c:197-200 | the checksum fold is minus the sum of the header bytes 0x134..0x14C minus one per byte |
| BootCheck.HeaderChecksum | gb/gb.c:197-200 | the loop computes that fold |
| BootCheck.ChecksumMatchesExactly | gb/gb.c:202 | the low byte of the fold equals the stored checksum exactly when the stored byte plus the header bytes plus 0x19 is a multiple of 256 |
| BootCheck.BootChecks | gb/gb.c:190-205 | the boot verdict is "verified" exactly when the logo and the checksum both match, and a logo mismatch is reported first, as bootROM's first log_fatal |
| PyScript.Prefix | debug/autodebug.py:57-58 | `line[:30]` is the first 30 characters of the line, or all of it when it is shorter |
| PyScript.DropLast | debug/autodebug.py:44 | `array[ii][:-1]` is the line without its last character (its newline); an empty line stays empty |
| PyScript.Decimal | debug/autodebug.py:62 | the line number is printed as a non-empty run of decimal digits with no leading zero |
| PyScript.DecimalRoundTrip | debug/autodebug.py:62 | the printed line number reads back as the number itself |
| PyScript.DecimalInjective | debug/autodebug.py:62 | two reports name the same line only when they are about the same line |
| LogDiff.DifferOnPrefix | debug/autodebug.py:56-60 | `l1 != l2` compares only the first 30 characters: lines at least that long differ exactly when their prefixes do |
| LogDiff.FirstMismatch | debug/autodebug.py:52-60 | the scan's first mismatch lies inside the scanned range |
| LogDiff.FirstMismatchExactly | debug/autodebug.py:52-69 | the scan stops at the smallest differing line, every earlier line agrees, and it finds nothing exactly when no line of the range differs |
| LogDiff.Mismatches | debug/test_scripts/autodebug.py:53-61 | the lines the scan reports lie inside the scanned range |
| LogDiff.MismatchesStep | debug/test_scripts/autodebug.py:53-61 | one loop iteration: line i is reported exactly when it differs, then the scan goes on at i + 1 |
| LogDiff.MismatchesExactly | debug/test_scripts/autodebug.py:53-61 | the reported lines are exactly the differing lines of the range, each once, in increasing order |
| LogDiff.MismatchesStartWithFirst | debug/test_scripts/autodebug.py:53-61 | the first reported line is the first mismatch, and nothing is reported exactly when there is no mismatch |
| LogDiff.MismatchesLocal | debug/autodebug.py:52-60 | the scan of lines below hi looks at no line from hi on |
| AutoDebug.ShownNext | debug/autodebug.py:40-50 | each loop pass of printAround prints one more row after the ones before it |
| AutoDebug.ShownSplit | debug/autodebug.py:39-50 | printAround's two loops together print one contiguous run of lines |
| AutoDebug.AroundShape | debug/autodebug.py:39-50 | printAround prints the five lines before line i (none when i < 5) and line i with at most five after it, stopping at maxLen; each line loses its newline and only line i carries the arrow |
| AutoDebug.PrintAround | debug/autodebug.py:39-50 | what printAround writes is Around, the excerpt AroundShape describes |
| AutoDebug.PrintBefore | debug/autodebug.py:40-44 | the first loop prints lines i-5 .. i-1, without the arrow, and nothing when i < 5 |
| AutoDebug.PrintFrom | debug/autodebug.py:46-50 | the second loop prints line i with the arrow and the lines after it up to i+5 or the end of the log |
| AutoDebug.AroundArrow | debug/autodebug.py:50 | the ">>> " arrow marks line i of the excerpt |
| AutoDebug.ReportNamesLine | debug/autodebug.py:62 | the report opens with "Mismatch at line" and the line number counted from 1 |
| AutoDebug.ReportMarksReference | debug/autodebug.py:63-65 | the binjgb excerpt of the report marks the mismatching binjgb line |
| AutoDebug.ReportMarksEmulator | debug/autodebug.py:66-68 | the megagbc excerpt of the report marks the mismatching megagbc line |
| AutoDebug.Report | debug/autodebug.py:62-68 | the report is the line number, the binjgb excerpt and the megagbc excerpt between their banners |
| AutoDebug.Compare | debug/autodebug.py:52-71 | the loop and the final print write exactly what Script says, including the IndexError an empty megagbc log raises |
| AutoDebug.ScriptReportsFirstMismatch | debug/autodebug.py:52-71 | the script raises exactly when the megagbc log is empty and the binjgb log is not; otherwise it ends with "Finished", reports nothing exactly when all compared lines agree, and else reports the first differing line |
| AutoDebug.LastLineNeverCompared | debug/autodebug.py:53-54 | the loop stops before the last megagbc line, so changing that line changes nothing the scan finds |
| AutoDebugPrompt.Asked | debug/test_scripts/autodebug.py:63-70 | what is written at each mismatch is the report followed by the "Continue? (y/n)" prompt, one entry per line |
| AutoDebugPrompt.DialogueSkips | debug/test_scripts/autodebug.py:53-61 | a line that agrees is passed over silently |
| AutoDebugPrompt.DialogueContinues | debug/test_scripts/autodebug.py:61-71 | a differing line is reported, and any answer other than "n" goes on to the next line |
| AutoDebugPrompt.DialogueStops | debug/test_scripts/autodebug.py:70-73 | the answer "n" ends the loop, and the script prints "Finished" |
| AutoDebugPrompt.Compare | debug/test_scripts/autodebug.py:53-73 | the loop and the final print write exactly what Script says for the given answers |
| AutoDebugPrompt.ReportsAllMismatches | debug/test_scripts/autodebug.py:53-73 | when no answer is "n", every mismatching line is reported, in order, and the script finishes |
| AutoDebugPrompt.ReportsUpToEof | debug/test_scripts/autodebug.py:53-73 | when standard input ends after j answers that go on, mismatches 0 .. j are reported and input() raises EOFError |
| AutoDebugPrompt.EofStep | debug/test_scripts/autodebug.py:61-71 | the step of the previous lemma at one reported line |
| AutoDebugPrompt.ReportsUpToStop | debug/test_scripts/autodebug.py:53-73 | when answer j is the first "n", mismatches 0 .. j are reported and the script finishes |
| AutoDebugPrompt.DialogueReports | debug/test_scripts/autodebug.py:61-70 | a scan that meets a mismatch writes more than the final line |
| AutoDebugPrompt.SilentIffAgree | debug/test_scripts/autodebug.py:53-73 | with a non-empty megagbc log the script writes only "Finished" exactly when every compared line agrees on its first 20 characters |
| GbaMismatch.MaxLineIsShorter | debug/test_scripts/gbamismatch.py:9 | the and/or idiom gives the length of the shorter log, except that an empty second log gives the length of the first |
| GbaMismatch.Report | debug/test_scripts/gbamismatch.py:16-20 | the report is five writes ending with the "Continue? (y/n): " prompt |
| GbaMismatch.ReportWrapsAtFirstLine | debug/test_scripts/gbamismatch.py:17-19 | at line 0, `s[line-1]` shows the last line of each log |
| GbaMismatch.Asked | debug/test_scripts/gbamismatch.py:16-20 | one report per line of the scanned range |
| GbaMismatch.PrintMismatch | debug/test_scripts/gbamismatch.py:16-20 | the prints and the prompt at a mismatch write exactly Report |
| GbaMismatch.ScanContinues | debug/test_scripts/gbamismatch.py:15-21 | a differing line answered "y" is reported and the scan goes on |
| GbaMismatch.Compare | debug/test_scripts/gbamismatch.py:9-23 | the loop and the final print write exactly what Script says, including the IndexError an empty second log with a non-empty first one raises |
| GbaMismatch.ReportsAllMismatches | debug/test_scripts/gbamismatch.py:11-23 | when every answer is "y", every mismatching line is reported, in order, followed by "No Mismatches Found :D" all the same |
| GbaMismatch.ReportsUpToExit | debug/test_scripts/gbamismatch.py:11-21 | when answer j is the first that is not "y", mismatches 0 .. j are reported and the script exits |
| GbaMismatch.ExitStep | debug/test_scripts/gbamismatch.py:15-21 | the step of the previous lemma at one reported line |
| GbaMismatch.ScanReports | debug/test_scripts/gbamismatch.py:15-20 | a scan that meets a mismatch writes more than the final line |
| GbaMismatch.SilentIffAgree | debug/test_scripts/gbamismatch.py:9-23 | with a non-empty second log the script writes only the "no mismatches" line exactly when every line of the shorter log agrees on its first 170 characters |
| GbaMismatch.ExitsWithZero | debug/test_scripts/gbamismatch.py:21 | every early exit has status 0 |
| GbCart.RomByte | gb/mbc.c:66-84 | a ROM read inside the image gives the image's byte; one past its end gives 0xFF (see Left out) |
| GbCart.BankCount | gb/mbc3.c:69 | a ROM size code stands for at least two 16 KiB banks |
| GbCart.RomBankMask | gb/mbc3.c:69 | `(1 << (romSize + 1)) - 1` is one less than the bank count below 4 MiB and 0xFF from there on |
| GbCart.GatedRoundTrip | gb/mbc5.c:85-101 | with RAM enabled, a byte written to external RAM reads back at the same address and no other address changes |
| GbCart.GatedClosed | gb/mbc5.c:85-101 | with RAM disabled, reads give 0xFF and writes change nothing |
| GbCart.MaskedBelow | gb/mbc3.c:69 | a masked bank number never exceeds its mask |
| GbState.ModeBits | src/display.c:95-125 | a PPU mode fits STAT bits 0-1 |
| GbState.InterruptBit | gb/cpu.c:1530-1535 | each interrupt has one of the five IF/IE bits |
| GbState.InterruptMask | gb/cpu.c:1534 | an interrupt's mask is `1 << interrupt` |
| GbState.HregDefaults | gb/cpu.c:175-190 | the defaults table has 0x50 entries, one per I/O register 0x00..0x4F |
| GbState.ResetIO | gb/cpu.c:175-201 | after resetGBC the I/O registers hold the defaults below 0x50 and 0xFF from 0x50 on, except the VRAM/WRAM bank, object priority and KEY0 registers it sets afterwards |
| GbState.ResetRegisters | gb/cpu.c:158-172 | a reset leaves SP = 0xFFFE; on DMG, F is 0xF0 when the header checksum is 0 and 0xB0 otherwise |
| GbState.WithReg16 | gb/cpu.c:141-146 | set_reg16 keeps the ten-byte register file |
| GbState.Reg16RoundTrip | gb/cpu.c:135-146 | get_reg16 after set_reg16 reads the value back, and only the pair's two bytes change |
| GbState.Reg16WriteBack | gb/cpu.c:135-146 | writing a pair with the value it holds changes nothing |
| GbState.Reg16Overwrite | gb/cpu.c:141-146 | a second set_reg16 on a pair replaces the first |
| GbState.SamePair | gb/cpu.c:135-146 | two register files that agree outside a pair and on the pair's value are equal |
| GbState.Reg16DownUp | gb/cpu.c:1007-1028 | moving SP down by two (push16) and up by two (pop16) restores the register file |
| GbState.FillColorRAM | gb/cpu.c:193-194 | memset fills the 64 bytes of a colour RAM with 0xFF |
| GbState.GB.constructor | gb/gb.c:19-94 | initGB: the cartridge, no controller yet, the emulation mode from the CGB code, and the registers, I/O, HRAM, OAM, WRAM and VRAM freshly allocated |
| GbState.GB.InitCartridge | gb/gb.c:109-171 | initGBCartridge: CGB selects WRAM bank 7 and VRAM bank 1 and locks OAM; DMG selects banks 1 and 0 and locks nothing, with the PPU counters at 4 |
| GbState.GB.AllocateController | gb/mbc.c:25-53 | mbc_allocate succeeds exactly for a supported cartridge type and then installs a valid controller; on the fatal path nothing changes |
| GbState.GB.LoadDefaults | gb/cpu.c:186-196 | the defaults table of the given mode is loaded into I/O registers 0x00..0x4F, and 0xFF fills the rest of IO and, through the 0xAF-byte fill running on into the adjacent hram, all of HRAM |
| GbState.GB.LoadRegisters | gb/cpu.c:159-172 | the reset's set_reg sequence leaves exactly the given register file |
| GbState.GB.ResetGB | gb/cpu.c:204-237 | resetGB: PC = 0x100, IME cleared, the DMG registers, and the DMG I/O defaults (ResetIO(EmuDmg)) whatever the emulation mode, with HRAM all 0xFF |
| GbState.GB.ResetGBC | gb/cpu.c:158-202 | resetGBC: PC = 0x100, IME cleared, the CGB registers, ResetIO, and both colour RAMs white |
| GbState.GB.SetReg8 | gb/cpu.c:116-118 | set_reg8 changes only that byte of the register file |
| GbState.GB.SetReg16 | gb/cpu.c:141-146 | set_reg16 returns its value and changes only the pair |
| GbState.GB.SetFlag | gb/cpu.c:120-127 | set_flag changes only its bit of F, which get_flag then reads back |
| GbState.GB.RequestInterrupt | gb/cpu.c:1530-1535 | requestInterrupt sets the interrupt's bit in IF and changes nothing else |
| GbAlu.FlagMask | gb/cpu.c:120-131 | flag f lives in bit f + 4 of F |
| GbAlu.SetFlag | gb/cpu.c:120-127 | set_flag makes get_flag return the new value and changes no other bit of F |
| GbAlu.SetFlags | gb/cpu.c:263-272 | the four set_flag calls at the end of a helper assign Z, N, H and C and keep F's lower nibble |
| GbAlu.FlagsDetermine | gb/cpu.c:120-131 | an F byte is determined by its four flags and its lower nibble |
| GbAlu.Inc8 | gb/cpu.c:263-272 | incrementR8 adds one modulo 256; Z from the result, N = 0, H when the low nibble was 0xF, C untouched |
| GbAlu.Dec8 | gb/cpu.c:274-282 | decrementR8 is the value one less; Z from the result, N = 1, H when the low nibble was 0, C untouched |
| GbAlu.IncDecRoundTrip | gb/cpu.c:263-282 | INC then DEC gives the register back and keeps C |
| GbAlu.Rlc | gb/cpu.c:287-304 | rotateLeftR8 rotates by one bit, and the bit leaving bit 7 becomes C; Z only when setZFlag |
| GbAlu.Rrc | gb/cpu.c:325-343 | rotateRightR8 rotates by one bit, and the bit leaving bit 0 becomes C |
| GbAlu.Rl | gb/cpu.c:363-381 | rotateLeftCarryR8 is a 9-bit left rotation of C and the value together |
| GbAlu.Rr | gb/cpu.c:402-420 | rotateRightCarryR8 is a 9-bit right rotation of C and the value together |
| GbAlu.RlcRrcRoundTrip | gb/cpu.c:287-343 | RLC and RRC undo each other |
| GbAlu.RlRrRoundTrip | gb/cpu.c:363-420 | RL then RR gives back the value and the carry |
| GbAlu.Sla | gb/cpu.c:441-452 | shiftLeftArithmeticR8 doubles modulo 256, and bit 7 becomes C |
| GbAlu.Srl | gb/cpu.c:468-479 | shiftRightLogicalR8 halves unsigned, and bit 0 becomes C |
| GbAlu.Sra | gb/cpu.c:495-509 | shiftRightArithmeticR8 halves the signed value rounding down, and bit 0 becomes C |
| GbAlu.Swap | gb/cpu.c:528-541 | swapR8 exchanges the nibbles; Z from the value, the other flags cleared |
| GbAlu.SwapInvolution | gb/cpu.c:528-541 | swapping twice gives the value back |
| GbAlu.TestBit | gb/cpu.c:559-566 | testBitR8 sets Z exactly when the bit is 0; N = 0, H = 1, C untouched |
| GbAlu.ShiftTestIsMaskTest | gb/cpu.c:559-566 | shifting the bit down and masking tests the same bit as masking in place |
| GbAlu.SetBit | gb/cpu.c:577-583 | setBitR8 turns the bit on and keeps the others |
| GbAlu.ResBit | gb/cpu.c:594-601 | resetBitR8 turns the bit off and keeps the others |
| GbAlu.TestAfterSetOrRes | gb/cpu.c:559-601 | BIT after SET reports a one, BIT after RES a zero |
| GbAlu.Add8 | gb/cpu.c:646-657 | addR8 adds modulo 256; Z, N = 0, H from the nibble sum, C from the 9-bit sum |
| GbAlu.Adc8 | gb/cpu.c:685-725 | adcR8 without a carry in is ADD; Z from the result, N = 0 |
| GbAlu.Adc8Spec | gb/cpu.c:685-725 | the two-step test_adc_hcflags sum is one 9-bit addition of a, b and the carry, with H and C its nibble and byte carries |
| GbAlu.Adc8WithCarry | gb/cpu.c:685-725 | with a carry in, the value is a + b + 1 and H and C are exactly its carries |
| GbAlu.Sub8 | gb/cpu.c:755-766 | subR8: the result plus b is a; Z when a = b, N = 1, H when the low nibble borrows, C when a < b |
| GbAlu.Sbc8 | gb/cpu.c:794-824 | sbcR8: Z from the result, N = 1, F's lower nibble kept |
| GbAlu.SubWraps | gb/cpu.c:794-810 | a byte subtraction wraps exactly when the subtrahend is larger |
| GbAlu.Sbc8WithCarry | gb/cpu.c:794-824 | with a carry in, the value is a - b - 1, H the low-nibble borrow and C the byte borrow |
| GbAlu.LowNibbleOfDifference | gb/cpu.c:794-810 | the low nibble of a difference is zero exactly when the low nibbles are equal |
| GbAlu.Sbc8WithoutCarry | gb/cpu.c:794-824 | without a carry in, SBC is a plain subtraction |
| GbAlu.Sbc8NoCarry | gb/cpu.c:755-824 | without a carry in, SBC computes exactly what SUB computes |
| GbAlu.And8 | gb/cpu.c:854-865 | andR8's result has exactly the bits set in both operands; H = 1, N = C = 0 |
| GbAlu.Xor8 | gb/cpu.c:893-904 | xorR8's result xored with either operand gives the other; Z when the operands are equal |
| GbAlu.Or8 | gb/cpu.c:932-943 | orR8's result has exactly the bits set in either operand; Z when both are 0 |
| GbAlu.Cp8 | gb/cpu.c:971-981 | compareR8 sets the flags of a - b and keeps A |
| GbAlu.Add16 | gb/cpu.c:615-625 | addR16 adds modulo 0x10000; N = 0, H from bit 11, C from bit 15, Z untouched |
| GbAlu.AddSpE8 | gb/cpu.c:629-644 | addR16I8 adds the sign-extended byte, but Z = N = 0 and H and C come from the unsigned addition of the low byte |
| GbAlu.Cpl | gb/cpu.c:1065-1069 | cpl complements A and sets N and H |
| GbAlu.Ccf | gb/cpu.c:56-58 | CCF complements C and clears N and H |
| GbAlu.Scf | gb/cpu.c:2082-2087 | SCF sets C and clears N and H |
| GbAlu.CcfTwice | gb/cpu.c:56-58 | two CCFs restore C |
| GbAlu.Daa | gb/cpu.c:1100-1134 | decimalAdjust clears H, sets Z from the result, keeps N, and never clears a set C |
| GbAlu.DaaAfterAdd | gb/cpu.c:1100-1134 | ADD of two BCD bytes then DAA gives the decimal sum digit by digit, with C the decimal carry |
| GbAlu.DaaAfterAddLowCarry | gb/cpu.c:1100-1134 | the case of DaaAfterAdd where the low digits carry |
| GbAlu.DaaAfterAddNoLowCarry | gb/cpu.c:1100-1134 | the case of DaaAfterAdd where they do not |
| GbAlu.DaaAfterSub | gb/cpu.c:1100-1134 | SUB of two BCD bytes then DAA gives the decimal difference, with C the decimal borrow |
| GbAlu.DaaAfterSubLowBorrow | gb/cpu.c:1100-1134 | the case of DaaAfterSub where the low digits borrow |
| GbAlu.DaaAfterSubNoLowBorrow | gb/cpu.c:1100-1134 | the case of DaaAfterSub where they do not |
| GbCpu.ReadAddrValid | gb/cpu.c:1442-1513 | readAddr away from the timer registers returns the byte the bus held and leaves I/O alone |
| GbCpu.ReadAddr4C | gb/cpu.c:1521-1526 | readAddr_4C reads as readAddr does, then one M-cycle (4 clocks) passes |
| GbCpu.WriteAddr4C | gb/cpu.c:1516-1519 | writeAddr_4C takes one M-cycle; a store into work RAM or HRAM replaces exactly that byte |
| GbCpu.ReadByte | gb/cpu.c:84-87 | readByte returns the byte at PC and advances PC by one |
| GbCpu.ReadByte4C | gb/cpu.c:89-92 | readByte_4C does that in one M-cycle |
| GbCpu.FetchKeeping | gb/cpu.c:89-92 | readByte_4C, and a byte at an address that is neither a timer register nor in OAM reads the same after it |
| GbCpu.Read2Bytes8C | gb/cpu.c:99-102 | read2Bytes_8C advances PC by two in two M-cycles and returns the little-endian word of the two bytes at PC and PC+1 as they were before the instruction (when neither is a timer register and PC+1 is not in OAM) |
| GbCpu.WramInRange | gb/cpu.c:1442-1513 | the selected WRAM bank maps every address 0xC000..0xDFFF inside the allocated WRAM |
| GbCpu.StackByteIsPeek | gb/cpu.c:1442-1513 | a read from stack memory (WRAM or HRAM) reads that memory, with no timer register in the way |
| GbCpu.StackNeighbours | gb/cpu.c:1007-1028 | the two bytes of a stack slot are different memory cells |
| GbCpu.StoredByte | gb/cpu.c:1138-1440 | after a store at a stack address the stack byte there is the stored byte |
| GbCpu.StoreKeepsHigh | gb/cpu.c:1007-1018 | storing the low byte of a slot keeps the high byte |
| GbCpu.PushBytes | gb/cpu.c:1007-1018 | push16's two writes put the high byte at top + 1 and the low byte at top, one M-cycle each |
| GbCpu.PushAt | gb/cpu.c:1007-1018 | both writes, then SP becomes top; on stack memory the slot holds the pushed word |
| GbCpu.Push16 | gb/cpu.c:1007-1018 | push16 moves SP down by two, takes two M-cycles, and the pushed word reads back from the new top |
| GbCpu.PopBytes | gb/cpu.c:1020-1028 | pop16's two reads return the word stored at top |
| GbCpu.Pop16 | gb/cpu.c:1020-1028 | pop16 returns the word at SP and moves SP up by two |
| GbCpu.PushThenPop | gb/cpu.c:1007-1028 | a push then a pop on stack memory returns the pushed word and restores every register |
| GbCpu.ConditionHolds | gb/cpu.c:1078-1096 | CONDITION_Z/NZ test Z and CONDITION_C/NC test C, each as stated |
| GbCpu.Call | gb/cpu.c:1030-1036 | call takes a decision M-cycle, pushes PC and jumps; the return address is then the top of the stack |
| GbCpu.CallCondition | gb/cpu.c:1038-1045 | callCondition calls when the condition holds and otherwise changes nothing |
| GbCpu.Ret | gb/cpu.c:1047-1052 | ret pops PC and takes an internal M-cycle |
| GbCpu.RetCondition | gb/cpu.c:1054-1063 | retCondition always spends the decision M-cycle and returns only when the condition holds |
| GbCpu.RetTaken | gb/cpu.c:1054-1063 | a taken retCondition costs 16 clocks and PC becomes the word that was on top of the stack |
| GbCpu.DecisionCycle | gb/cpu.c:1056 | the decision M-cycle leaves the stack alone |
| GbCpu.CallThenRet | gb/cpu.c:1030-1052 | a call then a ret on stack memory comes back to the calling PC with every register restored |
| GbCpu.JumpCondition | gb/cpu.c:1078-1086 | jumpCondition always fetches the little-endian target at PC; a taken jump costs one more M-cycle and sets PC to it, a jump not taken moves PC past the operand |
| GbCpu.JumpTaken | gb/cpu.c:46 | JUMP (opcode C3) and a taken jumpCondition set PC to the little-endian word at PC in 12 clocks |
| GbCpu.JumpRelativeCondition | gb/cpu.c:1088-1096 | jumpRelativeCondition always fetches the offset; when taken, PC becomes the address after the operand plus the signed offset |
| GbCpu.JumpRelativeTaken | gb/cpu.c:49 | JUMP_RL (opcode 18) adds the signed offset to the PC after the operand |
| GbCpu.RestartVector | gb/cpu.c:2239 | an RST target is one of 0x00, 0x08, ..., 0x38 |
| GbCpu.PendingMask | gb/cpu.c:1570-1574 | the pending interrupts are `IE & IF & 0x1F` |
| GbCpu.PendingBit | gb/cpu.c:1588-1591 | a bit is pending exactly when it is set in both IF and IE |
| GbCpu.NonePending | gb/cpu.c:1574 | nothing is pending exactly when none of the five bits is set |
| GbCpu.FirstPendingFrom | gb/cpu.c:1585-1596 | the priority search returns the first set bit from k on, or 5 when there is none |
| GbCpu.FirstPendingFound | gb/cpu.c:1585-1596 | the search finds an interrupt exactly when one is pending |
| GbCpu.InterruptAt | gb/cpu.c:1593 | bit i stands for interrupt i |
| GbCpu.ServicedInterrupt | gb/cpu.c:1585-1596 | the serviced interrupt is pending and no lower-numbered bit is |
| GbCpu.InterruptVector | gb/cpu.c:1551-1559 | an interrupt's handler is at 0x40 + 8 times its bit |
| GbCpu.HighestPriority | gb/cpu.c:1585-1596 | the loop over bits 0..4 stops at the first bit set in both IF and IE |
| GbCpu.DispatchInterrupt | gb/cpu.c:1537-1560 | dispatchInterrupt clears IME and the interrupt's IF bit, idles two M-cycles and calls the vector; 20 clocks in all |
| GbCpu.Acknowledge | gb/cpu.c:1539-1548 | IME and the interrupt's IF bit are cleared, nothing else in I/O changes, and two M-cycles pass |
| GbCpu.ServiceInterrupt | gb/cpu.c:1573-1597 | with IME set and an interrupt pending, halt mode ends and the highest-priority interrupt is dispatched |
| GbCpu.DispatchPending | gb/cpu.c:1585-1596 | the loop and the dispatch of the interrupt it finds |
| GbCpu.HandleInterrupts | gb/cpu.c:1562-1605 | with nothing pending nothing changes; otherwise halt mode ends, and only with IME set is the highest-priority interrupt serviced |
| GbCpu.HaltOutcome | gb/cpu.c:1607-1637 | halt sleeps exactly when nothing is pending, schedules the halt bug exactly when IME is clear and something is pending, and otherwise does nothing |
| GbCpu.Halt | gb/cpu.c:1607-1637 | halt sets haltMode or scheduleHaltBug as HaltOutcome says and clears neither |
| GbCpu.SyncTimerValid | gb/gb.c:231-300 | syncTimer's effect on I/O is SyncedIO of the clock and the last sync points |
| GbCpu.SpeedSwitchIdle | gb/cpu.c:1654-1657 | the speed switch idles 2050 M-cycles |
| GbCpu.Key1After | gb/cpu.c:1661-1662 | after a speed switch KEY1 bit 0 is clear, bit 7 is the new speed, and bits 1-6 are kept |
| GbCpu.Stop | gb/cpu.c:1639-1667 | stop drops its operand byte and resets DIV; only on CGB does a speed switch follow, flipping the speed |
| GbCpu.StopFetch | gb/cpu.c:1640-1644 | the operand fetch takes one M-cycle and DIV becomes 0 |
| GbCpu.SpeedSwitch | gb/cpu.c:1647-1662 | the speed switch takes 2050 M-cycles, flips the speed, clears doingSpeedSwitch and shows the speed in KEY1 |
| GbCpu.EndSpeedSwitch | gb/cpu.c:1659-1662 | the speed flips and KEY1 changes as Key1After says, nothing else in I/O |
| GbTimer.IncTima | gb/gb.c:219-229 | incrementTIMA: at 0xFF TIMA reloads from TMA and the timer bit of IF is set; otherwise TIMA counts up; no other register changes |
| GbTimer.IncTimaN | gb/gb.c:295-297 | the increment loop keeps the 0x80 I/O registers |
| GbTimer.TimaCounts | gb/gb.c:295-297 | n increments that never meet 0xFF add n to TIMA and request nothing |
| GbTimer.TimaKeepsOthers | gb/gb.c:219-229 | increments change no register but TIMA and IF |
| GbTimer.TimaKeepsRequests | gb/gb.c:225 | an interrupt request, once made, is never withdrawn by further increments |
| GbTimer.TimaOverflowRequests | gb/gb.c:222-225 | counting past 0xFF requests the timer interrupt (IF bit 2) |
| GbTimer.TimaReachesTop | gb/gb.c:222-225 | the increment that finds TIMA at 0xFF requests the interrupt |
| GbTimer.TimerRequestStays | gb/gb.c:225 | a pending timer request survives an increment |
| GbTimer.TimaPeriod | gb/gb.c:271-277 | TAC & 3 selects 1024, 16, 64 or 256 T-cycles per increment |
| GbTimer.TimaSyncExact | gb/gb.c:279-293 | after a sync, the counted periods times the period plus the remainder left behind make up the elapsed cycles, and the remainder is below one period |
| GbTimer.SyncedIO | gb/gb.c:251-299 | syncTimer keeps the 0x80 I/O registers |
| GbTimer.SyncTimer | gb/gb.c:231-300 | syncTimer: DIV steps once when 256 cycles have passed, however many have; with TAC bit 2 set TIMA is incremented once per elapsed period, and the sync points move as stated |
| GbTimer.SyncDIV | gb/gb.c:251-261 | DIV steps by one once 256 cycles have passed, and the DIV sync point is rewound by the excess |
| GbTimer.SyncTIMA | gb/gb.c:263-299 | TIMA is incremented once per whole elapsed period and the remainder is left for the next sync |
| GbTimer.IncrementTIMA | gb/gb.c:219-229 | the heap incrementTIMA does what IncTima says |
| GbTimer.ScheduleDMATransfer | gb/gb.c:303-317 | a source page above 0xDF is clamped to 0xDF, the source is page * 0x100, and the transfer is scheduled 8 T-cycles ahead |
| GbTimer.JoypadNibble | gb/gb.c:510-535 | the low nibble of P1 is the direction and action buttons ANDed when both are selected, one group when one is, and 0 when none is |
| GbTimer.UpdateJoypadRegBuffer | gb/gb.c:510-535 | P1 keeps its upper nibble and takes that nibble in the lower one; no other register changes |
| GbTimer.JoypadNibbleReadsBack | gb/gb.c:515-516 | the written nibble reads back through P1, whatever the upper nibble held |
| GbDma.RegsOf | gb/gb.c:303-355 | the DMA counters of the state satisfy the counter invariant exactly when the state does |
| GbDma.Cycled | gb/gb.c:336-354 | one syncDMA keeps the counter invariant and leaves the scheduled transfer alone |
| GbDma.Tick | gb/gb.c:369-388 | the DMA bookkeeping of cyclesSync_4 keeps the invariant, starts a scheduled transfer when its timer reaches 0, and never schedules one itself |
| GbDma.Countdown | gb/gb.c:382-387 | the scheduled timer counts down by 4, and the transfer starts when it reaches 0 |
| GbDma.StartsOnSecondTick | gb/gb.c:313-316 | a transfer scheduled with the timer at 8 starts on the second cyclesSync_4, from the scheduled source |
| GbDma.TransferLasts160 | gb/gb.c:336-354 | a started transfer is busy for 159 M-cycles and idle again on the 160th, with its source cleared |
| GbDma.SourceBelowEcho | gb/gb.c:304-311 | the clamp keeps every source address at or below 0xDF9F, so the transfer never reads OAM |
| GbDma.OffsetByteValue | gb/gb.c:342-343 | the uint8_t sprite offset does not wrap |
| GbDma.DmaByteIsRead | gb/gb.c:346 | the byte copied is what readAddr returns at the source address |
| GbDma.WithEntry | gb/gb.c:345-347 | writing entry k replaces OAM bytes 4k..4k+3 and no others |
| GbDma.Transfer | gb/gb.c:336-348 | a transfer keeps OAM at 0xA0 bytes |
| GbDma.TransferCopiesPrefix | gb/gb.c:336-348 | after m M-cycles the entries of the completed groups of four hold the source bytes and the rest of OAM is unchanged |
| GbDma.TransferComplete | gb/gb.c:329-354 | the 160 M-cycles copy all 0xA0 bytes |
| GbDma.StartDMATransfer | gb/gb.c:319-326 | startDMATransfer clears the schedule, resets the count and copies the scheduled source |
| GbDma.EntryBytes | gb/gb.c:345-347 | entry k is the four bytes readAddr gives at source + 4k, in order |
| GbDma.SourcePrefix | gb/gb.c:346 | the first n source bytes, as readAddr gives them |
| GbDma.EntryIsSlice | gb/gb.c:342-347 | entry k is the k-th four-byte slice of the source |
| GbDma.CopyEntry | gb/gb.c:345-347 | the for loop writes OAM entry k and nothing else |
| GbDma.CopyStep | gb/gb.c:336-348 | when the counted M-cycle completes a group of four, the next entry takes the four source bytes |
| GbDma.CountStep | gb/gb.c:336-354 | the counters move as Cycled says |
| GbDma.SyncDMA | gb/gb.c:328-355 | syncDMA: one more M-cycle, an entry copied every fourth, idle again after the 160th |
| GbDma.CountdownStep | gb/gb.c:382-387 | the countdown moves as Countdown says |
| GbDma.DmaTick | gb/gb.c:381-387 | the DMA part of cyclesSync_4 moves as Tick says |
| GbDma.CyclesSync4 | gb/gb.c:369-388 | cyclesSync_4 adds 4 to the clock and advances the DMA as Tick says |
| GbBus.AreaOf | gb/cpu.c:1442-1513 | every address falls in the area whose range holds it |
| GbBus.AreasPartition | gb/cpu.c:1442-1513 | the areas of readAddr and writeAddr do not overlap |
| GbBus.WramIndex | gb/cpu.c:1455-1462 | C000-CFFF index bank 0, D000-DFFF the selected bank, and E000-FDFF the first 0x1E00 bytes of WRAM whatever bank is selected |
| GbBus.WramIndexInBounds | gb/cpu.c:1455-1462 | a selected bank within the allocation keeps every work-RAM index inside it |
| GbBus.EchoMirrors | gb/cpu.c:1508-1509 | echo E000-EFFF reads bank 0, but F000-FDFF reads bank 1 and not the selected bank |
| GbBus.VramIndex | gb/cpu.c:1496-1500 | VRAM is 8 KiB per bank, indexed from the selected bank |
| GbBus.Peek | gb/cpu.c:1442-1513 | readAddr gives 0xFF for locked VRAM, for OAM while locked or during DMA, and for the unusable area; each other area reads its memory |
| GbBus.ReadAddr | gb/cpu.c:1442-1513 | readAddr syncs the timer first on DIV, TIMA, TMA and TAC and only there, then returns Peek |
| GbBus.StatWrite | gb/cpu.c:1344-1355 | a STAT write keeps bits 0-2, takes bits 3-6 from the byte and sets bit 7 |
| GbBus.Key1Write | gb/cpu.c:1374-1377 | a KEY1 write changes bit 0 only |
| GbBus.JoypadWrite | gb/cpu.c:1219-1226 | a P1 write sets bits 6-7, takes bits 4-5 from the byte and keeps the lower nibble |
| GbBus.SelectOf | gb/cpu.c:1229 | P1 bits 4-5 select both groups (00), action (01), direction (10) or none (11) |
| GbBus.WramBankOf | gb/cpu.c:1241-1243 | an SVBK write selects bank bits 0-2, with 0 meaning 1 |
| GbBus.NextCramIndex | gb/cpu.c:1269-1274 | the colour-RAM index auto-increments and wraps to 0 at 64 |
| GbBus.CramIndexAfter | gb/cpu.c:1280-1286 | the index increments when bit 7 of the specification register is set and is kept otherwise |
| GbBus.GlitchHalf | gb/cpu.c:1174-1176 | the bit the TAC glitch watches is the period truncated to a uint8_t, halved: 1024 and 256 give 0 |
| GbBus.TacGlitch | gb/cpu.c:1182-1190 | the glitch needs the old enable bit; with the old period 1024 or 256 it never happens (as written) |
| GbBus.GlitchHalfIntended | gb/cpu.c:1174-1176 | the corrected watched bit is half the period, and equals the as-written one for the 16 and 64 periods |
| GbBus.TacGlitchIntended | gb/cpu.c:1182-1190 | the corrected glitch happens exactly when the watched signal (enable and clock bit) falls |
| GbBus.TacGlitchVersionsCompared | gb/cpu.c:1174-1190 | the two versions agree when neither TAC selects the 1024 or 256 period |
| GbBus.TacGlitchCounterexample | gb/cpu.c:1175 | old TAC 0xFC, write 0x00, clock 0x200: as written no glitch, corrected a glitch |
| GbBus.HdmaRequestOf | gb/cpu.c:1387-1391 | an HDMA5 write describes a source with its low nibble cleared, a destination in 0x8000..0x9FF0 on a 16-byte boundary, and 1..0x80 blocks, HBlank mode when bit 7 is set |
| GbBus.WriteTimerRegister | gb/cpu.c:1161-1210 | timer writes sync the timer first; DIV resets (and TIMA counts when DIV was 1 with the timer on); TAC keeps bits 3-7 set and TIMA counts once when TacGlitch says so |
| GbBus.WriteJoypad | gb/cpu.c:1219-1237 | a P1 write stores the selection and shows the selected buttons in the lower nibble |
| GbBus.WriteBankSelect | gb/cpu.c:1238-1260 | on CGB, SVBK and VBK select the WRAM bank (1-7) or VRAM bank (0-1) and OR it into the register; on DMG nothing happens |
| GbBus.WriteBackgroundPaletteData | gb/cpu.c:1261-1288 | on CGB with the palettes unlocked the byte goes to background colour RAM and to BCPD; the index moves as CramIndexAfter says, even while locked |
| GbBus.WriteSpritePaletteData | gb/cpu.c:1298-1326 | the same for OCPD and sprite colour RAM |
| GbBus.WritePaletteIndex | gb/cpu.c:1289-1297 | on CGB with the palettes unlocked, BCPS and OCPS set the index from bits 0-5 and store the byte with bit 6 set |
| GbBus.WriteLcdc | gb/cpu.c:1356-1371 | a change of LCDC bit 7 enables or disables the PPU, with the mode, LY, locks and frame counters EnablePPU or DisablePPU give, before the byte is stored; without a change only the byte is stored (LcdcWritten) |
| GbBus.WriteIO | gb/cpu.c:1157-1405 | a write to I/O register reg is the timer rule of WriteTimerRegister for DIV, TIMA, TMA and TAC and the rule of WriteOtherRegister for every other register (IoWritten) |
| GbBus.WriteOtherRegister | gb/cpu.c:1211-1401 | the CGB-only registers follow WriteCgbRegister, DMA stores the byte and schedules an OAM DMA from its page (pages above 0xDF read as 0xDF) after 8 cycles, and the rest follow WriteDmgRegister (OtherWritten) |
| GbBus.WriteCgbRegister | gb/cpu.c:1238-1335 | SVBK/VBK select the bank, BCPD/OCPD write colour RAM, BCPS/OCPS set the index, KEY1 changes bit 0, and HDMA5 is stored and names the transfer request HdmaRequestOf describes unless it cancels a running HBlank DMA; on DMG none of them changes anything (CgbWritten) |
| GbBus.WriteDmgRegister | gb/cpu.c:1219-1373 | P1 selects the button group and shows it in the lower nibble, STAT takes StatWrite, LCDC follows WriteLcdc, LY ignores writes, and every other register stores the byte (DmgWritten) |
| GbBus.WriteDma | gb/cpu.c:1372 | a DMA write stores the byte and schedules an OAM DMA from its page |
| GbBus.IoOffset | gb/cpu.c:1404 | an I/O address names register addr - 0xFF00 |
| GbBus.WriteMemory | gb/cpu.c:1406-1439 | VRAM and OAM writes are dropped while blocked, the unusable area is read-only, and every other store reads back |
| GbBus.WriteVideoRam | gb/cpu.c:1406-1413 | a VRAM write is dropped while VRAM is locked, and otherwise reads back |
| GbBus.WriteObjectRam | gb/cpu.c:1425-1430 | an OAM write is dropped while OAM is locked or DMA runs, and otherwise reads back |
| GbBus.WriteHighRam | gb/cpu.c:1419-1421 | an HRAM write replaces one byte and reads back |
| GbBus.WriteWorkRam | gb/cpu.c:1143-1152 | a WRAM or echo write replaces the byte at WramIndex and reads back |
| GbBus.PeekWorkRam | gb/cpu.c:1455-1462 | a work-RAM read reads WRAM at WramIndex |
| GbBus.PeekInterruptEnable | gb/cpu.c:1492-1493 | reading 0xFFFF reads IE |
| GbBus.WriteAddr | gb/cpu.c:1138-1440 | writeAddr: an unblocked store to memory reads back and leaves the I/O registers alone; external RAM goes through the gated RAM; a ROM-area write changes the controller registers as Intercepted says and leaves its RAM alone; an I/O write follows IoWritten for register addr - 0xFF00 and leaves work RAM, VRAM, HRAM and OAM alone |
| GbBus.WriteRegisters | gb/cpu.c:1153-1418 | external RAM goes through the gated RAM, a ROM-area write changes the controller registers as Intercepted says, and an I/O write follows IoWritten for its register |
| GbBus.WriteCartridge | gb/cpu.c:1153-1156 | external RAM through the gated RAM, and ROM-area writes as controller register writes |
| GbBus.WriteMemoryValid | gb/cpu.c:1406-1439 | the memory part of writeAddr under the state invariant |
| GbBus.WriteIOValid | gb/cpu.c:1157-1405 | the I/O write of WriteIO for every register, keeping the state invariant |
| GbMbc.UnsupportedExactly | gb/mbc.c:25-53 | mbc_allocate fails exactly for the cartridge types it does not list; MBC2 is among them |
| GbMbc.PlanShapes | gb/mbc.c:25-53 | only the NONE type gets no controller, MBC1 gets external RAM only for its RAM types, and MBC3 is never given an RTC |
| GbMbc.Allocate | gb/mbc.c:25-53 | allocation succeeds exactly when the type and RAM size are supported, and then installs the planned controller |
| GbMbc.ReadROM_N0 | gb/mbc.c:66-75 | without a controller handler the fixed ROM window reads 0xFF |
| GbMbc.ReadROM_NN | gb/mbc.c:77-84 | without a controller handler the switchable ROM window reads 0xFF |
| GbMbc.ReadExternalRAM | gb/mbc.c:99-110 | without a controller external RAM reads 0xFF |
| GbMbc.ReadIsGated | gb/mbc.c:99-110 | every controller's external RAM is the gated banked RAM, except that an MBC3 with an RTC register mapped reads 0 |
| GbMbc.WriteExternalRAM | gb/mbc.c:86-97 | external RAM changes as the controller's gated write says, and not at all without a controller |
| GbMbc.InterceptROMWrite | gb/mbc.c:112-124 | a ROM-area write changes the controller's registers as its own interceptROMWrite does and leaves its RAM alone |
| GbMbc1.ClampedSize | gb/mbc1.c:80 | MBC1 decodes at most the bank bits of a 2 MiB ROM |
| GbMbc1.SyncRomBankInRange | gb/mbc1.c:55-123 | the switchable bank never exceeds the mask of the clamped ROM size |
| GbMbc1.SyncRomMode | gb/mbc1.c:62-88 | in ROM mode the 0x0000 window and the RAM bank are bank 0, and the switchable bank is the 5-bit register (0 read as 1), extended by the 2-bit register on ROMs of 1 MiB or more, then masked |
| GbMbc1.SyncRamMode | gb/mbc1.c:89-121 | in RAM mode the 2-bit register picks the 0x0000 window bank on ROMs of 1 MiB or more and the RAM bank on cartridges with 32 KiB of RAM or more |
| GbMbc1.RamAllocation | gb/mbc1.c:25-37 | a RAM cartridge fails on a RAM size other than 8 or 32 KiB (an undeclared size included, as the NULL check makes it); a cartridge without RAM gets none |
| GbMbc1.Mbc1.constructor | gb/mbc1.c:6-41 | mbc1_allocate: ROM mode, registers 0, RAM disabled, ROM bank 1 |
| GbMbc1.Mbc1.Sync | gb/mbc1.c:55-123 | syncMBC1 recomputes the selected banks from the registers and changes no register |
| GbMbc1.Mbc1.InterceptROMWrite | gb/mbc1.c:153-173 | the four register ranges: RAM enable on low nibble 0xA, the 5-bit bank, the 2-bit bank and the mode bit, each followed by a sync |
| GbMbc1.Mbc1.WriteExternalRAM | gb/mbc1.c:137-143 | a write goes to the selected bank only when RAM is enabled and present |
| GbMbc2.SelectBankInRange | gb/mbc2.c:33-54 | a bank select is refused on a 32 KiB ROM and otherwise never selects bank 0 and stays inside the 64, 128 and 256 KiB ROMs |
| GbMbc2.SelectBankIsNibble | gb/mbc2.c:35-52 | the low nibble picks the bank whenever it fits the ROM and is not 0 |
| GbMbc2.Cell | gb/mbc2.c:84 | the built-in RAM cell is the address masked to nine bits |
| GbMbc2.CellEchoes | gb/mbc2.c:81-84 | addresses agreeing in their low nine bits reach the same cell |
| GbMbc2.Mbc2.constructor | gb/mbc2.c:5-13 | mbc2_allocate: RAM disabled |
| GbMbc2.Mbc2.InterceptROMWrite | gb/mbc2.c:22-71 | writes from 0x4000 on are fatal; below, address bit 8 selects a bank switch or sets the RAM enable to byte == 0x0A |
| GbMbc2.Mbc2.ReadROM | gb/mbc2.c:73-75 | mbc2_readROM always reads 0xFF |
| GbMbc2.Mbc2.WriteBuiltInRAM | gb/mbc2.c:77-90 | the byte is stored in the masked cell whether or not RAM is enabled |
| GbMbc2.BuiltInRoundTrip | gb/mbc2.c:77-102 | a write reads back at every address congruent modulo 512, and every other cell keeps its byte |
| GbMbc3.RamAllocation | gb/mbc3.c:6-42 | a RAM cartridge fails on a RAM size the controller does not support; no RAM is given without RAM or when none is declared |
| GbMbc3.SelectRomBankInRange | gb/mbc3.c:67-72 | the selected ROM bank is never 0 and never exceeds the ROM's mask |
| GbMbc3.SelectRomBankBelowCount | gb/mbc3.c:69 | below 4 MiB the bank number is below the ROM's bank count |
| GbMbc3.Mbc3.constructor | gb/mbc3.c:6-42 | mbc3_allocate: latch 1, ROM bank 1, the other registers 0, RAM and RTC disabled |
| GbMbc3.Mbc3.InterceptROMWrite | gb/mbc3.c:57-96 | the RAM/RTC enable, the ROM bank (masked, 0 read as 1), the RAM bank or RTC register select on the low nibble, and the latch, each as written |
| GbMbc3.Mbc3.WriteExternalRAM | gb/mbc3.c:113-126 | mapped RAM stores into the selected bank when present; RTC writes are dropped |
| GbMbc3.SelectedBankFits | gb/mbc3.c:113-126 | every selectable RAM bank holds the whole 0x2000-byte window |
| GbMbc5.RamAllocation | gb/mbc5.c:7-34 | a RAM cartridge fails on an unsupported RAM size; no RAM is given without RAM or when none is declared |
| GbMbc5.NinthBitNoEffect | gb/mbc5.c:62-65 | the ninth bank bit changes nothing below 8 MiB |
| GbMbc5.SelectedBankFits | gb/mbc5.c:66-81 | every RAM bank the register can select lies inside the RAM given |
| GbMbc5.Mbc5.constructor | gb/mbc5.c:7-34 | mbc5_allocate: ROM bank 1, RAM bank 0, RAM disabled, RAM present exactly when some was allocated |
| GbMbc5.Mbc5.InterceptROMWrite | gb/mbc5.c:49-83 | RAM enable on low nibble 0xA, the bank byte masked to the ROM size (bank 0 included), the ninth bit on 8 MiB ROMs only, and the RAM bank |
| GbMbc5.Mbc5.WriteExternalRAM | gb/mbc5.c:94-101 | a write goes to the selected bank only while RAM is enabled and present |
| GbDecode.OperandAt | gb/cpu.c:2168-2175 | the three-bit operand field 0-7 names B, C, D, E, H, L, (HL), A, and the field reads back from the operand |
| GbDecode.OperandReg | gb/cpu.c:2168-2175 | a register operand names one of the seven 8-bit registers B-A, never F or half of SP |
| GbDecode.AluOpAt | gb/cpu.c:2168-2231 | bits 3-5 of 0x80-0xBF select add, adc, sub, sbc, and, xor, or, cp, and the field reads back from the operation |
| GbDecode.ShiftOpAt | gb/cpu.c:1684-1747 | bits 3-5 of CB 0x00-0x3F select rlc, rrc, rl, rr, sla, sra, swap, srl, and the field reads back |
| GbDecode.IndirectAt | gb/cpu.c:1994-2053 | LD (rr), A and LD A, (rr) address through BC, DE, HL then HL+1, HL then HL-1 in encoding order |
| GbDecode.ConditionAt | gb/cpu.c:2031-2088 | the two-bit condition field selects NZ, Z, NC, C |
| GbDecode.PairAt | gb/cpu.c:1993-2052 | LD rr, d16 and its block use BC, DE, HL, SP, never AF |
| GbDecode.StackPairAt | gb/cpu.c:2233-2283 | PUSH and POP use BC, DE, HL, AF, never SP |
| GbDecode.DecodeCB | gb/cpu.c:1683-1940 | prefixCB's switch: CB 0x00-0x3F are the shifts of bits 3-5, 0x40-0x7F BIT, 0x80-0xBF RES, 0xC0-0xFF SET, each on the operand of bits 0-2 |
| GbDecode.DecodeCBInverse | gb/cpu.c:1683-1940 | every CB opcode decodes to an instruction whose opcode it is: the 256 cases are distinct |
| GbDecode.DecodeInverse | gb/cpu.c:1991-2292 | every opcode dispatch has a case for decodes to an instruction whose opcode it is: no two cases do the same thing |
| GbDecode.DecodeUnused | gb/cpu.c:1991-2292 | the switch has no case for exactly the eleven opcodes D3, DB, DD, E3, E4, EB, EC, ED, F4, FC, FD |
| GbDecode.DecodeLoadAndAluBlocks | gb/cpu.c:2100-2231 | 0x40-0x7F other than HALT (0x76) is LD r, r' with destination in bits 3-5 and source in bits 0-2, and 0x80-0xBF is the ALU operation of bits 3-5 on the operand of bits 0-2, both ways |
| GbDecode.DecodeWellFormed | gb/cpu.c:1991-2292 | every decoded instruction is well formed: RST targets one of the eight vectors, RLCA/RRCA/RLA/RRA use the four rotates, PUSH and POP name AF rather than SP, and LD (HL), (HL) is HALT rather than a load |
| GbExec.AluResult | gb/cpu.c:971-981 | compareR8 sets the flags of a subtraction and stores nothing: its value is A itself |
| GbExec.CbResult | gb/cpu.c:559-610 | testBit leaves its operand unchanged; resetBit and setBit leave F unchanged |
| GbExec.DecodeCBOk | gb/cpu.c:1748-1939 | every BIT, RES and SET case names a bit 0-7 |
| GbExec.LoadCopies | gb/cpu.c:23 | LD d, s copies s into d and changes no other register; LD r, r changes nothing |
| GbExec.CompareIsSubtractWithoutStore | gb/cpu.c:971-981 | CP gives the flags of SUB and leaves A as it was |
| GbExec.AluWritesOnlyAF | gb/cpu.c:646-1003 | an ALU instruction on registers writes A and F only |
| GbExec.XorAClears | gb/cpu.c:893-904 | XOR A clears A and leaves only Z set among the flags |
| GbExec.Inc16Dec16RoundTrip | gb/cpu.c:41-43 | INC rr then DEC rr restores every register, the flags included |
| GbExec.Inc8Dec8RoundTrip | gb/cpu.c:263-282 | INC r then DEC r restores r and the carry flag and no other register changes |
| GbExec.RotateAClearsZero | gb/cpu.c:287-304 | RLCA, RRCA, RLA and RRA always clear Z, while their CB forms set Z from the result |
| GbExec.ExecRegister | gb/cpu.c:1991-2292 | a register-form instruction changes the register file as RegisterStep says and takes its internal M-cycle |
| GbExec.LoadFrom | gb/cpu.c:19-37 | readAddr_4C into r: one M-cycle, only r changes, and outside the timer registers the byte is the one the bus holds |
| GbExec.LoadImmediate | gb/cpu.c:16 | LD r, d8: the byte at PC goes into r, PC moves past it, one M-cycle |
| GbExec.StoreImmediate | gb/cpu.c:21 | LD (HL), d8: the byte at PC is stored at HL (work RAM and HRAM read back the byte) in two M-cycles |
| GbExec.StoreIndirect | gb/cpu.c:14 | LD (rr), A stores A at the address and then steps HL for the HL+ and HL- forms |
| GbExec.LoadIndirect | gb/cpu.c:19 | LD A, (rr) loads the byte at the address into A and then steps HL for the HL+ and HL- forms |
| GbExec.HighAddress | gb/cpu.c:31-37 | the port forms address FF00 plus the offset byte |
| GbExec.StoreHigh | gb/cpu.c:31 | LD (FF00+d8), A: the offset is the byte at PC, and A is stored at FF00+offset (HRAM reads it back), two M-cycles |
| GbExec.LoadHigh | gb/cpu.c:33 | LD A, (FF00+d8): the offset is the byte at PC, A becomes the byte FF00+offset held before the instruction, only A changes, two M-cycles |
| GbExec.LoadAbsolute | gb/cpu.c:29 | LD A, (a16): a16 is the little-endian word at PC, only A changes, PC moves past two bytes, three M-cycles |
| GbExec.StoreAbsolute | gb/cpu.c:27 | LD (a16), A: a16 is the little-endian word at PC, A is stored there (work RAM and HRAM read it back), PC moves past two bytes, three M-cycles |
| GbExec.StoreSP | gb/cpu.c:2000-2007 | LD (a16), SP: a16 is the little-endian word at PC, and (through GbExec.StoreWord) the two bytes at a16 then hold SP little-endian (high byte written at a16+1 first), four M-cycles |
| GbExec.Read2Bytes | gb/cpu.c:94-97 | read2Bytes returns the little-endian word of the bytes at PC and PC+1, moves PC by two, and takes no cycles |
| GbExec.LoadImmediate16 | gb/cpu.c:12 | LD rr, d16 stores the little-endian word at PC in rr in two M-cycles |
| GbExec.SetReg16Timed | gb/cpu.c:148-156 | set_reg16_8C stores the pair with an M-cycle per byte |
| GbExec.ApplyAlu | gb/cpu.c:646-1003 | A and F become the ALU helper's value and flags |
| GbExec.AluOnHL | gb/cpu.c:672-683 | the (HL) forms apply the operation to A and the byte at HL in one extra M-cycle |
| GbExec.AluImmediate | gb/cpu.c:659-670 | the d8 forms apply the operation to A and the byte at PC, moving PC past it |
| GbExec.IncDecOnHL | gb/cpu.c:2057-2080 | INC (HL) and DEC (HL) read the byte at HL, set Z, H and N as incrementR8 and decrementR8 do, keep C, and write the result back to HL |
| GbExec.AddToSP | gb/cpu.c:629-644 | ADD SP, e8 adds the signed byte at PC to SP with H and C from the low byte, Z and N clear |
| GbExec.LoadSPOffset | gb/cpu.c:239-261 | LD HL, SP+e8 stores the same sum of SP and the signed byte at PC, with the same flags, in HL; SP unchanged |
| GbExec.CbOnHL | gb/cpu.c:306-323 | the (HL) forms of prefixCB read v at HL, which away from the timer registers is the byte there; F becomes CbResult's F for v, and except for BIT the result is stored back at HL (stated for work RAM and HRAM) |
| GbExec.ExecCB | gb/cpu.c:1671-1941 | prefixCB fetches the second byte (the byte at PC away from the timer registers), runs DecodeCB of it, and changes the registers as CbRegisterStep says on a register; on (HL) v is the byte held at HL before the instruction (under GbCpu.PlainRead), F is set from it and the result is stored back as RunCB says |
| GbExec.RunCB | gb/cpu.c:1683-1940 | the CB switch on a decoded instruction, timed by CbCycles: on a register the registers change as CbRegisterStep says and v is that register; on (HL) v, F and the write-back are CbOnHL's |
| GbExec.Popped | gb/cpu.c:2273-2280 | POP rr moves SP up by two and stores the popped word; for AF the low nibble of F is cleared |
| GbExec.PushPair | gb/cpu.c:51 | PUSH rr takes an internal M-cycle, then pushes the pair two below SP |
| GbExec.PopPair | gb/cpu.c:52 | POP rr reads the word at SP and leaves the register file as Popped says |
| GbExec.PopAFMasksFlags | gb/cpu.c:2273-2280 | after POP AF the low four bits of F are zero and A is the high byte popped |
| GbExec.PopOwnValue | gb/cpu.c:1007-1028 | popping a pair's own value back leaves it as it was; only SP differs |
| GbExec.OperandBytes | gb/cpu.c:1991-2292 | no instruction fetches more than two operand bytes |
| GbExec.Advance | gb/cpu.c:84-97 | PC moves by the number of operand bytes fetched |
| GbExec.CyclesInMachineCycles | gb/cpu.c:1991-2292 | every instruction takes a whole number of M-cycles, one to six with the fetch (STOP's CGB speed switch aside), and at least one per operand byte |
| GbExec.PrefixCycles | gb/cpu.c:1671-1674 | PREFIX CB takes its second fetch (4 cycles) plus the cycles of the CB instruction it runs |
| GbExec.RegisterFormCycles | gb/cpu.c:1991-2292 | the register forms fetch no operand and take only their internal M-cycles |
| GbExec.LoadStoreHL | gb/cpu.c:14-19 | LD r, (HL) sets only r, to the byte at HL; LD (HL), r changes no register and stores r at HL (work RAM and HRAM read it back) |
| GbExec.LoadImmediateTo | gb/cpu.c:16-21 | LD r, d8 takes one M-cycle and LD (HL), d8 two |
| GbExec.ExecMemory | gb/cpu.c:1991-2292 | every memory-form instruction moves PC past its operand bytes and takes the cycles of the table |
| GbExec.ExecByteForm | gb/cpu.c:1991-2292 | the byte-sized loads, stores and arithmetic move PC past their operand and take the cycles of the table |
| GbExec.ExecByteLoad | gb/cpu.c:1998-2167 | LD r, (HL), LD (HL), r, LD r, d8 and LD (HL), d8 move PC past their operand and take the cycles of the table |
| GbExec.ExecByteArithmetic | gb/cpu.c:2057-2290 | INC (HL), DEC (HL) and the ALU operations on (HL) and on d8 move PC past their operand and take the cycles of the table |
| GbExec.ExecWordForm | gb/cpu.c:1993-2283 | LD rr, d16, LD (rr), A, LD A, (rr), LD (a16), SP, PUSH and POP move PC past their operand and take the cycles of the table |
| GbExec.ExecHighForm | gb/cpu.c:2261-2281 | LDH (FF00+d8), A, LDH A, (FF00+d8) and the (FF00+C) forms move PC past their operand and take the cycles of the table |
| GbExec.ExecAbsoluteForm | gb/cpu.c:2267-2288 | LD (a16), A, LD A, (a16), ADD SP, e8 and LD HL, SP+e8 move PC past their operand bytes and take the cycles of the table |
| GbExec.ExecControl | gb/cpu.c:2023-2276 | jumps, calls and returns take the cycles of the table, only RETI schedules the IME enable, PC becomes JumpPC or CallPC of the fetched target (the little-endian word at PC, the signed offset at PC, HL for JP (HL), 0x00..0x38 for RST), the popped word, or stays for a return not made; the register file changes as ControlRegs says |
| GbExec.ExecJump | gb/cpu.c:1078-1096 | JR, JR cc, JP, JP cc and JP (HL) take the cycles of the table and leave PC at JumpPC: the target (the offset byte at PC, the little-endian word at PC, or HL) when taken, past the operand when not |
| GbExec.ExecRelativeJump | gb/cpu.c:1088-1096 | JR and JR cc take three M-cycles taken and two not; PC becomes PC+1 plus the signed offset read at PC when taken and PC+1 when not |
| GbExec.ExecAbsoluteJump | gb/cpu.c:1078-1086 | JP and JP cc reach the little-endian a16 at PC when taken and move past it when not; JP (HL) sets PC to HL in no extra cycle |
| GbExec.ExecCall | gb/cpu.c:1030-1045 | CALL, CALL cc and RST take the cycles of the table, PC becomes CallPC of the target (the little-endian word at PC, or the RST vector), and a call made pushes ReturnAddress (PC+2, or PC for RST) two below SP, moving SP down by two (ControlRegs) |
| GbExec.CallImmediate | gb/cpu.c:1030-1036 | CALL a16 jumps to the little-endian word at PC and pushes the address after the operand two below SP, in five M-cycles |
| GbExec.CallImmediateIf | gb/cpu.c:1038-1045 | CALL cc always fetches the little-endian operand at PC; taken it calls it as CALL does, not taken it only moves PC past it in two M-cycles |
| GbExec.ExecReturn | gb/cpu.c:1047-1063 | RET, RET cc and RETI take the cycles of the table; a return made sets PC to the word at SP and moves SP up by two, one not made changes neither; only RETI schedules the IME enable |
| GbExec.ReturnAlways | gb/cpu.c:2241-2256 | RET and RETI return to the word at SP and move SP up by two in four M-cycles; RETI schedules the IME enable first |
| GbExec.ReturnCondition | gb/cpu.c:1055-1063 | RET cc spends the decision M-cycle and, when the condition holds on F, returns to the word at SP and moves SP up by two; otherwise PC and the registers stay |
| GbExec.ReturnRegs | gb/cpu.c:1047-1063 | for a return the register file moves SP up by two exactly when the return is made |
| GbExec.JumpRegs | gb/cpu.c:1078-1096 | a jump leaves the register file as it was |
| GbExec.CallThenReturn | gb/cpu.c:1030-1063 | a call made followed by a return made gives back the register file the call started from |
| GbExec.ExecSystem | gb/cpu.c:2282-2289 | DI clears IME at once while EI only schedules the enable; NOP and the unused opcodes do nothing |
| GbExec.DisableIME | gb/cpu.c:55 | DI clears IME |
| GbExec.ScheduleIME | gb/cpu.c:54 | EI sets the schedule, not IME |
| GbExec.FormsCover | gb/cpu.c:1991-2292 | every decoded instruction falls in one of the groups the model executes |
| GbExec.FormFacts | gb/cpu.c:1991-2292 | the register and memory forms leave IME and its schedule alone, and PREFIX CB is neither one of them nor a control form |
| GbExec.Execute | gb/cpu.c:1991-2292 | dispatch's switch: the clock advances by the instruction's cycles, register forms are RegisterStep, memory forms move PC past their operands, control forms change the register file as ControlRegs says (SP down two for a call made, up two for a return made), IME, the EI schedule and the halt bug change as FlagStep says, and for PREFIX CB the counted CB instruction is DecodeCB of the byte at PC (through ExecOther, ExecMisc, ExecPrefixOrStop, PrefixFlags and PrefixTimed) |
| GbExec.ExecDataKeepsFlags | gb/cpu.c:1991-2292 | a register or memory form steps as RegisterStep or moves PC past its operands, takes the cycles of the table, and leaves IME, the EI schedule and the halt bug alone |
| GbExec.ExecOther | gb/cpu.c:1991-2292 | the control, CB-prefix, STOP, HALT and system forms take the cycles of the table and change the interrupt flags as FlagStep says; a control form changes the register file as ControlRegs says; for PREFIX CB the counted CB instruction is DecodeCB of the byte at PC |
| GbExec.ExecControlFlags | gb/cpu.c:2023-2276 | a jump, call, return or restart changes the register file as ControlRegs says, takes the cycles of the table, and of the interrupt flags only RETI touches the EI schedule |
| GbExec.ExecMisc | gb/cpu.c:1992-2289 | CB prefix, STOP, HALT, DI, EI and NOP: DI clears IME, EI schedules the enable, a scheduled halt bug stays scheduled, and for PREFIX CB the counted CB instruction is DecodeCB of the byte at PC |
| GbExec.ExecPrefixOrStop | gb/cpu.c:2015-2243 | PREFIX CB or STOP leave IME and its schedule alone; for PREFIX CB the counted CB instruction is DecodeCB of the byte at PC |
| GbExec.PrefixFlags | gb/cpu.c:2243 | PREFIX CB takes Cycles(PrefixCB, …), that is 4 + CbCycles cycles by GbExec.PrefixCycles, leaves IME, the EI schedule and the halt bug alone, and runs DecodeCB of the byte at PC |
| GbExec.PrefixTimed | gb/cpu.c:1671-1674 | PREFIX CB takes one fetch plus CbCycles of the CB instruction it runs, which is DecodeCB of the byte at PC |
| GbDispatch.ConsumeEnable | gb/cpu.c:1955-1959 | an EI scheduled by the previous instruction sets IME at the start of this dispatch, and the schedule is cleared; the bytes at PC and at the next fetch's address read the same |
| GbDispatch.EnableNow | gb/cpu.c:1956-1958 | with an enable scheduled, IME is set and the schedule cleared |
| GbDispatch.FetchOpcode | gb/cpu.c:1973-1986 | the opcode fetch takes one M-cycle; PC moves past the opcode except under the halt bug, where it stays on the byte (NextFetch); scheduleHaltBug is not cleared; the byte at the new PC reads as before when it is neither a timer register nor in OAM |
| GbDispatch.HaltBugFetch | gb/cpu.c:1973-1980 | under the halt bug the byte at PC is read, PC stays on it, one M-cycle passes, and the byte there reads the same afterwards (under GbCpu.PlainRead) |
| GbDispatch.HaltBugRead | gb/cpu.c:1976-1977 | readByte then PC-- : the byte at PC is read and PC is back on it |
| GbDispatch.SyncKeeping | gb/cpu.c:1980 | the halt-bug fetch's cyclesSync_4 takes four cycles and leaves a byte outside OAM and the timer registers as it was |
| GbDispatch.FetchesAsWritten | gb/cpu.c:1973-1986 | the addresses of n fetches as dispatch does them: the first is PC |
| GbDispatch.FetchesIntended | gb/cpu.c:1630-1634 | the same fetches when the halt bug repeats one byte only |
| GbDispatch.HaltBugRepeatsForever | gb/cpu.c:1973-1978 | as written, once the halt bug is scheduled every later fetch reads the same address |
| GbDispatch.FetchesAgreeWithoutHaltBug | gb/cpu.c:1981-1986 | without the halt bug both fetch sequences are the same |
| GbDispatch.HaltBugRepeatsOnce | gb/cpu.c:1630-1634 | corrected, the byte after HALT is fetched twice and fetching then goes on normally |
| GbDispatch.HaltBugCounterexample | gb/cpu.c:1973-1978 | three fetches after HALT with IME clear and an interrupt pending read pc, pc, pc as written and pc, pc, pc+1 corrected |
| GbDispatch.SyncAndInterrupts | gb/cpu.c:1562-1605 | after the timer sync an interrupt is serviced exactly when IME is set and an enabled interrupt is pending, and halt mode ends exactly when one is pending |
| GbDispatch.HaltedStep | gb/cpu.c:1961-1972 | while halted, dispatch lets one M-cycle pass, syncs the timer and checks interrupts: the halt ends when an enabled interrupt is pending, whether or not IME lets it be serviced |
| GbDispatch.FetchAndExecute | gb/cpu.c:1973-2292 | fetch, decode by Decode and execute; the opcode is the byte at PC; the clock advances by the fetch plus the instruction's cycles; for PREFIX CB the counted CB instruction is DecodeCB of the byte at NextFetch (PC+1, or PC itself under the halt bug) from before the dispatch, when neither that byte nor the opcode is a timer register and it is outside OAM |
| GbDispatch.Finish | gb/cpu.c:2294-2297 | STOP (line 2015) returns at once with no interrupt serviced; every other instruction is followed by the timer sync and the interrupt check, which services only with IME set |
| GbDispatch.RunInstruction | gb/cpu.c:1973-2297 | a dispatch that is not halted decodes the byte at PC and takes the fetch plus the instruction's cycles; STOP services no interrupt; for PREFIX CB the counted CB instruction is DecodeCB of the byte at NextFetch (PC+1, or PC itself under the halt bug) from before the dispatch, when neither that byte nor the opcode is a timer register and it is outside OAM |
| GbDispatch.Step | gb/cpu.c:1961-2297 | the halted step when halted; otherwise the opcode is the byte at PC, the instruction is its Decode, and the clock advances by the fetch plus that instruction's cycles (plus 20 when an interrupt is serviced); an interrupt is serviced only with IME set; for PREFIX CB the counted CB instruction is DecodeCB of the byte at NextFetch (PC+1, or PC itself under the halt bug) from before the dispatch, when neither that byte nor the opcode is a timer register and it is outside OAM |
| GbDispatch.Dispatch | gb/cpu.c:1945-2298 | one CPU step: when not halted the byte at PC is fetched, decoded and executed in its cycles; an interrupt is serviced at its end only when IME was set or an EI of the previous dispatch scheduled it, so EI takes effect one instruction late; for PREFIX CB the counted CB instruction is DecodeCB of the byte at NextFetch (PC+1, or PC itself under the halt bug) from before the dispatch, when neither that byte nor the opcode is a timer register and it is outside OAM |
| GbDisplay.ModeSource | src/display.c:64-86 | entering mode 0, 1 or 2 is gated by STAT bit 3, 4 or 5 |
| GbDisplay.SwitchedStat | src/display.c:46-47 | SWITCH_MODE writes the mode into STAT bits 0-1 and keeps bits 2-7, including the interrupt-enable bits |
| GbDisplay.ComparedStat | src/display.c:50-62 | the LY=LYC update sets bit 2 on a match and clears it otherwise, keeping every other bit |
| GbDisplay.StatStep | src/display.c:42-93 | updateSTAT changes only STAT and IF among the I/O registers |
| GbDisplay.SwitchModeStat | src/display.c:64-89 | a mode switch writes the mode into STAT bits 0-1 and nothing else of STAT, and requests LCD_STAT exactly when the mode's enable bit is set (never for mode 3) |
| GbDisplay.LyLycStat | src/display.c:50-63 | STAT bit 2 is set exactly when LY equals LYC, no other STAT bit changes, and LCD_STAT is requested only on a match with bit 6 set |
| GbDisplay.SwitchTwiceStat | src/display.c:46-47 | switching to one mode and then another leaves STAT as switching straight to the second would |
| GbDisplay.SwitchedTwice | src/display.c:46-47 | SWITCH_MODE twice is SWITCH_MODE with the second mode |
| GbDisplay.UpdateSTAT | src/display.c:42-93 | updateSTAT changes the I/O registers as StatStep says |
| GbDisplay.LocksFor | src/display.c:99-123 | VRAM and the palettes are locked exactly in mode 3, OAM exactly in modes 2 and 3 |
| GbDisplay.SwitchModePPU | src/display.c:95-125 | the mode is entered with its cycle counter at 0, the locks of LocksFor and the STAT update of the switch |
| GbDisplay.EnablePPU | src/display.c:1064-1074 | a disabled PPU enters mode 2, skips the next frame and restarts the frame counter; an enabled one is left alone |
| GbDisplay.DisablePPU | src/display.c:1076-1089 | an enabled PPU is switched off with LY reset to 0 and mode 0 entered; a disabled one is left alone |
| GbDisplay.ToRGB888Widens | src/display.c:198-201 | a 5-bit channel widens to 8 bits keeping it in the top five bits, 0 to 0, 31 to 0xFF, order preserved |
| GbDisplay.PaletteRegister | src/display.c:232-245 | a DMG pixel reads BGP, or OBP0 or OBP1 for a sprite by its palette number |
| GbDisplay.PixelColorDMGIsShade | src/display.c:232-267 | a DMG pixel is grey, and the palette's two bits for the colour number select 0xFF, 0xAA, 0x55 or 0x00 |
| GbDisplay.ShadeDarkens | src/display.c:245-260 | a higher shade number is a darker grey |
| GbDisplay.TileDataAddressing | src/display.c:127-196 | $8800 addressing is $9000 plus the index read as a signed byte, sprites always use $8000, and every tile's 16 bytes lie in the allocated VRAM |
| GbDisplay.PixelColorCGBWord | src/display.c:203-230 | a CGB colour is the little-endian RGB555 word at the pixel's palette entry |
| GbDisplay.PixelColorCGBChannels | src/display.c:203-230 | red, green and blue are the 5-bit fields of the palette entry, each widened |
| GbDisplay.Rgb555Channels | src/display.c:214-226 | red is the low byte's low five bits, blue the high byte's bits 2-6, green the high byte's low two bits above the low byte's top three |
| GbFifo.Slot | src/display.c:1141-1145 | the slot index+pop wraps once past the end of the eight-slot array |
| GbFifo.Ring | src/display.c:1093-1160 | the queued pixels are the count slots from the pop index on |
| GbFifo.RingPush | src/display.c:1105-1112 | writing the slot just past the queued pixels and counting it appends the pixel |
| GbFifo.RingPop | src/display.c:1122-1129 | moving the pop index on by one and counting one fewer drops the front pixel |
| GbFifo.RingInsert | src/display.c:1156-1159 | overwriting the slot of queued pixel i replaces exactly that pixel |
| GbFifo.Fifo.Contents | src/display.c:1093-1160 | the queue holds count pixels |
| GbFifo.Fifo.constructor | src/display.c:1093-1097 | a new FIFO is empty and keeps the ring invariant |
| GbFifo.Fifo.Clear | src/display.c:1093-1097 | clearFIFO empties the FIFO and sets both indices to 0 |
| GbFifo.Fifo.Push | src/display.c:1099-1113 | a full FIFO is unchanged; otherwise the pixel is appended and the push index advances mod 8; the ring invariant holds |
| GbFifo.Fifo.Pop | src/display.c:1115-1132 | on a non-empty FIFO the front pixel is returned and removed and the pop index advances mod 8; an empty FIFO is unchanged |
| GbFifo.Fifo.Peek | src/display.c:1134-1148 | an index below the count gives that pixel from the front and changes nothing |
| GbFifo.Fifo.Insert | src/display.c:1150-1160 | an index below the count replaces only that pixel, with count and indices unchanged; any other index changes nothing |
| GbFifo.PushThenPop | src/display.c:1099-1132 | pixels come out in the order they went in: push then pop returns the old front, or the pushed pixel on an empty FIFO |
| GbDebug.Read2Bytes | gb/debug.c:19-24 | the byte after the opcode is the low half of the operand and the next one the high half |
| GbDebug.Signed | gb/debug.c:51-53 | the (int8_t) cast reads the byte as two's complement: negative exactly from 0x80, congruent to the byte mod 256 |
| GbDebug.OperandLength | gb/debug.c:35-53 | a helper reads at most two bytes after the opcode |
| GbDebug.Render | gb/debug.c:35-53 | simpleInstruction writes its text; d8 formats the byte at PC+1, r8 it as signed, d16 and a16 the little-endian word at PC+1 |
| GbDebug.Block0Row | gb/debug.c:318-381 | each row of 0x00-0x3F holds eight entries |
| GbDebug.Block3Row | gb/debug.c:510-563 | each row of 0xC0-0xFF holds eight entries |
| GbDebug.InstrKindLength | gb/debug.c:316-565 | the operand the disassembler shows has the length dispatch skips, except STOP and PREFIX CB, whose second byte it does not show |
| GbDebug.DisassemblyMatchesDecode | gb/debug.c:316-565 | every opcode's entry takes the operand kind of its decoded instruction, and the entry is "????" exactly when dispatch has no case for it |
| GbDebug.LowOpcode | gb/debug.c:318-381 | an opcode below 0x40 is the entry and the instruction of its row and column |
| GbDebug.HighOpcode | gb/debug.c:510-563 | an opcode from 0xC0 is the entry and the instruction of its row and column |
| GbDebug.MiddleEntries | gb/debug.c:382-509 | 0x40-0xBF are LD r, r', HALT and the ALU block, none with an operand or a "????" |
| GbDebug.Block0Entries | gb/debug.c:318-381 | in 0x00-0x3F every entry's operand kind is its instruction's, and "????" marks exactly the opcodes without a case |
| GbDebug.Block3Entries | gb/debug.c:510-563 | in 0xC0-0xFF every entry's operand kind is its instruction's, and "????" marks exactly the opcodes without a case |
| GbDebug.OperandLengthMatchesDispatch | gb/debug.c:316-565 | the helpers read as many bytes after the opcode as dispatch skips, save for STOP and PREFIX CB |
| GbDebug.UnknownExactlyUnused | gb/debug.c:563 | "????" is written for exactly the eleven opcodes without a case |
| GbDebug.CbTextMatchesDecode | gb/debug.c:55-314 | every CB byte is disassembled as the instruction prefixCB runs for it |
| GbDebug.DisassembleInstruction | gb/debug.c:316-565 | the line for an opcode is its entry rendered with the operand bytes at PC+1 and PC+2 read through readAddr |
| GbDebug.RenderReadsOperands | gb/debug.c:35-53 | a line depends only on the operand bytes its entry's helper reads |
| GbDebug.ReadOperandBytes | gb/debug.c:19-24 | the operand bytes are read with readAddr only as far as the helper needs |
| GbDebug.FlagsText | gb/debug.c:26-33 | printFlags writes a thirteen-character field |
| GbDebug.FlagsTextShowsFlags | gb/debug.c:26-33 | the printed field shows exactly bits 7-4 of F; the low nibble is not printed |
| GbaState.SpsrSlot | gba/arm7tdmi.c:412-415 | each privileged mode keeps its SPSR in one of the five BANK_SPSR slots |
| GbaState.SpsrSlotsDistinct | gba/arm7tdmi.c:412-449 | distinct privileged modes use distinct SPSR slots |
| GbaState.Gba.constructor | gba/gba.c:9-39 | initialiseGBA attaches the gamepak, clears run and allocates the register banks, the pipeline and the work RAM |
| GbaBanks.Splice | gba/arm7tdmi.c:386-441 | a memcpy replaces exactly the copied positions and keeps the rest |
| GbaBanks.WithBank | gba/arm7tdmi.c:396-408 | storing a mode's R13-R14 bank changes that bank only |
| GbaBanks.SaveUnprivileged | gba/arm7tdmi.c:388-390 | leaving User or System parks R13-R14 in REG_SWAP slots 5-6 |
| GbaBanks.SaveFiq | gba/arm7tdmi.c:392-396 | leaving FIQ stores R8-R14 in BANK_FIQ and brings R8-R12 back from REG_SWAP |
| GbaBanks.SaveBanked | gba/arm7tdmi.c:397-409 | leaving IRQ, SVC, ABT or UND stores R13-R14 in its bank |
| GbaBanks.Save | gba/arm7tdmi.c:386-415 | the outgoing mode's registers go to their bank, and a privileged mode's SPSR to its slot |
| GbaBanks.LoadUnprivileged | gba/arm7tdmi.c:419-452 | entering User or System brings R13-R14 back from REG_SWAP and sets the SPSR to 0xFFFFFFFF |
| GbaBanks.LoadFiq | gba/arm7tdmi.c:424-430 | entering FIQ parks R8-R12 in REG_SWAP and loads R8-R14 from BANK_FIQ |
| GbaBanks.LoadBanked | gba/arm7tdmi.c:431-441 | entering IRQ, SVC, ABT or UND loads R13-R14 from its bank |
| GbaBanks.Load | gba/arm7tdmi.c:417-452 | the incoming mode's registers and its SPSR are loaded |
| GbaBanks.Rebank | gba/arm7tdmi.c:386-452 | a switch between modes with different registers saves and then loads |
| GbaBanks.SwitchMode | gba/arm7tdmi.c:370-456 | switchMode ends in the requested mode, with nothing done for the current mode and only the mode changed between User and System |
| GbaBanks.SwitchModeConsistent | gba/arm7tdmi.c:370-456 | switchMode keeps the banks consistent with the mode, and the CPSR reads back the new mode |
| GbaBanks.UserSystemOnlyMode | gba/arm7tdmi.c:377-383 | between User and System every register, bank and SPSR is kept and the CPSR keeps every bit above the mode field |
| GbaBanks.KeepsHighBits | gba/arm7tdmi.c:16-19 | CPSR_SetMode keeps bits 31-5 |
| GbaBanks.SharedRegisters | gba/arm7tdmi.c:386-441 | R0-R7 and R15 are the same in every mode |
| GbaBanks.LeavingSetsSpsr | gba/arm7tdmi.c:449-452 | leaving a privileged mode for User or System sets the SPSR to 0xFFFFFFFF |
| GbaBanks.EnteringLoadsBank | gba/arm7tdmi.c:424-449 | entering a privileged mode loads its SPSR and its bank: R8-R14 for FIQ, R13-R14 for the others |
| GbaBanks.LeavingRestoresUserRegisters | gba/arm7tdmi.c:392-423 | leaving a privileged mode for User or System restores their R13-R14, and leaving FIQ also their R8-R12 |
| GbaBanks.SwitchBack | gba/arm7tdmi.c:370-456 | switching to another mode and back restores every register, the SPSR and the CPSR |
| GbaBanks.RoundTripRegisters | gba/arm7tdmi.c:386-452 | saving and loading through a mode with other banks and back restores R0-R15 |
| GbaBanks.RoundTripSpsr | gba/arm7tdmi.c:412-452 | a round trip restores the SPSR: a privileged mode's from its slot, User and System 0xFFFFFFFF again |
| GbaShifter.Mask | gba/arm7tdmi.c:25-31 | the mask of a bit has that bit set |
| GbaShifter.SetBit | gba/arm7tdmi.c:25-27 | CPSR_SetBit sets the bit and keeps every other |
| GbaShifter.UnsetBit | gba/arm7tdmi.c:29-31 | CPSR_UnsetBit clears the bit and keeps every other |
| GbaShifter.ModeBits | gba/arm7tdmi.c:12-14 | every mode value fits the four bits CPSR_GetMode reads |
| GbaShifter.SetMode | gba/arm7tdmi.c:16-19 | CPSR_SetMode makes bits 4-0 0x10 OR the mode and keeps all other bits |
| GbaShifter.GetModeSetMode | gba/arm7tdmi.c:12-19 | CPSR_GetMode reads back the mode CPSR_SetMode wrote, whatever the CPSR held |
| GbaShifter.SetModeTwice | gba/arm7tdmi.c:16-19 | setting a mode twice is setting the last one once |
| GbaShifter.SetModeSame | gba/arm7tdmi.c:16-19 | writing back the mode the CPSR holds changes nothing |
| GbaShifter.ConditionPairs | gba/arm7tdmi.c:458-478 | the conditions come in complementary pairs EQ/NE, CS/CC, MI/PL, VS/VC, HI/LS, GE/LT, GT/LE |
| GbaShifter.ConditionAlwaysNever | gba/arm7tdmi.c:461-478 | AL always executes and 1111 never does |
| GbaShifter.ConditionReadsFlagsOnly | gba/arm7tdmi.c:458-480 | only N, Z, C and V decide a condition |
| GbaShifter.ShiftAmount | gba/arm7tdmi.c:65-71 | the amount is the low byte of Rs, or the five-bit immediate bits 11-7 |
| GbaShifter.RegisterOperandAgrees | gba/arm7tdmi.c:56-129 | where the C is defined and does not return early on an immediate amount 0, getDataProcessing_RxOP2 gives the operand and carry of section A5.1 of the ARM Architecture Reference Manual |
| GbaShifter.LslAgrees | gba/arm7tdmi.c:77-86 | every defined LSL agrees with the architecture, the immediate amount 0 included |
| GbaShifter.LsrAgrees | gba/arm7tdmi.c:87-96 | every defined LSR agrees except the immediate amount 0 |
| GbaShifter.AsrAgrees | gba/arm7tdmi.c:97-105 | every defined ASR agrees except the immediate amount 0 |
| GbaShifter.RorAgrees | gba/arm7tdmi.c:106-124 | every defined ROR agrees except the immediate amount 0, which the architecture reads as RRX |
| GbaShifter.ShiftBelow32 | gba/arm7tdmi.c:75-125 | for amounts 1-31 the C and the architecture apply the same shift |
| GbaShifter.RorAbove32 | gba/arm7tdmi.c:116-119 | a register ROR above 32 that is no multiple of 32 rotates by the amount mod 32 |
| GbaShifter.AsrWritten | gba/arm7tdmi.c:102-104 | the OR-mask arithmetic shift equals the complement form |
| GbaShifter.RorWritten | gba/arm7tdmi.c:120-123 | the mask-and-shift rotation equals a rotation |
| GbaShifter.RegisterOperandUndefined | gba/arm7tdmi.c:77-124 | the C shifts by 32 exactly for LSL and LSR by 32, ASR by 32 or more and ROR by a non-zero multiple of 32, all from a register |
| GbaShifter.ImmediateZeroCounterexample | gba/arm7tdmi.c:73 | LSR #0 and ROR #0 of R0 = 1 return R0 and the clear carry, where the architecture gives 0 with carry 0 and RRX 0 with carry 1 |
| GbaShifter.ShiftBy32Counterexample | gba/arm7tdmi.c:78-84 | LSL by a register holding 32 is undefined in the C and 0 with carry bit 0 of Rm in the architecture |
| GbaShifter.ImmOperandAsWritten | gba/arm7tdmi.c:131-139 | getDataProcessing_ImmOP2 is defined exactly when bits 10-7 are not 0 |
| GbaShifter.ImmOperand | gba/arm7tdmi.c:131-139 | the architecture's immediate operand: imm8 rotated right by twice bits 11-8, so rotating back gives imm8 |
| GbaShifter.RolRor | gba/arm7tdmi.c:136-138 | rotating right by an even amount and back left restores the word |
| GbaShifter.ImmOperandAsWrittenRotates | gba/arm7tdmi.c:131-139 | where defined the C rotates imm8 right by twice bits 10-7 |
| GbaShifter.ImmOperandCounterexample | gba/arm7tdmi.c:133 | operand 0x101 rotates by 4 in the C and by 2 in the architecture, giving 0x10000000 against 0x40000000 |
| GbaDecode.DpOpOf | gba/arm7tdmi.c:618-637 | bits 24-21 name the data-processing opcode AND through MVN, and the number reads back |
| GbaDecode.LutIndex | gba/arm7tdmi.c:494-500 | the table index is bits 27-20 of the opcode above bits 7-4, a twelve-bit number |
| GbaDecode.UnassignedExactly | gba/arm7tdmi.c:559-580 | the loop leaves a slot unassigned exactly at a halfword-transfer index with L set and SH = 00 that no earlier test claims |
| GbaDecode.UnassignedCounterexample | gba/arm7tdmi.c:571-576 | opcode 0xE1100090 (index 0x119) reaches a slot the loop never assigns, though the comment says SH = 00 never occurs there |
| GbaDecode.Classify | gba/arm7tdmi.c:508-646 | every slot the loop assigns gets the loop's handler; an unassigned slot gets Unimplemented |
| GbaDecode.BranchExactly | gba/arm7tdmi.c:586-589 | bits 27-25 = 101 select B or BL by bit 24, and no earlier test claims such an index |
| GbaDecode.SoftwareInterruptExactly | gba/arm7tdmi.c:580-582 | bits 27-24 = 1111 select SWI |
| GbaDecode.BlockTransferExactly | gba/arm7tdmi.c:590-596 | bits 27-25 = 100 select LDM or STM by bit 20 |
| GbaDecode.SingleTransferExactly | gba/arm7tdmi.c:583-608 | bits 27-25 = 011 with bit 4 set are Undefined, and the rest of bits 27-26 = 01 is LDR/STR, bit 20 choosing load and bit 25 the register offset |
| GbaDecode.CoprocessorUnimplemented | gba/arm7tdmi.c:642-644 | the coprocessor space other than SWI is Unimplemented |
| GbaDecode.DataProcessingFields | gba/arm7tdmi.c:609-640 | a data-processing handler is chosen only with bits 27-26 = 00 and names the opcode of bits 24-21 and the I bit 25 |
| GbaDecode.DataProcessingOtherwise | gba/arm7tdmi.c:524-640 | with bits 27-26 = 00 and no multiply, swap, halfword or BX pattern, only MRS and MSR take an index away from data processing |
| GbaDecode.FillTable | gba/arm7tdmi.c:512-645 | the loop gives every one of the 4096 slots the handler of its index |
| GbaCpu.BranchDisplacement | gba/arm7tdmi.c:41-46 | the architecture's displacement: the 24-bit field shifted left by two and sign-extended |
| GbaCpu.BranchDisplacementAgrees | gba/arm7tdmi.c:42 | a forward branch moves R15 by the offset B adds, a backward one by 64 MiB less |
| GbaCpu.BranchToSelfCounterexample | gba/arm7tdmi.c:41-46 | B . (0xEAFFFFFE) jumps 64 MiB - 8 forward as written, where the architecture targets R15 - 8 |
| GbaCpu.LinkCounterexample | gba/arm7tdmi.c:48-54 | BL 0xEB000002 leaves R15 where it was instead of moving it 8 bytes on |
| GbaCpu.CopyInto | gba/arm7tdmi.c:386-441 | a memcpy into a bank is Splice of its values |
| GbaCpu.SaveUnprivileged | gba/arm7tdmi.c:388-390 | the User/System save changes the banked state as GbaBanks.SaveUnprivileged says |
| GbaCpu.SaveFiq | gba/arm7tdmi.c:392-415 | the FIQ save changes the banked state as GbaBanks.SaveFiq says |
| GbaCpu.SaveBanked | gba/arm7tdmi.c:397-415 | the IRQ, SVC, ABT and UND saves change the banked state as GbaBanks.SaveBanked says |
| GbaCpu.LoadUnprivileged | gba/arm7tdmi.c:419-452 | the User/System load changes the banked state as GbaBanks.LoadUnprivileged says |
| GbaCpu.LoadFiq | gba/arm7tdmi.c:424-448 | the FIQ load changes the banked state as GbaBanks.LoadFiq says |
| GbaCpu.LoadBanked | gba/arm7tdmi.c:431-448 | the IRQ, SVC, ABT and UND loads change the banked state as GbaBanks.LoadBanked says |
| GbaCpu.Save | gba/arm7tdmi.c:386-415 | the first switch and the SPSR save are GbaBanks.Save |
| GbaCpu.Load | gba/arm7tdmi.c:417-452 | the second switch and the SPSR load are GbaBanks.Load |
| GbaCpu.Rebank | gba/arm7tdmi.c:386-452 | the two switches are GbaBanks.Rebank |
| GbaCpu.EnterMode | gba/arm7tdmi.c:454-455 | the CPSR gets the new mode and cpu_mode is set |
| GbaCpu.SwitchMode | gba/arm7tdmi.c:370-456 | the banked state after switchMode is GbaBanks.SwitchMode of the one before |
| GbaCpu.Following | gba/arm7tdmi.c:684-685 | the queue position after i is i + 1 mod 3 |
| GbaCpu.InsertPipeline | gba/arm7tdmi.c:683-687 | the opcode goes to the insert point, which moves on mod 3 |
| GbaCpu.ReadPipeline | gba/arm7tdmi.c:689-693 | the opcode at the read point is returned, and the read point moves on mod 3 |
| GbaCpu.ReadArmOpcode | gba/arm7tdmi.c:482-488 | the word at R15 is returned and R15 moves on by four |
| GbaCpu.FlushRefill | gba/arm7tdmi.c:695-712 | both positions go back to 0, two opcodes are queued from R15 in ARM state or two zeros in THUMB state, and the next fetch is skipped |
| GbaCpu.FlushArm | gba/arm7tdmi.c:701-704 | in ARM state the queue holds the words at R15 and R15 + 4 and R15 moves on by eight |
| GbaCpu.FlushThumb | gba/arm7tdmi.c:705-708 | in THUMB state two zeros are queued |
| GbaCpu.RefillArm | gba/arm7tdmi.c:702-703 | the two ARM fetches of the refill |
| GbaCpu.RefillThumb | gba/arm7tdmi.c:706-707 | the two THUMB fetches of the refill queue zeros |
| GbaCpu.FetchInsert | gba/arm7tdmi.c:749 | insertPipeline of readARMOpcode queues the word at R15 and moves R15 on by four |
| GbaCpu.Dispatched | gba/arm7tdmi.c:494-500 | dispatchARM runs the handler of the opcode's slot exactly when the condition of bits 31-28 holds |
| GbaCpu.DispatchedByCondition | gba/arm7tdmi.c:458-478 | an opcode with condition AL always runs and one with condition 1111 never does |
| GbaCpu.Branch | gba/arm7tdmi.c:41-46 | B moves R15 by the offset without sign extension and refills the queue from there |
| GbaCpu.BranchLink | gba/arm7tdmi.c:48-54 | BL sets R14 to R15 - 4 and refills the queue from R15, which it does not move |
| GbaCpu.DispatchArm | gba/arm7tdmi.c:494-500 | dispatchARM tests the condition on the CPSR and runs the slot's handler; only B and BL change registers |
| GbaCpu.NextRegisters | gba/arm7tdmi.c:714-757 | after one ARM step R0-R13 are unchanged, BL sets R14 to R15 - 4, and R15 is the branch target or the next fetch address |
| GbaCpu.StepRegisters | gba/arm7tdmi.c:739-749 | the registers before dispatchARM, after it and after the next fetch compose to NextRegisters |
| GbaCpu.FollowingCycle | gba/arm7tdmi.c:683-693 | three moves round the queue come back to the start, and the three positions are distinct |
| GbaCpu.StepArm | gba/arm7tdmi.c:739-749 | stepCPU in ARM state dispatches the opcode at the read point, traces it with printStateARM, and leaves the queue ready at the next address |
| GbaCpu.Conclude | gba/arm7tdmi.c:746-749 | after a handler that refilled the queue stepCPU returns at once; otherwise it fetches the next word |
| GbaCpu.ResumeAt | gba/arm7tdmi.c:746 | clearing skipFetch after a refill leaves the queue ready at the target |
| GbaCpu.FetchNext | gba/arm7tdmi.c:748 | the next fetch queues the word at R15 and moves R15 on by four |
| GbaCpu.StepThumb | gba/arm7tdmi.c:750-755 | in THUMB state the read point moves on, the empty dispatchTHUMB runs, and a pending skip is cleared or a zero queued |
| GbaCpu.Step | gba/arm7tdmi.c:714-757 | stepCPU: the ARM step traces and dispatches the instruction at the read point; the THUMB step runs nothing |
| GbaCpu.Zeros | gba/arm7tdmi.c:654-661 | a memset to zero gives n zero words |
| GbaCpu.ResetConsistent | gba/arm7tdmi.c:663-668 | the preset state with CPSR 0x1F is a consistent System-mode state |
| GbaCpu.Clear | gba/arm7tdmi.c:654-661 | memset sets every word of the bank to zero |
| GbaCpu.PresetRegisters | gba/arm7tdmi.c:661-668 | the BIOS presets: SVC SP 0x03007FE0, IRQ SP 0x03007FA0, SP 0x03007F00, R15 0x08000000, CPSR 0x1F, SPSR 0xFFFFFFFF |
| GbaCpu.ClearBanks | gba/arm7tdmi.c:654-659 | the banks and BANK_SPSR are zeroed |
| GbaCpu.InitialiseCPU | gba/arm7tdmi.c:648-681 | initialiseCPU leaves ARM state, System mode, the presets, a full decode table and a queue primed from 0x08000000 |
| GbaCpu.Preset | gba/arm7tdmi.c:648-678 | initialiseCPU up to the refill leaves the presets, the filled table and an empty queue |
| GbaCpu.EnterArmSystem | gba/arm7tdmi.c:649-650 | ARM state and System mode |
| GbaCpu.ClearQueue | gba/arm7tdmi.c:673-678 | the queue is zeroed, both positions 0, no skip, no cycles |
| GbaCpu.InitialiseGBA | gba/gba.c:9-39 | a fresh emulator on the gamepak, stopped, in the state initialiseCPU leaves, with the disassembler table filled |
| GbaCpu.Pass | gba/gba.c:63-66 | one pass of the loop runs the instruction at the current address and primes the queue at its successor |
| GbaCpu.MemoryKept | gba/gba.c:63-66 | internal work RAM is unchanged by the passes, as no modelled handler writes it |
| GbaCpu.Run | gba/gba.c:63-66 | after n passes the queue is primed at the address control reaches from the start |
| GbaCpu.StartEmulator | gba/gba.c:57-69 | startGBAEmulator initialises, sets run and loops from 0x08000000 |
| GbaDebug.BranchOffset | gba/debugGBA.c:13-19 | B and BL print the 24-bit field shifted left by two, a multiple of four below 2^26 |
| GbaDebug.BranchTextShowsOffset | gba/debugGBA.c:13-19 | B and BL print the offset B adds to R15, never negative whatever the sign bit |
| GbaDebug.DpTextNamesHandler | gba/debugGBA.c:21-147 | the text of a data-processing handler starts with the opcode's name and tells Rx and Imm apart |
| GbaDebug.DpNamesDistinct | gba/debugGBA.c:21-147 | distinct data-processing opcodes print distinct names |
| GbaDebug.FlagsText | gba/debugGBA.c:379-380 | the flag field of printStateARM is eleven characters |
| GbaDebug.FlagsTextShowsFlags | gba/debugGBA.c:379-380 | the field shows exactly CPSR bits 31-28, labelled N, S, C, V |
| GbaDebug.Disassembler.constructor | gba/debugGBA.c:7 | the table has 4096 slots |
| GbaDebug.InitDissembler | gba/debugGBA.c:241-376 | the disassembler table gets the handler of every index by the same tests as initialiseLUT_ARM |
| GbaDebug.PrintState | gba/debugGBA.c:378-383 | the line shows R15 - 8, the flag field and the mnemonic of the opcode's slot |
| GbaBus.Bytes | gba/gba.c:115-119 | an access covers one, two or four bytes |
| GbaBus.Encoding32 | gba/gba.c:81-86 | littleEndian32Encode stores four bytes |
| GbaBus.Encoding16 | gba/gba.c:88-91 | littleEndian16Encode stores two bytes |
| GbaBus.Decode32Encoding32 | gba/gba.c:73-86 | decoding an encoded 32-bit value gives it back |
| GbaBus.Encoding32Decode32 | gba/gba.c:73-86 | encoding a decoded word gives the four bytes back |
| GbaBus.Decode16Encoding16 | gba/gba.c:77-91 | decoding an encoded 16-bit value gives it back |
| GbaBus.Encoding16Decode16 | gba/gba.c:77-91 | encoding a decoded halfword gives the two bytes back |
| GbaBus.Encoding | gba/gba.c:136-147 | a write stores as many bytes as its width covers |
| GbaBus.ValueOfEncoding | gba/gba.c:136-147 | reading back what a write stored gives the data cut to the width |
| GbaBus.Window | gba/gba.c:114-131 | the bytes an access reads from the allocation |
| GbaBus.Store | gba/gba.c:139-145 | a store changes exactly the covered bytes of the buffer |
| GbaBus.WindowOfStore | gba/gba.c:136-147 | a window over bytes just stored shows them |
| GbaBus.Encode32 | gba/gba.c:81-86 | littleEndian32Encode into a buffer is Store of Encoding32 |
| GbaBus.Encode16 | gba/gba.c:88-91 | littleEndian16Encode into a buffer is Store of Encoding16 |
| GbaBus.StoreBytes | gba/gba.c:82-85 | storing the bytes one by one is Store |
| GbaBus.IwramOffset | gba/gba.c:123-124 | an internal work RAM address indexes inside the 32 KiB |
| GbaBus.RomOffsetCounterexample | gba/gba.c:98-108 | 0x09000000 lies in the gamepak range but no case of the switch assigns its relative address |
| GbaBus.RomOffset | gba/gba.c:98-108 | the offset from the base of the 32 MiB window, below 32 MiB, equal to the switch's wherever the switch assigns one |
| GbaBus.RomReadDecodes | gba/gba.c:110-120 | a gamepak read inside the image decodes the image's bytes at the relative address |
| GbaBus.RomMirrors | gba/gba.c:95-108 | ROM0 and its two mirrors read the same bytes for the same offset |
| GbaBus.RomOutOfRange | gba/gba.c:110-113 | a gamepak read past a non-empty image returns 0 |
| GbaBus.UnmappedReadsZero | gba/gba.c:133 | reads outside the gamepak and internal work RAM return 0 |
| GbaBus.IwramReadAfterWrite | gba/gba.c:121-147 | a write then a read of the same width at the same internal work RAM address gives the data cut to the width |
| GbaBus.WriteConfined | gba/gba.c:136-147 | a write changes only the bytes it covers, and one outside internal work RAM changes nothing |
| GbaBus.Write | gba/gba.c:136-147 | busWrite changes internal work RAM as BusWrite says |
| VmState.LegacyHregDiffersAtStatAndKey0 | src/cpu.c:168-179 | the legacy I/O defaults are the current CGB table except at STAT (0x41) and KEY0 (0x4C), which the legacy reset leaves at 0xFF |
| VmState.ResetIO | src/cpu.c:168-188 | FF00-FF4F take the defaults table and FF50-FFFE are 0xFF, IE excluded |
| VmState.VM.BusOfValid | src/vm.c:11-22 | a valid VM's memory, controller and joypad mode form a valid bus state |
| VmState.VM.constructor | src/vm.c:11-22 | initVM then resetGBC: no cartridge or controller, not running, PC 0x100, the CGB register file, the I/O defaults and IME clear |
| VmState.ResetGprMatchesCurrent | src/cpu.c:156-166 | the legacy register presets are the current emulator's CGB presets, with SP = 0xFFFE |
| VmBanks.ImageWindow | src/mbc.c:10-30 | a window of the image, reading 0xFF past its end |
| VmBanks.BankImageInside | src/mbc.c:15 | a bank inside the image is that 16 KiB slice |
| VmBanks.BanksConcatenate | src/vm.c:59 | the 32 KiB boot copy is bank 0 followed by bank 1 |
| VmBanks.Load | src/mbc.c:17 | a memcpy keeps the length of the memory |
| VmBanks.LoadReads | src/mbc.c:17 | after a memcpy the window reads the copied bytes and everything else the old ones |
| VmBanks.LoadTwice | src/mbc.c:17 | a second copy into the same window replaces the first |
| VmBanks.LoadInside | src/mbc.c:17 | the window holds the copied image |
| VmBanks.LoadOutside | src/mbc.c:17 | a range clear of the window keeps its bytes |
| VmBanks.Copy | src/mbc.c:17 | the memcpy into MEM is Load |
| VmBanks.SwitchROMBank | src/mbc.c:10-22 | 4000-7FFF become the requested bank and the rest of MEM is untouched |
| VmBanks.SwitchRestrictedROMBank | src/mbc.c:28-30 | 0000-3FFF become bank 0 whatever bank is asked for |
| VmMbc1.LowBankMask | src/mbc1.c:176-188 | for ROMs up to 256 KiB the mask covers exactly the banks the ROM has |
| VmMbc1.BankSelect | src/mbc1.c:168-198 | the selected bank is 1 to 0x1F and, for ROMs up to 256 KiB, one the ROM has |
| VmMbc1.BankSelectLowBits | src/mbc1.c:172 | only the five low bits of the written byte matter |
| VmMbc1.BankSelectExact | src/mbc1.c:168-198 | writing 0 selects bank 1, and writing the number of another bank the ROM has selects it |
| VmMbc1.FullBankValue | src/mbc1.c:216-228 | the full bank is upper * 32 + low, with a 1 MiB ROM dropping the top bit of the upper part |
| VmMbc1.FullBankInRom | src/mbc1.c:216-228 | on 1 and 2 MiB ROMs the full bank lies inside the ROM |
| VmMbc1.ShiftedSum | src/mbc1.c:216 | `(upper << 5) + low` does not wrap for the register widths |
| VmMbc1.Masked6 | src/mbc1.c:225 | the 1 MiB mask drops the seventh bit |
| VmMbc1.RomWrite | src/mbc1.c:149-253 | a register write keeps MEM at 64 KiB and keeps the registers valid |
| VmMbc1.RomWriteKeepsUpperMemory | src/mbc1.c:149-253 | a register write never changes MEM above 0x7FFF |
| VmMbc1.FixedWindowOnlyBank0 | src/mbc1.c:10-46 | 0000-3FFF are left alone or reloaded with bank 0, as switchRestrictedROMBank ignores its bank number |
| VmMbc1.SwitchableWindowNeverBank0 | src/mbc1.c:168-231 | 4000-7FFF are left alone or loaded with a bank other than 0, and on ROMs up to 2 MiB one the ROM has |
| VmMbc1.Mbc1.constructor | src/mbc1.c:57-75 | the initial registers: ROM mode, bank 1, secondary 0, RAM disabled, with RAM exactly when a size is asked for |
| VmMbc1.Mbc1.SwitchROMBankingMode | src/mbc1.c:10-25 | ROM mode, and bank 0 copied back into 0000-3FFF |
| VmMbc1.Mbc1.SwitchRAMBankingMode | src/mbc1.c:27-46 | RAM mode, and on ROMs of 1 MiB and more 0000-3FFF copied again from bank 0 |
| VmMbc1.Mbc1.WriteRamEnable | src/mbc1.c:151-166 | RAM is enabled exactly by a low nibble of 0xA |
| VmMbc1.Mbc1.WriteBankNumber | src/mbc1.c:167-198 | the register takes the selected bank and the bank is copied in |
| VmMbc1.Mbc1.WriteUpperBits | src/mbc1.c:199-236 | in ROM mode on ROMs over 512 KiB the full bank is copied in without being stored; otherwise nothing changes |
| VmMbc1.Mbc1.WriteBankingMode | src/mbc1.c:237-248 | 0 selects ROM banking mode and anything else RAM banking mode |
| VmMbc1.Mbc1.InterceptROMWrite | src/mbc1.c:149-253 | a write to 0000-7FFF is RomWrite; any other address is the fatal case and changes nothing |
| VmMbc1.Mbc1.WriteExternalRAM | src/mbc1.c:87-114 | the RAM becomes RamWrite of the old RAM |
| VmMbc1.RamOffset | src/mbc1.c:105-113 | the offset is `addr - 0xA000` in ROM mode, below 0x2000 |
| VmMbc1.RamWrite | src/mbc1.c:87-114 | the write is dropped without RAM or while RAM is disabled, and the RAM keeps its size |
| VmMbc1.RamReadAfterWrite | src/mbc1.c:87-135 | enabled RAM reads back the byte last written and keeps other addresses; absent or disabled RAM reads 0 |
| VmMbc1.Allocate | src/mbc1.c:48-81 | a RAM size other than none, 8 KiB or 32 KiB is fatal; otherwise the initial controller with bank 0 mapped |
| VmMemory.JoypadWriteAsWrittenLosesSelection | src/cpu.c:1173-1182 | as written, a P1 write whose low nibble differs from P1's always selects mode 0 |
| VmMemory.JoypadWriteAsWrittenCounterexample | src/cpu.c:1173-1182 | with P1 = 0xCF, writing 0x20 stores 0x0F and selects mode 0 instead of the direction keys |
| VmMemory.JoypadWriteIntended | src/cpu.c:1173-1182 | the merge the comment describes: the low nibble from P1, bits 7-4 from the write, so the written mode is selected |
| VmMemory.JoypadWriteVersionsCompared | src/cpu.c:1173-1182 | the two merges agree when the low nibbles agree, and select different modes otherwise when mode 0 is not written |
| VmMemory.ExternalWrite | src/cpu.c:1095-1098 | A000-BFFF goes to the controller's RAM and MEM is not touched |
| VmMemory.RomAreaWrite | src/cpu.c:1099-1103 | 0000-7FFF goes to the controller, which keeps the bus valid |
| VmMemory.Write | src/cpu.c:1091-1229 | writeAddr keeps the bus valid |
| VmMemory.Read | src/cpu.c:1231-1262 | locked VRAM, OAM and palettes read 0xFF, external RAM without a controller 0xFF, and only MBC2 RAM is left to outside code |
| VmMemory.ReadAfterWrite | src/cpu.c:1091-1262 | a write to plain memory stores exactly the byte, touches nothing else, and reads back |
| VmMemory.DroppedWrites | src/cpu.c:1104-1226 | writes to echo RAM, the unusable area, locked VRAM, OAM or palettes change nothing |
| VmMemory.WriteConfined | src/cpu.c:1091-1229 | outside 0000-7FFF a write changes MEM at most at its own address |
| VmMemory.ExternalReadAfterWrite | src/cpu.c:1095-1234 | with enabled MBC1 RAM a byte written at A000-BFFF reads back and MEM is untouched |
| VmMemory.WriteAddr | src/cpu.c:1091-1229 | writeAddr on the VM changes the bus as Write says |
| VmMemory.WriteExternal | src/mbc.c:55-64 | mbc_writeExternalRAM changes the bus as ExternalWrite says |
| VmMemory.WriteRomArea | src/mbc.c:77-87 | mbc_interceptROMWrite changes the bus as RomAreaWrite says |
| VmMemory.WriteIo | src/cpu.c:1109-1220 | the I/O part of writeAddr changes the bus as Write says |
| VmCpu.SetReg16 | src/cpu.c:139-144 | only the pair's two bytes change, and get_reg16 then returns the value |
| VmCpu.ReadByte | src/cpu.c:89-92 | the byte of MEM at PC, with PC moved on by one |
| VmCpu.ReadByte4C | src/cpu.c:94-100 | readByte and four cycles |
| VmCpu.Read2Bytes8C | src/cpu.c:107-116 | the little-endian word at PC, PC moved on by two, eight cycles |
| VmCpu.WriteAddr4C | src/cpu.c:1265-1268 | the write sees the clock before its tick |
| VmCpu.Push16 | src/cpu.c:959-970 | the high byte goes to SP - 1 and the low byte to SP - 2 through writeAddr_4C, and SP drops by two |
| VmCpu.PushToPlainStack | src/cpu.c:959-970 | on plain memory a push leaves the word on the stack and changes nothing else |
| VmCpu.StackBytes | src/cpu.c:964-966 | the two bytes of a push read back as the word |
| VmCpu.Call | src/cpu.c:982-988 | a tick, PC pushed, PC set to the target: twelve cycles |
| VmCpu.ClearRequest | src/cpu.c:1291 | only the interrupt's bit of IF is cleared |
| VmCpu.Acknowledge | src/cpu.c:1286-1297 | IME cleared, the IF bit cleared, eight cycles |
| VmCpu.DispatchInterrupt | src/cpu.c:1286-1310 | the interrupt is acknowledged and its vector 0x40 + 8i called, with the old PC pushed |
| VmCpu.HandleInterrupts | src/cpu.c:1317-1360 | halt mode ends exactly when something is both requested and enabled, and with IME set the highest-priority one is dispatched |
| VmCpu.ServiceHighest | src/cpu.c:1328-1352 | the lowest-numbered interrupt both requested and enabled is serviced |
| VmCpu.Halt | src/cpu.c:1362-1392 | with nothing pending the CPU sleeps; with IME clear and something pending the halt bug is scheduled |
| VmCpu.TakeScheduledEnable | src/cpu.c:1680-1683 | a scheduled EI sets IME and clears the schedule |
| VmCpu.Fetch | src/cpu.c:1677-1704 | a scheduled EI takes effect; halt mode fetches nothing; the halt bug reads without moving PC; otherwise PC moves on |
| VmCpu.ExecuteControl | src/cpu.c:1709-2007 | NOP and STOP change nothing, HALT runs halt, DI clears IME, EI schedules it |
| VmCpu.RstTarget | src/cpu.c:1957-2009 | the RST target is bits 5-3 times 8, at most 0x38 |
| VmCpu.ExecuteRst | src/cpu.c:1957-2009 | RST calls its target |
| VmCpu.ExecutePush | src/cpu.c:1955-2001 | PUSH ticks and pushes the pair |
| VmCpu.ExecuteCall | src/cpu.c:1963 | CALL reads the little-endian target and pushes the PC after the operand |
| VmCpu.ExecuteStack | src/cpu.c:1955-2009 | RST, PUSH and CALL keep the VM valid |
| VmCpu.Dispatch | src/cpu.c:1670-2017 | halt mode fetches nothing; otherwise the opcode at PC is executed; then syncTimer is called (reported as a call) and handleInterrupts runs |
| VmBoot.BootImage | src/vm.c:59 | the boot copy is 32 KiB |
| VmBoot.BootMapsFirstTwoBanks | src/vm.c:57-59 | after the boot copy 0000-3FFF hold bank 0, 4000-7FFF bank 1 and the rest of MEM is unchanged |
| VmBoot.BootROM | src/vm.c:25-60 | the logo and header checksum checks decide the outcome, a failed check leaves MEM alone |
| VmBoot.MbcFor | src/mbc.c:32-44 | types 0, 1-3 and 5-6 are accepted, MBC1 with RAM exactly for types 2 and 3 |
| VmBoot.MbcAllocate | src/mbc.c:32-44 | mbc_allocate succeeds exactly for accepted types with a RAM size MBC1 supports, and a failure leaves MEM alone |
| VmBoot.StartEmulator | src/vm.c:71-106 | startEmulator inserts the cartridge, boots and allocates the controller, and runs exactly when neither is fatal |
| VmBoot.MappedAfterAllocation | src/vm.c:95-99 | the controller's allocation keeps the boot mapping and the I/O defaults |
| VmBoot.Passes | src/vm.c:62-69 | the loop stops after the pass whose poll quits |
| VmBoot.PassesAtFirstQuit | src/vm.c:62-69 | the pass count is the position just after the first quit, or all the polls |
| VmBoot.Pass | src/vm.c:63-68 | a pass keeps running unless its poll quits, and a scheduled halt bug stays scheduled |
| VmBoot.Run | src/vm.c:62-69 | run makes Passes passes and is still running exactly when no poll quit |
| VmCartridge.CgbCodeExactly | src/cartridge.c:30-44 | 0x80 is CGB-compatible, 0xC0 CGB-only, and every other byte DMG |
| VmCartridge.GlobalChecksumKeepsLowByte | src/cartridge.c:70 | only the second checksum byte survives the truncation |
| VmCartridge.ParseHeader | src/cartridge.c:19-72 | each field is decoded from its header offset |
| VmCartridge.ParseHeaderReadsOffsets | src/cartridge.c:19-72 | the header depends only on bytes 0x104-0x14F |
| VmCartridge.Cartridge.constructor | src/cartridge.c:8 | a record not yet filled |
| VmCartridge.Cartridge.Init | src/cartridge.c:8-74 | a missing image or one shorter than 0x3FFF bytes is refused; otherwise the header is decoded and the cartridge is not inserted |
| VmCartridge.LicenceeUnknownExactly | src/cartridge.c:76-97 | "Unknown" exactly for the licensee codes the table does not list |
| VmCartridge.CartridgeTypeUnknownExactly | src/cartridge.c:99-131 | "Unknown" exactly for the type codes the table does not list |
| VmCartridge.RomSizeUnknownExactly | src/cartridge.c:133-146 | the ROM size names exactly the nine codes of the enumeration |
| VmCartridge.RamSizeUnknownExactly | src/cartridge.c:148-158 | the RAM size names exactly the six codes |
| VmCartridge.CgbName | src/cartridge.c:160-166 | every colour mode has a name |

## Left out

- SDL windows, rendering, audio, ImGui and frame pacing are input and output, not logic. This covers `renderPixel` and `lockToFramerate` of `src/display.c`, the SDL branches of `syncDisplay`, and `initSDL`, `handleSDLEvents`, `freeSDL`, the pause loop and `clock_u` of `gb/gb.c`.
- The dot-level PPU of `src/display.c` is not modelled: `advanceMode2`, `advanceFetcher`, `pushPixels`, `getSprite`, `pushSpritePixels`, `advancePPU` and `syncDisplay`. Only the FIFO, STAT, the mode switch, tile addressing, the palettes and PPU enable/disable are.
- `run`, `startEmulator`, `pauseEmulator` and `stopEmulator` of `gb/gb.c` are SDL and wall-clock loops. The GB model stops at one `dispatch`.
- File, process and console I/O are outside the model: `fopen`/`fread`, the scripts' `subprocess` runs and `open(...).readlines()`. The scripts take their logs as `seq<string>`.
- AutoDebugPrompt.Compare, GbaMismatch.Compare: the answers to `input()` are a given sequence. An exhausted sequence stands for end of input (EOFError).
- The log output of `log_warning`, `printRegisters`, `printInstruction` and `printCBInstruction` is not modelled. The disassembler is modelled as the strings it formats.
- `log_fatal` (gb/debug.c:4-11) prints and exits the process. Each fatal path is an error outcome (an `ok` flag, `Option` or `Result`) with the state left as it was at the call.
- The legacy `log_fatal(VM*, …)` is declared in include/debug.h:18, but no file under src/ defines it, so what it does is unknown. The legacy fatal paths (src/mbc.c, src/mbc1.c) are modelled as error outcomes with the state left as it was, as for the gb/ version. Whether the legacy program stops there is not stated.
- GbCart.RomByte: `allocated[i]` past the end of the image is undefined behaviour in C. It reads as 0xFF here, as do VmBanks.ImageWindow bytes past the image.
- GbBus.Peek: on a DMG, colour-RAM reads dereference NULL in C. They read 0xFF here (GbBus.ColorRamByte).
- GbDisplay.PixelColorCGB: a pixel whose palette number is above 7 or whose colour ID is above 3 would index past the 64-byte colour RAM in C, which is undefined behaviour. GbDisplay.CramByte reads 0xFF there.
- GbTimer.SyncTimer: the clock is an unbounded `nat`. The source copies it into a 32-bit `unsigned int`, whose wrap after 2^32 cycles the model does not capture.
- GbExec.Read2Bytes, GbCpu.JumpRelativeTaken: `read2Bytes` and `JUMP_RL` update PC twice with no sequence point between the updates. The model reads the low byte at PC, then the high byte at PC + 1.
- GbState.GB.ResetGB, GbState.GB.ResetGBC, GbState.GB.LoadDefaults: `memset(&IO[0x50], 0xFF, 0xAF)` (gb/cpu.c:196 and :235) writes 0x30 bytes into IO and 0x7F bytes past its end. In the GB struct, `uint8_t hram[0x7F]` directly follows `uint8_t IO[0x80]` (include/gb/gb.h:161-162). Both are byte arrays, so there is no padding between them, and the overrun is exactly all of HRAM. The model states that HRAM becomes 0xFF. It relies on that layout, which the C standard does not promise.
- GbBus.WriteIO: an HDMA5 write is stored under the source's conditions. The calls to `cancelHDMATransfer`, `scheduleGDMATransfer` and `scheduleHDMATransfer` are not made, because gb/display.c's HDMA code is not part of this model. GbBus.HdmaRequestOf states the source, destination and length those calls would receive.
- GbDispatch.FetchOpcode: `dispatch` also records each fetched PC in the 11-entry `dispatchedAddresses` ring (gb/cpu.c:1977-1986). Nothing in the core reads that ring; only the debugger shows it, so it is not modelled.
- GbExec.Execute: for the memory forms only the PC advance and the cycles are stated. The per-instruction methods (GbExec.LoadImmediate, StoreImmediate, StoreIndirect, LoadIndirect, LoadFrom, StoreHigh, LoadHigh, LoadAbsolute, StoreAbsolute, StoreSP, LoadImmediate16, AluOnHL, AluImmediate, IncDecOnHL, AddToSP, LoadSPOffset, PushPair, PopPair) state the operands, loaded values and stores under the conditions that their own rows or the lines below name (a timer register, OAM, work RAM and HRAM, GbCpu.StackSlot). Those statements are not carried up through the dispatchers, because joining those heap effects in one method goes past the verifier's resource budget. For the control forms Execute states the register file (ControlRegs) but not the new PC, which GbExec.ExecControl states.
- GbExec.ExecOther: for the control forms it states the register file (ControlRegs), the cycles and FlagStep, not the new PC, which GbExec.ExecControl states.
- GbExec.PrefixTimed, GbExec.PrefixFlags, GbExec.ExecPrefixOrStop, GbExec.ExecMisc, GbExec.ExecOther, GbExec.Execute: for PREFIX CB they state the cycles and the CB instruction run, not the operand, F and the write-back, which GbExec.ExecCB states.
- GbExec.ExecControlFlags: states the register file (ControlRegs), the cycles and FlagStep, not the new PC, which GbExec.ExecControl states.
- GbExec.ExecControl: the return address a call pushes is stated by GbExec.ExecCall and not repeated here.
- GbExec.ExecMemory: states the PC advance and the cycles only; the values moved are stated by the per-instruction methods listed for GbExec.Execute.
- GbExec.ExecByteForm: the same as GbExec.ExecMemory for the byte forms.
- GbExec.ExecByteLoad: the same as GbExec.ExecMemory. The loads and stores are stated, under their own conditions, by LoadStoreHL, LoadImmediate and StoreImmediate.
- GbExec.ExecByteArithmetic: the same as GbExec.ExecMemory. The results are stated, under their own conditions, by AluOnHL, AluImmediate and IncDecOnHL.
- GbExec.ExecWordForm: the same as GbExec.ExecMemory. The results are stated, under their own conditions, by LoadImmediate16, StoreIndirect, LoadIndirect, StoreSP, PushPair and PopPair.
- GbExec.ExecHighForm: the same as GbExec.ExecMemory. The results are stated, under their own conditions, by StoreHigh and LoadHigh.
- GbExec.ExecAbsoluteForm: the same as GbExec.ExecMemory. The results are stated, under their own conditions, by StoreAbsolute, LoadAbsolute (its address only), AddToSP and LoadSPOffset.
- GbCpu.Read2Bytes8C, GbCpu.JumpCondition, GbCpu.JumpTaken, GbExec.Read2Bytes, GbExec.LoadImmediate16, GbExec.LoadAbsolute, GbExec.StoreAbsolute, GbExec.StoreSP, GbExec.ExecControl, GbExec.ExecJump, GbExec.ExecAbsoluteJump, GbExec.ExecCall, GbExec.CallImmediate, GbExec.CallImmediateIf: a 16-bit operand is tied to the bytes at PC and PC+1 from before the instruction only under GbCpu.PlainOperands. That needs neither byte to be a timer register and PC+1 to lie outside OAM. Reading DIV, TIMA, TMA or TAC syncs the timer first, so the byte returned depends on the clock. The M-cycle after the first read runs a DMA step, which may rewrite OAM. Outside those cases only the low byte is tied, and only when PC is not a timer register.
- GbCpu.ReadAddr4C, GbCpu.ReadByte, GbCpu.ReadByte4C, GbCpu.FetchKeeping, GbCpu.JumpRelativeCondition, GbCpu.JumpRelativeTaken, GbExec.LoadImmediate, GbExec.StoreImmediate, GbExec.LoadIndirect, GbExec.StoreHigh, GbExec.LoadHigh, GbExec.AluOnHL, GbExec.AluImmediate, GbExec.AddToSP, GbExec.LoadSPOffset, GbExec.LoadStoreHL, GbExec.IncDecOnHL, GbExec.CbOnHL, GbExec.RunCB, GbExec.ExecCB, GbExec.PrefixTimed, GbExec.PrefixFlags, GbExec.ExecPrefixOrStop, GbExec.ExecMisc, GbExec.ExecOther, GbExec.Execute, GbExec.ExecControl, GbExec.ExecJump, GbExec.ExecRelativeJump, GbDispatch.HaltBugRead, GbDispatch.HaltBugFetch, GbDispatch.FetchOpcode, GbDispatch.FetchAndExecute, GbDispatch.RunInstruction, GbDispatch.Step, GbDispatch.Dispatch, GbDebug.ReadOperandBytes, GbDebug.DisassembleInstruction: a byte read from memory (an operand, the opcode, the CB byte after the prefix, or the byte at HL) is tied to the byte held there before the read only when its address is not a timer register, for the reason above.
- GbExec.StoreImmediate, GbExec.StoreIndirect, GbExec.StoreHigh, GbExec.StoreAbsolute, GbExec.LoadStoreHL, GbExec.IncDecOnHL, GbExec.CbOnHL, GbExec.RunCB, GbExec.ExecCB: the store is stated only for work RAM and HRAM (GbBus.RamStored: the byte reads back there). A store elsewhere goes through GbBus.WriteAddr, whose contract states it, but it is not restated here.
- GbExec.StoreSP, GbExec.StoreWord, GbExec.ExecCall, GbExec.CallImmediate, GbExec.CallImmediateIf, GbExec.PushPair, GbExec.PopPair, GbExec.ExecReturn, GbExec.ReturnAlways, GbExec.ReturnCondition, GbCpu.PushBytes, GbCpu.Push16, GbCpu.PopBytes, GbCpu.Pop16, GbCpu.Call, GbCpu.CallCondition, GbCpu.Ret, GbCpu.RetCondition, GbCpu.RetTaken, GbCpu.DecisionCycle, GbCpu.DispatchInterrupt, GbCpu.ServiceInterrupt, GbCpu.DispatchPending, GbCpu.HandleInterrupts: a word stored to memory, or popped from the stack, is stated (as the word held at its two bytes) only when both of its bytes lie in work RAM or HRAM (GbCpu.StackSlot). Elsewhere a store goes through GbBus.WriteAddr and a read through GbBus.ReadAddr, whose contracts state them, but the word is not restated here.
- GbExec.LoadAbsolute: `b` is the byte the bus returns at a16 after the two operand fetches. It is not stated to equal the byte held at a16 before the instruction. That would need a frame argument over the bus, the cartridge controller and a DMA step across two fetch cycles, which goes past the verifier's resource budget.
- GbCpu.FetchKeeping, GbExec.ExecCB, GbDispatch.HaltBugRead, GbDispatch.SyncKeeping, GbDispatch.HaltBugFetch, GbDispatch.FetchOpcode, GbDispatch.FetchAndExecute, GbDispatch.RunInstruction, GbDispatch.Step, GbDispatch.Dispatch: a byte read one fetch after the instruction began (the byte at HL of a CB instruction on (HL), or the CB byte after the 0xCB prefix) is tied to the byte held there before the instruction only under GbCpu.PlainRead, that is, outside the timer registers and outside OAM, because the earlier fetch's M-cycle runs a DMA step that may rewrite OAM.
- The MBC2 controller of the legacy VM (src/mbc2.c) is not part of this model. VmMemory reports its calls as a `Callee` value, and its RAM reads as `None`.
- `syncTimer`, `updateJoypadRegBuffer`, `switchCGB_WRAM`, `switchCGB_VRAM` and `cyclesSync_4` are called from `src/cpu.c` but not defined in the legacy sources. VmMemory reports them as `Callee` values, and a clock tick only advances `clock`.
- VmCpu.Dispatch: the legacy ALU, load and jump opcodes are the same code as in `gb/cpu.c`, already modelled in GbAlu and GbExec. The legacy model executes NOP, STOP, HALT, DI, EI, RST, PUSH and CALL. Any other opcode ends the pass after its fetch with `modelled` false.
- VmBoot.Run: `handleSDLEvents` is not part of the legacy sources. Each poll's effect on `run` is a given boolean.
- GbFifo.Fifo.Pop, GbFifo.Fifo.Peek: an empty pop and an out-of-range peek return an uninitialised pixel in C. The model returns NoPixel, and the FIFO is unchanged as in the source.
- GbaState.SpsrSlot: `BANK_SPSR` is indexed by the `CPU_MODE` value. The header that defines the enum is not part of this model. SpsrSlot relies on the privileged modes taking the values 0..4 in the order of the comment on `BANK_SPSR` (FIQ, SVC, ABT, IRQ, UND).
- GbaShifter.ModeBits, GbaShifter.SetMode, GbaShifter.GetMode: they rely instead on each `CPU_MODE` value being the low four bits of the ARM mode field (User 0x0, FIQ 0x1, IRQ 0x2, SVC 0x3, ABT 0x7, UND 0xB, System 0xF). `CPSR & 0xF` in CPSR_GetMode can tell the modes apart only under that encoding. The two assumptions cannot both hold for one enum. Each member is stated under its own assumption, and the model never uses a mode value as a `BANK_SPSR` index.
- GbaDecode.Classify: `ARM_LUT` is a field of the automatic `GBA gba;` in startGBAEmulator (gba/gba.c:58), so the slots `initialiseLUT_ARM` never assigns hold indeterminate values, and calling one is undefined behaviour. Only the global `Dissembler_ARM_LUT` (gba/debugGBA.c:7) starts zeroed, so there an unassigned slot is a NULL call. The model names these slots Unimplemented (see Findings).
- GbaBus.BusRead: the gamepak branch uses the corrected GbaBus.RomOffset, because the source leaves `relativeAddress` uninitialised in the upper half of each window (see Findings). Bytes of an access that runs past the end of a buffer are taken as 0.
- The ARM data-processing, multiply, load/store, block transfer, swap, PSR, SWI and `BX` handlers and `dispatchTHUMB` are empty in the source. The model records which handler is dispatched, and no handler other than B and BL changes registers.
- `usleep` in the GBA loop is not modelled. GbaCpu.Run states where control is after n passes and that the queue is primed there. The trace line of each pass is stated per step by GbaCpu.StepArm, not as a list over the whole run.
- GbaShifter.RegisterOperand, GbaShifter.ImmOperand: C leaves the shifts by exactly 32 undefined, and the source reaches them. The model defines them as the architecture does (see Findings).
- GbaCpu.Fetch: `busRead32` is declared in include/gba/gba.h:119 but defined nowhere in the sources. The model takes it to be a 32-bit bus read (GbaBus.Read at Width32), as its name and its use on the opcode fetch (gba/arm7tdmi.c:484) suggest.
- `src/mbc3.c`, `src/clock.c`, `sound.c`, `gb/gui.cpp`, `gba/gamepak.c` and `src/debug.c` are not part of this model: they are stubs, threads, audio, GUI or printing.

## Findings

| source | as written | input that shows it | evidently intended | confidence | as-written member | corrected member |
|---|---|---|---|---|---|---|
| gba/arm7tdmi.c:41-46 | B adds `(int32_t)((ins & 0xFFFFFF) << 2)`, which is never negative: the 24-bit offset is not sign-extended | `B .` = 0xEAFFFFFE jumps 64 MiB - 8 forward | the architecture's sign-extended offset, so `B .` loops on itself | high, not executed | GbaCpu.BranchTargetAsWritten, GbaCpu.BranchToSelfCounterexample | GbaCpu.BranchDisplacement |
| gba/arm7tdmi.c:48-54 | BL sets R14 and refills the queue from R15 without adding its offset | BL 0xEB000002 refills from x + 8 instead of x + 16 | R15 moves by the sign-extended offset as in B | high, not executed | GbaCpu.LinkTargetAsWritten, GbaCpu.LinkCounterexample | GbaCpu.BranchDisplacementAgrees |
| src/cpu.c:1173-1182 | a P1 write whose low nibble differs from P1's keeps the written low nibble, ORs in P1's, and drops bits 7-4 | P1 = 0xCF, write 0x20: stores 0x0F and selects mode 0 | keep P1's read-only low nibble and take bits 7-4 from the write, selecting the direction keys | high, not executed | VmMemory.JoypadWriteAsWritten, VmMemory.JoypadWriteAsWrittenCounterexample | VmMemory.JoypadWriteIntended |
| gb/cpu.c:1174-1190 | the TAC glitch stores the timer periods in `uint8_t`, truncating 1024 and 256 to 0, so those two frequencies never glitch | old TAC 0xFC, write 0x00, clock 0x200: no glitch | a falling edge of the watched clock bit increments TIMA | high, not executed | GbBus.TacGlitch, GbBus.TacGlitchCounterexample | GbBus.TacGlitchIntended |
| gb/cpu.c:1973-1978 | `scheduleHaltBug` is set by `halt` (line 1634) and never cleared by `dispatch`, so every later fetch repeats the byte after HALT | HALT with IME clear and an interrupt pending: fetches pc, pc, pc | the byte after HALT is read twice, then fetching goes on | high, not executed | GbDispatch.FetchesAsWritten, GbDispatch.HaltBugCounterexample | GbDispatch.FetchesIntended, GbDispatch.HaltBugRepeatsOnce |
| gba/gba.c:98-108 | `relativeAddress` is assigned only for pages 0x08, 0x0A and 0x0C, and left uninitialised for 0x09, 0x0B and 0x0D | a read at 0x09000000 | the offset from the base of each 32 MiB gamepak window | high, not executed | GbaBus.RomOffsetAsWritten, GbaBus.RomOffsetCounterexample | GbaBus.RomOffset |
| gba/arm7tdmi.c:131-139 | the rotate field is read from bits 10-7 instead of 11-8, and a rotation of 0 shifts by 32 | operand 0x101 gives 0x10000000 | imm8 rotated right by twice bits 11-8: 0x40000000 | high, not executed | GbaShifter.ImmOperandAsWritten, GbaShifter.ImmOperandCounterexample | GbaShifter.ImmOperand |
| gba/arm7tdmi.c:70-73 | an immediate shift amount of 0 returns Rm unshifted for every shift type | operand 0x060 (ROR #0) with R0 = 1 and C clear gives 1 with C clear | LSR #0 and ASR #0 mean a shift by 32, and ROR #0 is RRX: 0 with C set | high, not executed | GbaShifter.RegisterOperandAsWritten, GbaShifter.ImmediateZeroCounterexample | GbaShifter.RegisterOperand, GbaShifter.RegisterOperandAgrees |
| gba/arm7tdmi.c:78-84 | a register shift by exactly 32 shifts a 32-bit value by 32, which C leaves undefined | operand 0x110 (LSL by R1) with R1 = 32 and R0 = 1 | 0 with the carry set to bit 0 of Rm | medium, not executed | GbaShifter.RegisterOperandAsWritten, GbaShifter.ShiftBy32Counterexample | GbaShifter.RegisterOperand |
| gba/arm7tdmi.c:570-576 | the halfword-transfer test assumes SH = 00 never occurs, so indices with L set and SH = 00 get no handler | opcode 0xE1100090 (index 0x119) reaches a slot never assigned (indeterminate in ARM_LUT, NULL in Dissembler_ARM_LUT) | every index gets a handler | medium, not executed | GbaDecode.ClassifyAsWritten, GbaDecode.UnassignedCounterexample | GbaDecode.Classify |
