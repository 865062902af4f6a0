/** The CPU class: register pairs, counters and the interrupt master enable
    as fields, the 64 KiB memory as an array, and one method per member of
    the C# class. Every method says that it moves State() exactly as the
    matching function of Semantics does, so the properties proved about
    those functions are properties of the class. */
module Emulation {
  import opened Bits
  import opened Registers
  import opened Alu
  import opened Semantics

  class Cpu {
    var af: Register
    var bc: Register
    var de: Register
    var hl: Register
    var stackPointer: Register
    var programCounter: Register

    var divCounter: int
    var timaCounter: int
    var cyclesRunThisFrame: int
    var interruptMasterEnable: bool

    /** The boot image the constructor loads from disk; given here. */
    const bios: seq<bv8>
    /** The memory the core shares with the CPU. */
    const ram: array<bv8>

    ghost predicate Valid()
    {
      ram.Length == 0x10000
    }

    /** Every field the class changes, as one value. */
    ghost function State(): Machine
      requires Valid()
      reads this, ram
    {
      Machine(af, bc, de, hl, stackPointer, programCounter, ram[..],
              divCounter, timaCounter, cyclesRunThisFrame, interruptMasterEnable)
    }

    /** The constructor: all pairs zero, interrupts enabled. The boot image
        is passed in rather than read from a file. */
    constructor (memory: array<bv8>, bootImage: seq<bv8>)
      requires memory.Length == 0x10000
      ensures Valid() && ram == memory && bios == bootImage
      ensures State() == Initial(memory[..])
    {
      af := Register(0, 0);
      bc := Register(0, 0);
      de := Register(0, 0);
      hl := Register(0, 0);
      stackPointer := Register(0, 0);
      programCounter := Register(0, 0);
      ram := memory;
      bios := bootImage;
      divCounter := 0;
      timaCounter := 0;
      cyclesRunThisFrame := 0;
      interruptMasterEnable := true;
    }

    /** Reset: boot register values, the boot image copied to the bottom of
        memory, then the countdowns and IME. */
    method Reset() returns (status: Status)
      requires Valid()
      modifies this, ram
      ensures Valid() && Outcome(State(), status) == AfterReset(old(State()), bios)
    {
      SetBootRegisters();
      // Array.Copy refuses a source longer than the destination.
      if |bios| > ram.Length {
        return Threw(ArgumentException);
      }
      ghost var registersSet := State();
      CopyBootImage();
      divCounter := 256;
      timaCounter := 1024;
      interruptMasterEnable := true;
      status := Normal;
      assert State() == registersSet.(mem := ram[..], divCounter := 256, timaCounter := 1024, ime := true);
    }

    /** The register half of Reset. */
    method SetBootRegisters()
      requires Valid()
      modifies this
      ensures Valid() && State() == BootRegisters(old(State()))
    {
      ghost var m := State();
      af := af.(high := 0x01);
      af := af.(low := 0xB0);
      bc := Register(0x00, 0x13);  // BC.Word = 0x0013
      de := Register(0x00, 0xD8);  // DE.Word = 0x00D8
      hl := Register(0x01, 0x4D);  // HL.Word = 0x014D
      stackPointer := Register(0xFF, 0xFE);  // 0xFFFE
      programCounter := Register(0x00, 0x00);
      assert State() == m.(af := af, bc := bc, de := de, hl := hl, sp := stackPointer, pc := programCounter);
    }

    /** The Array.Copy of Reset: the boot image over the bottom of memory. */
    method CopyBootImage()
      requires Valid() && |bios| <= ram.Length
      modifies ram
      ensures ram[..] == bios + old(ram[..])[|bios|..]
    {
      ghost var before := ram[..];
      forall i | 0 <= i < |bios| {
        ram[i] := bios[i];
      }
      CopiedOver(before, ram[..], bios);
    }

    // ------------------------------------------------------------ frames

    /** DoFrame: steps until the frame's cycle budget is used up. An opcode
        without a case costs nothing, so the loop need not end; fuel bounds
        the number of steps. On completion the budget is met and overrun by
        less than one step's largest cost (5). */
    method DoFrame(fuel: nat) returns (status: Status, finished: bool, steps: nat)
      requires Valid()
      modifies this, ram
      ensures Valid() && steps <= fuel
      ensures Outcome(State(), status) == Run(old(State()).(cyclesRunThisFrame := 0), steps)
      ensures status == Normal && finished ==> CYCLES_PER_FRAME <= cyclesRunThisFrame < CYCLES_PER_FRAME + 5
      ensures status == Normal && !finished ==> steps == fuel && 0 <= cyclesRunThisFrame < CYCLES_PER_FRAME
    {
      cyclesRunThisFrame := 0;
      ghost var start := State();
      assert start == old(State()).(cyclesRunThisFrame := 0);
      steps := 0;
      status := Normal;
      while cyclesRunThisFrame < CYCLES_PER_FRAME && steps < fuel
        invariant Valid() && steps <= fuel && status == Normal
        invariant Run(start, steps) == Outcome(State(), Normal)
        invariant 0 <= cyclesRunThisFrame < CYCLES_PER_FRAME + 5
        decreases fuel - steps
      {
        ghost var before := State();
        status := DoStep();
        assert Outcome(State(), status) == Step(before);
        assert Run(start, steps + 1) == Step(before);
        steps := steps + 1;
        if status.Threw? {
          finished := false;
          assert Outcome(State(), status) == Run(start, steps);
          return;
        }
      }
      finished := cyclesRunThisFrame >= CYCLES_PER_FRAME;
    }

    /** DoStep: the opcode, the timers, the interrupts, then the cycle count. */
    method DoStep() returns (status: Status)
      requires Valid()
      modifies this, ram
      ensures Valid() && Outcome(State(), status) == Step(old(State()))
    {
      var cycles;
      cycles, status := DoOpcode();
      if status.Threw? {
        return;
      }
      status := FinishStep(cycles);
    }

    /** The statements of DoStep after DoOpcode. */
    method FinishStep(cycles: int) returns (status: Status)
      requires Valid()
      modifies this, ram
      ensures Valid() && Outcome(State(), status) == Settle(old(State()), cycles)
    {
      UpdateSpecialRegisters(cycles);
      status := DoInterrupts(cycles);
      if status.Threw? {
        return;
      }
      ghost var s := State();
      cyclesRunThisFrame := cyclesRunThisFrame + cycles;
      assert State() == s.(cyclesRunThisFrame := s.cyclesRunThisFrame + cycles);
    }

    // ----------------------------------------------------------- opcodes

    /** DoOpcode: run the case of the byte at PC, then move PC on by one.
        An exception leaves PC where the case had put it. */
    method DoOpcode() returns (cycles: int, status: Status)
      requires Valid()
      modifies this, ram
      ensures Valid() && Executed(State(), status, cycles) == Execute(old(State()))
    {
      cycles, status := Switch();
      if status.Threw? {
        return;
      }
      ghost var switched := State();
      programCounter := Incremented(programCounter);
      assert State() == switched.(pc := programCounter);
    }

    /** The switch of DoOpcode, eight cases at a time; each case is a method
        of its own below. An opcode without a case costs nothing. */
    method Switch() returns (cycles: int, status: Status)
      requires Valid()
      modifies this, ram
      ensures Valid() && Executed(State(), status, cycles) == Dispatch(old(State()))
    {
      var opcode := ram[programCounter.Word()];
      if opcode < 0x08 {
        cycles, status := Opcodes00();
      } else if opcode < 0x10 {
        cycles, status := Opcodes08();
      } else if opcode < 0x18 {
        cycles, status := Opcodes10();
      } else if opcode < 0x20 {
        cycles, status := Opcodes18();
      } else if opcode < 0x28 {
        cycles, status := Opcodes20();
      } else if opcode < 0x30 {
        cycles, status := Opcodes28();
      } else {
        cycles, status := 0, Normal;
      }
    }

    /** Cases 0x00 to 0x07 of the switch. */
    method Opcodes00() returns (cycles: int, status: Status)
      requires Valid() && ram[programCounter.Word()] < 0x08
      modifies this, ram
      ensures Valid() && Executed(State(), status, cycles) == Ops00(old(State()))
    {
      status := Normal;
      match ram[programCounter.Word()] {
      case 0x00 => cycles := Nop();
      case 0x01 => cycles := LdBcNn();
      case 0x02 => cycles := LdBcA();
      case 0x03 => cycles := IncBc();
      case 0x04 => cycles := IncB();
      case 0x05 => cycles := DecB();
      case 0x06 => cycles := LdBN();
      case _ => cycles := RlcA();  // 0x07
      }
    }

    /** Cases 0x08 to 0x0F of the switch. */
    method Opcodes08() returns (cycles: int, status: Status)
      requires Valid() && 0x08 <= ram[programCounter.Word()] < 0x10
      modifies this, ram
      ensures Valid() && Executed(State(), status, cycles) == Ops08(old(State()))
    {
      status := Normal;
      match ram[programCounter.Word()] {
      case 0x08 => cycles := LdNnSp();
      case 0x09 => cycles := AddHlBc();
      case 0x0A => cycles := LdABc();
      case 0x0B => cycles := DecBc();
      case 0x0C => cycles := IncC();
      case 0x0D => cycles := DecC();
      case 0x0E => cycles := LdCN();
      case _ => cycles := RrcA();  // 0x0F
      }
    }

    /** Cases 0x10 to 0x17 of the switch. */
    method Opcodes10() returns (cycles: int, status: Status)
      requires Valid() && 0x10 <= ram[programCounter.Word()] < 0x18
      modifies this, ram
      ensures Valid() && Executed(State(), status, cycles) == Ops10(old(State()))
    {
      status := Normal;
      match ram[programCounter.Word()] {
      case 0x10 => cycles := Stop();
      case 0x11 => cycles := LdDeNn();
      case 0x12 => cycles := LdDeA();
      case 0x13 => cycles := IncDe();
      case 0x14 => cycles := IncD();
      case 0x15 => cycles := DecD();
      case 0x16 => cycles := LdDN();
      case _ => cycles := RlA();  // 0x17
      }
    }

    /** Cases 0x18 to 0x1F of the switch. */
    method Opcodes18() returns (cycles: int, status: Status)
      requires Valid() && 0x18 <= ram[programCounter.Word()] < 0x20
      modifies this, ram
      ensures Valid() && Executed(State(), status, cycles) == Ops18(old(State()))
    {
      status := Normal;
      match ram[programCounter.Word()] {
      case 0x18 => cycles, status := Jr();
      case 0x19 => cycles := AddHlDe();
      case 0x1A => cycles := LdADe();
      case 0x1B => cycles := DecDe();
      case 0x1C => cycles := IncE();
      case 0x1D => cycles := DecE();
      case 0x1E => cycles := LdEN();
      case _ => cycles := RrA();  // 0x1F
      }
    }

    /** Cases 0x20 to 0x27 of the switch. */
    method Opcodes20() returns (cycles: int, status: Status)
      requires Valid() && 0x20 <= ram[programCounter.Word()] < 0x28
      modifies this, ram
      ensures Valid() && Executed(State(), status, cycles) == Ops20(old(State()))
    {
      status := Normal;
      match ram[programCounter.Word()] {
      case 0x20 => cycles, status := JrNz();
      case 0x21 => cycles := LdHlNn();
      case 0x22 => cycles := LdiHlA();
      case 0x23 => cycles := IncHl();
      case 0x24 => cycles := IncH();
      case 0x25 => cycles := DecH();
      case 0x26 => cycles := LdHN();
      case _ => cycles := DecimalAdjustA();  // 0x27
      }
    }

    /** Cases 0x28 to 0x2F of the switch. */
    method Opcodes28() returns (cycles: int, status: Status)
      requires Valid() && 0x28 <= ram[programCounter.Word()] < 0x30
      modifies this, ram
      ensures Valid() && Executed(State(), status, cycles) == Ops28(old(State()))
    {
      status := Normal;
      match ram[programCounter.Word()] {
      case 0x28 => cycles, status := JrZ();
      case 0x29 => cycles := AddHlHl();
      case 0x2A => cycles := LdiAHl();
      case 0x2B => cycles := DecHl();
      case 0x2C => cycles := IncL();
      case 0x2D => cycles := DecL();
      case 0x2E => cycles := LdLN();
      case _ => cycles := ComplementA();  // 0x2F
      }
    }

    /** 0x00, NOP. */
    method Nop() returns (cycles: int)
      requires Valid()
      ensures Valid() && Executed(State(), Normal, cycles) == Idle(old(State()))
    {
      cycles := 1;
    }

    /** 0x01, LD BC,nn: PC is moved on only once, so the high
        operand byte is then run as an opcode. */
    method LdBcNn() returns (cycles: int)
      requires Valid()
      modifies this
      ensures Valid() && Executed(State(), Normal, cycles) == LoadPair(old(State()), BC, false)
    {
      ghost var m := State();
      programCounter := Incremented(programCounter);
      bc := LdR16Nn(ReadWord(ram[..], programCounter.Word()));
      cycles := 3;
      assert State() == m.(pc := programCounter, af := af, bc := bc);
    }

    /** 0x02, LD (BC),A: also clears Z and N. */
    method LdBcA() returns (cycles: int)
      requires Valid()
      modifies this, ram
      ensures Valid() && Executed(State(), Normal, cycles) == StoreAtBc(old(State()))
    {
      ghost var m := State();
      ClearZeroAndSubtract();
      ram[bc.Word()] := af.high;
      cycles := 2;
      assert State() == m.(af := af, mem := ram[..]);
    }

    /** 0x03, INC BC. */
    method IncBc() returns (cycles: int)
      requires Valid()
      modifies this
      ensures Valid() && Executed(State(), Normal, cycles) == IncrementPair(old(State()), BC)
    {
      ghost var m := State();
      if bc.Word() == 0xFFFF {
        IncrementWraps(bc);
        bc := Register(0, 0);  // Word = 0
      } else {
        bc := Incremented(bc);
      }
      cycles := 2;
      assert State() == m.(bc := bc);
    }

    /** 0x04, INC B. */
    method IncB() returns (cycles: int)
      requires Valid()
      modifies this
      ensures Valid() && Executed(State(), Normal, cycles) == IncrementHalf(old(State()), B)
    {
      ghost var m := State();
      var b := IncR8(bc.high);
      bc := bc.(high := b);
      cycles := 1;
      assert State() == m.(bc := bc, af := af);
    }

    /** 0x05, DEC B: applied to C. */
    method DecB() returns (cycles: int)
      requires Valid()
      modifies this
      ensures Valid() && Executed(State(), Normal, cycles) == DecrementHalf(old(State()), C)
    {
      ghost var m := State();
      var c := DecR8(bc.low);
      bc := bc.(low := c);
      cycles := 1;
      assert State() == m.(bc := bc, af := af);
    }

    /** 0x06, LD B,n: also clears Z and N. */
    method LdBN() returns (cycles: int)
      requires Valid()
      modifies this
      ensures Valid() && Executed(State(), Normal, cycles) == LoadHalf(old(State()), B, true)
    {
      ghost var m := State();
      ClearZeroAndSubtract();
      programCounter := Incremented(programCounter);
      bc := bc.(high := ram[programCounter.Word()]);
      cycles := 2;
      assert State() == m.(af := af, pc := programCounter, bc := bc);
    }

    /** 0x07, RLC A. */
    method RlcA() returns (cycles: int)
      requires Valid()
      modifies this
      ensures Valid() && Executed(State(), Normal, cycles) == SetAccumulator(old(State()), Rlc8(old(af.high), old(af.low)), 2)
    {
      ghost var m := State();
      var a := RlcR8(af.high);
      af := af.(high := a);
      cycles := 2;
      assert State() == m.(af := af);
    }

    /** 0x08, LD (nn),SP: the two bytes of SP land on the operand
        bytes themselves, not at the address they hold. */
    method LdNnSp() returns (cycles: int)
      requires Valid()
      modifies this, ram
      ensures Valid() && Executed(State(), Normal, cycles) == StoreSpOverOperand(old(State()))
    {
      ghost var m := State();
      af := af.(low := 0);
      programCounter := Incremented(programCounter);
      ram[programCounter.Word()] := stackPointer.low;
      programCounter := Incremented(programCounter);
      ram[programCounter.Word()] := stackPointer.high;
      cycles := 5;
      assert State() == m.(af := af, pc := programCounter, mem := ram[..]);
    }

    /** 0x09, ADD HL,BC. */
    method AddHlBc() returns (cycles: int)
      requires Valid()
      modifies this
      ensures Valid() && Executed(State(), Normal, cycles) == AddToHl(old(State()), BC)
    {
      ghost var m := State();
      assert GetPair(m, BC) == m.bc;
      hl := AddR16R16(hl, bc);
      cycles := 2;
      AddToHlLeaves(m, BC, hl, af);
      assert State() == m.(hl := hl, af := af);
    }

    /** 0x0A, LD A,(BC): F is zeroed first. */
    method LdABc() returns (cycles: int)
      requires Valid()
      modifies this
      ensures Valid() && Executed(State(), Normal, cycles) == LoadAccumulator(old(State()), BC, true)
    {
      ghost var m := State();
      af := af.(low := 0);
      af := af.(high := ram[bc.Word()]);
      cycles := 2;
      assert State() == m.(af := af);
    }

    /** 0x0B, DEC BC: written as an increment. */
    method DecBc() returns (cycles: int)
      requires Valid()
      modifies this
      ensures Valid() && Executed(State(), Normal, cycles) == IncrementPair(old(State()), BC)
    {
      ghost var m := State();
      if bc.Word() == 0xFFFF {
        IncrementWraps(bc);
        bc := Register(0, 0);  // Word = 0
      } else {
        bc := Incremented(bc);
      }
      cycles := 2;
      assert State() == m.(bc := bc);
    }

    /** 0x0C, INC C. */
    method IncC() returns (cycles: int)
      requires Valid()
      modifies this
      ensures Valid() && Executed(State(), Normal, cycles) == IncrementHalf(old(State()), C)
    {
      ghost var m := State();
      var c := IncR8(bc.low);
      bc := bc.(low := c);
      cycles := 1;
      assert State() == m.(bc := bc, af := af);
    }

    /** 0x0D, DEC C. */
    method DecC() returns (cycles: int)
      requires Valid()
      modifies this
      ensures Valid() && Executed(State(), Normal, cycles) == DecrementHalf(old(State()), C)
    {
      ghost var m := State();
      var c := DecR8(bc.low);
      bc := bc.(low := c);
      cycles := 1;
      assert State() == m.(bc := bc, af := af);
    }

    /** 0x0E, LD C,n: also clears Z and N. */
    method LdCN() returns (cycles: int)
      requires Valid()
      modifies this
      ensures Valid() && Executed(State(), Normal, cycles) == LoadHalf(old(State()), C, true)
    {
      ghost var m := State();
      ClearZeroAndSubtract();
      programCounter := Incremented(programCounter);
      bc := bc.(low := ram[programCounter.Word()]);
      cycles := 2;
      assert State() == m.(af := af, pc := programCounter, bc := bc);
    }

    /** 0x0F, RRC A. */
    method RrcA() returns (cycles: int)
      requires Valid()
      modifies this
      ensures Valid() && Executed(State(), Normal, cycles) == SetAccumulator(old(State()), Rrc8(old(af.high), old(af.low)), 2)
    {
      ghost var m := State();
      var a := RrcR8(af.high);
      af := af.(high := a);
      cycles := 2;
      assert State() == m.(af := af);
    }

    /** 0x10, STOP: only costs a cycle. */
    method Stop() returns (cycles: int)
      requires Valid()
      ensures Valid() && Executed(State(), Normal, cycles) == Idle(old(State()))
    {
      cycles := 1;
    }

    /** 0x11, LD DE,nn. */
    method LdDeNn() returns (cycles: int)
      requires Valid()
      modifies this
      ensures Valid() && Executed(State(), Normal, cycles) == LoadPair(old(State()), DE, true)
    {
      ghost var m := State();
      programCounter := Incremented(programCounter);
      de := LdR16Nn(ReadWord(ram[..], programCounter.Word()));
      programCounter := Incremented(programCounter);
      cycles := 3;
      assert State() == m.(af := af, de := de, pc := programCounter);
    }

    /** 0x12, LD (DE),A: stores through BC, and clears Z and N. */
    method LdDeA() returns (cycles: int)
      requires Valid()
      modifies this, ram
      ensures Valid() && Executed(State(), Normal, cycles) == StoreAtBc(old(State()))
    {
      ghost var m := State();
      ClearZeroAndSubtract();
      ram[bc.Word()] := af.high;
      cycles := 2;
      assert State() == m.(af := af, mem := ram[..]);
    }

    /** 0x13, INC DE: applied to BC. */
    method IncDe() returns (cycles: int)
      requires Valid()
      modifies this
      ensures Valid() && Executed(State(), Normal, cycles) == IncrementPair(old(State()), BC)
    {
      ghost var m := State();
      if bc.Word() == 0xFFFF {
        IncrementWraps(bc);
        bc := Register(0, 0);  // Word = 0
      } else {
        bc := Incremented(bc);
      }
      cycles := 2;
      assert State() == m.(bc := bc);
    }

    /** 0x14, INC D. */
    method IncD() returns (cycles: int)
      requires Valid()
      modifies this
      ensures Valid() && Executed(State(), Normal, cycles) == IncrementHalf(old(State()), D)
    {
      ghost var m := State();
      var d := IncR8(de.high);
      de := de.(high := d);
      cycles := 1;
      assert State() == m.(de := de, af := af);
    }

    /** 0x15, DEC D. */
    method DecD() returns (cycles: int)
      requires Valid()
      modifies this
      ensures Valid() && Executed(State(), Normal, cycles) == DecrementHalf(old(State()), D)
    {
      ghost var m := State();
      var d := DecR8(de.high);
      de := de.(high := d);
      cycles := 1;
      assert State() == m.(de := de, af := af);
    }

    /** 0x16, LD D,n: also clears Z and N. */
    method LdDN() returns (cycles: int)
      requires Valid()
      modifies this
      ensures Valid() && Executed(State(), Normal, cycles) == LoadHalf(old(State()), D, true)
    {
      ghost var m := State();
      ClearZeroAndSubtract();
      programCounter := Incremented(programCounter);
      de := de.(high := ram[programCounter.Word()]);
      cycles := 2;
      assert State() == m.(af := af, pc := programCounter, de := de);
    }

    /** 0x17, RL A. */
    method RlA() returns (cycles: int)
      requires Valid()
      modifies this
      ensures Valid() && Executed(State(), Normal, cycles) == SetAccumulator(old(State()), Rl8(old(af.high)), 2)
    {
      ghost var m := State();
      var a := RlR8(af.high);
      af := af.(high := a);
      cycles := 2;
      assert State() == m.(af := af);
    }

    /** 0x18, JR n. */
    method Jr() returns (cycles: int, status: Status)
      requires Valid()
      modifies this
      ensures Valid() && Executed(State(), status, cycles) == RelativeJump(old(State()), true)
    {
      programCounter := Incremented(programCounter);
      var jumpval := ram[programCounter.Word()];
      status := JumpBy(jumpval);
      cycles := if status.Threw? then 0 else 3;
    }

    /** 0x19, ADD HL,DE. */
    method AddHlDe() returns (cycles: int)
      requires Valid()
      modifies this
      ensures Valid() && Executed(State(), Normal, cycles) == AddToHl(old(State()), DE)
    {
      ghost var m := State();
      assert GetPair(m, DE) == m.de;
      hl := AddR16R16(hl, de);
      cycles := 2;
      AddToHlLeaves(m, DE, hl, af);
      assert State() == m.(hl := hl, af := af);
    }

    /** 0x1A, LD A,(DE). */
    method LdADe() returns (cycles: int)
      requires Valid()
      modifies this
      ensures Valid() && Executed(State(), Normal, cycles) == LoadAccumulator(old(State()), DE, false)
    {
      ghost var m := State();
      af := af.(high := ram[de.Word()]);
      cycles := 2;
      assert State() == m.(af := af);
    }

    /** 0x1B, DEC DE: written as an increment. */
    method DecDe() returns (cycles: int)
      requires Valid()
      modifies this
      ensures Valid() && Executed(State(), Normal, cycles) == IncrementPair(old(State()), DE)
    {
      ghost var m := State();
      if de.Word() == 0xFFFF {
        IncrementWraps(de);
        de := Register(0, 0);  // Word = 0
      } else {
        de := Incremented(de);
      }
      cycles := 2;
      assert State() == m.(de := de);
    }

    /** 0x1C, INC E. */
    method IncE() returns (cycles: int)
      requires Valid()
      modifies this
      ensures Valid() && Executed(State(), Normal, cycles) == IncrementHalf(old(State()), E)
    {
      ghost var m := State();
      var e := IncR8(de.low);
      de := de.(low := e);
      cycles := 1;
      assert State() == m.(de := de, af := af);
    }

    /** 0x1D, DEC E. */
    method DecE() returns (cycles: int)
      requires Valid()
      modifies this
      ensures Valid() && Executed(State(), Normal, cycles) == DecrementHalf(old(State()), E)
    {
      ghost var m := State();
      var e := DecR8(de.low);
      de := de.(low := e);
      cycles := 1;
      assert State() == m.(de := de, af := af);
    }

    /** 0x1E, LD E,n: also clears Z and N. */
    method LdEN() returns (cycles: int)
      requires Valid()
      modifies this
      ensures Valid() && Executed(State(), Normal, cycles) == LoadHalf(old(State()), E, true)
    {
      ghost var m := State();
      ClearZeroAndSubtract();
      programCounter := Incremented(programCounter);
      de := de.(low := ram[programCounter.Word()]);
      cycles := 2;
      assert State() == m.(af := af, pc := programCounter, de := de);
    }

    /** 0x1F, RR A. */
    method RrA() returns (cycles: int)
      requires Valid()
      modifies this
      ensures Valid() && Executed(State(), Normal, cycles) == SetAccumulator(old(State()), Rr8(old(af.high)), 2)
    {
      ghost var m := State();
      var a := RrR8(af.high);
      af := af.(high := a);
      cycles := 2;
      assert State() == m.(af := af);
    }

    /** 0x20, JR NZ,n. */
    method JrNz() returns (cycles: int, status: Status)
      requires Valid()
      modifies this
      ensures Valid() && Executed(State(), status, cycles) == RelativeJump(old(State()), !FlagZ(old(af.low)))
    {
      programCounter := Incremented(programCounter);
      var jumpval := ram[programCounter.Word()];
      status := Normal;
      if !IsBitSet(af.low, FLAG_Z) {
        status := JumpBy(jumpval);
      }
      cycles := if status.Threw? then 0 else 3;
    }

    /** 0x21, LD HL,nn. */
    method LdHlNn() returns (cycles: int)
      requires Valid()
      modifies this
      ensures Valid() && Executed(State(), Normal, cycles) == LoadPair(old(State()), HL, true)
    {
      ghost var m := State();
      programCounter := Incremented(programCounter);
      hl := LdR16Nn(ReadWord(ram[..], programCounter.Word()));
      programCounter := Incremented(programCounter);
      cycles := 3;
      assert State() == m.(af := af, hl := hl, pc := programCounter);
    }

    /** 0x22, LDI (HL),A. */
    method LdiHlA() returns (cycles: int)
      requires Valid()
      modifies this, ram
      ensures Valid() && Executed(State(), Normal, cycles) == StoreAndIncrement(old(State()))
    {
      ghost var m := State();
      ram[hl.Word()] := af.high;
      hl := IncR16(hl);
      cycles := 2;
      assert State() == m.(hl := hl, mem := ram[..]);
    }

    /** 0x23, INC HL. */
    method IncHl() returns (cycles: int)
      requires Valid()
      modifies this
      ensures Valid() && Executed(State(), Normal, cycles) == IncrementPair(old(State()), HL)
    {
      ghost var m := State();
      hl := IncR16(hl);
      cycles := 2;
      assert State() == m.(hl := hl);
    }

    /** 0x24, INC H. */
    method IncH() returns (cycles: int)
      requires Valid()
      modifies this
      ensures Valid() && Executed(State(), Normal, cycles) == IncrementHalf(old(State()), H)
    {
      ghost var m := State();
      var h := IncR8(hl.high);
      hl := hl.(high := h);
      cycles := 1;
      assert State() == m.(hl := hl, af := af);
    }

    /** 0x25, DEC H: applied to L. */
    method DecH() returns (cycles: int)
      requires Valid()
      modifies this
      ensures Valid() && Executed(State(), Normal, cycles) == DecrementHalf(old(State()), L)
    {
      ghost var m := State();
      var l := DecR8(hl.low);
      hl := hl.(low := l);
      cycles := 1;
      assert State() == m.(hl := hl, af := af);
    }

    /** 0x26, LD H,n: flags untouched. */
    method LdHN() returns (cycles: int)
      requires Valid()
      modifies this
      ensures Valid() && Executed(State(), Normal, cycles) == LoadHalf(old(State()), H, false)
    {
      ghost var m := State();
      programCounter := Incremented(programCounter);
      hl := hl.(high := ram[programCounter.Word()]);
      cycles := 2;
      assert State() == m.(pc := programCounter, hl := hl);
    }

    /** 0x27, DAA. */
    method DecimalAdjustA() returns (cycles: int)
      requires Valid()
      modifies this
      ensures Valid() && Executed(State(), Normal, cycles) == SetAccumulator(old(State()), Daa(old(af.high), old(af.low)), 1)
    {
      ghost var m := State();
      DecimalAdjust();
      cycles := 1;
      assert State() == m.(af := af);
    }

    /** 0x28, JR Z,n. */
    method JrZ() returns (cycles: int, status: Status)
      requires Valid()
      modifies this
      ensures Valid() && Executed(State(), status, cycles) == RelativeJump(old(State()), FlagZ(old(af.low)))
    {
      programCounter := Incremented(programCounter);
      var jumpval := ram[programCounter.Word()];
      status := Normal;
      if IsBitSet(af.low, FLAG_Z) {
        status := JumpBy(jumpval);
      }
      cycles := if status.Threw? then 0 else 3;
    }

    /** 0x29, ADD HL,HL. */
    method AddHlHl() returns (cycles: int)
      requires Valid()
      modifies this
      ensures Valid() && Executed(State(), Normal, cycles) == AddToHl(old(State()), HL)
    {
      ghost var m := State();
      assert GetPair(m, HL) == m.hl;
      hl := AddR16R16(hl, hl);
      cycles := 2;
      AddToHlLeaves(m, HL, hl, af);
      assert State() == m.(hl := hl, af := af);
    }

    /** 0x2A, LDI A,(HL). */
    method LdiAHl() returns (cycles: int)
      requires Valid()
      modifies this
      ensures Valid() && Executed(State(), Normal, cycles) == LoadAndIncrement(old(State()))
    {
      ghost var m := State();
      af := af.(high := ram[hl.Word()]);
      hl := IncR16(hl);
      cycles := 2;
      assert State() == m.(af := af, hl := hl);
    }

    /** 0x2B, DEC HL. */
    method DecHl() returns (cycles: int)
      requires Valid()
      modifies this
      ensures Valid() && Executed(State(), Normal, cycles) == DecrementPair(old(State()), HL)
    {
      ghost var m := State();
      hl := DecR16(hl);
      cycles := 2;
      assert State() == m.(hl := hl);
    }

    /** 0x2C, INC L. */
    method IncL() returns (cycles: int)
      requires Valid()
      modifies this
      ensures Valid() && Executed(State(), Normal, cycles) == IncrementHalf(old(State()), L)
    {
      ghost var m := State();
      var l := IncR8(hl.low);
      hl := hl.(low := l);
      cycles := 1;
      assert State() == m.(hl := hl, af := af);
    }

    /** 0x2D, DEC L. */
    method DecL() returns (cycles: int)
      requires Valid()
      modifies this
      ensures Valid() && Executed(State(), Normal, cycles) == DecrementHalf(old(State()), L)
    {
      ghost var m := State();
      var l := DecR8(hl.low);
      hl := hl.(low := l);
      cycles := 1;
      assert State() == m.(hl := hl, af := af);
    }

    /** 0x2E, LD L,n: flags untouched. */
    method LdLN() returns (cycles: int)
      requires Valid()
      modifies this
      ensures Valid() && Executed(State(), Normal, cycles) == LoadHalf(old(State()), L, false)
    {
      ghost var m := State();
      programCounter := Incremented(programCounter);
      hl := hl.(low := ram[programCounter.Word()]);
      cycles := 2;
      assert State() == m.(pc := programCounter, hl := hl);
    }

    /** 0x2F, CPL. */
    method ComplementA() returns (cycles: int)
      requires Valid()
      modifies this
      ensures Valid() && Executed(State(), Normal, cycles) == SetAccumulator(old(State()), Cpl(old(af.high), old(af.low)), 1)
    {
      ghost var m := State();
      af := af.(high := !af.high);
      SetFlag(FLAG_N, true);
      SetFlag(FLAG_H, true);
      cycles := 1;
      assert State() == m.(af := af);
    }

    /** The body of JR once the displacement is read: a negative one is
        subtracted as Math.Abs of it, which throws for -128. */
    method JumpBy(jumpval: bv8) returns (status: Status)
      modifies this`programCounter
      ensures jumpval == 0x80 ==> status == Threw(OverflowException) && programCounter == old(programCounter)
      ensures jumpval != 0x80 ==> status == Normal && programCounter == Jump(old(programCounter), jumpval)
    {
      var signed := Signed(jumpval);
      if signed < 0 {
        if signed == -128 {
          return Threw(OverflowException);
        }
        programCounter := Register.FromWord(Wrap16(programCounter.Word() - (-signed)));
      } else {
        programCounter := Register.FromWord(Wrap16(programCounter.Word() + signed));
      }
      status := Normal;
    }

    /** The DAA case, step by step on AF: the correction for the last
        operation (subtraction when N is set), then Z from the result. */
    method DecimalAdjust()
      modifies this`af
      ensures af == Register(Daa(old(af.high), old(af.low)).value, Daa(old(af.high), old(af.low)).flags)
    {
      if IsBitSet(af.low, FLAG_N) {
        AdjustAfterSubtract();
      } else {
        AdjustAfterAdd();
      }
      SetFlag(FLAG_Z, af.high == 0);
    }

    /** The N-set branch of DAA. */
    method AdjustAfterSubtract()
      modifies this`af
      ensures af == Register(DaaAfterSubtract(old(af.high), old(af.low)).value,
                             DaaAfterSubtract(old(af.high), old(af.low)).flags)
    {
      if af.high & 0x0F > 0x09 || af.low & 0x20 != 0 {
        af := af.(high := af.high - 0x06);
        SetFlag(FLAG_C, af.high & 0xF0 == 0xF0);
      }
      if af.high & 0xF0 > 0x90 || af.high & 0x10 != 0 {
        af := af.(high := af.high - 0x60);
      }
    }

    /** The N-clear branch of DAA. */
    method AdjustAfterAdd()
      modifies this`af
      ensures af == Register(DaaAfterAdd(old(af.high), old(af.low)).value,
                             DaaAfterAdd(old(af.high), old(af.low)).flags)
    {
      ghost var a, f := af.high, af.low;
      if af.high & 0x0F > 9 || af.high & 0x20 != 0 {
        af := af.(high := af.high + 0x06);
        SetFlag(FLAG_C, af.high & 0xF0 == 0);
      }
      assert af.high == if a & 0x0F > 9 || a & 0x20 != 0 then a + 0x06 else a;
      assert af.low == if a & 0x0F > 9 || a & 0x20 != 0 then SetBit(f, FLAG_C, (a + 0x06) & 0xF0 == 0) else f;
      if af.high & 0xF0 > 0x90 || IsBitSet(af.low, FLAG_C) {
        af := af.(high := af.high + 0x60);
      }
    }

    // ------------------------------------------------------- ALU helpers

    /** Utility.SetBit on the flag byte. */
    method SetFlag(i: bv8, on: bool)
      requires i < 8
      modifies this`af
      ensures af == old(af).(low := SetBit(old(af.low), i, on))
    {
      af := af.(low := SetBit(af.low, i, on));
    }

    /** The two SetBit calls that clear Z and N in the loads. */
    method ClearZeroAndSubtract()
      modifies this`af
      ensures af == old(af).(low := ClearZN(old(af.low)))
    {
      SetFlag(FLAG_Z, false);
      SetFlag(FLAG_N, false);
    }

    /** ADD_R16_R16: the new value of the first operand, flags in AF. */
    method AddR16R16(r16a: Register, r16b: Register) returns (r: Register)
      modifies this`af
      ensures r == AddWord(r16a, r16b) && af == old(af).(low := AddFlags(r16a, r16b, old(af.low)))
    {
      ghost var f := af.low;
      SetFlag(FLAG_N, false);
      SetFlag(FLAG_H, HalfCarry16(r16a, r16b));
      var sum := r16a.Word() + r16b.Word();
      if sum > 0xFFFF {
        SetFlag(FLAG_C, true);
        assert af.low == CarryFlags(f, HalfCarry16(r16a, r16b), true);
      } else {
        assert af.low == CarryFlags(f, HalfCarry16(r16a, r16b), false);
      }
      // sum - 0xFFFF on a carry, sum otherwise: AddWordOnCarry, AddWordNoCarry.
      r := AddWord(r16a, r16b);
    }

    /** INC_R16: 0xFFFF goes to 0 by hand, anything else by ++Word; the
        same as the wrapping increment. */
    method IncR16(r16: Register) returns (r: Register)
      ensures r == Incremented(r16)
    {
      if r16.Word() == 0xFFFF {
        IncrementWraps(r16);
        r := Register(0, 0);  // Word = 0
      } else {
        r := Incremented(r16);
      }
    }

    /** DEC_R16: 0 goes to 0xFFFF by hand, anything else by --Word; the
        same as the wrapping decrement. */
    method DecR16(r16: Register) returns (r: Register)
      ensures r == Decremented(r16)
    {
      if r16.Word() == 0 {
        DecrementWraps(r16);
        r := Register(0xFF, 0xFF);  // Word = 0xFFFF
      } else {
        r := Decremented(r16);
      }
    }

    /** LD_R16_NN: the new value of the pair, with Z and N cleared. */
    method LdR16Nn(nn: u16) returns (r: Register)
      modifies this`af
      ensures r.Word() == nn && af == old(af).(low := ClearZN(old(af.low)))
    {
      ClearZeroAndSubtract();
      r := Register.FromWord(nn);
    }

    /** INC_R8: the new value of the byte, flags in AF. */
    method IncR8(r8: bv8) returns (r: bv8)
      modifies this`af
      ensures ByteResult(r, af.low) == Inc8(r8, old(af.low)) && af.high == old(af.high)
    {
      SetFlag(FLAG_H, r8 & 0x0F == 0x0F);
      SetFlag(FLAG_N, false);
      if r8 == 0xFF {
        r := 0;
        SetFlag(FLAG_Z, true);
      } else {
        r := r8 + 1;
        SetFlag(FLAG_Z, false);
      }
    }

    /** DEC_R8: the new value of the byte, flags in AF. */
    method DecR8(r8: bv8) returns (r: bv8)
      modifies this`af
      ensures ByteResult(r, af.low) == Dec8(r8, old(af.low)) && af.high == old(af.high)
    {
      if r8 == 0 {
        SetFlag(FLAG_Z, false);
      }
      SetFlag(FLAG_H, r8 & 0x0F == 0);
      SetFlag(FLAG_N, true);
      if r8 == 0 {
        r := 0xFF;
      } else {
        r := r8 - 1;
        if r == 0 {
          SetFlag(FLAG_Z, true);
        }
      }
    }

    /** RLC_R8: the new value of the byte, flags in AF. */
    method RlcR8(r8: bv8) returns (r: bv8)
      modifies this`af
      ensures ByteResult(r, af.low) == Rlc8(r8, old(af.low)) && af.high == old(af.high)
    {
      var carrySet := IsBitSet(af.low, FLAG_C);
      var msbSet := IsBitSet(r8, 7);
      af := af.(low := 0);
      r := r8 << 1;
      if msbSet {
        SetFlag(FLAG_C, true);
      }
      if carrySet {
        r := SetBit(r, 0, true);
      }
      if r == 0 {
        SetFlag(FLAG_Z, true);
      }
    }

    /** RRC_R8: the new value of the byte, flags in AF. */
    method RrcR8(r8: bv8) returns (r: bv8)
      modifies this`af
      ensures ByteResult(r, af.low) == Rrc8(r8, old(af.low)) && af.high == old(af.high)
    {
      var carrySet := IsBitSet(af.low, FLAG_C);
      var lsbSet := IsBitSet(r8, 0);
      af := af.(low := 0);
      r := r8 >> 1;
      if lsbSet {
        SetFlag(FLAG_C, true);
      }
      if carrySet {
        r := SetBit(r, 7, true);
      }
      if r == 0 {
        SetFlag(FLAG_Z, true);
      }
    }

    /** RL_R8: the new value of the byte, flags in AF. */
    method RlR8(r8: bv8) returns (r: bv8)
      modifies this`af
      ensures ByteResult(r, af.low) == Rl8(r8) && af.high == old(af.high)
    {
      af := af.(low := 0);
      var msbSet := IsBitSet(r8, 7);
      r := r8 << 1;
      if msbSet {
        SetFlag(FLAG_C, true);
        r := SetBit(r, 0, true);
      }
      if r == 0 {
        SetFlag(FLAG_Z, true);
      }
    }

    /** RR_R8: the new value of the byte, flags in AF. */
    method RrR8(r8: bv8) returns (r: bv8)
      modifies this`af
      ensures ByteResult(r, af.low) == Rr8(r8) && af.high == old(af.high)
    {
      af := af.(low := 0);
      var lsbSet := IsBitSet(r8, 0);
      r := r8 >> 1;
      if lsbSet {
        SetFlag(FLAG_C, true);
        r := SetBit(r, 7, true);
      }
      if r == 0 {
        SetFlag(FLAG_Z, true);
      }
    }

    // ------------------------------------------------------------- stack

    method Call(address: u16)
      requires Valid()
      modifies this, ram
      ensures Valid() && State() == Semantics.Call(old(State()), address)
    {
      Push(programCounter.Word());
      programCounter := Register.FromWord(address);
    }

    method Ret()
      requires Valid()
      modifies this
      ensures Valid() && State() == Semantics.Ret(old(State()))
    {
      var address := Pop();
      programCounter := Register.FromWord(address);
    }

    method Reti()
      requires Valid()
      modifies this
      ensures Valid() && State() == Semantics.Reti(old(State()))
    {
      interruptMasterEnable := true;
      Ret();
    }

    method Push(nn: u16)
      requires Valid()
      modifies this, ram
      ensures Valid() && State() == Semantics.Push(old(State()), nn)
    {
      ghost var m := State();
      var sp: int := stackPointer.Word();
      assert m.sp == stackPointer;
      ram[Wrap16(sp - 1)] := (nn / 256) as bv8;
      ram[Wrap16(sp - 2)] := (nn % 256) as bv8;
      assert ram[..] == m.mem[Wrap16(sp - 1) := (nn / 256) as bv8][Wrap16(sp - 2) := (nn % 256) as bv8];
      stackPointer := Register.FromWord(Wrap16(sp - 2));
      assert State() == m.(mem := ram[..], sp := stackPointer);
      assert Semantics.Push(m, nn).sp == stackPointer;
      assert Semantics.Push(m, nn).mem == ram[..];
    }

    method Pop() returns (value: u16)
      requires Valid()
      modifies this
      ensures Valid() && Popped(value, State()) == Semantics.Pop(old(State()))
    {
      ghost var m := State();
      var sp: int := stackPointer.Word();
      assert m.sp == stackPointer;
      assert ram[Wrap16(sp + 1)] == m.mem[Wrap16(sp + 1)];
      assert ram[sp] == m.mem[sp];
      var ret := ram[Wrap16(sp + 1)] as int * 256;
      value := ret + ram[sp] as int;
      assert value == m.mem[Wrap16(sp + 1)] as int * 256 + m.mem[sp] as int;
      assert value == Semantics.Pop(m).value;
      stackPointer := Register.FromWord(Wrap16(sp + 2));
      assert State() == m.(sp := stackPointer);
    }

    // -------------------------------------------------- timers, interrupts

    /** DoInterrupts: scan the enable byte from bit 0 and service the first
        set bit. The cycle count is not used. */
    method DoInterrupts(cycles: int) returns (status: Status)
      requires Valid()
      modifies this, ram
      ensures Valid() && Outcome(State(), status) == ServiceInterrupt(old(State()))
    {
      status := Normal;
      if interruptMasterEnable {
        var i: bv8 := 0;
        while i < 8
          invariant i <= 8
          invariant State() == old(State())
          invariant forall j: bv8 :: j < i ==> !IsBitSet(ram[INTERRUPT_ENABLE], j)
        {
          if IsBitSet(ram[INTERRUPT_ENABLE], i) {
            LowestSetBitIs(ram[INTERRUPT_ENABLE], 0, i);
            ram[INTERRUPT_FLAG] := SetBit(ram[INTERRUPT_FLAG], i, false);
            interruptMasterEnable := false;
            if i >= 5 {
              // InterruptAddresses has five entries.
              return Threw(IndexOutOfRangeException);
            }
            Call(INTERRUPT_ADDRESSES[i]);
            break;
          }
          i := i + 1;
        }
        if i == 8 {
          LowestSetBitIs(ram[INTERRUPT_ENABLE], 0, 8);
        }
      }
    }

    /** UpdateSpecialRegisters: the DIV countdown, then the TIMA countdown. */
    method UpdateSpecialRegisters(cycles: int)
      requires Valid()
      modifies this, ram
      ensures Valid() && State() == Timers(old(State()), cycles)
    {
      TickDivider(cycles);
      TickTimer(cycles);
    }

    /** The DIV half of UpdateSpecialRegisters. */
    method TickDivider(cycles: int)
      requires Valid()
      modifies this, ram
      ensures Valid() && State() == DivTick(old(State()), cycles)
    {
      ghost var m := State();
      divCounter := divCounter - cycles;
      if divCounter <= 0 {
        if ram[DIV_REG] == 0xFF {
          ram[DIV_REG] := 0;
        } else {
          ram[DIV_REG] := ram[DIV_REG] + 1;
        }
        divCounter := 256;
        assert ram[..] == DivTick(m, cycles).mem;
      }
    }

    /** The TIMA half of UpdateSpecialRegisters. */
    method TickTimer(cycles: int)
      requires Valid()
      modifies this, ram
      ensures Valid() && State() == TimaTick(old(State()), cycles)
    {
      timaCounter := timaCounter - cycles;
      if timaCounter <= 0 {
        ghost var m := State();
        BumpTima();
        timaCounter := CYCLES_PER_SECOND / TIMA_FREQUENCIES[(ram[TAC_REG] & 3) as int];
        assert State() == m.(mem := ram[..], timaCounter := TimaPeriod(ram[TAC_REG]));
      }
    }

    /** The register updates of UpdateSpecialRegisters once the TIMA
        countdown has run out. */
    method BumpTima()
      requires Valid()
      modifies ram
      ensures Valid() && ram[..] == TimaBumped(old(ram[..]))
    {
      if ram[TIMA_REG] == 0xFF {
        ram[TIMA_REG] := ram[TMA_REG];
        ram[INTERRUPT_FLAG] := SetBit(ram[INTERRUPT_FLAG], 2, true);
      } else {
        ram[TIMA_REG] := ram[TIMA_REG] + 1;
      }
    }
  }
}
