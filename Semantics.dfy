/**
 * What each block the code generator emits does when the Hack computer runs
 * it, stated against the VM's stack operations on RAM: push stores a value at
 * RAM[SP] and increments SP; pop decrements SP and copies RAM[SP] somewhere.
 */
module Semantics {
  import opened Wrappers
  import opened Words
  import opened Hack
  import opened CodeGen
  import Text

  // ---------------------------------------------------------------------------
  // The VM's stack operations on RAM

  /** Store `v` at RAM[SP], then increment SP. */
  function PushValue(ram: Ram, v: Word): Ram {
    var r := ram[ram[SP] := v];
    r[SP := Add(r[SP], 1)]
  }

  /** Decrement SP, then copy RAM[SP] into RAM[dest]. */
  function PopInto(ram: Ram, dest: Word): Ram {
    var r := ram[SP := Sub(ram[SP], 1)];
    r[dest := r[r[SP]]]
  }

  /**
   * `after` is `before` with `v` pushed: SP one higher, `v` in the cell SP
   * pointed to, every other cell unchanged.
   */
  predicate Pushed(before: Ram, after: Ram, v: Word) {
    && after[SP] == Add(before[SP], 1)
    && after[before[SP]] == v
    && forall a: Word :: a != SP && a != before[SP] ==> after[a] == before[a]
  }

  /**
   * `after` is `before` with its top popped into `dest`: SP one lower, the
   * old top value in `dest`, every other cell unchanged.
   */
  predicate Popped(before: Ram, after: Ram, dest: Word) {
    && after[SP] == Sub(before[SP], 1)
    && after[dest] == before[Sub(before[SP], 1)]
    && forall a: Word :: a != SP && a != dest ==> after[a] == before[a]
  }

  /** Unless SP points at itself, PushValue is a push. */
  lemma PushValueIsPush(ram: Ram, v: Word)
    requires ram[SP] != SP
    ensures Pushed(ram, PushValue(ram, v), v)
  {
  }

  /** Unless the stack top or the destination is SP itself, PopInto is a pop. */
  lemma PopIntoIsPop(ram: Ram, dest: Word)
    requires ram[SP] != 1 && dest != SP
    ensures Popped(ram, PopInto(ram, dest), dest)
  {
  }

  // ---------------------------------------------------------------------------
  // Running instructions one at a time

  lemma RunStep(code: seq<Instr>, base: nat, pc: nat, m: Machine, sym: map<string, Word>, m': Machine)
    requires base <= pc < base + |code|
    requires Next(code[pc - base], pc, m, sym) == Some((pc + 1, m'))
    ensures Run(code, base, pc, m, sym) == Run(code, base, pc + 1, m', sym)
  {
  }

  lemma RunJump(code: seq<Instr>, base: nat, pc: nat, m: Machine, sym: map<string, Word>, target: nat)
    requires base <= pc < target <= base + |code|
    requires Next(code[pc - base], pc, m, sym) == Some((target, m))
    ensures Run(code, base, pc, m, sym) == Run(code, base, target, m, sym)
  {
  }

  lemma ResolvePredefined(sym: map<string, Word>)
    requires HasPredefined(sym)
    ensures Resolve("SP", sym) == Some(SP)
    ensures Resolve("LCL", sym) == Some(LCL)
    ensures Resolve("ARG", sym) == Some(ARG)
    ensures Resolve("THIS", sym) == Some(THIS)
    ensures Resolve("THAT", sym) == Some(THAT)
    ensures Resolve("R13", sym) == Some(R13)
    ensures Resolve("R14", sym) == Some(R14)
  {
    assert !Text.IsDigits("R13") by { assert "R13"[0] == 'R'; }
    assert !Text.IsDigits("R14") by { assert "R14"[0] == 'R'; }
  }

  /** A decimal numeral below 2^15 loads its own value. */
  lemma ResolveNumeral(k: nat, sym: map<string, Word>)
    requires k < 0x8000
    ensures Resolve(Text.NatToString(k), sym) == Some(k)
  {
    Text.NatToStringRoundTrip(k);
  }

  // ---------------------------------------------------------------------------
  // Generic push and pop

  /** The shared tail of every push: store D at RAM[SP], then SP := SP + 1. */
  lemma PushDEffect(base: nat, m: Machine, sym: map<string, Word>)
    requires HasPredefined(sym)
    ensures Exec(PushD, base, m, sym) == Some(Machine(SP, m.d, PushValue(m.ram, m.d)))
  {
    ResolvePredefined(sym);
    var m1 := m.(a := SP);
    var m2 := m1.(a := m.ram[SP]);
    var m3 := m2.(ram := m.ram[m.ram[SP] := m.d]);
    var m4 := m3.(a := SP);
    var m5 := m4.(ram := PushValue(m.ram, m.d));
    RunStep(PushD, base, base, m, sym, m1);
    RunStep(PushD, base, base + 1, m1, sym, m2);
    RunStep(PushD, base, base + 2, m2, sym, m3);
    RunStep(PushD, base, base + 3, m3, sym, m4);
    RunStep(PushD, base, base + 4, m4, sym, m5);
  }

  /**
   * A generic push loads the cell `arg` names (D=M), or with `constant` the
   * value `arg` itself (D=A), stores it at RAM[SP] and increments SP.
   */
  lemma PushCommandEffect(arg: string, constant: bool, base: nat, m: Machine, sym: map<string, Word>, x: Word)
    requires HasPredefined(sym) && Resolve(arg, sym) == Some(x)
    ensures Exec(PushCommand(arg, constant), base, m, sym).Some?
    ensures Exec(PushCommand(arg, constant), base, m, sym).value.ram
         == PushValue(m.ram, if constant then x else m.ram[x])
  {
    var load := [At(arg), if constant then Compute(DestD, RegA) else Compute(DestD, RegM)];
    assert PushCommand(arg, constant) == load + PushD;
    var m1 := m.(a := x);
    var m2 := m1.(d := if constant then x else m.ram[x]);
    RunStep(load, base, base, m, sym, m1);
    RunStep(load, base, base + 1, m1, sym, m2);
    ExecConcat(load, PushD, base, m, sym);
    PushDEffect(base + 2, m2, sym);
  }

  /** A generic pop decrements SP, then copies RAM[SP] into the cell `variable` names. */
  lemma PopCommandEffect(variable: string, base: nat, m: Machine, sym: map<string, Word>, x: Word)
    requires HasPredefined(sym) && Resolve(variable, sym) == Some(x)
    ensures Exec(PopCommand(variable), base, m, sym).Some?
    ensures Exec(PopCommand(variable), base, m, sym).value.ram == PopInto(m.ram, x)
  {
    ResolvePredefined(sym);
    var code := PopCommand(variable);
    var sp := Sub(m.ram[SP], 1);
    var r := m.ram[SP := sp];
    var m1 := m.(a := SP);
    var m2 := m1.(ram := r);
    var m3 := m2.(a := sp);
    var m4 := m3.(d := r[sp]);
    var m5 := m4.(a := x);
    var m6 := m5.(ram := PopInto(m.ram, x));
    RunStep(code, base, base, m, sym, m1);
    RunStep(code, base, base + 1, m1, sym, m2);
    RunStep(code, base, base + 2, m2, sym, m3);
    RunStep(code, base, base + 3, m3, sym, m4);
    RunStep(code, base, base + 4, m4, sym, m5);
    RunStep(code, base, base + 5, m5, sym, m6);
  }

  // ---------------------------------------------------------------------------
  // Segment-specific push and pop

  /** Push of local/argument/this/that: reads RAM[RAM[base] + offset]. */
  lemma SegmentPushEffect(segment: string, offset: string, base: nat, m: Machine, sym: map<string, Word>, b: Word, k: Word)
    requires HasPredefined(sym) && Resolve(segment, sym) == Some(b) && Resolve(offset, sym) == Some(k)
    ensures Exec(SegmentPushCommand(segment, offset), base, m, sym).Some?
    ensures Exec(SegmentPushCommand(segment, offset), base, m, sym).value.ram
         == PushValue(m.ram, m.ram[Add(m.ram[b], k)])
  {
    var load := [At(segment), Compute(DestD, RegM), At(offset), Compute(DestA, DPlusA), Compute(DestD, RegM)];
    assert SegmentPushCommand(segment, offset) == load + PushD;
    var address := Add(m.ram[b], k);
    var m1 := m.(a := b);
    var m2 := m1.(d := m.ram[b]);
    var m3 := m2.(a := k);
    var m4 := m3.(a := address);
    var m5 := m4.(d := m.ram[address]);
    RunStep(load, base, base, m, sym, m1);
    RunStep(load, base, base + 1, m1, sym, m2);
    RunStep(load, base, base + 2, m2, sym, m3);
    RunStep(load, base, base + 3, m3, sym, m4);
    RunStep(load, base, base + 4, m4, sym, m5);
    ExecConcat(load, PushD, base, m, sym);
    PushDEffect(base + 5, m5, sym);
  }

  /** D := RAM[segment] + offset. */
  lemma AddressEffect(segment: string, offset: string, base: nat, m: Machine, sym: map<string, Word>, b: Word, k: Word)
    requires Resolve(segment, sym) == Some(b) && Resolve(offset, sym) == Some(k)
    ensures var address := [At(segment), Compute(DestD, RegM), At(offset), Compute(DestD, DPlusA)];
      Exec(address, base, m, sym) == Some(Machine(k, Add(m.ram[b], k), m.ram))
  {
    var address := [At(segment), Compute(DestD, RegM), At(offset), Compute(DestD, DPlusA)];
    var m1 := m.(a := b);
    var m2 := m1.(d := m.ram[b]);
    var m3 := m2.(a := k);
    var m4 := m3.(d := Add(m.ram[b], k));
    RunStep(address, base, base, m, sym, m1);
    RunStep(address, base, base + 1, m1, sym, m2);
    RunStep(address, base, base + 2, m2, sym, m3);
    RunStep(address, base, base + 3, m3, sym, m4);
  }

  /** RAM[variable] := D. */
  lemma StoreEffect(variable: string, base: nat, m: Machine, sym: map<string, Word>, x: Word)
    requires Resolve(variable, sym) == Some(x)
    ensures Exec([At(variable), Compute(DestM, RegD)], base, m, sym) == Some(Machine(x, m.d, m.ram[x := m.d]))
  {
    var store := [At(variable), Compute(DestM, RegD)];
    var m1 := m.(a := x);
    var m2 := m1.(ram := m.ram[x := m.d]);
    RunStep(store, base, base, m, sym, m1);
    RunStep(store, base, base + 1, m1, sym, m2);
  }

  /** The first half of a segment pop: R13 := RAM[segment] + offset. */
  lemma StageAddressEffect(segment: string, offset: string, base: nat, m: Machine, sym: map<string, Word>, b: Word, k: Word)
    requires HasPredefined(sym) && Resolve(segment, sym) == Some(b) && Resolve(offset, sym) == Some(k)
    ensures var stage := [At(segment), Compute(DestD, RegM), At(offset), Compute(DestD, DPlusA), At("R13"), Compute(DestM, RegD)];
      && Exec(stage, base, m, sym).Some?
      && Exec(stage, base, m, sym).value.ram == m.ram[R13 := Add(m.ram[b], k)]
  {
    ResolvePredefined(sym);
    var address := [At(segment), Compute(DestD, RegM), At(offset), Compute(DestD, DPlusA)];
    var store := [At("R13"), Compute(DestM, RegD)];
    AddressEffect(segment, offset, base, m, sym, b, k);
    StoreEffect("R13", base + |address|, Exec(address, base, m, sym).value, sym, R13);
    ExecConcat(address, store, base, m, sym);
    assert address + store == [At(segment), Compute(DestD, RegM), At(offset), Compute(DestD, DPlusA), At("R13"), Compute(DestM, RegD)];
  }

  /** Decrement SP, then load the value it points to into D. */
  lemma PopLoadEffect(base: nat, m: Machine, sym: map<string, Word>)
    requires HasPredefined(sym)
    ensures var load := [At("SP"), Compute(DestM, MMinusOne), At("SP"), Compute(DestA, RegM), Compute(DestD, RegM)];
      var r := m.ram[SP := Sub(m.ram[SP], 1)];
      Exec(load, base, m, sym) == Some(Machine(r[SP], r[r[SP]], r))
  {
    ResolvePredefined(sym);
    var load := [At("SP"), Compute(DestM, MMinusOne), At("SP"), Compute(DestA, RegM), Compute(DestD, RegM)];
    var r := m.ram[SP := Sub(m.ram[SP], 1)];
    var m1 := m.(a := SP);
    var m2 := m1.(ram := r);
    var m3 := m2.(a := SP);
    var m4 := m3.(a := r[SP]);
    var m5 := m4.(d := r[r[SP]]);
    RunStep(load, base, base, m, sym, m1);
    RunStep(load, base, base + 1, m1, sym, m2);
    RunStep(load, base, base + 2, m2, sym, m3);
    RunStep(load, base, base + 3, m3, sym, m4);
    RunStep(load, base, base + 4, m4, sym, m5);
  }

  /** Store D in the cell whose address R13 holds. */
  lemma StoreThroughR13Effect(base: nat, m: Machine, sym: map<string, Word>)
    requires HasPredefined(sym)
    ensures var store := [At("R13"), Compute(DestA, RegM), Compute(DestM, RegD)];
      Exec(store, base, m, sym) == Some(Machine(m.ram[R13], m.d, m.ram[m.ram[R13] := m.d]))
  {
    ResolvePredefined(sym);
    var store := [At("R13"), Compute(DestA, RegM), Compute(DestM, RegD)];
    var m1 := m.(a := R13);
    var m2 := m1.(a := m.ram[R13]);
    var m3 := m2.(ram := m.ram[m.ram[R13] := m.d]);
    RunStep(store, base, base, m, sym, m1);
    RunStep(store, base, base + 1, m1, sym, m2);
    RunStep(store, base, base + 2, m2, sym, m3);
  }

  /** The second half of a segment pop: pop into the cell whose address R13 holds. */
  lemma PopThroughR13Effect(base: nat, m: Machine, sym: map<string, Word>)
    requires HasPredefined(sym)
    ensures var tail := [At("SP"), Compute(DestM, MMinusOne), At("SP"), Compute(DestA, RegM), Compute(DestD, RegM),
                         At("R13"), Compute(DestA, RegM), Compute(DestM, RegD)];
      && Exec(tail, base, m, sym).Some?
      && Exec(tail, base, m, sym).value.ram == PopInto(m.ram, m.ram[R13])
  {
    var load := [At("SP"), Compute(DestM, MMinusOne), At("SP"), Compute(DestA, RegM), Compute(DestD, RegM)];
    var store := [At("R13"), Compute(DestA, RegM), Compute(DestM, RegD)];
    PopLoadEffect(base, m, sym);
    var m1 := Exec(load, base, m, sym).value;
    StoreThroughR13Effect(base + |load|, m1, sym);
    ExecConcat(load, store, base, m, sym);
    assert load + store == [At("SP"), Compute(DestM, MMinusOne), At("SP"), Compute(DestA, RegM), Compute(DestD, RegM),
                            At("R13"), Compute(DestA, RegM), Compute(DestM, RegD)];
  }

  /**
   * Pop of local/argument/this/that: stages the address RAM[base] + offset in
   * R13 before SP is decremented, then writes the popped value there.
   */
  lemma SegmentPopEffect(segment: string, offset: string, base: nat, m: Machine, sym: map<string, Word>, b: Word, k: Word)
    requires HasPredefined(sym) && Resolve(segment, sym) == Some(b) && Resolve(offset, sym) == Some(k)
    ensures Exec(SegmentPopCommand(segment, offset), base, m, sym).Some?
    ensures Exec(SegmentPopCommand(segment, offset), base, m, sym).value.ram
         == PopInto(m.ram[R13 := Add(m.ram[b], k)], Add(m.ram[b], k))
  {
    var stage := [At(segment), Compute(DestD, RegM), At(offset), Compute(DestD, DPlusA), At("R13"), Compute(DestM, RegD)];
    var tail := [At("SP"), Compute(DestM, MMinusOne), At("SP"), Compute(DestA, RegM), Compute(DestD, RegM),
                 At("R13"), Compute(DestA, RegM), Compute(DestM, RegD)];
    assert SegmentPopCommand(segment, offset) == stage + tail;
    StageAddressEffect(segment, offset, base, m, sym, b, k);
    ExecConcat(stage, tail, base, m, sym);
    PopThroughR13Effect(base + 6, Exec(stage, base, m, sym).value, sym);
  }

  // ---------------------------------------------------------------------------
  // Segments: which cell `segment offset` denotes

  /** The cell holding the base address of local/argument/this/that. */
  function SegmentBase(segment: string): Option<Word> {
    if segment == "local" then Some(LCL)
    else if segment == "argument" then Some(ARG)
    else if segment == "this" then Some(THIS)
    else if segment == "that" then Some(THAT)
    else None
  }

  /**
   * The RAM cell `segment offset` denotes: RAM[base] + offset for the four
   * pointer-based segments, 5 + offset for temp, THIS or THAT for pointer,
   * the assembler variable <filename>.<offset> for static. None for constant
   * and unknown segments, and where the assembler could not resolve the
   * address the block loads.
   */
  function SegmentCell(segment: string, offset: string, filename: string, ram: Ram, sym: map<string, Word>): Option<Word> {
    if SegmentBase(segment).Some? then
      match Resolve(offset, sym)
      case Some(k) => Some(Add(ram[SegmentBase(segment).value], k))
      case None => None
    else if segment == "temp" then
      match Text.ParseInt(offset)
      case Some(i) => if 0 <= TempBaseAddress + i < 0x8000 then Some(TempBaseAddress + i) else None
      case None => None
    else if segment == "pointer" then Some(if offset == "0" then THIS else THAT)
    else if segment == "static" then
      var name := StaticName(filename, offset);
      if name in sym then Some(sym[name]) else None
    else None
  }

  /** The value `push segment offset` pushes: the literal for constant, else the cell's contents. */
  function PushSource(segment: string, offset: string, filename: string, ram: Ram, sym: map<string, Word>): Option<Word> {
    if segment == "constant" then Resolve(offset, sym)
    else
      match SegmentCell(segment, offset, filename, ram, sym)
      case Some(c) => Some(ram[c])
      case None => None
  }

  /** RAM as a pop leaves it before the popped value is stored: R13 staged for the pointer-based segments. */
  function Staged(segment: string, ram: Ram, address: Word): Ram {
    if SegmentBase(segment).Some? then ram[R13 := address] else ram
  }

  lemma SegmentMappingBase(segment: string, sym: map<string, Word>)
    requires HasPredefined(sym)
    ensures SegmentMapping(segment).Some? <==> SegmentBase(segment).Some?
    ensures SegmentMapping(segment).Some? ==> Resolve(SegmentMapping(segment).value, sym) == SegmentBase(segment)
  {
    ResolvePredefined(sym);
  }

  /** A static variable's name has a dot in it, so it is looked up as a symbol. */
  lemma ResolveStatic(filename: string, arg: string, sym: map<string, Word>)
    ensures var name := StaticName(filename, arg);
      Resolve(name, sym) == if name in sym then Some(sym[name]) else None
  {
    var name := StaticName(filename, arg);
    assert name[|filename|] == '.';
    assert !Text.IsDigits(name);
  }

  lemma ResolvePointer(arg: string, sym: map<string, Word>)
    requires HasPredefined(sym)
    ensures Resolve(ThisOrThat(arg), sym) == Some(if arg == "0" then THIS else THAT)
  {
    ResolvePredefined(sym);
  }

  /** Temp offset i is written as the absolute address 5 + i. */
  lemma ResolveTemp(offset: string, sym: map<string, Word>, i: int)
    requires Text.ParseInt(offset) == Some(i) && 0 <= TempBaseAddress + i < 0x8000
    ensures TempAddress(offset).Ok?
    ensures Resolve(TempAddress(offset).value, sym) == Some(TempBaseAddress + i)
  {
    ResolveNumeral(TempBaseAddress + i, sym);
  }

  // ---------------------------------------------------------------------------
  // Push and pop commands

  /**
   * Every push whose source exists assembles and runs to the end of its
   * block, leaving RAM as if the source value had been pushed.
   */
  lemma PushCorrect(segment: string, offset: string, filename: string, base: nat, m: Machine, sym: map<string, Word>)
    requires HasPredefined(sym)
    requires PushSource(segment, offset, filename, m.ram, sym).Some?
    ensures PushCommands(segment, offset, filename).Ok?
    ensures var r := Exec(PushCommands(segment, offset, filename).value, base, m, sym);
      r.Some? && r.value.ram == PushValue(m.ram, PushSource(segment, offset, filename, m.ram, sym).value)
  {
    SegmentMappingBase(segment, sym);
    var v := PushSource(segment, offset, filename, m.ram, sym).value;
    if segment == "constant" {
      PushCommandEffect(offset, true, base, m, sym, v);
    } else if SegmentBase(segment).Some? {
      var b := SegmentBase(segment).value;
      SegmentPushEffect(SegmentMapping(segment).value, offset, base, m, sym, b, Resolve(offset, sym).value);
    } else if segment == "temp" {
      var i := Text.ParseInt(offset).value;
      ResolveTemp(offset, sym, i);
      PushCommandEffect(TempAddress(offset).value, false, base, m, sym, TempBaseAddress + i);
    } else if segment == "pointer" {
      ResolvePointer(offset, sym);
      PushCommandEffect(ThisOrThat(offset), false, base, m, sym, if offset == "0" then THIS else THAT);
    } else {
      ResolveStatic(filename, offset, sym);
      var name := StaticName(filename, offset);
      PushCommandEffect(name, false, base, m, sym, sym[name]);
    }
  }

  /**
   * Every pop whose destination exists assembles and runs to the end of its
   * block: SP is decremented, then the value it points to is copied into the
   * destination cell (after the staging of the address in R13 for the
   * pointer-based segments).
   */
  lemma PopCorrect(segment: string, offset: string, filename: string, base: nat, m: Machine, sym: map<string, Word>)
    requires HasPredefined(sym)
    requires SegmentCell(segment, offset, filename, m.ram, sym).Some?
    ensures PopCommands(segment, offset, filename).Ok?
    ensures var address := SegmentCell(segment, offset, filename, m.ram, sym).value;
      var r := Exec(PopCommands(segment, offset, filename).value, base, m, sym);
      r.Some? && r.value.ram == PopInto(Staged(segment, m.ram, address), address)
  {
    SegmentMappingBase(segment, sym);
    var address := SegmentCell(segment, offset, filename, m.ram, sym).value;
    if SegmentBase(segment).Some? {
      var b := SegmentBase(segment).value;
      SegmentPopEffect(SegmentMapping(segment).value, offset, base, m, sym, b, Resolve(offset, sym).value);
    } else if segment == "temp" {
      var i := Text.ParseInt(offset).value;
      ResolveTemp(offset, sym, i);
      PopCommandEffect(TempAddress(offset).value, base, m, sym, address);
    } else if segment == "pointer" {
      ResolvePointer(offset, sym);
      PopCommandEffect(ThisOrThat(offset), base, m, sym, address);
    } else {
      ResolveStatic(filename, offset, sym);
      PopCommandEffect(StaticName(filename, offset), base, m, sym, address);
    }
  }

  /** A push produces no code exactly for an unknown segment or a temp offset int() rejects. */
  lemma PushCommandsFail(segment: string, offset: string, filename: string)
    ensures PushCommands(segment, offset, filename).Err? <==>
      || !(segment in {"constant", "local", "argument", "this", "that", "temp", "pointer", "static"})
      || (segment == "temp" && Text.ParseInt(offset).None?)
  {
  }

  /**
   * A pop produces no code exactly for constant, an unknown segment, or a
   * temp offset int() rejects.
   */
  lemma PopCommandsFail(segment: string, offset: string, filename: string)
    ensures PopCommands(segment, offset, filename).Err? <==>
      || !(segment in {"local", "argument", "this", "that", "temp", "pointer", "static"})
      || (segment == "temp" && Text.ParseInt(offset).None?)
    ensures PopCommands("constant", offset, filename) == Err(UnknownSegment("constant"))
  {
  }

  /**
   * Push then pop of the same segment and offset restores SP and every cell
   * except the scratch cell R13 and the cell just above the stack top, which
   * keeps the value that went through the stack.
   */
  lemma PushPopRoundTrip(segment: string, offset: string, filename: string, base: nat, m: Machine, sym: map<string, Word>)
    requires HasPredefined(sym)
    requires SegmentCell(segment, offset, filename, m.ram, sym).Some?
    requires 16 <= m.ram[SP] < 0xFFFF
    ensures PushCommands(segment, offset, filename).Ok? && PopCommands(segment, offset, filename).Ok?
    ensures var code := PushCommands(segment, offset, filename).value + PopCommands(segment, offset, filename).value;
      var r := Exec(code, base, m, sym);
      && r.Some?
      && r.value.ram[SP] == m.ram[SP]
      && forall a: Word :: a != R13 && a != m.ram[SP] ==> r.value.ram[a] == m.ram[a]
  {
    var address := SegmentCell(segment, offset, filename, m.ram, sym).value;
    assert segment != "constant";
    PushCorrect(segment, offset, filename, base, m, sym);
    var push := PushCommands(segment, offset, filename).value;
    var m1 := Exec(push, base, m, sym).value;
    assert m1.ram == PushValue(m.ram, m.ram[address]);
    assert SegmentCell(segment, offset, filename, m1.ram, sym) == Some(address);
    PopCorrect(segment, offset, filename, base + |push|, m1, sym);
    var pop := PopCommands(segment, offset, filename).value;
    ExecConcat(push, pop, base, m, sym);
  }

  // ---------------------------------------------------------------------------
  // Arithmetic: the operator blocks

  /** The VM's two-operand operations on x (pushed first) and y (pushed second). */
  function BinaryValue(op: BinaryOp, x: Word, y: Word): Word {
    match op
    case AddOp => Add(x, y)
    case SubOp => Sub(x, y)
    case AndOp => And(x, y)
    case OrOp => Or(x, y)
  }

  /**
   * Whether `x cmp y` holds as the generated code decides it: by the sign of
   * the wrapped difference x - y.
   */
  predicate Holds(cmp: Comparison, x: Word, y: Word) {
    match cmp
    case EqOp => Sub(x, y) == 0
    case GtOp => Signed(Sub(x, y)) > 0
    case LtOp => Signed(Sub(x, y)) < 0
  }

  /** The VM's boolean encoding: true is -1 (all ones), false is 0. */
  function BoolWord(b: bool): Word { if b then True else 0 }

  lemma BinaryCommandEffect(op: BinaryOp, v1: string, v2: string, base: nat, m: Machine, sym: map<string, Word>, x1: Word, x2: Word)
    requires Resolve(v1, sym) == Some(x1) && Resolve(v2, sym) == Some(x2)
    ensures Exec(BinaryCommand(op, v1, v2), base, m, sym).Some?
    ensures Exec(BinaryCommand(op, v1, v2), base, m, sym).value.ram
         == m.ram[x1 := BinaryValue(op, m.ram[x1], m.ram[x2])]
  {
    var code := BinaryCommand(op, v1, v2);
    var m1 := m.(a := x2);
    var m2 := m1.(d := m.ram[x2]);
    var m3 := m2.(a := x1);
    var m4 := m3.(ram := m.ram[x1 := BinaryValue(op, m.ram[x1], m.ram[x2])]);
    AndCommutes(m.ram[x1], m.ram[x2]);
    OrCommutes(m.ram[x1], m.ram[x2]);
    RunStep(code, base, base, m, sym, m1);
    RunStep(code, base, base + 1, m1, sym, m2);
    RunStep(code, base, base + 2, m2, sym, m3);
    RunStep(code, base, base + 3, m3, sym, m4);
  }

  lemma NotCommandEffect(v1: string, base: nat, m: Machine, sym: map<string, Word>, x1: Word)
    requires Resolve(v1, sym) == Some(x1)
    ensures Exec(NotCommand(v1), base, m, sym).Some?
    ensures Exec(NotCommand(v1), base, m, sym).value.ram == m.ram[x1 := Not(m.ram[x1])]
  {
    var code := NotCommand(v1);
    var m1 := m.(a := x1);
    var m2 := m1.(ram := m.ram[x1 := Not(m.ram[x1])]);
    RunStep(code, base, base, m, sym, m1);
    RunStep(code, base, base + 1, m1, sym, m2);
  }

  lemma NegCommandEffect(v1: string, base: nat, m: Machine, sym: map<string, Word>, x1: Word)
    requires Resolve(v1, sym) == Some(x1)
    ensures Exec(NegCommand(v1), base, m, sym).Some?
    ensures Exec(NegCommand(v1), base, m, sym).value.ram == m.ram[x1 := Neg(m.ram[x1])]
  {
    var code := NegCommand(v1);
    var m1 := m.(a := x1);
    var m2 := m1.(ram := m.ram[x1 := Not(m.ram[x1])]);
    var m3 := m2.(ram := m.ram[x1 := Neg(m.ram[x1])]);
    assert m2.ram[x1 := Neg(m.ram[x1])] == m3.ram;
    RunStep(code, base, base, m, sym, m1);
    RunStep(code, base, base + 1, m1, sym, m2);
    RunStep(code, base, base + 2, m2, sym, m3);
  }

  /** The generated labels start with a letter, so the assembler looks them up. */
  lemma ResolveBlockLabels(n: nat, sym: map<string, Word>)
    ensures Resolve(ElseLabel(n), sym) == if ElseLabel(n) in sym then Some(sym[ElseLabel(n)]) else None
    ensures Resolve(OutsideLabel(n), sym) == if OutsideLabel(n) in sym then Some(sym[OutsideLabel(n)]) else None
  {
    assert ElseLabel(n)[0] == 'e';
    assert OutsideLabel(n)[0] == 'o';
  }

  /** The jump to the false branch is taken exactly when the comparison fails. */
  lemma ElseJumpTaken(cmp: Comparison, x: Word, y: Word)
    ensures Taken(ElseJump(cmp), Sub(x, y)) <==> !Holds(cmp, x, y)
  {
  }

  /** The comparison block line by line. */
  lemma ComparisonLines(cmp: Comparison, v1: string, v2: string, n: nat)
    ensures var code := ComparisonCommand(cmp, v1, v2, n);
      && |code| == 16
      && code[0] == At(v2) && code[1] == Compute(DestD, RegM)
      && code[2] == At(v1) && code[3] == Compute(DestD, MMinusD)
      && code[4] == At(ElseLabel(n)) && code[5] == Branch(RegD, ElseJump(cmp))
  {
  }

  lemma ComparisonBranchLines(cmp: Comparison, v1: string, v2: string, n: nat)
    ensures var code := ComparisonCommand(cmp, v1, v2, n);
      && |code| == 16
      && code[6] == At(v1) && code[7] == Compute(DestM, MinusOne)
      && code[8] == At(OutsideLabel(n)) && code[9] == Branch(Zero, JMP)
      && code[10] == Label(ElseLabel(n))
      && code[11] == At(v1) && code[12] == Compute(DestM, Zero)
      && code[13] == At(OutsideLabel(n)) && code[14] == Branch(Zero, JMP)
      && code[15] == Label(OutsideLabel(n))
  {
  }

  /** Lines 0-4 of the comparison block: D := x1 - x2, A := the false branch's address. */
  lemma ComparisonTest(cmp: Comparison, v1: string, v2: string, n: nat, base: nat, m: Machine, sym: map<string, Word>, x1: Word, x2: Word)
    requires Resolve(v1, sym) == Some(x1) && Resolve(v2, sym) == Some(x2)
    requires ElseLabel(n) in sym && sym[ElseLabel(n)] == base + 10
    ensures Exec(ComparisonCommand(cmp, v1, v2, n), base, m, sym)
         == Run(ComparisonCommand(cmp, v1, v2, n), base, base + 5, Machine(base + 10, Sub(m.ram[x1], m.ram[x2]), m.ram), sym)
  {
    var code := ComparisonCommand(cmp, v1, v2, n);
    assert Resolve(ElseLabel(n), sym) == Some(base + 10) by {
      ResolveBlockLabels(n, sym);
    }
    var m1 := m.(a := x2);
    var m2 := m1.(d := m.ram[x2]);
    var m3 := m2.(a := x1);
    var m4 := m3.(d := Sub(m.ram[x1], m.ram[x2]));
    var m5 := m4.(a := base + 10);
    ComparisonLines(cmp, v1, v2, n);
    RunStep(code, base, base, m, sym, m1);
    RunStep(code, base, base + 1, m1, sym, m2);
    RunStep(code, base, base + 2, m2, sym, m3);
    RunStep(code, base, base + 3, m3, sym, m4);
    RunStep(code, base, base + 4, m4, sym, m5);
  }

  /** Lines 6-9 and 15: the true branch stores -1 in variable1 and jumps past the false branch. */
  lemma ComparisonTrueBranch(cmp: Comparison, v1: string, v2: string, n: nat, base: nat, m: Machine, sym: map<string, Word>, x1: Word)
    requires Resolve(v1, sym) == Some(x1)
    requires OutsideLabel(n) in sym && sym[OutsideLabel(n)] == base + 15
    ensures Run(ComparisonCommand(cmp, v1, v2, n), base, base + 6, m, sym)
         == Some(Machine(base + 15, m.d, m.ram[x1 := True]))
  {
    var code := ComparisonCommand(cmp, v1, v2, n);
    ComparisonBranchLines(cmp, v1, v2, n);
    ResolveBlockLabels(n, sym);
    var m1 := m.(a := x1);
    var m2 := m1.(ram := m.ram[x1 := True]);
    var m3 := m2.(a := base + 15);
    RunStep(code, base, base + 6, m, sym, m1);
    RunStep(code, base, base + 7, m1, sym, m2);
    RunStep(code, base, base + 8, m2, sym, m3);
    RunJump(code, base, base + 9, m3, sym, base + 15);
    RunStep(code, base, base + 15, m3, sym, m3);
  }

  /** Lines 10-15: the false branch stores 0 in variable1. */
  lemma ComparisonFalseBranch(cmp: Comparison, v1: string, v2: string, n: nat, base: nat, m: Machine, sym: map<string, Word>, x1: Word)
    requires Resolve(v1, sym) == Some(x1)
    requires OutsideLabel(n) in sym && sym[OutsideLabel(n)] == base + 15
    ensures Run(ComparisonCommand(cmp, v1, v2, n), base, base + 10, m, sym)
         == Some(Machine(base + 15, m.d, m.ram[x1 := 0]))
  {
    var code := ComparisonCommand(cmp, v1, v2, n);
    ComparisonBranchLines(cmp, v1, v2, n);
    ResolveBlockLabels(n, sym);
    var m1 := m.(a := x1);
    var m2 := m1.(ram := m.ram[x1 := 0]);
    var m3 := m2.(a := base + 15);
    RunStep(code, base, base + 10, m, sym, m);
    RunStep(code, base, base + 11, m, sym, m1);
    RunStep(code, base, base + 12, m1, sym, m2);
    RunStep(code, base, base + 13, m2, sym, m3);
    RunJump(code, base, base + 14, m3, sym, base + 15);
    RunStep(code, base, base + 15, m3, sym, m3);
  }

  /**
   * The comparison block, with its two labels at their own lines, stores
   * -1 in variable1 when the comparison holds and 0 when it does not, and
   * changes no other cell.
   */
  lemma ComparisonCommandEffect(cmp: Comparison, v1: string, v2: string, n: nat, base: nat, m: Machine, sym: map<string, Word>, x1: Word, x2: Word)
    requires Resolve(v1, sym) == Some(x1) && Resolve(v2, sym) == Some(x2)
    requires ElseLabel(n) in sym && sym[ElseLabel(n)] == base + 10
    requires OutsideLabel(n) in sym && sym[OutsideLabel(n)] == base + 15
    ensures Exec(ComparisonCommand(cmp, v1, v2, n), base, m, sym).Some?
    ensures Exec(ComparisonCommand(cmp, v1, v2, n), base, m, sym).value.ram
         == m.ram[x1 := BoolWord(Holds(cmp, m.ram[x1], m.ram[x2]))]
  {
    var code := ComparisonCommand(cmp, v1, v2, n);
    var m5 := Machine(base + 10, Sub(m.ram[x1], m.ram[x2]), m.ram);
    ComparisonTest(cmp, v1, v2, n, base, m, sym, x1, x2);
    ElseJumpTaken(cmp, m.ram[x1], m.ram[x2]);
    if Holds(cmp, m.ram[x1], m.ram[x2]) {
      RunStep(code, base, base + 5, m5, sym, m5);
      ComparisonTrueBranch(cmp, v1, v2, n, base, m5, sym, x1);
    } else {
      RunJump(code, base, base + 5, m5, sym, base + 10);
      ComparisonFalseBranch(cmp, v1, v2, n, base, m5, sym, x1);
    }
  }

  // ---------------------------------------------------------------------------
  // Arithmetic: whole commands on the stack

  /** How many operands an arithmetic command pops. */
  function Arity(op: ArithOp): nat {
    if op.NegOp? || op.NotOp? then 1 else 2
  }

  /** The VM meaning of an arithmetic command: its result from the operands on top of the stack. */
  function ArithResult(op: ArithOp, ram: Ram): Word
    requires Arity(op) <= ram[SP]
  {
    var sp := ram[SP];
    match op
    case Binary(b) => BinaryValue(b, ram[sp - 2], ram[sp - 1])
    case Compare(c) => BoolWord(Holds(c, ram[sp - 2], ram[sp - 1]))
    case NegOp => Neg(ram[sp - 1])
    case NotOp => Not(ram[sp - 1])
  }

  /**
   * `r` is `ram` after the command: its operands replaced by its result, SP
   * just above the result, and nothing else changed but the scratch
   * registers R13 and R14.
   */
  predicate Applied(op: ArithOp, ram: Ram, r: Ram)
    requires Arity(op) <= ram[SP]
  {
    var top := ram[SP] - Arity(op);
    && r[SP] == top + 1
    && r[top] == ArithResult(op, ram)
    && forall a: Word :: a != SP && a != R13 && a != R14 && a != top ==> r[a] == ram[a]
  }

  /**
   * The RAM effect shared by the two-operand commands: pop into R13, pop
   * into R14, store `v` in R14, push R14.
   */
  lemma TwoOperandFrame(ram: Ram, v: Word)
    requires 18 <= ram[SP]
    ensures var r2 := PopInto(PopInto(ram, R13), R14);
      var r := PushValue(r2[R14 := v], v);
      && r2[R14] == ram[ram[SP] - 2] && r2[R13] == ram[ram[SP] - 1]
      && r[SP] == ram[SP] - 1
      && r[ram[SP] - 2] == v
      && forall a: Word :: a != SP && a != R13 && a != R14 && a != ram[SP] - 2 ==> r[a] == ram[a]
  {
  }

  /** The two pops that open a binary block leave the operands in R14 and R13. */
  lemma PopOperands(base: nat, m: Machine, sym: map<string, Word>)
    requires HasPredefined(sym)
    requires 18 <= m.ram[SP]
    ensures Exec(PopCommand("R13") + PopCommand("R14"), base, m, sym).Some?
    ensures Exec(PopCommand("R13") + PopCommand("R14"), base, m, sym).value.ram == PopInto(PopInto(m.ram, R13), R14)
  {
    ResolvePredefined(sym);
    var p13, p14 := PopCommand("R13"), PopCommand("R14");
    PopCommandEffect("R13", base, m, sym, R13);
    var m1 := Exec(p13, base, m, sym).value;
    PopCommandEffect("R14", base + |p13|, m1, sym, R14);
    ExecConcat(p13, p14, base, m, sym);
  }

  lemma BinaryArithmetic(b: BinaryOp, n: nat, base: nat, m: Machine, sym: map<string, Word>)
    requires HasPredefined(sym)
    requires 18 <= m.ram[SP]
    ensures Exec(ArithmeticCode(Binary(b), n), base, m, sym).Some?
    ensures Applied(Binary(b), m.ram, Exec(ArithmeticCode(Binary(b), n), base, m, sym).value.ram)
  {
    ResolvePredefined(sym);
    var p13, p14 := PopCommand("R13"), PopCommand("R14");
    var mid, push := BinaryCommand(b, "R14", "R13"), PushCommand("R14", false);
    var v := ArithResult(Binary(b), m.ram);
    TwoOperandFrame(m.ram, v);
    PopOperands(base, m, sym);
    var m2 := Exec(p13 + p14, base, m, sym).value;
    BinaryCommandEffect(b, "R14", "R13", base + |p13 + p14|, m2, sym, R14, R13);
    ExecConcat(p13 + p14, mid, base, m, sym);
    var m3 := Exec(p13 + p14 + mid, base, m, sym).value;
    assert m3.ram == m2.ram[R14 := v];
    PushCommandEffect("R14", false, base + |p13 + p14 + mid|, m3, sym, R14);
    ExecConcat(p13 + p14 + mid, push, base, m, sym);
  }

  /** The labels of a placed comparison block sit at its lines 10 and 15. */
  lemma ComparisonLabels(cmp: Comparison, v1: string, v2: string, n: nat, base: nat, sym: map<string, Word>)
    requires LabelsAt(sym, ComparisonCommand(cmp, v1, v2, n), base)
    ensures ElseLabel(n) in sym && sym[ElseLabel(n)] == base + 10
    ensures OutsideLabel(n) in sym && sym[OutsideLabel(n)] == base + 15
  {
    ComparisonBranchLines(cmp, v1, v2, n);
  }

  /** The labels of a placed comparison block, seen from the start of its arithmetic code. */
  lemma PlacedComparisonLabels(c: Comparison, n: nat, base: nat, sym: map<string, Word>)
    requires LabelsAt(sym, ArithmeticCode(Compare(c), n), base)
    ensures var at := base + |PopCommand("R13") + PopCommand("R14")|;
      && ElseLabel(n) in sym && sym[ElseLabel(n)] == at + 10
      && OutsideLabel(n) in sym && sym[OutsideLabel(n)] == at + 15
  {
    var p13, p14 := PopCommand("R13"), PopCommand("R14");
    var mid, push := ComparisonCommand(c, "R14", "R13", n), PushCommand("R14", false);
    LabelsAtConcat(sym, p13 + p14 + mid, push, base);
    LabelsAtConcat(sym, p13 + p14, mid, base);
    ComparisonLabels(c, "R14", "R13", n, base + |p13 + p14|, sym);
  }

  lemma ComparisonArithmetic(c: Comparison, n: nat, base: nat, m: Machine, sym: map<string, Word>)
    requires HasPredefined(sym)
    requires LabelsAt(sym, ArithmeticCode(Compare(c), n), base)
    requires 18 <= m.ram[SP]
    ensures Exec(ArithmeticCode(Compare(c), n), base, m, sym).Some?
    ensures Applied(Compare(c), m.ram, Exec(ArithmeticCode(Compare(c), n), base, m, sym).value.ram)
  {
    ResolvePredefined(sym);
    var p13, p14 := PopCommand("R13"), PopCommand("R14");
    var mid, push := ComparisonCommand(c, "R14", "R13", n), PushCommand("R14", false);
    var v := ArithResult(Compare(c), m.ram);
    TwoOperandFrame(m.ram, v);
    PlacedComparisonLabels(c, n, base, sym);
    PopOperands(base, m, sym);
    var m2 := Exec(p13 + p14, base, m, sym).value;
    ComparisonCommandEffect(c, "R14", "R13", n, base + |p13 + p14|, m2, sym, R14, R13);
    ExecConcat(p13 + p14, mid, base, m, sym);
    var m3 := Exec(p13 + p14 + mid, base, m, sym).value;
    assert m3.ram == m2.ram[R14 := v];
    PushCommandEffect("R14", false, base + |p13 + p14 + mid|, m3, sym, R14);
    ExecConcat(p13 + p14 + mid, push, base, m, sym);
  }

  /**
   * The RAM effect shared by neg and not: pop into R13, store `v` in R13,
   * push R13.
   */
  lemma OneOperandFrame(ram: Ram, v: Word)
    requires 17 <= ram[SP]
    ensures var r1 := PopInto(ram, R13);
      var r := PushValue(r1[R13 := v], v);
      && r1[R13] == ram[ram[SP] - 1]
      && r[SP] == ram[SP]
      && r[ram[SP] - 1] == v
      && forall a: Word :: a != SP && a != R13 && a != ram[SP] - 1 ==> r[a] == ram[a]
  {
  }

  lemma NegArithmetic(n: nat, base: nat, m: Machine, sym: map<string, Word>)
    requires HasPredefined(sym)
    requires 17 <= m.ram[SP]
    ensures Exec(ArithmeticCode(NegOp, n), base, m, sym).Some?
    ensures Applied(NegOp, m.ram, Exec(ArithmeticCode(NegOp, n), base, m, sym).value.ram)
  {
    ResolvePredefined(sym);
    var pop, mid, push := PopCommand("R13"), NegCommand("R13"), PushCommand("R13", false);
    var v := ArithResult(NegOp, m.ram);
    OneOperandFrame(m.ram, v);
    PopCommandEffect("R13", base, m, sym, R13);
    var m1 := Exec(pop, base, m, sym).value;
    NegCommandEffect("R13", base + |pop|, m1, sym, R13);
    ExecConcat(pop, mid, base, m, sym);
    var m2 := Exec(pop + mid, base, m, sym).value;
    assert m2.ram == PopInto(m.ram, R13)[R13 := v];
    PushCommandEffect("R13", false, base + |pop + mid|, m2, sym, R13);
    ExecConcat(pop + mid, push, base, m, sym);
  }

  lemma NotArithmetic(n: nat, base: nat, m: Machine, sym: map<string, Word>)
    requires HasPredefined(sym)
    requires 17 <= m.ram[SP]
    ensures Exec(ArithmeticCode(NotOp, n), base, m, sym).Some?
    ensures Applied(NotOp, m.ram, Exec(ArithmeticCode(NotOp, n), base, m, sym).value.ram)
  {
    ResolvePredefined(sym);
    var pop, mid, push := PopCommand("R13"), NotCommand("R13"), PushCommand("R13", false);
    var v := ArithResult(NotOp, m.ram);
    OneOperandFrame(m.ram, v);
    PopCommandEffect("R13", base, m, sym, R13);
    var m1 := Exec(pop, base, m, sym).value;
    NotCommandEffect("R13", base + |pop|, m1, sym, R13);
    ExecConcat(pop, mid, base, m, sym);
    var m2 := Exec(pop + mid, base, m, sym).value;
    assert m2.ram == PopInto(m.ram, R13)[R13 := v];
    PushCommandEffect("R13", false, base + |pop + mid|, m2, sym, R13);
    ExecConcat(pop + mid, push, base, m, sym);
  }

  /**
   * Every arithmetic command's code, run with its labels at their own lines
   * and its operands above the sixteen registers, leaves the stack as the
   * VM command prescribes.
   */
  lemma ArithmeticCorrect(op: ArithOp, n: nat, base: nat, m: Machine, sym: map<string, Word>)
    requires HasPredefined(sym)
    requires LabelsAt(sym, ArithmeticCode(op, n), base)
    requires 16 + Arity(op) <= m.ram[SP]
    ensures Exec(ArithmeticCode(op, n), base, m, sym).Some?
    ensures Applied(op, m.ram, Exec(ArithmeticCode(op, n), base, m, sym).value.ram)
  {
    match op
    case Binary(b) => BinaryArithmetic(b, n, base, m, sym);
    case Compare(c) => ComparisonArithmetic(c, n, base, m, sym);
    case NegOp => NegArithmetic(n, base, m, sym);
    case NotOp => NotArithmetic(n, base, m, sym);
  }

  // ---------------------------------------------------------------------------
  // What the comparisons mean

  /** eq holds exactly for equal words. */
  lemma EqMeansEqual(x: Word, y: Word)
    ensures Holds(EqOp, x, y) <==> x == y
  {
  }

  /**
   * gt and lt agree with the order of the signed values whenever their
   * difference fits in 16 bits.
   */
  lemma OrderMeansSigned(x: Word, y: Word)
    requires -0x8000 <= Signed(x) - Signed(y) < 0x8000
    ensures Holds(GtOp, x, y) <==> Signed(x) > Signed(y)
    ensures Holds(LtOp, x, y) <==> Signed(x) < Signed(y)
  {
    SignedDifference(x, y);
  }

  /** Beyond that range the wrapped difference has the wrong sign: 32767 gt -1 is false. */
  lemma ComparisonOverflow()
    ensures Signed(0x7FFF) > Signed(0xFFFF)
    ensures !Holds(GtOp, 0x7FFF, 0xFFFF) && Holds(LtOp, 0x7FFF, 0xFFFF)
  {
  }

  /** The operand pairs (5,5), (7,3) and (3,7). */
  lemma ComparisonExamples()
    ensures Holds(EqOp, 5, 5) && !Holds(GtOp, 5, 5) && !Holds(LtOp, 5, 5)
    ensures !Holds(EqOp, 7, 3) && Holds(GtOp, 7, 3) && !Holds(LtOp, 7, 3)
    ensures !Holds(EqOp, 3, 7) && !Holds(GtOp, 3, 7) && Holds(LtOp, 3, 7)
  {
  }

  // ---------------------------------------------------------------------------
  // Worked examples

  /** `push constant 17` leaves 17 on top of the stack and SP one higher; nothing else changes. */
  lemma PushConstantSeventeen(filename: string, base: nat, m: Machine, sym: map<string, Word>)
    requires HasPredefined(sym)
    requires 16 <= m.ram[SP] < 0xFFFF
    ensures PushCommands("constant", "17", filename).Ok?
    ensures var r := Exec(PushCommands("constant", "17", filename).value, base, m, sym);
      && r.Some?
      && r.value.ram[SP] == m.ram[SP] + 1
      && r.value.ram[m.ram[SP]] == 17
      && forall a: Word :: a != SP && a != m.ram[SP] ==> r.value.ram[a] == m.ram[a]
  {
    assert Text.NatToString(17) == "17";
    ResolveNumeral(17, sym);
    PushCorrect("constant", "17", filename, base, m, sym);
  }

  /**
   * `pop local 2` with LCL holding 1015 moves the top of the stack into cell
   * 1017 and lowers SP by one; only R13 is also written.
   */
  lemma PopLocalTwo(filename: string, base: nat, m: Machine, sym: map<string, Word>)
    requires HasPredefined(sym)
    requires m.ram[LCL] == 1015
    requires 17 <= m.ram[SP]
    ensures PopCommands("local", "2", filename).Ok?
    ensures var r := Exec(PopCommands("local", "2", filename).value, base, m, sym);
      && r.Some?
      && r.value.ram[SP] == m.ram[SP] - 1
      && r.value.ram[1017] == m.ram[m.ram[SP] - 1]
      && forall a: Word :: a != SP && a != R13 && a != 1017 ==> r.value.ram[a] == m.ram[a]
  {
    assert Text.NatToString(2) == "2";
    ResolveNumeral(2, sym);
    assert SegmentCell("local", "2", filename, m.ram, sym) == Some(1017);
    PopCorrect("local", "2", filename, base, m, sym);
  }
}
