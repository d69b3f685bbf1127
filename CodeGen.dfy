/**
 * The code generator: the fixed block of Hack assembly each VM arithmetic,
 * push and pop command becomes, with the comparison blocks numbered by the
 * label counter they are given. The CodeWriter that appends these blocks to
 * its output lives in the Writer module.
 */
module CodeGen {
  import opened Wrappers
  import opened Words
  import opened Hack
  import Text

  const TempBaseAddress: int := 5

  /** Why a command produced no code (the translator raises an exception). */
  datatype Error =
    | NotArithmetic(command: string)   // write_arithmetic's assertion fails
    | UnknownSegment(segment: string)  // no branch assigns the block before it is written
    | BadOffset(offset: string)        // int() rejects a temp offset

  datatype BinaryOp = AddOp | SubOp | AndOp | OrOp
  datatype Comparison = EqOp | GtOp | LtOp
  datatype ArithOp = Binary(op: BinaryOp) | Compare(cmp: Comparison) | NegOp | NotOp

  /** The nine arithmetic/logical mnemonics. */
  function ArithOpOf(command: string): Option<ArithOp> {
    if command == "add" then Some(Binary(AddOp))
    else if command == "sub" then Some(Binary(SubOp))
    else if command == "neg" then Some(NegOp)
    else if command == "eq" then Some(Compare(EqOp))
    else if command == "gt" then Some(Compare(GtOp))
    else if command == "lt" then Some(Compare(LtOp))
    else if command == "and" then Some(Binary(AndOp))
    else if command == "or" then Some(Binary(OrOp))
    else if command == "not" then Some(NotOp)
    else None
  }

  /** The segments whose base address is held in a predefined cell. */
  function SegmentMapping(segment: string): Option<string> {
    if segment == "local" then Some("LCL")
    else if segment == "argument" then Some("ARG")
    else if segment == "this" then Some("THIS")
    else if segment == "that" then Some("THAT")
    else None
  }

  // ---------------------------------------------------------------------------
  // Blocks

  /** Stores D at the top of the stack and increments SP. */
  const PushD: seq<Instr> := [At("SP"), Compute(DestA, RegM), Compute(DestM, RegD), At("SP"), Compute(DestM, MPlusOne)]

  /** Pushes the cell named `arg`, or with `constant` the value `arg` itself. */
  function PushCommand(arg: string, constant: bool): seq<Instr> {
    [At(arg), if constant then Compute(DestD, RegA) else Compute(DestD, RegM)] + PushD
  }

  /** Decrements SP and copies the old top of the stack into the cell named `variable`. */
  function PopCommand(variable: string): seq<Instr> {
    [At("SP"), Compute(DestM, MMinusOne), Compute(DestA, RegM), Compute(DestD, RegM),
     At(variable), Compute(DestM, RegD)]
  }

  function BinaryComp(op: BinaryOp): Comp {
    match op
    case AddOp => MPlusD
    case SubOp => MMinusD
    case AndOp => DAndM
    case OrOp => DOrM
  }

  /** variable1 := variable1 op variable2. */
  function BinaryCommand(op: BinaryOp, variable1: string, variable2: string): seq<Instr> {
    [At(variable2), Compute(DestD, RegM), At(variable1), Compute(DestM, BinaryComp(op))]
  }

  /** The jump to the false branch: taken when the comparison does not hold. */
  function ElseJump(cmp: Comparison): Cond {
    match cmp
    case EqOp => JNE
    case GtOp => JLE
    case LtOp => JGE
  }

  function ElseLabel(n: nat): string { "else" + Text.NatToString(n) }

  function OutsideLabel(n: nat): string { "outsideif" + Text.NatToString(n) }

  /** variable1 := (variable1 cmp variable2 ? -1 : 0), with the labels of block number `n`. */
  function ComparisonCommand(cmp: Comparison, variable1: string, variable2: string, n: nat): seq<Instr> {
    [At(variable2), Compute(DestD, RegM),
     At(variable1), Compute(DestD, MMinusD),
     At(ElseLabel(n)), Branch(RegD, ElseJump(cmp)),
     At(variable1), Compute(DestM, MinusOne),
     At(OutsideLabel(n)), Branch(Zero, JMP),
     Label(ElseLabel(n)),
     At(variable1), Compute(DestM, Zero),
     At(OutsideLabel(n)), Branch(Zero, JMP),
     Label(OutsideLabel(n))]
  }

  function NotCommand(variable1: string): seq<Instr> {
    [At(variable1), Compute(DestM, NotM)]
  }

  function NegCommand(variable1: string): seq<Instr> {
    [At(variable1), Compute(DestM, NotM), Compute(DestM, MPlusOne)]
  }

  /**
   * Everything write_arithmetic emits for one operator: pop the right operand
   * into R13 and the left into R14 (one operand, into R13, for neg and not),
   * compute in place, push the result. `n` is the label counter.
   */
  function ArithmeticCode(op: ArithOp, n: nat): seq<Instr> {
    match op
    case Binary(b) =>
      PopCommand("R13") + PopCommand("R14") + BinaryCommand(b, "R14", "R13") + PushCommand("R14", false)
    case Compare(c) =>
      PopCommand("R13") + PopCommand("R14") + ComparisonCommand(c, "R14", "R13", n) + PushCommand("R14", false)
    case NegOp =>
      PopCommand("R13") + NegCommand("R13") + PushCommand("R13", false)
    case NotOp =>
      PopCommand("R13") + NotCommand("R13") + PushCommand("R13", false)
  }

  /** The address of temp `offset` as written in the A-instruction, or the int() failure. */
  function TempAddress(offset: string): Result<string, Error> {
    match Text.ParseInt(offset)
    case Some(i) => Ok(Text.IntToString(TempBaseAddress + i))
    case None => Err(BadOffset(offset))
  }

  function TempPushCommand(offset: string): Result<seq<Instr>, Error> {
    var address :- TempAddress(offset);
    Ok([At(address), Compute(DestD, RegM)] + PushD)
  }

  /** Pushes RAM[RAM[segment] + offset]. */
  function SegmentPushCommand(segment: string, offset: string): seq<Instr> {
    [At(segment), Compute(DestD, RegM), At(offset), Compute(DestA, DPlusA), Compute(DestD, RegM)] + PushD
  }

  /** pointer 0 is THIS; every other offset is THAT. */
  function ThisOrThat(arg: string): string {
    if arg == "0" then "THIS" else "THAT"
  }

  function PointerPushCommand(arg: string): seq<Instr> {
    [At(ThisOrThat(arg)), Compute(DestD, RegM)] + PushD
  }

  /** The assembler variable holding static `arg` of the unit `filename`. */
  function StaticName(filename: string, arg: string): string {
    filename + "." + arg
  }

  function StaticPushCommand(arg: string, filename: string): seq<Instr> {
    [At(StaticName(filename, arg)), Compute(DestD, RegM)] + PushD
  }

  /** The block for `push arg1 arg2`. */
  function PushCommands(arg1: string, arg2: string, filename: string): Result<seq<Instr>, Error> {
    if arg1 == "constant" then Ok(PushCommand(arg2, true))
    else if SegmentMapping(arg1).Some? then Ok(SegmentPushCommand(SegmentMapping(arg1).value, arg2))
    else if arg1 == "temp" then TempPushCommand(arg2)
    else if arg1 == "pointer" then Ok(PointerPushCommand(arg2))
    else if arg1 == "static" then Ok(StaticPushCommand(arg2, filename))
    else Err(UnknownSegment(arg1))
  }

  /** Decrements SP first, then copies the popped value into RAM[address]. */
  function TempPopCommand(offset: string): Result<seq<Instr>, Error> {
    var address :- TempAddress(offset);
    Ok(PopCommand(address))
  }

  /** Stages RAM[segment] + offset in R13, then pops into the cell R13 points to. */
  function SegmentPopCommand(segment: string, offset: string): seq<Instr> {
    [At(segment), Compute(DestD, RegM), At(offset), Compute(DestD, DPlusA), At("R13"), Compute(DestM, RegD),
     At("SP"), Compute(DestM, MMinusOne),
     At("SP"), Compute(DestA, RegM), Compute(DestD, RegM),
     At("R13"), Compute(DestA, RegM), Compute(DestM, RegD)]
  }

  function PointerPopCommand(arg: string): seq<Instr> {
    PopCommand(ThisOrThat(arg))
  }

  function StaticPopCommand(arg: string, filename: string): seq<Instr> {
    PopCommand(StaticName(filename, arg))
  }

  /** The block for `pop arg1 arg2`; constant, like any unmapped segment, has none. */
  function PopCommands(arg1: string, arg2: string, filename: string): Result<seq<Instr>, Error> {
    if SegmentMapping(arg1).Some? then Ok(SegmentPopCommand(SegmentMapping(arg1).value, arg2))
    else if arg1 == "temp" then TempPopCommand(arg2)
    else if arg1 == "pointer" then Ok(PointerPopCommand(arg2))
    else if arg1 == "static" then Ok(StaticPopCommand(arg2, filename))
    else Err(UnknownSegment(arg1))
  }
}
