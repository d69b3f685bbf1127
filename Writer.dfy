/**
 * The code writer: appends the block for each VM command to its output and
 * numbers the labels of comparison blocks with a counter it owns, so that
 * no label is ever declared twice.
 */
module Writer {
  import opened Wrappers
  import opened Words
  import opened Hack
  import opened CodeGen
  import Text
  import VmParser

  // ---------------------------------------------------------------------------
  // Label numbering

  /** `name` is one of the two labels of comparison block number `k`. */
  predicate IsBlockLabel(name: string, k: nat) {
    name == ElseLabel(k) || name == OutsideLabel(k)
  }

  /** No label declared in `code` belongs to a comparison block numbered `n` or higher. */
  ghost predicate LabelsBelow(code: seq<Instr>, n: nat) {
    forall i, k :: 0 <= i < |code| && code[i].Label? && n <= k ==> !IsBlockLabel(code[i].name, k)
  }

  /** `code` declares no label. */
  predicate LabelFree(code: seq<Instr>) {
    forall i :: 0 <= i < |code| ==> !code[i].Label?
  }

  /** Distinct block numbers give distinct labels, and an else label is never an outside label. */
  lemma BlockLabelsDistinct(j: nat, k: nat)
    ensures ElseLabel(j) != OutsideLabel(k)
    ensures ElseLabel(j) == ElseLabel(k) ==> j == k
    ensures OutsideLabel(j) == OutsideLabel(k) ==> j == k
  {
    assert ElseLabel(j)[0] == 'e' && OutsideLabel(k)[0] == 'o';
    if ElseLabel(j) == ElseLabel(k) {
      assert Text.NatToString(j) == ElseLabel(j)[4..] == ElseLabel(k)[4..] == Text.NatToString(k);
      Text.NatToStringInjective(j, k);
    }
    if OutsideLabel(j) == OutsideLabel(k) {
      assert Text.NatToString(j) == OutsideLabel(j)[9..] == OutsideLabel(k)[9..] == Text.NatToString(k);
      Text.NatToStringInjective(j, k);
    }
  }

  /** Appending code without labels keeps the labels unique and below the counter. */
  lemma AppendLabelFree(output: seq<Instr>, code: seq<Instr>, n: nat)
    requires UniqueLabels(output) && LabelsBelow(output, n)
    requires LabelFree(code)
    ensures UniqueLabels(output + code) && LabelsBelow(output + code, n)
  {
    var all := output + code;
    forall i | 0 <= i < |all| && all[i].Label?
      ensures i < |output| && all[i] == output[i]
    {
    }
  }

  /**
   * Appending the comparison block numbered by the counter keeps the labels
   * unique, and they stay below the counter once it is incremented.
   */
  lemma AppendComparison(output: seq<Instr>, cmp: Comparison, variable1: string, variable2: string, n: nat)
    requires UniqueLabels(output) && LabelsBelow(output, n)
    ensures var all := output + ComparisonCommand(cmp, variable1, variable2, n);
      UniqueLabels(all) && LabelsBelow(all, n + 1)
  {
    var code := ComparisonCommand(cmp, variable1, variable2, n);
    var all := output + code;
    forall i | |output| <= i < |all| && all[i].Label?
      ensures i == |output| + 10 || i == |output| + 15
      ensures IsBlockLabel(all[i].name, n)
    {
      assert all[i] == code[i - |output|];
    }
    assert all[|output| + 10] == Label(ElseLabel(n));
    assert all[|output| + 15] == Label(OutsideLabel(n));
    BlockLabelsDistinct(n, n);
    forall k: nat | n + 1 <= k
      ensures !IsBlockLabel(ElseLabel(n), k) && !IsBlockLabel(OutsideLabel(n), k)
    {
      BlockLabelsDistinct(n, k);
      BlockLabelsDistinct(k, n);
    }
    forall i | 0 <= i < |output| && all[i].Label?
      ensures all[i] == output[i] && !IsBlockLabel(all[i].name, n)
    {
    }
  }

  /** The assembler's first pass places the labels of any block of a program with unique labels. */
  lemma BlockLabelsPlaced(program: seq<Instr>, k: nat, block: seq<Instr>)
    requires |program| <= Modulus && UniqueLabels(program)
    requires k + |block| <= |program| && program[k..k + |block|] == block
    ensures LabelsAt(LabelTable(program), block, k)
  {
    LabelTablePlacesLabels(program);
    LabelsAtSlice(LabelTable(program), program, k, k + |block|);
  }

  /** write_arithmetic refuses exactly the mnemonics outside the nine operators. */
  lemma ArithOpOfRecognizes(command: string)
    ensures ArithOpOf(command).Some? <==> command in VmParser.ArithmeticOperations
  {
  }

  // ---------------------------------------------------------------------------
  // The writer

  class CodeWriter {
    /** The number the next comparison block's labels will carry. */
    var ifElseBlockNum: nat
    /** Every instruction written so far. */
    var output: seq<Instr>

    ghost predicate Valid()
      reads this
    {
      UniqueLabels(output) && LabelsBelow(output, ifElseBlockNum)
    }

    constructor ()
      ensures Valid()
      ensures ifElseBlockNum == 0 && output == []
    {
      ifElseBlockNum := 0;
      output := [];
    }

    /** Appends one block to the output. */
    method Emit(code: seq<Instr>)
      modifies this
      ensures output == old(output) + code
      ensures ifElseBlockNum == old(ifElseBlockNum)
    {
      output := output + code;
    }

    /**
     * _get_eq_command, _get_gt_command, _get_lt_command: the comparison
     * block numbered by the counter, which is then incremented.
     */
    method GetComparisonCommand(cmp: Comparison, variable1: string, variable2: string) returns (code: seq<Instr>)
      requires Valid()
      modifies this
      ensures Valid() && output == old(output)
      ensures ifElseBlockNum == old(ifElseBlockNum) + 1
      ensures code == ComparisonCommand(cmp, variable1, variable2, old(ifElseBlockNum))
      ensures UniqueLabels(output + code) && LabelsBelow(output + code, ifElseBlockNum)
    {
      code := ComparisonCommand(cmp, variable1, variable2, ifElseBlockNum);
      AppendComparison(output, cmp, variable1, variable2, ifElseBlockNum);
      ifElseBlockNum := ifElseBlockNum + 1;
    }

    /** Appends a block without labels; the counter is unchanged. */
    method EmitLabelFree(code: seq<Instr>)
      requires Valid() && LabelFree(code)
      modifies this
      ensures Valid()
      ensures output == old(output) + code
      ensures ifElseBlockNum == old(ifElseBlockNum)
    {
      AppendLabelFree(output, code, ifElseBlockNum);
      Emit(code);
    }

    /** _write_binary_commands: pop into R13, pop into R14, R14 op R13 into R14, push R14. */
    method WriteBinaryCommands(op: BinaryOp)
      requires Valid()
      modifies this
      ensures Valid()
      ensures output == old(output) + ArithmeticCode(Binary(op), old(ifElseBlockNum))
      ensures ifElseBlockNum == old(ifElseBlockNum)
    {
      ghost var start := output;
      var pop13, pop14, push := PopCommand("R13"), PopCommand("R14"), PushCommand("R14", false);
      var code := BinaryCommand(op, "R14", "R13");
      EmitLabelFree(pop13);
      EmitLabelFree(pop14);
      assert output == start + (pop13 + pop14);
      EmitLabelFree(code);
      assert output == start + (pop13 + pop14 + code);
      EmitLabelFree(push);
      assert output == start + (pop13 + pop14 + code + push);
    }

    /** _write_eq_commands, _write_gt_commands, _write_lt_commands. */
    method WriteComparisonCommands(cmp: Comparison)
      requires Valid()
      modifies this
      ensures Valid()
      ensures output == old(output) + ArithmeticCode(Compare(cmp), old(ifElseBlockNum))
      ensures ifElseBlockNum == old(ifElseBlockNum) + 1
    {
      ghost var start := output;
      var pop13, pop14, push := PopCommand("R13"), PopCommand("R14"), PushCommand("R14", false);
      EmitLabelFree(pop13);
      EmitLabelFree(pop14);
      assert output == start + (pop13 + pop14);
      var code := GetComparisonCommand(cmp, "R14", "R13");
      Emit(code);
      assert output == start + (pop13 + pop14 + code);
      EmitLabelFree(push);
      assert output == start + (pop13 + pop14 + code + push);
    }

    /** _write_not_commands: pop into R13, complement it, push R13. */
    method WriteNotCommands()
      requires Valid()
      modifies this
      ensures Valid()
      ensures output == old(output) + ArithmeticCode(NotOp, old(ifElseBlockNum))
      ensures ifElseBlockNum == old(ifElseBlockNum)
    {
      EmitLabelFree(PopCommand("R13"));
      EmitLabelFree(NotCommand("R13"));
      EmitLabelFree(PushCommand("R13", false));
    }

    /** _write_neg_commands: pop into R13, negate it, push R13. */
    method WriteNegCommands()
      requires Valid()
      modifies this
      ensures Valid()
      ensures output == old(output) + ArithmeticCode(NegOp, old(ifElseBlockNum))
      ensures ifElseBlockNum == old(ifElseBlockNum)
    {
      EmitLabelFree(PopCommand("R13"));
      EmitLabelFree(NegCommand("R13"));
      EmitLabelFree(PushCommand("R13", false));
    }

    /**
     * write_arithmetic: the block for one of the nine operators; any other
     * mnemonic is refused and nothing is written.
     */
    method WriteArithmetic(command: string) returns (result: Result<(), Error>)
      requires Valid()
      modifies this
      ensures Valid()
      ensures command !in VmParser.ArithmeticOperations ==>
        result == Err(NotArithmetic(command)) && output == old(output) && ifElseBlockNum == old(ifElseBlockNum)
      ensures command in VmParser.ArithmeticOperations ==>
        && result.Ok?
        && var op := ArithOpOf(command).value;
        && output == old(output) + ArithmeticCode(op, old(ifElseBlockNum))
        && ifElseBlockNum == old(ifElseBlockNum) + (if op.Compare? then 1 else 0)
    {
      ArithOpOfRecognizes(command);
      if command !in VmParser.ArithmeticOperations {
        return Err(NotArithmetic(command));
      }
      match ArithOpOf(command).value {
        case Binary(op) => WriteBinaryCommands(op);
        case NegOp => WriteNegCommands();
        case Compare(cmp) => WriteComparisonCommands(cmp);
        case NotOp => WriteNotCommands();
      }
      result := Ok(());
    }

    /** _write_push_commands: the push block, or the error and nothing written. */
    method WritePushCommands(arg1: string, arg2: string, filename: string) returns (result: Result<(), Error>)
      requires Valid()
      modifies this
      ensures Valid() && ifElseBlockNum == old(ifElseBlockNum)
      ensures PushCommands(arg1, arg2, filename).Ok? ==>
        result == Ok(()) && output == old(output) + PushCommands(arg1, arg2, filename).value
      ensures PushCommands(arg1, arg2, filename).Err? ==>
        result == Err(PushCommands(arg1, arg2, filename).error) && output == old(output)
    {
      var code :- PushCommands(arg1, arg2, filename);
      PushCommandsLabelFree(arg1, arg2, filename);
      EmitLabelFree(code);
      result := Ok(());
    }

    /** _write_pop_commands: the pop block, or the error and nothing written. */
    method WritePopCommands(arg1: string, arg2: string, filename: string) returns (result: Result<(), Error>)
      requires Valid()
      modifies this
      ensures Valid() && ifElseBlockNum == old(ifElseBlockNum)
      ensures PopCommands(arg1, arg2, filename).Ok? ==>
        result == Ok(()) && output == old(output) + PopCommands(arg1, arg2, filename).value
      ensures PopCommands(arg1, arg2, filename).Err? ==>
        result == Err(PopCommands(arg1, arg2, filename).error) && output == old(output)
    {
      var code :- PopCommands(arg1, arg2, filename);
      PopCommandsLabelFree(arg1, arg2, filename);
      EmitLabelFree(code);
      result := Ok(());
    }

    /** write_push_pop: push or pop by command type; any other type writes nothing. */
    method WritePushPop(kind: Option<VmParser.CommandKind>, arg1: string, arg2: string, filename: string)
      returns (result: Result<(), Error>)
      requires Valid()
      modifies this
      ensures Valid() && ifElseBlockNum == old(ifElseBlockNum)
      ensures kind == Some(VmParser.Push) ==>
        match PushCommands(arg1, arg2, filename)
        case Ok(code) => result == Ok(()) && output == old(output) + code
        case Err(e) => result == Err(e) && output == old(output)
      ensures kind == Some(VmParser.Pop) ==>
        match PopCommands(arg1, arg2, filename)
        case Ok(code) => result == Ok(()) && output == old(output) + code
        case Err(e) => result == Err(e) && output == old(output)
      ensures kind != Some(VmParser.Push) && kind != Some(VmParser.Pop) ==>
        result == Ok(()) && output == old(output)
    {
      if kind == Some(VmParser.Push) {
        result := WritePushCommands(arg1, arg2, filename);
      } else if kind == Some(VmParser.Pop) {
        result := WritePopCommands(arg1, arg2, filename);
      } else {
        result := Ok(());
      }
    }

    /** write_comment: the command echoed as a comment line. */
    method WriteComment(comment: string)
      requires Valid()
      modifies this
      ensures Valid() && ifElseBlockNum == old(ifElseBlockNum)
      ensures output == old(output) + [Comment(comment)]
    {
      EmitLabelFree([Comment(comment)]);
    }
  }

  lemma PushCommandsLabelFree(arg1: string, arg2: string, filename: string)
    requires PushCommands(arg1, arg2, filename).Ok?
    ensures LabelFree(PushCommands(arg1, arg2, filename).value)
  {
  }

  lemma PopCommandsLabelFree(arg1: string, arg2: string, filename: string)
    requires PopCommands(arg1, arg2, filename).Ok?
    ensures LabelFree(PopCommands(arg1, arg2, filename).value)
  {
  }
}
