/**
 * The writer's output as the assembler and the Hack computer see it: every
 * arithmetic block it contains finds its labels where the assembler's first
 * pass puts them, and so does what the VM command prescribes.
 */
module Program {
  import opened Words
  import opened Hack
  import opened CodeGen
  import opened Semantics
  import opened Writer

  /**
   * An arithmetic block inside a program whose labels are unique, run with
   * a symbol table that holds the predefined symbols and agrees with the
   * assembler's label table, leaves the stack as the VM command prescribes.
   */
  lemma PlacedArithmeticCorrect(program: seq<Instr>, k: nat, op: ArithOp, n: nat, m: Machine, sym: map<string, Word>)
    requires |program| <= Modulus && UniqueLabels(program)
    requires k + |ArithmeticCode(op, n)| <= |program| && program[k..k + |ArithmeticCode(op, n)|] == ArithmeticCode(op, n)
    requires HasPredefined(sym)
    requires forall name :: name in LabelTable(program) ==> name in sym && sym[name] == LabelTable(program)[name]
    requires 16 + Arity(op) <= m.ram[SP]
    ensures Exec(ArithmeticCode(op, n), k, m, sym).Some?
    ensures Applied(op, m.ram, Exec(ArithmeticCode(op, n), k, m, sym).value.ram)
  {
    var code := ArithmeticCode(op, n);
    BlockLabelsPlaced(program, k, code);
    assert LabelsAt(sym, code, k);
    ArithmeticCorrect(op, n, k, m, sym);
  }
}
