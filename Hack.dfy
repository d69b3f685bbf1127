/**
 * The fragment of the Hack computer and its assembly language that the VM
 * translator emits: A-instructions, the C-instructions it uses, jumps, label
 * declarations and comment lines, their exact text, and an interpreter for
 * loop-free blocks of them.
 */
module Hack {
  import opened Wrappers
  import opened Words
  import Text

  // ---------------------------------------------------------------------------
  // Machine state

  /** RAM: one word at each of the 2^16 addresses. */
  type Ram = r: seq<Word> | |r| == Modulus witness seq(Modulus, _ => 0)

  /** The A and D registers and the RAM. */
  datatype Machine = Machine(a: Word, d: Word, ram: Ram)

  /** Addresses of the predefined symbols the generated code refers to. */
  const SP: Word := 0
  const LCL: Word := 1
  const ARG: Word := 2
  const THIS: Word := 3
  const THAT: Word := 4
  const R13: Word := 13
  const R14: Word := 14

  /**
   * A symbol table that binds the predefined symbols the generated code uses
   * as the Hack assembler does. Labels and variables (static cells) are
   * further entries of the same table.
   */
  predicate HasPredefined(sym: map<string, Word>) {
    && "SP" in sym && sym["SP"] == SP
    && "LCL" in sym && sym["LCL"] == LCL
    && "ARG" in sym && sym["ARG"] == ARG
    && "THIS" in sym && sym["THIS"] == THIS
    && "THAT" in sym && sym["THAT"] == THAT
    && "R13" in sym && sym["R13"] == R13
    && "R14" in sym && sym["R14"] == R14
  }

  // ---------------------------------------------------------------------------
  // Instructions

  datatype Dest = DestA | DestD | DestM

  /** The ALU computations the generated code uses. */
  datatype Comp =
    | Zero | MinusOne | RegD | RegA | RegM | NotM
    | MPlusOne | MMinusOne | MPlusD | MMinusD | DPlusA | DAndM | DOrM

  datatype Cond = JGT | JEQ | JGE | JLT | JNE | JLE | JMP

  datatype Instr =
    | At(symbol: string)                // @symbol
    | Compute(dest: Dest, comp: Comp)   // dest=comp
    | Branch(comp: Comp, cond: Cond)    // comp;jump
    | Label(name: string)               // (name)
    | Comment(text: string)             // // text

  function DestText(d: Dest): string {
    match d
    case DestA => "A"
    case DestD => "D"
    case DestM => "M"
  }

  function CompText(c: Comp): string {
    match c
    case Zero => "0"
    case MinusOne => "-1"
    case RegD => "D"
    case RegA => "A"
    case RegM => "M"
    case NotM => "!M"
    case MPlusOne => "M+1"
    case MMinusOne => "M-1"
    case MPlusD => "M+D"
    case MMinusD => "M-D"
    case DPlusA => "D+A"
    case DAndM => "D&M"
    case DOrM => "D|M"
  }

  function CondText(j: Cond): string {
    match j
    case JGT => "JGT"
    case JEQ => "JEQ"
    case JGE => "JGE"
    case JLT => "JLT"
    case JNE => "JNE"
    case JLE => "JLE"
    case JMP => "JMP"
  }

  /** The line of assembly text of an instruction. */
  function Render(i: Instr): string {
    match i
    case At(s) => "@" + s
    case Compute(d, c) => DestText(d) + "=" + CompText(c)
    case Branch(c, j) => CompText(c) + ";" + CondText(j)
    case Label(n) => "(" + n + ")"
    case Comment(t) => "// " + t
  }

  function DestOf(c: char): Option<Dest> {
    if c == 'A' then Some(DestA)
    else if c == 'D' then Some(DestD)
    else if c == 'M' then Some(DestM)
    else None
  }

  function CompOf(s: string): Option<Comp> {
    if s == "0" then Some(Zero)
    else if s == "-1" then Some(MinusOne)
    else if s == "D" then Some(RegD)
    else if s == "A" then Some(RegA)
    else if s == "M" then Some(RegM)
    else if s == "!M" then Some(NotM)
    else if s == "M+1" then Some(MPlusOne)
    else if s == "M-1" then Some(MMinusOne)
    else if s == "M+D" then Some(MPlusD)
    else if s == "M-D" then Some(MMinusD)
    else if s == "D+A" then Some(DPlusA)
    else if s == "D&M" then Some(DAndM)
    else if s == "D|M" then Some(DOrM)
    else None
  }

  function CondOf(s: string): Option<Cond> {
    if s == "JGT" then Some(JGT)
    else if s == "JEQ" then Some(JEQ)
    else if s == "JGE" then Some(JGE)
    else if s == "JLT" then Some(JLT)
    else if s == "JNE" then Some(JNE)
    else if s == "JLE" then Some(JLE)
    else if s == "JMP" then Some(JMP)
    else None
  }

  /** Reads one line of the assembly subset back into an instruction. */
  function Parse(line: string): Option<Instr> {
    if |line| >= 1 && line[0] == '@' then Some(At(line[1..]))
    else if |line| >= 2 && line[0] == '(' && line[|line| - 1] == ')' then
      Some(Label(line[1..|line| - 1]))
    else if Text.StartsWith(line, "// ") then Some(Comment(line[3..]))
    else if |line| >= 2 && line[1] == '=' then
      match (DestOf(line[0]), CompOf(line[2..]))
      case (Some(d), Some(c)) => Some(Compute(d, c))
      case _ => None
    else if |line| >= 4 && line[|line| - 4] == ';' then
      match (CompOf(line[..|line| - 4]), CondOf(line[|line| - 3..]))
      case (Some(c), Some(j)) => Some(Branch(c, j))
      case _ => None
    else None
  }

  lemma CompOfText(c: Comp)
    ensures CompOf(CompText(c)) == Some(c)
    ensures 1 <= |CompText(c)| <= 3
    ensures CompText(c)[0] in "0-DAM!"
    ensures |CompText(c)| >= 2 ==> CompText(c)[1] in "1M+-&|"
  {
  }

  lemma CondOfText(j: Cond)
    ensures CondOf(CondText(j)) == Some(j) && |CondText(j)| == 3
  {
  }

  lemma ParseRenderCompute(d: Dest, c: Comp)
    ensures Parse(Render(Compute(d, c))) == Some(Compute(d, c))
  {
    var line := Render(Compute(d, c));
    var dt := DestText(d);
    assert |dt| == 1 && DestOf(dt[0]) == Some(d);
    CompOfText(c);
    assert line == dt + "=" + CompText(c);
    assert line[0] == dt[0] && line[0] != '@' && line[0] != '(' && line[0] != '/';
    assert !Text.StartsWith(line, "// ");
    assert line[1] == '=';
    assert line[2..] == CompText(c);
  }

  lemma ParseRenderBranch(c: Comp, j: Cond)
    ensures Parse(Render(Branch(c, j))) == Some(Branch(c, j))
  {
    var line := Render(Branch(c, j));
    var ct := CompText(c);
    CompOfText(c);
    CondOfText(j);
    assert line[..|line| - 4] == ct;
    assert line[|line| - 4] == ';';
    assert line[|line| - 3..] == CondText(j);
    assert line[0] == ct[0] && line[0] != '@' && line[0] != '(' && line[0] != '/';
    assert !Text.StartsWith(line, "// ");
    assert |ct| >= 2 ==> line[1] == ct[1];
    assert |ct| == 1 ==> line[1] == ';';
    assert line[1] != '=';
  }

  /** Every instruction's text reads back as that instruction: the text is unambiguous. */
  lemma ParseRender(i: Instr)
    ensures Parse(Render(i)) == Some(i)
  {
    var line := Render(i);
    match i
    case At(s) =>
      assert line[1..] == s;
    case Compute(d, c) =>
      ParseRenderCompute(d, c);
    case Branch(c, j) =>
      ParseRenderBranch(c, j);
    case Label(n) =>
      assert line[1..|line| - 1] == n;
    case Comment(t) =>
      assert line[..3] == "// ";
      assert line[3..] == t;
  }

  // ---------------------------------------------------------------------------
  // Execution

  /**
   * The value an A-instruction loads: a decimal constant below 2^15, or the
   * address the symbol table gives a symbol. None when the assembler could
   * not translate the instruction.
   */
  function Resolve(symbol: string, sym: map<string, Word>): Option<Word> {
    if Text.IsDigits(symbol) then
      var n := Text.DigitsValue(symbol);
      if n < 0x8000 then Some(n) else None
    else if symbol in sym then Some(sym[symbol])
    else None
  }

  /** The ALU output; M is RAM[A]. */
  function Eval(c: Comp, m: Machine): Word {
    var mem := m.ram[m.a];
    match c
    case Zero => 0
    case MinusOne => True
    case RegD => m.d
    case RegA => m.a
    case RegM => mem
    case NotM => Not(mem)
    case MPlusOne => Add(mem, 1)
    case MMinusOne => Sub(mem, 1)
    case MPlusD => Add(mem, m.d)
    case MMinusD => Sub(mem, m.d)
    case DPlusA => Add(m.d, m.a)
    case DAndM => And(m.d, mem)
    case DOrM => Or(m.d, mem)
  }

  /** Whether a jump is taken on ALU output `v`, read as two's complement. */
  predicate Taken(j: Cond, v: Word) {
    match j
    case JGT => Signed(v) > 0
    case JEQ => v == 0
    case JGE => Signed(v) >= 0
    case JLT => Signed(v) < 0
    case JNE => v != 0
    case JLE => Signed(v) <= 0
    case JMP => true
  }

  /** The effect of one instruction that does not jump. */
  function Step(i: Instr, m: Machine, sym: map<string, Word>): Option<Machine> {
    match i
    case At(s) =>
      (match Resolve(s, sym)
       case Some(v) => Some(m.(a := v))
       case None => None)
    case Compute(dest, c) =>
      var v := Eval(c, m);
      (match dest
       case DestA => Some(m.(a := v))
       case DestD => Some(m.(d := v))
       case DestM => Some(m.(ram := m.ram[m.a := v])))
    case _ => Some(m)
  }

  /**
   * One instruction executed at address `pc`: the next address and state.
   * A taken jump goes to the address held in A.
   */
  function Next(i: Instr, pc: nat, m: Machine, sym: map<string, Word>): Option<(nat, Machine)> {
    match i
    case Branch(c, j) => if Taken(j, Eval(c, m)) then Some((m.a, m)) else Some((pc + 1, m))
    case _ =>
      match Step(i, m, sym)
      case Some(m') => Some((pc + 1, m'))
      case None => None
  }

  /**
   * Runs the block `code`, whose first line sits at address `base`, from
   * address `pc` until control reaches the end of the block. The result is
   * None when control leaves the block or goes backwards, or when an
   * A-instruction's symbol is unresolved. Line addresses count label and
   * comment lines too; both do nothing when run.
   */
  function Run(code: seq<Instr>, base: nat, pc: nat, m: Machine, sym: map<string, Word>): Option<Machine>
    requires base <= pc <= base + |code|
    decreases base + |code| - pc
  {
    if pc == base + |code| then Some(m)
    else
      match Next(code[pc - base], pc, m, sym)
      case Some((pc', m')) => if pc < pc' <= base + |code| then Run(code, base, pc', m', sym) else None
      case None => None
  }

  /** Runs a whole block placed at address `base`. */
  function Exec(code: seq<Instr>, base: nat, m: Machine, sym: map<string, Word>): Option<Machine> {
    Run(code, base, base, m, sym)
  }

  /** Running the tail of a concatenation is running the second part on its own. */
  lemma {:induction false} RunShift(p: seq<Instr>, q: seq<Instr>, base: nat, j: nat, m: Machine, sym: map<string, Word>)
    requires j <= |q|
    ensures Run(p + q, base, base + |p| + j, m, sym) == Run(q, base + |p|, base + |p| + j, m, sym)
    decreases |q| - j
  {
    if j < |q| {
      var pc := base + |p| + j;
      assert (p + q)[pc - base] == q[pc - (base + |p|)];
      match Next(q[j], pc, m, sym)
      case Some((pc', m')) =>
        if pc < pc' <= base + |p| + |q| {
          RunShift(p, q, base, pc' - base - |p|, m', sym);
        }
      case None =>
    }
  }

  /**
   * Sequencing: when the first block runs to its end, running the
   * concatenation continues with the second block from that state.
   */
  lemma {:induction false} RunConcat(p: seq<Instr>, q: seq<Instr>, base: nat, pc: nat, m: Machine, sym: map<string, Word>)
    requires base <= pc <= base + |p|
    requires Run(p, base, pc, m, sym).Some?
    ensures Run(p + q, base, pc, m, sym) == Exec(q, base + |p|, Run(p, base, pc, m, sym).value, sym)
    decreases base + |p| - pc
  {
    if pc == base + |p| {
      RunShift(p, q, base, 0, m, sym);
    } else {
      assert (p + q)[pc - base] == p[pc - base];
      var next := Next(p[pc - base], pc, m, sym);
      RunConcat(p, q, base, next.value.0, next.value.1, sym);
    }
  }

  /** Exec of a concatenation, when the first block completes. */
  lemma ExecConcat(p: seq<Instr>, q: seq<Instr>, base: nat, m: Machine, sym: map<string, Word>)
    requires Exec(p, base, m, sym).Some?
    ensures Exec(p + q, base, m, sym) == Exec(q, base + |p|, Exec(p, base, m, sym).value, sym)
  {
    RunConcat(p, q, base, base, m, sym);
  }

  // ---------------------------------------------------------------------------
  // Labels

  /** The symbol table binds every label declared in `code` to its own line address. */
  predicate LabelsAt(sym: map<string, Word>, code: seq<Instr>, base: nat) {
    forall i :: 0 <= i < |code| && code[i].Label? ==>
      code[i].name in sym && sym[code[i].name] == base + i
  }

  /** No label is declared twice. */
  predicate UniqueLabels(code: seq<Instr>) {
    forall i, j :: 0 <= i < j < |code| && code[i].Label? && code[j].Label? ==> code[i].name != code[j].name
  }

  /** The label part of the assembler's first pass: each label's line address. */
  function LabelTable(code: seq<Instr>): (t: map<string, Word>)
    requires |code| <= Modulus
    ensures forall n :: n in t ==> exists i :: 0 <= i < |code| && code[i] == Label(n)
    decreases |code|
  {
    if code == [] then map[]
    else
      var t := LabelTable(code[..|code| - 1]);
      var last := code[|code| - 1];
      if last.Label? then t[last.name := |code| - 1] else t
  }

  /** With unique labels the first pass places every label at its own line. */
  lemma {:induction false} LabelTablePlacesLabels(code: seq<Instr>)
    requires |code| <= Modulus
    requires UniqueLabels(code)
    ensures LabelsAt(LabelTable(code), code, 0)
    decreases |code|
  {
    if code != [] {
      var init := code[..|code| - 1];
      assert UniqueLabels(init) by {
        forall i, j | 0 <= i < j < |init| && init[i].Label? && init[j].Label?
          ensures init[i].name != init[j].name
        {
          assert init[i] == code[i] && init[j] == code[j];
        }
      }
      LabelTablePlacesLabels(init);
      forall i | 0 <= i < |code| && code[i].Label?
        ensures code[i].name in LabelTable(code) && LabelTable(code)[code[i].name] == i
      {
        if i < |code| - 1 {
          assert code[i] == init[i];
        }
      }
    }
  }

  /** A block inside a program whose labels are placed sees them placed at its own offset. */
  lemma LabelsAtSlice(sym: map<string, Word>, code: seq<Instr>, k: nat, n: nat)
    requires k <= n <= |code|
    requires LabelsAt(sym, code, 0)
    ensures LabelsAt(sym, code[k..n], k)
  {
    forall i | 0 <= i < n - k && code[k..n][i].Label?
      ensures code[k..n][i].name in sym && sym[code[k..n][i].name] == k + i
    {
      assert code[k..n][i] == code[k + i];
    }
  }

  /** A concatenation's labels are placed exactly when each part's are, at its own offset. */
  lemma LabelsAtConcat(sym: map<string, Word>, p: seq<Instr>, q: seq<Instr>, base: nat)
    ensures LabelsAt(sym, p + q, base) <==> LabelsAt(sym, p, base) && LabelsAt(sym, q, base + |p|)
  {
    var pq := p + q;
    if LabelsAt(sym, pq, base) {
      forall i | 0 <= i < |p| && p[i].Label?
        ensures p[i].name in sym && sym[p[i].name] == base + i
      {
        assert pq[i] == p[i];
      }
      forall i | 0 <= i < |q| && q[i].Label?
        ensures q[i].name in sym && sym[q[i].name] == base + |p| + i
      {
        assert pq[|p| + i] == q[i];
      }
    }
  }
}
