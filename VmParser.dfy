/**
 * The command reader: skipping comment and blank lines, reading one command
 * line at a time, and classifying a command by its whitespace-separated
 * tokens.
 */
module VmParser {
  import opened Wrappers
  import opened Text

  // ---------------------------------------------------------------------------
  // Mnemonics

  const ArithmeticOperations: set<string> := {"add", "sub", "neg", "eq", "gt", "lt", "and", "or", "not"}
  const PushPopOperations: set<string> := {"push", "pop"}
  const LabelOperations: set<string> := {"label"}
  const IfOperations: set<string> := {"if-goto"}
  const FunctionOperations: set<string> := {"function"}
  const ReturnOperations: set<string> := {"return"}
  const CallOperations: set<string> := {"call"}

  /** Every mnemonic command_type recognises. */
  const KnownOperations: set<string> :=
    ArithmeticOperations + PushPopOperations + LabelOperations + IfOperations
    + FunctionOperations + ReturnOperations + CallOperations

  /** The command types; there is no goto type because no mnemonic is classified as one. */
  datatype CommandKind = Arithmetic | Push | Pop | LabelCommand | IfCommand | FunctionCommand | ReturnCommand | CallCommand

  /**
   * Why a command cannot be read: it has no tokens at all (split()[0]
   * fails), or a non-arithmetic command has fewer than the three tokens
   * the reader unpacks.
   */
  datatype ParseError = NoTokens | TooFewTokens(count: nat)

  // ---------------------------------------------------------------------------
  // Classification

  /** command_type: the kind named by the first token, None for a mnemonic in no set. */
  function CommandType(command: string): (r: Result<Option<CommandKind>, ParseError>)
    ensures r.Err? <==> Split(command) == []
    ensures r == Ok(None) <==> Split(command) != [] && Split(command)[0] !in KnownOperations
  {
    var tokens := Split(command);
    if tokens == [] then Err(NoTokens)
    else
      var operation := tokens[0];
      if operation in ArithmeticOperations then Ok(Some(Arithmetic))
      else if operation in PushPopOperations then
        if operation == "push" then Ok(Some(Push)) else Ok(Some(Pop))
      else if operation in LabelOperations then Ok(Some(LabelCommand))
      else if operation in IfOperations then Ok(Some(IfCommand))
      else if operation in FunctionOperations then Ok(Some(FunctionCommand))
      else if operation in ReturnOperations then Ok(Some(ReturnCommand))
      else if operation in CallOperations then Ok(Some(CallCommand))
      else Ok(None)
  }

  /** command_type names the kind of the first token's mnemonic set; push and pop are told apart. */
  lemma CommandTypeKinds(command: string)
    requires Split(command) != []
    ensures var operation := Split(command)[0];
      var r := CommandType(command);
      && (operation in ArithmeticOperations ==> r == Ok(Some(Arithmetic)))
      && (operation == "push" ==> r == Ok(Some(Push)))
      && (operation == "pop" ==> r == Ok(Some(Pop)))
      && (operation in LabelOperations ==> r == Ok(Some(LabelCommand)))
      && (operation in IfOperations ==> r == Ok(Some(IfCommand)))
      && (operation in FunctionOperations ==> r == Ok(Some(FunctionCommand)))
      && (operation in ReturnOperations ==> r == Ok(Some(ReturnCommand)))
      && (operation in CallOperations ==> r == Ok(Some(CallCommand)))
  {
    var operation := Split(command)[0];
    var r := CommandType(command);
    if operation in ArithmeticOperations {
      assert r == Ok(Some(Arithmetic));
    } else if operation in PushPopOperations {
      assert operation == "push" || operation == "pop";
    } else if operation in LabelOperations {
      assert r == Ok(Some(LabelCommand));
    } else if operation in IfOperations {
      assert r == Ok(Some(IfCommand));
    } else if operation in FunctionOperations {
      assert r == Ok(Some(FunctionCommand));
    } else if operation in ReturnOperations {
      assert r == Ok(Some(ReturnCommand));
    }
  }

  /**
   * arg1: the mnemonic itself for an arithmetic command, otherwise the
   * second token, which needs at least three tokens.
   */
  function Arg1(command: string): (r: Result<string, ParseError>)
    ensures r.Ok? ==> IsToken(r.value)
    ensures r.Err? <==> Split(command) == [] || (Split(command)[0] !in ArithmeticOperations && |Split(command)| < 3)
    ensures Split(command) != [] && Split(command)[0] in ArithmeticOperations ==> r == Ok(Split(command)[0])
    ensures Split(command) != [] && Split(command)[0] !in ArithmeticOperations && |Split(command)| >= 3 ==>
      r == Ok(Split(command)[1])
  {
    var tokens := Split(command);
    if tokens == [] then Err(NoTokens)
    else if tokens[0] in ArithmeticOperations then Ok(tokens[0])
    else if |tokens| < 3 then Err(TooFewTokens(|tokens|))
    else Ok(tokens[1])
  }

  /**
   * arg2: nothing for an arithmetic command, the third token for push and
   * pop, nothing for any other command.
   */
  function Arg2(command: string): (r: Result<Option<string>, ParseError>)
    ensures r.Ok? && r.value.Some? ==> IsToken(r.value.value) && |Split(command)| >= 3 && Split(command)[0] in PushPopOperations
    ensures r.Err? <==> Split(command) == [] || (Split(command)[0] in PushPopOperations && |Split(command)| < 3)
    ensures Split(command) != [] && Split(command)[0] in PushPopOperations && |Split(command)| >= 3 ==>
      r == Ok(Some(Split(command)[2]))
    ensures Split(command) != [] && Split(command)[0] !in PushPopOperations ==> r == Ok(None)
  {
    var tokens := Split(command);
    if tokens == [] then Err(NoTokens)
    else if tokens[0] in ArithmeticOperations then Ok(None)
    else if tokens[0] in PushPopOperations then
      if |tokens| < 3 then Err(TooFewTokens(|tokens|)) else Ok(Some(tokens[2]))
    else Ok(None)
  }

  /**
   * A command whose first token is an arithmetic mnemonic is classified as
   * arithmetic and named by that mnemonic, whatever whitespace separates its
   * tokens and whatever tokens follow.
   */
  lemma ReadArithmetic(command: string, operation: string, rest: seq<string>)
    requires operation in ArithmeticOperations
    requires Split(command) == [operation] + rest
    ensures CommandType(command) == Ok(Some(Arithmetic))
    ensures Arg1(command) == Ok(operation)
    ensures Arg2(command) == Ok(None)
  {
    assert Split(command)[0] == operation;
  }

  /** The mnemonic written on its own reads back as that arithmetic command. */
  lemma ReadArithmeticWord(operation: string)
    requires operation in ArithmeticOperations
    ensures CommandType(operation) == Ok(Some(Arithmetic))
    ensures Arg1(operation) == Ok(operation)
    ensures Arg2(operation) == Ok(None)
  {
    assert IsToken(operation);
    SplitJoin([operation]);
    assert Join([operation]) == operation;
    ReadArithmetic(operation, operation, []);
  }

  /**
   * A push or pop whose first three tokens are the mnemonic, a segment and
   * an offset is read as that kind with that segment and offset, whatever
   * whitespace separates them and whatever tokens follow.
   */
  lemma ReadPushPop(command: string, operation: string, segment: string, offset: string, rest: seq<string>)
    requires operation in PushPopOperations
    requires Split(command) == [operation, segment, offset] + rest
    ensures CommandType(command) == Ok(Some(if operation == "push" then Push else Pop))
    ensures Arg1(command) == Ok(segment)
    ensures Arg2(command) == Ok(Some(offset))
  {
    var tokens := Split(command);
    assert |tokens| >= 3 && tokens[0] == operation && tokens[1] == segment && tokens[2] == offset;
  }

  /** `operation segment offset` written with single blanks reads back as that push or pop. */
  lemma ReadPushPopJoined(operation: string, segment: string, offset: string)
    requires operation in PushPopOperations
    requires IsToken(segment) && IsToken(offset)
    ensures var command := Join([operation, segment, offset]);
      && CommandType(command) == Ok(Some(if operation == "push" then Push else Pop))
      && Arg1(command) == Ok(segment)
      && Arg2(command) == Ok(Some(offset))
  {
    assert IsToken(operation);
    var command := Join([operation, segment, offset]);
    SplitJoin([operation, segment, offset]);
    assert Split(command) == [operation, segment, offset] + [];
    ReadPushPop(command, operation, segment, offset, []);
  }

  /** `goto` is in no mnemonic set, so it is never classified. */
  lemma GotoUnclassified(target: string)
    requires IsToken(target)
    ensures CommandType(Join(["goto", target])) == Ok(None)
  {
    assert IsToken("goto");
    SplitJoin(["goto", target]);
  }

  // ---------------------------------------------------------------------------
  // Lines

  /** A comment line starts with "//" as read, before any stripping. */
  predicate IsLineComment(line: string) {
    StartsWith(line, "//")
  }

  /** A blank line is empty or whitespace once stripped. */
  predicate IsLineNewLine(line: string) {
    |Strip(line)| == 0
  }

  predicate IsCommandLine(line: string) {
    !IsLineComment(line) && !IsLineNewLine(line)
  }

  /** The first command line at or after `from`, or |lines| if there is none. */
  function NextCommand(lines: seq<string>, from: nat): (k: nat)
    requires from <= |lines|
    ensures from <= k <= |lines|
    ensures k < |lines| ==> IsCommandLine(lines[k])
    ensures forall i :: from <= i < k ==> !IsCommandLine(lines[i])
    decreases |lines| - from
  {
    if from == |lines| then from
    else if IsCommandLine(lines[from]) then from
    else NextCommand(lines, from + 1)
  }

  /** A command line, once stripped, has a first token, so classifying it cannot fail. */
  lemma CommandLineHasTokens(line: string)
    requires IsCommandLine(line)
    ensures CommandType(Strip(line)).Ok?
  {
    var s := Strip(line);
    StripEnds(line);
    assert s != [];
    assert !IsSpace(s[0]);
  }

  // ---------------------------------------------------------------------------
  // The reader

  /**
   * A reader over the lines of one file. Each line is what readline()
   * returns, newline included, so no line is empty; the cursor is the index
   * of the next line to read.
   */
  class Parser {
    var lines: seq<string>
    var cursor: nat
    var currentCommand: Option<string>

    predicate Valid()
      reads this
    {
      && cursor <= |lines|
      && forall i :: 0 <= i < |lines| ==> lines[i] != ""
    }

    constructor (lines: seq<string>)
      requires forall i :: 0 <= i < |lines| ==> lines[i] != ""
      ensures Valid()
      ensures this.lines == lines && cursor == 0 && currentCommand == None
    {
      this.lines := lines;
      cursor := 0;
      currentCommand := None;
    }

    /** readline(): the next line and the cursor moved past it, or "" at the end. */
    method ReadLine() returns (line: string)
      requires Valid()
      modifies this
      ensures Valid() && lines == old(lines) && currentCommand == old(currentCommand)
      ensures old(cursor) < |lines| ==> line == lines[old(cursor)] && cursor == old(cursor) + 1
      ensures old(cursor) == |lines| ==> line == "" && cursor == old(cursor)
    {
      if cursor < |lines| {
        line := lines[cursor];
        cursor := cursor + 1;
      } else {
        line := "";
      }
    }

    /**
     * has_more_commands: skips comment and blank lines and stops in front of
     * the next command line, reporting whether there is one.
     */
    method HasMoreCommands() returns (more: bool)
      requires Valid()
      modifies this
      ensures Valid() && lines == old(lines) && currentCommand == old(currentCommand)
      ensures cursor == NextCommand(lines, old(cursor))
      ensures more <==> cursor < |lines|
    {
      while true
        invariant Valid() && lines == old(lines) && currentCommand == old(currentCommand)
        invariant NextCommand(lines, cursor) == NextCommand(lines, old(cursor))
        decreases |lines| - cursor
      {
        var currentPosition := cursor;
        var line := ReadLine();
        if line != "" && !IsLineComment(line) && !IsLineNewLine(line) {
          cursor := currentPosition;
          return true;
        } else if line == "" {
          return false;
        }
      }
    }

    /** advance: reads one line and keeps it, stripped, as the current command. */
    method Advance()
      requires Valid()
      modifies this
      ensures Valid() && lines == old(lines)
      ensures old(cursor) < |lines| ==> cursor == old(cursor) + 1 && currentCommand == Some(Strip(lines[old(cursor)]))
      ensures old(cursor) == |lines| ==> cursor == old(cursor) && currentCommand == Some("")
    {
      ghost var atEnd := cursor == |lines|;
      var line := ReadLine();
      var command := Strip(line);
      if atEnd {
        assert line == [];
        StripEnds(line);
      }
      currentCommand := Some(command);
    }
  }
}
