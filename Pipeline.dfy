/**
 * The two stages together: syntax tree to IR text, IR text to raw program,
 * raw program to assembly. Parsing IR text and building the raw program is
 * the Koopa library's work; `BuildRawProgram` stands for what that library
 * returns on the IR text this compiler produces.
 */
module Pipeline {
  import opened Wrappers
  import opened Decimal
  import opened Ast
  import opened Raw
  import opened Visitor
  import opened VisitorFacts
  import opened RiscV

  /**
   * The raw program of `int <ident>() { return <n>; }`: no global values, one
   * function `@<ident>` with one basic block holding one `ret` of the integer.
   */
  function RawProgramOf(c: CompUnit): Program {
    var ret := Return(Some(Integer(c.funcDef.block.stmt.number)));
    Program(ValueSlice([]), FunctionSlice([Function("@" + c.funcDef.ident, BlockSlice([BasicBlock(ValueSlice([ret]))]))]))
  }

  /**
   * Parse and build: text that is not IR of this grammar fails, as the
   * library's parser rejects it, and so does a function whose name is not an
   * identifier (`fun @(): i32`, `fun @a b(): i32`), which is no IR symbol.
   */
  function BuildRawProgram(ir: string): Option<Program> {
    match DecodeIR(ir)
    case Some(c) => if IsIdent(c.funcDef.ident) then Some(RawProgramOf(c)) else None
    case None => None
  }

  /** The code emitted for a function returning `n`: load n into a0, return. */
  function ReturnCode(n: int): string {
    "  li a0, " + IntToDecimal(n) + "\n  ret\n"
  }

  /** The visit of the raw program of `c`: one symbol, and the function's label over the return code. */
  lemma EmitRawProgram(c: CompUnit)
    ensures EmitProgram(RawProgramOf(c)) ==
      Some(Emitted(c.funcDef.ident + ":\n" + ReturnCode(c.funcDef.block.stmt.number), [c.funcDef.ident]))
  {
    var n := c.funcDef.block.stmt.number;
    var ret := Return(Some(Integer(n)));
    var bb := BasicBlock(ValueSlice([ret]));
    var f := Function("@" + c.funcDef.ident, BlockSlice([bb]));
    var code := Some(Emitted(ReturnCode(n), []));
    var fn := Some(Emitted(c.funcDef.ident + ":\n" + ReturnCode(n), [c.funcDef.ident]));
    VisitValueText(Integer(n));
    VisitValueText(ret);
    assert VisitReturn(Some(Integer(n))) == Some(ReturnCode(n));
    assert VisitValue(ret) == Some(ReturnCode(n));
    assert [ret][..0] == [] && [bb][..0] == [] && [f][..0] == [];
    JoinNothing(code);
    assert EmitValues([ret]) == Join(Some(Nothing), code) == code;
    assert EmitBasicBlock(bb) == code;
    assert EmitBlocks([bb]) == Join(Some(Nothing), code) == code;
    assert SymbolOf(f.name) == c.funcDef.ident;
    assert [c.funcDef.ident] + [] == [c.funcDef.ident];
    assert EmitFunction(f) == Join(Some(Emitted(c.funcDef.ident + ":\n", [c.funcDef.ident])), code) == fn;
    JoinNothing(fn);
    assert EmitFunctions([f]) == Join(Some(Nothing), fn) == fn;
    assert EmitProgram(RawProgramOf(c)) == Join(Some(Nothing), fn);
  }

  /** The header and body `Visit` produces for the raw program of `c`, from no symbols. */
  lemma AssemblyOfRawProgram(c: CompUnit)
    ensures EmitProgram(RawProgramOf(c)).Some?
    ensures EmitProgram(RawProgramOf(c)).value.symbols == [c.funcDef.ident]
    ensures Header([] + [c.funcDef.ident]) + EmitProgram(RawProgramOf(c)).value.text ==
      "  .text\n  .globl " + c.funcDef.ident + "\n" + c.funcDef.ident + ":\n" +
      "  li a0, " + IntToDecimal(c.funcDef.block.stmt.number) + "\n  ret\n"
  {
    var ident := c.funcDef.ident;
    var d := IntToDecimal(c.funcDef.block.stmt.number);
    EmitRawProgram(c);
    assert [] + [ident] == [ident] && [ident][..0] == [];
    assert GlobLines([ident]) == "  .globl " + ident + "\n";
    HeaderThenFunction(ident, d);
  }

  lemma HeaderThenFunction(ident: string, d: string)
    ensures "  .text\n" + ("  .globl " + ident + "\n") + (ident + ":\n" + ("  li a0, " + d + "\n  ret\n")) ==
      "  .text\n  .globl " + ident + "\n" + ident + ":\n" + "  li a0, " + d + "\n  ret\n"
  {
  }

  /**
   * Compiles a syntax tree to assembly. A function type other than `int`
   * aborts before any IR exists, and a name that is not an identifier fails
   * the IR parse; otherwise the assembly is the text section, one `.globl`
   * line for the function, its label and its return code.
   */
  method Compile(c: CompUnit) returns (asm: Option<string>)
    ensures asm.Some? <==> c.funcDef.funcType.funcType == "int" && IsIdent(c.funcDef.ident)
    ensures asm.Some? ==>
      asm.value == "  .text\n  .globl " + c.funcDef.ident + "\n" + c.funcDef.ident + ":\n" +
                   "  li a0, " + IntToDecimal(c.funcDef.block.stmt.number) + "\n  ret\n"
  {
    var ir := CompUnitIR(c);
    if ir.None? {
      return None;
    }
    var raw := BuildRawProgram(ir.value);
    if raw.None? {
      return None;
    }
    assert raw.value == RawProgramOf(c);
    var visitor := new Vistor(raw.value);
    asm := visitor.Visit();
    AssemblyOfRawProgram(c);
    assert visitor.globalSymbols == [c.funcDef.ident];
  }

  /**
   * For every 32-bit literal, the compiled function, run from its label,
   * returns that literal, and the header declares its symbol exactly once.
   */
  lemma CompiledCodeReturnsLiteral(c: CompUnit, a0: int)
    requires c.funcDef.funcType.funcType == "int"
    requires forall i :: 0 <= i < |c.funcDef.ident| ==> c.funcDef.ident[i] != '\n'
    ensures EmitProgram(RawProgramOf(c)).Some?
    ensures EmitProgram(RawProgramOf(c)).value.symbols == [c.funcDef.ident]
    ensures Run(EmitProgram(RawProgramOf(c)).value.text, a0) == Some(c.funcDef.block.stmt.number as int)
  {
    EmitRawProgram(c);
    LabelIsTransparent(c.funcDef.ident, ReturnCode(c.funcDef.block.stmt.number), a0);
    LoadReturnReturns(c.funcDef.block.stmt.number, a0);
  }

  lemma MainIsIdent()
    ensures IsIdent("main")
  {
  }

  /** `int main() { return 0; }` compiles to the documented assembly. */
  method CompileReturnZero() returns (asm: Option<string>)
    ensures asm == Some("  .text\n  .globl main\nmain:\n  li a0, 0\n  ret\n")
  {
    MainIsIdent();
    asm := Compile(CompUnit(FuncDef(FuncType("int"), "main", Block(Stmt(0)))));
    assert IntToDecimal(0) == "0";
    assert asm.value == "  .text\n  .globl " + "main" + "\n" + "main" + ":\n" + "  li a0, " + "0" + "\n  ret\n";
    assert "  .text\n  .globl " + "main" + "\n" + "main" + ":\n" + "  li a0, " + "0" + "\n  ret\n"
      == "  .text\n  .globl main\nmain:\n  li a0, 0\n  ret\n";
  }

  /** `int main() { return 42; }` compiles to a body loading 42 and returning. */
  method CompileReturnFortyTwo() returns (asm: Option<string>)
    ensures asm == Some("  .text\n  .globl main\nmain:\n  li a0, 42\n  ret\n")
  {
    MainIsIdent();
    asm := Compile(CompUnit(FuncDef(FuncType("int"), "main", Block(Stmt(42)))));
    assert IntToDecimal(42) == "42";
    assert asm.value == "  .text\n  .globl " + "main" + "\n" + "main" + ":\n" + "  li a0, " + "42" + "\n  ret\n";
    assert "  .text\n  .globl " + "main" + "\n" + "main" + ":\n" + "  li a0, " + "42" + "\n  ret\n"
      == "  .text\n  .globl main\nmain:\n  li a0, 42\n  ret\n";
  }

  /** A function without a name has no IR symbol, so nothing is compiled. */
  method CompileEmptyName() returns (asm: Option<string>)
    ensures asm.None?
  {
    asm := Compile(CompUnit(FuncDef(FuncType("int"), "", Block(Stmt(0)))));
  }

  /** A function type other than `int` produces neither IR nor assembly. */
  method CompileBadType() returns (asm: Option<string>)
    ensures asm.None?
  {
    asm := Compile(CompUnit(FuncDef(FuncType("void"), "main", Block(Stmt(0)))));
  }
}
