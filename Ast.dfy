/**
 * The syntax tree of the front end (compilation unit, function definition,
 * function type, block, statement) and its lowering to Koopa IR text.
 *
 * Every node's IR is built by concatenating fixed tokens with the IR of its
 * children. The one failure is a function type other than `int`, on which
 * the lowering aborts; `None` stands for that abort (no IR is produced).
 */
module Ast {
  import opened Wrappers
  import opened Decimal

  datatype CompUnit = CompUnit(funcDef: FuncDef)
  datatype FuncDef = FuncDef(funcType: FuncType, ident: string, block: Block)
  datatype FuncType = FuncType(funcType: string)

  predicate IsIdentStart(c: char) {
    'A' <= c <= 'Z' || 'a' <= c <= 'z' || c == '_'
  }

  predicate IsIdentChar(c: char) {
    IsIdentStart(c) || '0' <= c <= '9'
  }

  /**
   * A SysY identifier, `[A-Za-z_][A-Za-z0-9_]*`: what the lexer hands over
   * as a function's name, and what Koopa IR accepts after the `@` of a
   * function symbol.
   */
  predicate IsIdent(s: string) {
    |s| > 0 && IsIdentStart(s[0]) && forall i :: 0 < i < |s| ==> IsIdentChar(s[i])
  }
  datatype Block = Block(stmt: Stmt)
  datatype Stmt = Stmt(number: Int32)

  /** The label of a function's single basic block. */
  const EntryLabel: string := "%entry:"

  /** Fixed text of a lowered function, around its identifier and its literal. */
  const IRHead: string := "fun @"
  const IRMid: string := "(): i32 {\n%entry:\n  ret "
  const IRTail: string := "\n}\n"

  /** A return instruction whose operand is the literal's decimal text. */
  function StmtIR(s: Stmt): (r: string)
    ensures |r| > 7 && r[..6] == "  ret " && r[|r| - 1] == '\n'
    ensures AllDecimalChars(r[6..|r| - 1]) && Canonical(r[6..|r| - 1])
    ensures ParseDecimal(r[6..|r| - 1]) == Some(s.number as int)
  {
    var d := IntToDecimal(s.number);
    DecimalRoundTrip(s.number);
    IntToDecimalCanonical(s.number);
    var r := "  " + "ret " + d + "\n";
    assert r[6..|r| - 1] == d;
    r
  }

  /** The statement's IR inside braces, under the entry label. */
  function BlockIR(b: Block): (r: string)
    ensures |r| > 12 && r[..10] == "{\n" + EntryLabel + "\n"
    ensures r[10..|r| - 2] == StmtIR(b.stmt)
    ensures r[|r| - 2..] == "}\n"
  {
    var r := "{\n" + EntryLabel + "\n" + StmtIR(b.stmt) + "}\n";
    assert r[10..|r| - 2] == StmtIR(b.stmt);
    r
  }

  /** `i32` for the `int` tag; any other tag aborts. */
  function FuncTypeIR(t: FuncType): (r: Option<string>)
    ensures r.Some? <==> t.funcType == "int"
    ensures r.Some? ==> r.value == "i32"
  {
    if t.funcType == "int" then Some("i32") else None
  }

  /** The function header `fun @<ident>(): <type>` followed by the block. */
  function FuncDefIR(f: FuncDef): (r: Option<string>)
    ensures r.Some? <==> f.funcType.funcType == "int"
    ensures r.Some? ==>
      var h := IRHead + f.ident + "(): i32 ";
      |r.value| > |h| && r.value[..|h|] == h && r.value[|h|..] == BlockIR(f.block)
  {
    match FuncTypeIR(f.funcType)
    case None => None
    case Some(t) =>
      var r := "fun @" + f.ident + "(): " + t + " " + BlockIR(f.block);
      var h := IRHead + f.ident + "(): i32 ";
      assert r[..|h|] == h && r[|h|..] == BlockIR(f.block);
      Some(r)
  }

  /** The compilation unit is transparent: its IR is its function's IR. */
  function CompUnitIR(c: CompUnit): (r: Option<string>)
    ensures r.Some? <==> c.funcDef.funcType.funcType == "int"
    ensures r.Some? ==> DecodeIR(r.value) == Some(c)
  {
    var r := FuncDefIR(c.funcDef);
    if r.Some? then DecodeLowered(c); r else r
  }

  /** The whole text of a lowered unit, fixed tokens and variable parts laid out. */
  lemma LoweredShape(c: CompUnit)
    requires c.funcDef.funcType.funcType == "int"
    ensures FuncDefIR(c.funcDef) ==
      Some(IRHead + c.funcDef.ident + IRMid + IntToDecimal(c.funcDef.block.stmt.number) + IRTail)
  {
    var f := c.funcDef;
    var d := IntToDecimal(f.block.stmt.number);
    var st := "  " + "ret " + d + "\n";
    var bl := "{\n" + EntryLabel + "\n" + st + "}\n";
    var mid := "(): " + "i32" + " " + "{\n" + EntryLabel + "\n" + "  " + "ret ";
    assert mid == IRMid;
    assert "fun @" + f.ident + "(): " + "i32" + " " + bl == IRHead + f.ident + mid + d + IRTail;
  }

  /**
   * The start of the longest run of decimal characters that ends `s`.
   * The contract pins it down uniquely.
   */
  function DecimalRunStart(s: string): (k: nat)
    ensures k <= |s|
    ensures AllDecimalChars(s[k..])
    ensures k > 0 ==> !IsDecimalChar(s[k - 1])
  {
    if |s| == 0 || !IsDecimalChar(s[|s| - 1]) then |s|
    else
      var k := DecimalRunStart(s[..|s| - 1]);
      assert s[k..] == s[..|s| - 1][k..] + [s[|s| - 1]];
      k
  }

  lemma DecimalRunStartOfJoin(x: string, d: string)
    requires |x| > 0 && !IsDecimalChar(x[|x| - 1]) && AllDecimalChars(d)
    ensures DecimalRunStart(x + d) == |x|
  {
    var s := x + d;
    var k := DecimalRunStart(s);
    assert s[|x| - 1] == x[|x| - 1];
    if k < |x| {
      assert false;
    }
  }

  /**
   * Reads lowered IR text back into the unit it came from: the identifier
   * lies between the fixed head and the fixed middle, the literal is the run
   * of decimal characters before the fixed tail and must be in canonical
   * `std::to_string` form and in 32-bit range.
   */
  function DecodeIR(s: string): (r: Option<CompUnit>)
  {
    if |s| < |IRHead| + |IRMid| + |IRTail| || s[..|IRHead|] != IRHead || s[|s| - |IRTail|..] != IRTail then None
    else
      var body := s[..|s| - |IRTail|];
      var k := DecimalRunStart(body);
      var before, digits := body[..k], body[k..];
      if |before| < |IRHead| + |IRMid| || before[|before| - |IRMid|..] != IRMid then None
      else
        match ParseDecimal(digits)
        case None => None
        case Some(n) =>
          if -0x8000_0000 <= n < 0x8000_0000 && IntToDecimal(n) == digits then
            Some(CompUnit(FuncDef(FuncType("int"), before[|IRHead|..|before| - |IRMid|], Block(Stmt(n)))))
          else None
  }

  /** Decoding the lowering of a unit gives back that unit. */
  lemma DecodeLowered(c: CompUnit)
    requires c.funcDef.funcType.funcType == "int"
    ensures DecodeIR(FuncDefIR(c.funcDef).value) == Some(c)
  {
    var f := c.funcDef;
    var n := f.block.stmt.number;
    var d := IntToDecimal(n);
    LoweredShape(c);
    var s := IRHead + f.ident + IRMid + d + IRTail;
    var x := IRHead + f.ident + IRMid;
    assert s[..|IRHead|] == IRHead;
    assert s[|s| - |IRTail|..] == IRTail;
    var body := s[..|s| - |IRTail|];
    assert body == x + d;
    DecimalRunStartOfJoin(x, d);
    assert body[..|x|] == x && body[|x|..] == d;
    assert x[|x| - |IRMid|..] == IRMid;
    assert x[|IRHead|..|x| - |IRMid|] == f.ident;
    DecimalRoundTrip(n);
  }

  /** Text that decodes is exactly the lowering of what it decodes to. */
  lemma DecodedIsLowered(s: string, c: CompUnit)
    requires DecodeIR(s) == Some(c)
    ensures CompUnitIR(c) == Some(s)
  {
    var body := s[..|s| - |IRTail|];
    var k := DecimalRunStart(body);
    var before, digits := body[..k], body[k..];
    var ident := before[|IRHead|..|before| - |IRMid|];
    assert before == IRHead + ident + IRMid;
    assert s == before + digits + IRTail;
    LoweredShape(c);
  }

  /** `%entry:` occurs exactly once in a block's IR, at offset 2, before the statement. */
  lemma EntryLabelOnce(b: Block)
    ensures forall i: nat :: OccursAt(BlockIR(b), EntryLabel, i) <==> i == 2
  {
    var r := BlockIR(b);
    PercentOnlyAtTwo(b);
    assert r[2..2 + |EntryLabel|] == EntryLabel;
    forall i: nat | OccursAt(r, EntryLabel, i) ensures i == 2 {
      assert r[i] == r[i..i + |EntryLabel|][0];
    }
  }

  /** Offset 2, the start of the entry label, holds the only `%` of a block's IR. */
  lemma PercentOnlyAtTwo(b: Block)
    ensures forall i :: 0 <= i < |BlockIR(b)| && i != 2 ==> BlockIR(b)[i] != '%'
  {
    var r := BlockIR(b);
    var head := "{\n" + EntryLabel + "\n";
    var st := StmtIR(b.stmt);
    StmtHasNoPercent(b.stmt);
    HeadHasOnePercent();
    assert r == head + (st + "}\n");
    forall i | 0 <= i < |r| && i != 2 ensures r[i] != '%' {
      if i < |head| {
        assert r[i] == head[i];
      } else if i < |head| + |st| {
        assert r[i] == st[i - |head|];
      }
    }
  }

  lemma HeadHasOnePercent()
    ensures forall j :: 0 <= j < |"{\n" + EntryLabel + "\n"| && j != 2 ==> ("{\n" + EntryLabel + "\n")[j] != '%'
  {
  }

  lemma StmtHasNoPercent(s: Stmt)
    ensures forall i :: 0 <= i < |StmtIR(s)| ==> StmtIR(s)[i] != '%'
  {
  }

  /** `p` occurs in `s` at offset `i`. */
  predicate OccursAt(s: string, p: string, i: nat) {
    i + |p| <= |s| && s[i..i + |p|] == p
  }

  /** `int main() { return 0; }` lowers to the documented IR text. */
  lemma MainReturnsZeroIR(c: CompUnit)
    requires c == CompUnit(FuncDef(FuncType("int"), "main", Block(Stmt(0))))
    ensures CompUnitIR(c) == Some("fun @main(): i32 {\n%entry:\n  ret 0\n}\n")
  {
    assert IntToDecimal(0) == "0";
    LoweredShape(c);
    MainIRText();
  }

  lemma MainIRText()
    ensures IRHead + "main" + IRMid + "0" + IRTail == "fun @main(): i32 {\n%entry:\n  ret 0\n}\n"
  {
  }
}
