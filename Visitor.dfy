/**
 * The visitor that turns a raw Koopa program into RISC-V assembly text.
 *
 * The `Emit*` functions are the reference: a visit as a pure function that
 * returns the text it produces together with the global symbols it
 * registers, in order. The class `Vistor` (the source's spelling) is the
 * imperative visitor: its slice loops accumulate text and its function visit
 * appends to the `globalSymbols` field; each of its methods is proved to do
 * what the corresponding `Emit*` function says. `None` stands for the
 * visitor stopping on a failed assertion (an unsupported slice kind or value
 * tag) or on an exception (a function with an empty name).
 */
module Visitor {
  import opened Wrappers
  import opened Decimal
  import opened Raw

  /** What a visit produces: assembly text and the symbols it registers, in order. */
  datatype Emitted = Emitted(text: string, symbols: seq<string>)

  const Nothing: Emitted := Emitted("", [])

  /** Two visits one after the other: texts and symbols concatenated; a failure in either fails both. */
  function Join(a: Option<Emitted>, b: Option<Emitted>): Option<Emitted> {
    if a.Some? && b.Some? then Some(Emitted(a.value.text + b.value.text, a.value.symbols + b.value.symbols))
    else None
  }

  function TextOnly(t: Option<string>): Option<Emitted> {
    if t.Some? then Some(Emitted(t.value, [])) else None
  }

  /** The assembly symbol of an IR function name: the name without its one-character sigil. */
  function SymbolOf(name: string): (sym: string)
    requires |name| > 0
    ensures |sym| == |name| - 1 && [name[0]] + sym == name
  {
    name[1..]
  }

  // ---------------------------------------------------------------------
  // Values: pure dispatch, no symbols.

  /** Values the visitor can render: integers and returns of such values, nothing else. */
  predicate Supported(v: Value) {
    match v
    case Integer(_) => true
    case Return(None) => true
    case Return(Some(w)) => Supported(w)
    case OtherValue => false
  }

  /** An integer constant is rendered as the decimal text of its value, used as an operand. */
  function VisitInteger(n: Int32): (r: string)
    ensures |r| > 0 && AllDecimalChars(r)
    ensures ParseDecimal(r) == Some(n as int)
  {
    DecimalRoundTrip(n);
    IntToDecimal(n)
  }

  /**
   * The integer's text is canonical, so by `DecimalOfCanonical` it is the one
   * text `std::to_string` gives for the value it parses to.
   */
  lemma VisitIntegerCanonical(n: Int32)
    ensures Canonical(VisitInteger(n))
    ensures IntToDecimal(ParseDecimal(VisitInteger(n)).value) == VisitInteger(n)
  {
    IntToDecimalCanonical(n);
    DecimalOfCanonical(VisitInteger(n));
  }

  /**
   * A `ret`: nothing for a null operand; otherwise loading the rendered
   * operand into `a0`, then `ret`.
   */
  function VisitReturn(operand: Option<Value>): (r: Option<string>)
    ensures operand.None? ==> r == Some("")
    ensures operand.Some? ==> (r.Some? <==> Supported(operand.value))
    ensures r.Some? && operand.Some? ==>
      |r.value| > 15 && r.value[..9] == "  li a0, " && r.value[|r.value| - 7..] == "\n  ret\n" &&
      r.value[9..|r.value| - 7] == VisitValue(operand.value).value
    decreases operand
  {
    match operand
    case None => Some("")
    case Some(w) =>
      match VisitValue(w)
      case None => None
      case Some(t) =>
        var r := "  li a0, " + t + "\n  ret\n";
        assert r[..9] == "  li a0, " && r[|r| - 7..] == "\n  ret\n" && r[9..|r| - 7] == t;
        Some(r)
  }

  /** Dispatch on the value's tag; any tag other than integer and return fails. */
  function VisitValue(v: Value): (r: Option<string>)
    ensures r.Some? <==> Supported(v)
    decreases v
  {
    match v
    case Return(operand) => VisitReturn(operand)
    case Integer(n) => Some(VisitInteger(n))
    case OtherValue => None
  }

  /**
   * The text of each supported value: an integer is its decimal text, a `ret`
   * without operand is empty, and a `ret` of a value loads that value's text
   * into `a0` and returns.
   */
  lemma VisitValueText(v: Value)
    ensures v.Integer? ==> VisitValue(v) == Some(IntToDecimal(v.value))
    ensures v == Return(None) ==> VisitValue(v) == Some("")
    ensures v.Return? && v.operand.Some? && Supported(v) ==>
      VisitValue(v) == Some("  li a0, " + VisitValue(v.operand.value).value + "\n  ret\n")
  {
  }

  // ---------------------------------------------------------------------
  // Reference visit of slices, functions and basic blocks.

  /** A slice: its elements visited in index order, read as its kind says. */
  function EmitSlice(s: Slice): Option<Emitted>
    decreases s
  {
    match s
    case FunctionSlice(fs) => EmitFunctions(fs)
    case BlockSlice(bs) => EmitBlocks(bs)
    case ValueSlice(vs) => EmitValues(vs)
    case OtherSlice(n) => if n == 0 then Some(Nothing) else None
  }

  function EmitFunctions(fs: seq<Function>): Option<Emitted>
    decreases fs
  {
    if fs == [] then Some(Nothing) else Join(EmitFunctions(fs[..|fs| - 1]), EmitFunction(fs[|fs| - 1]))
  }

  function EmitBlocks(bs: seq<BasicBlock>): Option<Emitted>
    decreases bs
  {
    if bs == [] then Some(Nothing) else Join(EmitBlocks(bs[..|bs| - 1]), EmitBasicBlock(bs[|bs| - 1]))
  }

  function EmitValues(vs: seq<Value>): Option<Emitted>
    decreases vs
  {
    if vs == [] then Some(Nothing) else Join(EmitValues(vs[..|vs| - 1]), TextOnly(VisitValue(vs[|vs| - 1])))
  }

  /**
   * A function registers its symbol first, then its label line, then its
   * basic blocks. An empty name has no character to strip and fails.
   */
  function EmitFunction(f: Function): Option<Emitted>
    decreases f
  {
    if |f.name| == 0 then None
    else
      var sym := SymbolOf(f.name);
      Join(Some(Emitted(sym + ":\n", [sym])), EmitSlice(f.bbs))
  }

  function EmitBasicBlock(b: BasicBlock): Option<Emitted>
    decreases b
  {
    EmitSlice(b.insts)
  }

  /** A program: its global values, then its functions. */
  function EmitProgram(p: Program): Option<Emitted> {
    Join(EmitSlice(p.values), EmitSlice(p.funcs))
  }

  /** One more value visited: its text is appended, or the visit fails with it. */
  lemma EmitValuesStep(vs: seq<Value>, i: nat, ret: string)
    requires i < |vs| && EmitValues(vs[..i]) == Some(Emitted(ret, []))
    ensures VisitValue(vs[i]).None? ==> EmitValues(vs[..i + 1]).None?
    ensures VisitValue(vs[i]).Some? ==> EmitValues(vs[..i + 1]) == Some(Emitted(ret + VisitValue(vs[i]).value, []))
  {
    assert vs[..i + 1][..i] == vs[..i];
    assert EmitValues(vs[..i + 1]) == Join(EmitValues(vs[..i]), TextOnly(VisitValue(vs[i])));
    assert Nothing.symbols + [] == [];
  }

  /** The assembly header: the text section, then one `.globl` line per symbol in order. */
  function Header(symbols: seq<string>): string {
    "  .text\n" + GlobLines(symbols)
  }

  function GlobLines(symbols: seq<string>): string {
    if symbols == [] then "" else GlobLines(symbols[..|symbols| - 1]) + "  .globl " + symbols[|symbols| - 1] + "\n"
  }

  /** The header loop of `Vistor.Visit`: one `.globl` line per symbol, in order, after the text section. */
  method HeaderText(symbols: seq<string>) returns (header: string)
    ensures header == Header(symbols)
  {
    header := "  .text\n";
    for i := 0 to |symbols|
      invariant header == Header(symbols[..i])
    {
      assert symbols[..i + 1][..i] == symbols[..i];
      header := header + "  .globl " + symbols[i] + "\n";
    }
    assert symbols[..|symbols|] == symbols;
  }

  // ---------------------------------------------------------------------
  // A slice is visited element by element, in index order.

  lemma JoinAssociative(a: Option<Emitted>, b: Option<Emitted>, c: Option<Emitted>)
    ensures Join(Join(a, b), c) == Join(a, Join(b, c))
  {
    if a.Some? && b.Some? && c.Some? {
      assert (a.value.text + b.value.text) + c.value.text == a.value.text + (b.value.text + c.value.text);
      assert (a.value.symbols + b.value.symbols) + c.value.symbols == a.value.symbols + (b.value.symbols + c.value.symbols);
    }
  }

  lemma JoinNothing(a: Option<Emitted>)
    ensures Join(a, Some(Nothing)) == a && Join(Some(Nothing), a) == a
  {
    if a.Some? {
      assert a.value.text + "" == a.value.text == "" + a.value.text;
      assert a.value.symbols + [] == a.value.symbols == [] + a.value.symbols;
    }
  }

  /** Visiting `a + b` is visiting `a`, then `b`. */
  lemma {:induction false} EmitFunctionsAppend(a: seq<Function>, b: seq<Function>)
    ensures EmitFunctions(a + b) == Join(EmitFunctions(a), EmitFunctions(b))
    decreases |b|
  {
    if b == [] {
      assert a + b == a;
      JoinNothing(EmitFunctions(a));
    } else {
      var b' := b[..|b| - 1];
      assert (a + b)[..|a + b| - 1] == a + b';
      EmitFunctionsAppend(a, b');
      JoinAssociative(EmitFunctions(a), EmitFunctions(b'), EmitFunction(b[|b| - 1]));
    }
  }

  lemma {:induction false} EmitBlocksAppend(a: seq<BasicBlock>, b: seq<BasicBlock>)
    ensures EmitBlocks(a + b) == Join(EmitBlocks(a), EmitBlocks(b))
    decreases |b|
  {
    if b == [] {
      assert a + b == a;
      JoinNothing(EmitBlocks(a));
    } else {
      var b' := b[..|b| - 1];
      assert (a + b)[..|a + b| - 1] == a + b';
      EmitBlocksAppend(a, b');
      JoinAssociative(EmitBlocks(a), EmitBlocks(b'), EmitBasicBlock(b[|b| - 1]));
    }
  }

  lemma {:induction false} EmitValuesAppend(a: seq<Value>, b: seq<Value>)
    ensures EmitValues(a + b) == Join(EmitValues(a), EmitValues(b))
    decreases |b|
  {
    if b == [] {
      assert a + b == a;
      JoinNothing(EmitValues(a));
    } else {
      var b' := b[..|b| - 1];
      assert (a + b)[..|a + b| - 1] == a + b';
      EmitValuesAppend(a, b');
      JoinAssociative(EmitValues(a), EmitValues(b'), TextOnly(VisitValue(b[|b| - 1])));
    }
  }

  // ---------------------------------------------------------------------
  // The imperative visitor.

  class Vistor {
    /** The raw program built from the IR text; the visitor only reads it. */
    const program: Program
    var globalSymbols: seq<string>

    constructor (program: Program)
      ensures this.program == program && globalSymbols == []
    {
      this.program := program;
      globalSymbols := [];
    }

    /**
     * Visits the global values, then the functions, and prefixes the header
     * built from every symbol registered so far.
     */
    method Visit() returns (r: Option<string>)
      modifies this
      ensures r.Some? <==> EmitProgram(program).Some?
      ensures r.Some? ==>
        globalSymbols == old(globalSymbols) + EmitProgram(program).value.symbols &&
        r.value == Header(globalSymbols) + EmitProgram(program).value.text
    {
      var body := "";
      var values := VisitSlice(program.values);
      if values.None? {
        assert EmitProgram(program) == Join(None, EmitSlice(program.funcs)) == None;
        return None;
      }
      body := body + values.value;
      var funcs := VisitSlice(program.funcs);
      if funcs.None? {
        assert EmitProgram(program) == Join(EmitSlice(program.values), None) == None;
        return None;
      }
      body := body + funcs.value;
      ghost var vals, fns := EmitSlice(program.values).value, EmitSlice(program.funcs).value;
      assert EmitProgram(program) == Some(Emitted(vals.text + fns.text, vals.symbols + fns.symbols));
      var header := HeaderText(globalSymbols);
      r := Some(header + body);
    }

    /**
     * Visits the elements of a slice in index order, reading them as the
     * slice's kind says; one loop per kind.
     */
    method VisitSlice(s: Slice) returns (r: Option<string>)
      modifies this
      decreases s, 1
      ensures r.Some? <==> EmitSlice(s).Some?
      ensures r.Some? ==>
        r.value == EmitSlice(s).value.text &&
        globalSymbols == old(globalSymbols) + EmitSlice(s).value.symbols
      ensures s.ValueSlice? ==> globalSymbols == old(globalSymbols)
    {
      match s
      case FunctionSlice(fs) =>
        r := VisitFunctions(fs);
      case BlockSlice(bs) =>
        r := VisitBlocks(bs);
      case ValueSlice(vs) =>
        r := VisitValues(vs);
      case OtherSlice(n) =>
        if n > 0 {
          return None;
        }
        r := Some("");
    }

    /** The loop of `VisitSlice` over a function slice. */
    method VisitFunctions(fs: seq<Function>) returns (r: Option<string>)
      modifies this
      decreases FunctionSlice(fs), 0
      ensures r.Some? <==> EmitFunctions(fs).Some?
      ensures r.Some? ==>
        r.value == EmitFunctions(fs).value.text &&
        globalSymbols == old(globalSymbols) + EmitFunctions(fs).value.symbols
    {
      var ret := "";
      ghost var start := globalSymbols;
      assert fs[..0] == [] && globalSymbols[|start|..] == [];
      for i := 0 to |fs|
        invariant |globalSymbols| >= |start| && globalSymbols[..|start|] == start
        invariant EmitFunctions(fs[..i]) == Some(Emitted(ret, globalSymbols[|start|..]))
      {
        assert fs[..i + 1][..i] == fs[..i];
        ghost var before := globalSymbols;
        var t := VisitFunction(fs[i]);
        if t.None? {
          EmitFunctionsAppend(fs[..i + 1], fs[i + 1..]);
          assert fs[..i + 1] + fs[i + 1..] == fs;
          return None;
        }
        ret := ret + t.value;
        assert globalSymbols[|start|..] == before[|start|..] + EmitFunction(fs[i]).value.symbols;
      }
      assert fs[..|fs|] == fs;
      r := Some(ret);
    }

    /** The loop of `VisitSlice` over a basic-block slice. */
    method VisitBlocks(bs: seq<BasicBlock>) returns (r: Option<string>)
      modifies this
      decreases BlockSlice(bs), 0
      ensures r.Some? <==> EmitBlocks(bs).Some?
      ensures r.Some? ==>
        r.value == EmitBlocks(bs).value.text &&
        globalSymbols == old(globalSymbols) + EmitBlocks(bs).value.symbols
    {
      var ret := "";
      ghost var start := globalSymbols;
      assert bs[..0] == [] && globalSymbols[|start|..] == [];
      for i := 0 to |bs|
        invariant |globalSymbols| >= |start| && globalSymbols[..|start|] == start
        invariant EmitBlocks(bs[..i]) == Some(Emitted(ret, globalSymbols[|start|..]))
      {
        assert bs[..i + 1][..i] == bs[..i];
        ghost var before := globalSymbols;
        var t := VisitBasicBlock(bs[i]);
        if t.None? {
          EmitBlocksAppend(bs[..i + 1], bs[i + 1..]);
          assert bs[..i + 1] + bs[i + 1..] == bs;
          return None;
        }
        ret := ret + t.value;
        assert globalSymbols[|start|..] == before[|start|..] + EmitBasicBlock(bs[i]).value.symbols;
      }
      assert bs[..|bs|] == bs;
      r := Some(ret);
    }

    /** The loop of `VisitSlice` over a value slice; it reads no state and changes none. */
    method VisitValues(vs: seq<Value>) returns (r: Option<string>)
      ensures r.Some? <==> EmitValues(vs).Some?
      ensures r.Some? ==> r.value == EmitValues(vs).value.text && EmitValues(vs).value.symbols == []
    {
      var ret := "";
      assert vs[..0] == [];
      for i := 0 to |vs|
        invariant EmitValues(vs[..i]) == Some(Emitted(ret, []))
      {
        var t := VisitValue(vs[i]);
        EmitValuesStep(vs, i, ret);
        if t.None? {
          EmitValuesAppend(vs[..i + 1], vs[i + 1..]);
          assert vs[..i + 1] + vs[i + 1..] == vs;
          return None;
        }
        ret := ret + t.value;
      }
      assert vs[..|vs|] == vs;
      r := Some(ret);
    }

    /**
     * Registers the function's symbol (its name without the sigil) at the end
     * of `globalSymbols`, then emits the label and visits the basic blocks.
     */
    method VisitFunction(f: Function) returns (r: Option<string>)
      modifies this
      decreases f, 2
      ensures r.Some? <==> EmitFunction(f).Some?
      ensures r.Some? ==>
        r.value == EmitFunction(f).value.text &&
        globalSymbols == old(globalSymbols) + EmitFunction(f).value.symbols
      ensures r.Some? ==>
        |globalSymbols| > |old(globalSymbols)| &&
        globalSymbols[..|old(globalSymbols)|] == old(globalSymbols) &&
        globalSymbols[|old(globalSymbols)|] == f.name[1..]
    {
      if |f.name| == 0 {
        return None;
      }
      var symbol := f.name[1..];
      globalSymbols := globalSymbols + [symbol];
      var ret := symbol + ":\n";
      var bbs := VisitSlice(f.bbs);
      if bbs.None? {
        return None;
      }
      r := Some(ret + bbs.value);
    }

    /** A basic block is the visit of its instruction slice. */
    method VisitBasicBlock(bb: BasicBlock) returns (r: Option<string>)
      modifies this
      decreases bb, 2
      ensures r.Some? <==> EmitBasicBlock(bb).Some?
      ensures r.Some? ==>
        r.value == EmitBasicBlock(bb).value.text &&
        globalSymbols == old(globalSymbols) + EmitBasicBlock(bb).value.symbols
      ensures bb.insts.ValueSlice? ==> globalSymbols == old(globalSymbols)
    {
      r := VisitSlice(bb.insts);
    }
  }
}
