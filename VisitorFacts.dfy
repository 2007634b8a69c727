/**
 * Properties of the reference visit: the symbols a visit registers are the
 * functions it visits, in visiting order; the header has one `.globl` line
 * per symbol; instructions and value slices register nothing.
 */
module VisitorFacts {
  import opened Wrappers
  import opened Decimal
  import opened Raw
  import opened Visitor

  /** The functions a visit of `s` reaches, in the order the visitor reaches them (pre-order). */
  function VisitedFunctions(s: Slice): seq<Function>
    decreases s
  {
    match s
    case FunctionSlice(fs) => FunctionsIn(fs)
    case BlockSlice(bs) => FunctionsInBlocks(bs)
    case ValueSlice(_) => []
    case OtherSlice(_) => []
  }

  function FunctionsIn(fs: seq<Function>): seq<Function>
    decreases fs
  {
    if fs == [] then [] else FunctionsIn(fs[..|fs| - 1]) + FunctionsFrom(fs[|fs| - 1])
  }

  function FunctionsFrom(f: Function): seq<Function>
    decreases f
  {
    [f] + VisitedFunctions(f.bbs)
  }

  function FunctionsInBlocks(bs: seq<BasicBlock>): seq<Function>
    decreases bs
  {
    if bs == [] then [] else FunctionsInBlocks(bs[..|bs| - 1]) + FunctionsInBlock(bs[|bs| - 1])
  }

  function FunctionsInBlock(b: BasicBlock): seq<Function>
    decreases b
  {
    VisitedFunctions(b.insts)
  }

  /** `symbols[i]` is the name of `fs[i]` without its sigil, for every `i`. */
  predicate SymbolsOf(symbols: seq<string>, fs: seq<Function>) {
    |symbols| == |fs| &&
    forall i :: 0 <= i < |fs| ==> |fs[i].name| > 0 && symbols[i] == fs[i].name[1..]
  }

  lemma SymbolsOfJoin(a: seq<string>, f: seq<Function>, b: seq<string>, g: seq<Function>)
    requires SymbolsOf(a, f) && SymbolsOf(b, g)
    ensures SymbolsOf(a + b, f + g)
  {
  }

  /** A successful visit of a slice registers exactly the symbols of the functions it visits, in order. */
  lemma {:induction false} SliceSymbols(s: Slice)
    requires EmitSlice(s).Some?
    ensures SymbolsOf(EmitSlice(s).value.symbols, VisitedFunctions(s))
    decreases s
  {
    match s
    case FunctionSlice(fs) => FunctionsSymbols(fs);
    case BlockSlice(bs) => BlocksSymbols(bs);
    case ValueSlice(vs) => ValuesRegisterNothing(vs);
    case OtherSlice(_) =>
  }

  lemma {:induction false} FunctionsSymbols(fs: seq<Function>)
    requires EmitFunctions(fs).Some?
    ensures SymbolsOf(EmitFunctions(fs).value.symbols, FunctionsIn(fs))
    decreases fs
  {
    if fs != [] {
      var init, last := fs[..|fs| - 1], fs[|fs| - 1];
      FunctionsSymbols(init);
      FunctionSymbols(last);
      SymbolsOfJoin(EmitFunctions(init).value.symbols, FunctionsIn(init),
                    EmitFunction(last).value.symbols, FunctionsFrom(last));
    }
  }

  /** A function registers its own symbol first, then those of the functions its blocks reach. */
  lemma {:induction false} FunctionSymbols(f: Function)
    requires EmitFunction(f).Some?
    ensures SymbolsOf(EmitFunction(f).value.symbols, FunctionsFrom(f))
    decreases f
  {
    SliceSymbols(f.bbs);
    SymbolsOfJoin([f.name[1..]], [f], EmitSlice(f.bbs).value.symbols, VisitedFunctions(f.bbs));
  }

  lemma {:induction false} BlocksSymbols(bs: seq<BasicBlock>)
    requires EmitBlocks(bs).Some?
    ensures SymbolsOf(EmitBlocks(bs).value.symbols, FunctionsInBlocks(bs))
    decreases bs
  {
    if bs != [] {
      var init, last := bs[..|bs| - 1], bs[|bs| - 1];
      BlocksSymbols(init);
      BlockSymbols(last);
      SymbolsOfJoin(EmitBlocks(init).value.symbols, FunctionsInBlocks(init),
                    EmitBasicBlock(last).value.symbols, FunctionsInBlock(last));
    }
  }

  lemma {:induction false} BlockSymbols(b: BasicBlock)
    requires EmitBasicBlock(b).Some?
    ensures SymbolsOf(EmitBasicBlock(b).value.symbols, FunctionsInBlock(b))
    decreases b
  {
    SliceSymbols(b.insts);
  }

  /** Visiting values registers no symbol; the visit fails exactly when some value is unsupported. */
  lemma {:induction false} ValuesRegisterNothing(vs: seq<Value>)
    ensures EmitValues(vs).Some? <==> forall i :: 0 <= i < |vs| ==> Supported(vs[i])
    ensures EmitValues(vs).Some? ==> EmitValues(vs).value.symbols == []
    decreases vs
  {
    if vs != [] {
      var init := vs[..|vs| - 1];
      var last := vs[|vs| - 1];
      ValuesRegisterNothing(init);
      assert forall i :: 0 <= i < |init| ==> init[i] == vs[i];
      assert EmitValues(vs) == Join(EmitValues(init), TextOnly(VisitValue(last)));
      assert TextOnly(VisitValue(last)).Some? <==> Supported(last);
      assert (forall i :: 0 <= i < |vs| ==> Supported(vs[i])) <==>
        (forall i :: 0 <= i < |init| ==> Supported(init[i])) && Supported(last);
    }
  }

  /** A basic block of instructions registers no symbol. */
  lemma BasicBlockRegistersNothing(b: BasicBlock)
    requires b.insts.ValueSlice? && EmitBasicBlock(b).Some?
    ensures EmitBasicBlock(b).value.symbols == []
  {
    ValuesRegisterNothing(b.insts.values);
  }

  /** The functions a program visit reaches: those reached from the global values, then from the functions. */
  function ProgramFunctions(p: Program): seq<Function> {
    VisitedFunctions(p.values) + VisitedFunctions(p.funcs)
  }

  /**
   * A successful program visit registers, in visiting order, the symbol of
   * every function it visits and nothing else; `Vistor.Visit` prints one
   * `.globl` line for each of them.
   */
  lemma ProgramSymbols(p: Program)
    requires EmitProgram(p).Some?
    ensures SymbolsOf(EmitProgram(p).value.symbols, ProgramFunctions(p))
  {
    SliceSymbols(p.values);
    SliceSymbols(p.funcs);
    SymbolsOfJoin(EmitSlice(p.values).value.symbols, VisitedFunctions(p.values),
                  EmitSlice(p.funcs).value.symbols, VisitedFunctions(p.funcs));
  }

  // ---------------------------------------------------------------------
  // The header.

  lemma {:induction false} GlobLinesAppend(a: seq<string>, b: seq<string>)
    ensures GlobLines(a + b) == GlobLines(a) + GlobLines(b)
    decreases |b|
  {
    if b == [] {
      assert a + b == a;
    } else {
      var b' := b[..|b| - 1];
      assert (a + b)[..|a + b| - 1] == a + b';
      GlobLinesAppend(a, b');
    }
  }

  /** One `.globl` line per symbol: the symbols in order, each on a line of its own. */
  lemma GlobLinesOfList(a: seq<string>, s: string, b: seq<string>)
    ensures GlobLines(a + [s] + b) == GlobLines(a) + "  .globl " + s + "\n" + GlobLines(b)
  {
    GlobLinesAppend(a + [s], b);
    assert (a + [s])[..|a + [s]| - 1] == a;
  }

  function CountChar(s: string, c: char): nat {
    if s == [] then 0 else CountChar(s[..|s| - 1], c) + (if s[|s| - 1] == c then 1 else 0)
  }

  lemma {:induction false} CountCharAppend(s: string, t: string, c: char)
    ensures CountChar(s + t, c) == CountChar(s, c) + CountChar(t, c)
    decreases |t|
  {
    if t != [] {
      assert (s + t)[..|s + t| - 1] == s + t[..|t| - 1];
      CountCharAppend(s, t[..|t| - 1], c);
    } else {
      assert s + t == s;
    }
  }

  lemma {:induction false} CountCharAbsent(s: string, c: char)
    requires forall i :: 0 <= i < |s| ==> s[i] != c
    ensures CountChar(s, c) == 0
    decreases |s|
  {
    if s != [] {
      CountCharAbsent(s[..|s| - 1], c);
    }
  }

  /**
   * When no symbol contains a line break, the `.globl` part of the header has
   * exactly one line per symbol.
   */
  lemma {:induction false} GlobLineCount(symbols: seq<string>)
    requires forall k, i :: 0 <= k < |symbols| && 0 <= i < |symbols[k]| ==> symbols[k][i] != '\n'
    ensures CountChar(GlobLines(symbols), '\n') == |symbols|
    decreases |symbols|
  {
    if symbols != [] {
      var init, last := symbols[..|symbols| - 1], symbols[|symbols| - 1];
      GlobLineCount(init);
      CountCharAbsent("  .globl " + last, '\n');
      CountCharAppend(GlobLines(init), "  .globl " + last + "\n", '\n');
      CountCharAppend("  .globl " + last, "\n", '\n');
      assert GlobLines(init) + "  .globl " + last + "\n" == GlobLines(init) + ("  .globl " + last + "\n");
    }
  }
}
