# A tiny SysY-to-RISC-V compiler: IR lowering and assembly emission

This project models the two translation stages of a minimal compiler for
programs of the form `int main() { return <literal>; }`, and proves what they
produce.

1. **Syntax tree to Koopa IR text** (module `Ast`). The five node kinds
   (compilation unit, function definition, function type, block, statement)
   are datatypes; each node's `GenerateIR` is a function returning the IR
   string. A function type other than `int` aborts the process; the model
   returns `None` then, so no IR is produced. `std::to_string` is modelled by
   `Decimal.IntToDecimal`, with a parser `Decimal.ParseDecimal` that reads the
   text back. `Ast.DecodeIR` reads lowered IR text back into the tree it came
   from; the two round-trip lemmas show that the lowering loses nothing and
   that exactly the decodable texts are lowerings.
2. **Raw Koopa program to RISC-V assembly** (modules `Raw`, `Visitor`,
   `VisitorFacts`). The raw program is held by value: a slice is a tagged
   union of typed sequences (functions, basic blocks, values, or another kind),
   a value is `Integer`, `Return` with an optional operand, or another tag.
   `Visitor.Emit*` is the visit as a pure function that returns the text and
   the list of symbols registered, in order. The class `Visitor.Vistor` (the
   source's spelling) is the visitor itself: its slice loops accumulate text,
   and `VisitFunction` appends to the `globalSymbols` field. Every method is
   proved to produce exactly what the `Emit*` functions say. `None` stands for
   a failed `assert(false)` (an unsupported slice kind or value tag) or for the
   `std::out_of_range` that `substr(1)` throws on an empty function name.
   `VisitorFacts` proves that the symbols registered are those of the visited
   functions, in visiting order. It also proves that the header has one
   `.globl` line per symbol and that value slices register nothing.
3. **Meaning and pipeline** (modules `RiscV`, `Pipeline`). `RiscV.Run` gives
   the emitted straight-line code a meaning: `li a0, N` loads N, `ret` returns
   a0, and label lines do nothing. With it, the emitted code is proved to return
   the literal written in the source. `Pipeline.Compile` chains the two stages
   through IR text. It succeeds exactly when the function type is `int` and the
   function's name is an identifier, `[A-Za-z_][A-Za-z0-9_]*`, which the
   model takes to be the names the IR parse accepts after `@`. Then the assembly is
   proved exact for every such name and every 32-bit literal.

Two behaviours of the code are kept as they are. First, the visitor registers
a symbol once per *visit* of a function, not once per distinct function. So a
second `Vistor.Visit()` on the same object prints every `.globl` line again,
because `globalSymbols` is never cleared. Second, a `ret` without an operand
emits no text at all.

## Model

| member | source | states |
|---|---|---|
| `Decimal.NatToDecimal` | src/ast.hpp:119 | the digits of a natural number, non-empty, all digits, with no leading zero unless the number is 0 |
| `Decimal.IntToDecimal` | src/ast.hpp:119 | `std::to_string`: non-empty, only digits and `-`; it starts with `-` exactly when the value is negative, all digits follow the sign, and the first digit is `0` only for the value 0 itself (canonical, so never `007` or `-0`) |
| `Decimal.ParseDecimal` | src/ast.hpp:119 | the inverse reading of `std::to_string`: accepts only non-empty text of digits and minus signs |
| `Decimal.DecimalRoundTrip` | src/ast.hpp:119 | the decimal text of every integer parses back to that integer |
| `Decimal.DecimalOfCanonical` | src/ast.hpp:119 | every canonical decimal text parses, and `std::to_string` of its value is that very text; with the round trip, rendering is a bijection onto the canonical texts |
| `Decimal.DecimalInjective` | src/ast.hpp:119 | distinct integers render as distinct text |
| `Ast.StmtIR` | src/ast.hpp:115-121 | `  ret ` then a canonical decimal operand that parses back to the literal (so, by `Decimal.DecimalOfCanonical`, exactly `std::to_string` of it), then a line break |
| `Ast.BlockIR` | src/ast.hpp:94-101 | starts with `{`, a line break and the `%entry:` label line; then the statement's IR; ends with `}` and a line break |
| `Ast.EntryLabelOnce` | src/ast.hpp:96-98 | `%entry:` occurs in a block's IR at an offset exactly when that offset is 2, before the statement |
| `Ast.FuncTypeIR` | src/ast.hpp:73-80 | yields `i32` exactly when the tag is `int`; any other tag aborts and yields nothing |
| `Ast.FuncDefIR` | src/ast.hpp:52-59 | succeeds exactly when the type tag is `int`; then the text starts with `fun @<ident>(): i32 ` and the rest is the block's IR |
| `Ast.CompUnitIR` | src/ast.hpp:28-31 | succeeds exactly when the function's type tag is `int`, and the text then decodes back to the very same unit |
| `Ast.LoweredShape` | src/ast.hpp:28-121 | the whole IR text is `fun @<ident>(): i32 {`, `%entry:`, `  ret <decimal>`, `}`, one per line |
| `Ast.DecodeLowered` | src/ast.hpp:28-121 | decoding the IR of any unit with an `int` function gives that unit back (identifier and literal recovered) |
| `Ast.DecodedIsLowered` | src/ast.hpp:28-121 | any text that decodes is exactly the IR of the unit it decodes to |
| `Ast.MainReturnsZeroIR` | src/ast.hpp:28-121 | `int main() { return 0; }` lowers to `fun @main(): i32 {\n%entry:\n  ret 0\n}\n` |
| `Visitor.SymbolOf` | src/visitor.hpp:80 | the symbol is the IR name with its first character removed: one shorter, and that character followed by the symbol is the name |
| `Visitor.VisitInteger` | src/visitor.hpp:118-121 | non-empty decimal text that parses back to the integer's value |
| `Visitor.VisitIntegerCanonical` | src/visitor.hpp:118-121 | the integer's text is canonical, and is `std::to_string` of the value it parses to |
| `Visitor.VisitReturn` | src/visitor.hpp:123-132 | a null operand yields empty text; otherwise it succeeds exactly when the operand is supported, and the text is `  li a0, `, then exactly the operand's own visit, then a line break, `  ret` and a line break |
| `Visitor.VisitValue` | src/visitor.hpp:96-116 | succeeds exactly when the value is built from integers and returns only; every other tag is an assertion failure |
| `Visitor.VisitValueText` | src/visitor.hpp:103-131 | the text of each supported value: an integer is `std::to_string` of it, a null `ret` is empty, and a `ret` of a value is `  li a0, `, that value's text, a line break, `  ret` and a line break |
| `Visitor.EmitFunctionsAppend` | src/visitor.hpp:51-59 | visiting the functions of `a + b` is visiting those of `a`, then those of `b`: texts and symbols concatenated, a failure in either fails both |
| `Visitor.EmitBlocksAppend` | src/visitor.hpp:51-64 | the same for basic-block slices |
| `Visitor.EmitValuesAppend` | src/visitor.hpp:51-68 | the same for value slices |
| `Visitor.HeaderText` | src/visitor.hpp:31-42 | the header loop yields the text section followed by one `.globl` line per symbol, in list order |
| `Visitor.Vistor.constructor` | src/visitor.hpp:13-26 | the visitor holds the built raw program and starts with no symbols |
| `Visitor.Vistor.Visit` | src/visitor.hpp:29-45 | succeeds exactly when the values and the functions visit successfully; `globalSymbols` is extended by the symbols registered, in order; the result is the header over ALL of `globalSymbols`, then the values' text, then the functions' text |
| `Visitor.Vistor.VisitSlice` | src/visitor.hpp:48-75 | succeeds exactly when the reference visit does; its text is the reference text and `globalSymbols` gains exactly the registered symbols at its end; an empty slice of any kind yields empty text; a value slice never changes `globalSymbols` |
| `Visitor.Vistor.VisitFunctions` | src/visitor.hpp:51-59 | the slice loop over functions, in index order, proved against the reference visit of the function sequence |
| `Visitor.Vistor.VisitBlocks` | src/visitor.hpp:51-64 | the slice loop over basic blocks, in index order, proved against the reference visit of the block sequence |
| `Visitor.Vistor.VisitValues` | src/visitor.hpp:51-68 | the slice loop over values: succeeds exactly when every value is supported; its text is the concatenation of the values' texts; no symbol is registered |
| `Visitor.Vistor.VisitFunction` | src/visitor.hpp:78-86 | fails on an empty name; otherwise it appends exactly one symbol, `name[1..]`, after the earlier entries and leaves them unchanged, then returns the symbol, `:`, a line break and the visit of the blocks |
| `Visitor.Vistor.VisitBasicBlock` | src/visitor.hpp:89-93 | the visit of the block's instruction slice; a block of instructions leaves `globalSymbols` unchanged |
| `VisitorFacts.SliceSymbols` | src/visitor.hpp:48-86 | a successful slice visit registers exactly one symbol per visited function, the function's name without its sigil, in pre-order |
| `VisitorFacts.FunctionsSymbols` | src/visitor.hpp:51-59 | the same for a sequence of functions |
| `VisitorFacts.FunctionSymbols` | src/visitor.hpp:78-86 | a function registers its own symbol first, then those of the functions its blocks reach |
| `VisitorFacts.BlocksSymbols` | src/visitor.hpp:61-64 | the same for a sequence of basic blocks |
| `VisitorFacts.BlockSymbols` | src/visitor.hpp:89-93 | the same for one basic block |
| `VisitorFacts.ValuesRegisterNothing` | src/visitor.hpp:65-68 | a value slice visit succeeds exactly when every value is supported, and registers no symbol |
| `VisitorFacts.BasicBlockRegistersNothing` | src/visitor.hpp:89-93 | a basic block of instructions registers no symbol |
| `VisitorFacts.ProgramSymbols` | src/visitor.hpp:33-42 | a program visit registers the symbols of the functions reached from the global values, then from the functions, in that order |
| `VisitorFacts.GlobLinesAppend` | src/visitor.hpp:39-42 | the `.globl` lines of `a + b` are those of `a` followed by those of `b` |
| `VisitorFacts.GlobLinesOfList` | src/visitor.hpp:39-42 | each symbol has its `  .globl <symbol>` line, at its place in list order |
| `VisitorFacts.GlobLineCount` | src/visitor.hpp:39-42 | when no symbol contains a line break, the `.globl` part has exactly one line per symbol |
| `RiscV.LoadSetsA0` | src/visitor.hpp:128-129 | `li a0, N` loads N into a0 and execution continues with the next line |
| `RiscV.RetReturns` | src/visitor.hpp:130 | `ret` returns what a0 holds |
| `RiscV.LoadReturnReturns` | src/visitor.hpp:128-131 | the code emitted for a return of an integer returns that integer, whatever a0 held before |
| `RiscV.VisitedReturnReturns` | src/visitor.hpp:103-131 | the text the visitor emits for `ret` of an integer returns that integer, whatever a0 held before |
| `RiscV.LabelIsTransparent` | src/visitor.hpp:82 | the function's label line changes nothing about what the code returns |
| `Pipeline.EmitRawProgram` | src/visitor.hpp:29-132 | the raw program of `int f() { return n; }` visits to the symbol `f` and the text `f:`, `li a0, n`, `ret` |
| `Pipeline.AssemblyOfRawProgram` | src/visitor.hpp:29-45 | from no symbols, header and body together are `.text`, `.globl f`, the label `f:`, `li a0, n` and `ret`, one per line |
| `Pipeline.Compile` | src/ast.hpp:28-121 | compiling succeeds exactly when the function type is `int` and the name is an identifier, and then yields exactly that assembly for every such name and every 32-bit literal |
| `Pipeline.CompiledCodeReturnsLiteral` | src/visitor.hpp:78-132 | for every 32-bit literal, the single registered symbol is the function's name, and the emitted code run from its label returns the literal |
| `Pipeline.CompileReturnZero` | src/visitor.hpp:29-45 | `int main() { return 0; }` compiles to `  .text\n  .globl main\nmain:\n  li a0, 0\n  ret\n` |
| `Pipeline.CompileReturnFortyTwo` | src/visitor.hpp:29-45 | `int main() { return 42; }` compiles to a body that loads 42 into a0 and returns |
| `Pipeline.CompileEmptyName` | src/visitor.hpp:18-19 | the instance of `Compile`'s failure clause for a function with an empty name: the IR parse fails and there is no assembly |
| `Pipeline.CompileBadType` | src/ast.hpp:76-79 | the `void` instance of `Compile`'s failure clause: no IR and no assembly |

## Left out

- `Dump()` of every syntax-tree class: it only writes to standard output and returns nothing.
- Parsing IR text and building the raw program (the `Vistor` constructor's calls into the Koopa library) and releasing the builder in the destructor: foreign code and memory management. The constructor here receives the built raw program. `Pipeline.BuildRawProgram` stands for what the library returns on this compiler's IR; it is an assumption about the library, not a model of it. It accepts a function name exactly when it is an identifier, `[A-Za-z_][A-Za-z0-9_]*`. That is the language of SysY identifiers, used here as the library's rule for the name after `@`; the library's own grammar is not part of this model.
- Koopa's C structures, raw pointers and `reinterpret_cast`: values are held by value. A slice whose kind tag disagrees with its elements cannot be represented.
- Process termination on `abort()`, `assert(false)` and uncaught exceptions: modelled as a `None` result. Builds with `NDEBUG`, where the assertions vanish, are not modelled.
- Visitor.Vistor.VisitSlice: one loop per slice kind instead of one loop with the kind switch inside; the order and the output are the same. When a visit fails, the contract does not say what `globalSymbols` holds afterwards (except for value slices), since the process has stopped by then.
- Visitor.Vistor.Visit: says nothing about `globalSymbols` after a failure, since the process has stopped by then.
- Visitor.Vistor.VisitBasicBlock: says nothing about `globalSymbols` after a failure of a block whose instructions are not a value slice, for the same reason.
- Visitor.Vistor.VisitFunctions: says nothing about `globalSymbols` after a failure, for the same reason.
- Visitor.Vistor.VisitBlocks: says nothing about `globalSymbols` after a failure, for the same reason.
- Visitor.Vistor.VisitFunction: says nothing about `globalSymbols` after a failure, for the same reason. A null function name (undefined behaviour in the code) cannot be represented.
- Visitor.VisitValue: its own contract gives only when it succeeds. The text of each tag is stated by `Visitor.VisitValueText`, kept out of the function's contract so that the proofs that unfold value visits stay small.
- Value tags other than integer and return (alloc, load, binary, ...): one `OtherValue` tag, on which the visitor fails, as the code does.
- The lexer and parser that build the syntax tree are not part of this model.
- `RiscV.Run` knows only the two instructions and the label lines the visitor emits; it is not a model of RISC-V.
