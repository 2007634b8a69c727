/**
 * The raw (structured) Koopa program the visitor walks, held by value.
 * It stands for the arena-owned graph that the Koopa library builds from IR
 * text; pointers become nested values and a slice's element kind becomes
 * the constructor of `Slice`.
 */
module Raw {
  import opened Wrappers
  import opened Decimal

  /** A raw value (instruction or constant), dispatched on its tag. */
  datatype Value =
    | Integer(value: Int32)
    /** `None` is the null operand of a `ret` with no value. */
    | Return(operand: Option<Value>)
    /** Any other tag (alloc, load, store, binary, ...). */
    | OtherValue

  /**
   * A slice of raw elements. The kind tag decides how the visitor reads the
   * elements; `OtherSlice` stands for the remaining kinds (unknown, type),
   * whose `len` elements the visitor cannot handle.
   */
  datatype Slice =
    | FunctionSlice(funcs: seq<Function>)
    | BlockSlice(blocks: seq<BasicBlock>)
    | ValueSlice(values: seq<Value>)
    | OtherSlice(len: nat)

  /** A raw function: its IR-level name (with its sigil, e.g. `@main`) and its basic blocks. */
  datatype Function = Function(name: string, bbs: Slice)

  datatype BasicBlock = BasicBlock(insts: Slice)

  /** The global values and the functions of a raw program. */
  datatype Program = Program(values: Slice, funcs: Slice)
}
