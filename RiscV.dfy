/**
 * A reference meaning for the straight-line RISC-V code the visitor emits,
 * used to state what the emitted code does rather than how it is spelled:
 * `li a0, N` loads N into register a0, `ret` returns a0, a label line
 * (`name:`) does nothing.
 */
module RiscV {
  import opened Wrappers
  import opened Decimal
  import opened Raw
  import opened Visitor

  /** The index of the first line break in `s`, or `|s|` when there is none. */
  function LineEnd(s: string): (k: nat)
    ensures k <= |s|
    ensures forall i :: 0 <= i < k ==> s[i] != '\n'
    ensures k < |s| ==> s[k] == '\n'
  {
    if s == [] || s[0] == '\n' then 0 else 1 + LineEnd(s[1..])
  }

  /**
   * The value the code returns when it starts with `a0` in register a0; `None`
   * when it reaches a line it does not know or runs off its end.
   */
  function Run(code: string, a0: int): Option<int>
    decreases |code|
  {
    var k := LineEnd(code);
    if k == |code| then None
    else
      var line, rest := code[..k], code[k + 1..];
      if line == "  ret" then Some(a0)
      else if |line| > 0 && line[|line| - 1] == ':' then Run(rest, a0)
      else if |line| >= 9 && line[..9] == "  li a0, " then
        match ParseDecimal(line[9..])
        case Some(v) => Run(rest, v)
        case None => None
      else None
  }

  lemma LineEndOfLine(x: string, y: string)
    requires forall i :: 0 <= i < |x| ==> x[i] != '\n'
    ensures LineEnd(x + "\n" + y) == |x|
  {
    var s := x + "\n" + y;
    assert s[|x|] == '\n';
    assert forall i :: 0 <= i < |x| ==> s[i] == x[i];
  }

  /** `ret` returns what a0 holds. */
  lemma RetReturns(rest: string, a0: int)
    ensures Run("  ret\n" + rest, a0) == Some(a0)
  {
    assert "  ret\n" + rest == "  ret" + "\n" + rest;
    LineEndOfLine("  ret", rest);
    assert ("  ret\n" + rest)[..5] == "  ret";
  }

  /** `li a0, N` loads N, and execution goes on with the next line. */
  lemma LoadSetsA0(d: string, rest: string, a0: int)
    requires AllDecimalChars(d) && ParseDecimal(d).Some?
    ensures Run("  li a0, " + d + "\n" + rest, a0) == Run(rest, ParseDecimal(d).value)
  {
    var line := "  li a0, " + d;
    var s := line + "\n" + rest;
    LineEndOfLine(line, rest);
    assert s[..|line|] == line && s[|line| + 1..] == rest;
    assert line[..9] == "  li a0, " && line[9..] == d;
    assert |line| != |"  ret"|;
  }

  /** Loading a rendered integer into a0 and returning returns that integer, whatever a0 held before. */
  lemma LoadReturnReturns(n: int, a0: int)
    ensures Run("  li a0, " + IntToDecimal(n) + "\n  ret\n", a0) == Some(n)
  {
    var d := IntToDecimal(n);
    DecimalRoundTrip(n);
    assert "  li a0, " + d + "\n  ret\n" == "  li a0, " + d + "\n" + "  ret\n";
    LoadSetsA0(d, "  ret\n", a0);
    RetReturns("", n);
    assert "  ret\n" + "" == "  ret\n";
  }

  /** The code the visitor emits for `ret` of an integer returns that integer, whatever a0 held before. */
  lemma VisitedReturnReturns(n: Int32, a0: int)
    ensures VisitValue(Return(Some(Integer(n)))).Some?
    ensures Run(VisitValue(Return(Some(Integer(n)))).value, a0) == Some(n as int)
  {
    VisitValueText(Integer(n));
    VisitValueText(Return(Some(Integer(n))));
    LoadReturnReturns(n, a0);
  }

  /** A label line in front of the code changes nothing. */
  lemma LabelIsTransparent(name: string, code: string, a0: int)
    requires forall i :: 0 <= i < |name| ==> name[i] != '\n'
    ensures Run(name + ":\n" + code, a0) == Run(code, a0)
  {
    var line := name + ":";
    assert name + ":\n" + code == line + "\n" + code;
    LineEndOfLine(line, code);
    var s := line + "\n" + code;
    assert s[..|line|] == line && s[|line| + 1..] == code;
    assert line[|line| - 1] == ':' && "  ret"[4] == 't';
    assert line != "  ret";
  }
}
