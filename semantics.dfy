/** The stack machine of vm.py as state-transition functions.

    A configuration holds the token program, the operand stack (top last), the
    instruction pointer, the lines still to be read by `read` and the text written
    so far by `print`, `println` and `stack`. Every operator is a function from a
    configuration to the next one plus a signal: carry on, `exit` was called, or an
    exception was raised. The class in machine.dfy is proved to follow these. */
module Semantics {
  import opened Values

  /** A program token as the tokenizer produces it: a Python int, a float, or a str
      (an operator name, a `"`-quoted literal or any other word). */
  datatype Token = IntTok(n: int) | FloatTok(x: real) | StrTok(s: string)

  /** The entries of the dispatch table. */
  datatype Op =
    | Mod | Mul | Plus | Minus | Div | Eq | CastInt | CastStr | Drop | Dup
    | Exit | IfStmt | Jmp | Over | Print | Println | Read | DumpStack | Swap

  /** The operator name each entry is registered under. */
  function OpName(op: Op): string
  {
    match op
    case Mod => "%"
    case Mul => "*"
    case Plus => "+"
    case Minus => "-"
    case Div => "/"
    case Eq => "=="
    case CastInt => "cast_int"
    case CastStr => "cast_str"
    case Drop => "drop"
    case Dup => "dup"
    case Exit => "exit"
    case IfStmt => "if"
    case Jmp => "jmp"
    case Over => "over"
    case Print => "print"
    case Println => "println"
    case Read => "read"
    case DumpStack => "stack"
    case Swap => "swap"
  }

  /** The dispatch-table lookup `opcode in dispatch_map`. The names are tried in
      groups of equal length, which finds the same entry as a lookup by name. */
  function OpOf(s: string): (r: Option<Op>)
    ensures r.Some? ==> OpName(r.value) == s
  {
    if |s| == 1 then
      if s == "%" then Some(Mod)
      else if s == "*" then Some(Mul)
      else if s == "+" then Some(Plus)
      else if s == "-" then Some(Minus)
      else if s == "/" then Some(Div)
      else None
    else if |s| == 2 then
      if s == "==" then Some(Eq)
      else if s == "if" then Some(IfStmt)
      else None
    else if |s| == 3 then
      if s == "dup" then Some(Dup)
      else if s == "jmp" then Some(Jmp)
      else None
    else if |s| == 4 then
      if s == "drop" then Some(Drop)
      else if s == "exit" then Some(Exit)
      else if s == "over" then Some(Over)
      else if s == "read" then Some(Read)
      else if s == "swap" then Some(Swap)
      else None
    else if |s| == 5 then
      if s == "print" then Some(Print)
      else if s == "stack" then Some(DumpStack)
      else None
    else if s == "println" then Some(Println)
    else if s == "cast_int" then Some(CastInt)
    else if s == "cast_str" then Some(CastStr)
    else None
  }

  datatype Config = Config(code: seq<Token>, stack: seq<Value>, addr: nat, input: seq<string>, output: string)

  /** How an operator hands control back to the fetch loop. */
  datatype Signal = Next | ExitCalled | Raised(error: Error)

  datatype Transition = Transition(next: Config, signal: Signal)

  /** How a run ends: off the end of the program, through `exit`, by an exception,
      or (for the bounded runner only) with its step budget used up. */
  datatype Status = Finished | Exited | Failed(error: Error) | OutOfFuel

  datatype Outcome = Outcome(final: Config, status: Status)

  /** A pop on an empty stack: every earlier pop of the same operator has already
      emptied the stack, so it is empty when the IndexError is raised. */
  function Underflow(c: Config): Transition
  {
    Transition(c.(stack := []), Raised(StackUnderflow))
  }

  /** The body shared by the binary operators: pop v2, pop v1, push f(v1, v2). */
  function Binary(c: Config, f: (Value, Value) -> Result<Value>): Transition
  {
    var n := |c.stack|;
    if n < 2 then Underflow(c)
    else
      var rest := c.stack[..n - 2];
      match f(c.stack[n - 2], c.stack[n - 1])
      case Ok(v) => Transition(c.(stack := rest + [v]), Next)
      case Err(e) => Transition(c.(stack := rest), Raised(e))
  }

  /** The body shared by the casts: pop v, push f(v). */
  function Unary(c: Config, f: Value -> Result<Value>): Transition
  {
    var n := |c.stack|;
    if n < 1 then Underflow(c)
    else
      var rest := c.stack[..n - 1];
      match f(c.stack[n - 1])
      case Ok(v) => Transition(c.(stack := rest + [v]), Next)
      case Err(e) => Transition(c.(stack := rest), Raised(e))
  }

  function EqValue(v1: Value, v2: Value): Result<Value>
  {
    Ok(VBool(PyEq(v1, v2)))
  }

  function StrValue(v: Value): Result<Value>
  {
    Ok(VStr(Str(v)))
  }

  /** What `stack` writes: one line per element, top of the stack first. */
  function StackDump(s: seq<Value>): string
  {
    if s == [] then "" else StackDump(s[1..]) + Str(s[0]) + "\n"
  }

  function DropOp(c: Config): Transition
  {
    var s, n := c.stack, |c.stack|;
    if n < 1 then Underflow(c) else Transition(c.(stack := s[..n - 1]), Next)
  }

  function DupOp(c: Config): Transition
  {
    var s, n := c.stack, |c.stack|;
    if n < 1 then Underflow(c) else Transition(c.(stack := s + [s[n - 1]]), Next)
  }

  /** `if` pops the false clause, the true clause and the condition, and pushes one
      of the clauses: it selects a value, it does not branch. */
  function IfOp(c: Config): Transition
  {
    var s, n := c.stack, |c.stack|;
    if n < 3 then Underflow(c)
    else Transition(c.(stack := s[..n - 3] + [if Truthy(s[n - 3]) then s[n - 2] else s[n - 1]]), Next)
  }

  /** `jmp` pops a target; comparing a str with 0 is a type error. */
  function JmpOp(c: Config): Transition
  {
    var s, n := c.stack, |c.stack|;
    if n < 1 then Underflow(c)
    else
      var popped := c.(stack := s[..n - 1]);
      match AsInt(s[n - 1])
      case None => Transition(popped, Raised(TypeMismatch))
      case Some(a) =>
        if 0 <= a < |c.code| then Transition(popped.(addr := a), Next)
        else Transition(popped, Raised(InvalidJumpTarget))
  }

  function OverOp(c: Config): Transition
  {
    var s, n := c.stack, |c.stack|;
    if n < 2 then Underflow(c) else Transition(c.(stack := s + [s[n - 2]]), Next)
  }

  function PrintOp(c: Config): Transition
  {
    var s, n := c.stack, |c.stack|;
    if n < 1 then Underflow(c)
    else Transition(c.(stack := s[..n - 1], output := c.output + Str(s[n - 1])), Next)
  }

  function PrintlnOp(c: Config): Transition
  {
    var s, n := c.stack, |c.stack|;
    if n < 1 then Underflow(c)
    else Transition(c.(stack := s[..n - 1], output := c.output + Str(s[n - 1]) + "\n"), Next)
  }

  /** `read` pushes the next input line; with none left, `input()` raises. */
  function ReadOp(c: Config): Transition
  {
    if c.input == [] then Transition(c, Raised(EndOfInput))
    else Transition(c.(stack := c.stack + [VStr(c.input[0])], input := c.input[1..]), Next)
  }

  function DumpStackOp(c: Config): Transition
  {
    Transition(c.(output := c.output + StackDump(c.stack)), Next)
  }

  function SwapOp(c: Config): Transition
  {
    var s, n := c.stack, |c.stack|;
    if n < 2 then Underflow(c) else Transition(c.(stack := s[..n - 2] + [s[n - 1], s[n - 2]]), Next)
  }

  /** One operator applied to a configuration: the dispatch table. No operator touches
      the program, and only `jmp` moves the instruction pointer. */
  function ApplyOp(op: Op, c: Config): (t: Transition)
    ensures t.next.code == c.code
    ensures op != Jmp ==> t.next.addr == c.addr
  {
    match op
    case Mod => Binary(c, PyModulo)
    case Mul => Binary(c, PyMul)
    case Plus => Binary(c, PyAdd)
    case Minus => Binary(c, PySub)
    case Div => Binary(c, PySub)
    case Eq => Binary(c, EqValue)
    case CastInt => Unary(c, IntOf)
    case CastStr => Unary(c, StrValue)
    case Drop => DropOp(c)
    case Dup => DupOp(c)
    case Exit => Transition(c, ExitCalled)
    case IfStmt => IfOp(c)
    case Jmp => JmpOp(c)
    case Over => OverOp(c)
    case Print => PrintOp(c)
    case Println => PrintlnOp(c)
    case Read => ReadOp(c)
    case DumpStack => DumpStackOp(c)
    case Swap => SwapOp(c)
  }

  /** A str token pushed as a literal: first and last character both `"`. */
  predicate IsQuoted(s: string)
  {
    |s| >= 1 && s[0] == '"' && s[|s| - 1] == '"'
  }

  /** `opcode[1:-1]`, which is empty for the one-character token `"`. */
  function Unquote(s: string): string
  {
    if |s| >= 2 then s[1..|s| - 1] else ""
  }

  /** `dispatch(opcode)`: an operator name runs its handler, an int is pushed, a quoted
      str is pushed without its quotes, and anything else is ignored. An empty str
      token fails on `opcode[0]`. */
  function Dispatch(tok: Token, c: Config): (t: Transition)
    ensures t.next.code == c.code
    ensures tok != StrTok("jmp") ==> t.next.addr == c.addr
  {
    match tok
    case IntTok(n) => Transition(c.(stack := c.stack + [VInt(n)]), Next)
    case FloatTok(_) => Transition(c, Next)
    case StrTok(s) =>
      match OpOf(s)
      case Some(op) => ApplyOp(op, c)
      case None =>
        if s == "" then Transition(c, Raised(EmptyToken))
        else if IsQuoted(s) then Transition(c.(stack := c.stack + [VStr(Unquote(s))]), Next)
        else Transition(c, Next)
  }

  /** One turn of the `run` loop: fetch `code[addr]`, advance `addr`, dispatch. */
  function Step(c: Config): (t: Transition)
    requires c.addr < |c.code|
    ensures t.next.code == c.code
    ensures c.code[c.addr] != StrTok("jmp") ==> t.next.addr == c.addr + 1
  {
    Dispatch(c.code[c.addr], c.(addr := c.addr + 1))
  }

  /** `run()` with a bound on the number of tokens it may execute. The loop ends
      normally exactly when the instruction pointer is at or past the end. */
  function Exec(c: Config, fuel: nat): (r: Outcome)
    ensures r.final.code == c.code
    ensures r.status == Finished ==> r.final.addr >= |c.code|
    ensures r.status == OutOfFuel ==> r.final.addr < |c.code|
    decreases fuel, 2
  {
    if c.addr >= |c.code| then Outcome(c, Finished) else Turn(c, fuel)
  }

  /** A turn of the bounded loop: stop when the budget is spent, else run the body. */
  function Turn(c: Config, fuel: nat): (r: Outcome)
    requires c.addr < |c.code|
    ensures r.final.code == c.code
    ensures r.status == Finished ==> r.final.addr >= |c.code|
    ensures r.status == OutOfFuel ==> r.final.addr < |c.code|
    decreases fuel, 1
  {
    if fuel == 0 then Outcome(c, OutOfFuel) else Resume(c, fuel)
  }

  /** The body of the `run` loop: one step, then the rest of the run. */
  function Resume(c: Config, fuel: nat): (r: Outcome)
    requires c.addr < |c.code| && fuel > 0
    ensures r.final.code == c.code
    ensures r.status == Finished ==> r.final.addr >= |c.code|
    ensures r.status == OutOfFuel ==> r.final.addr < |c.code|
    decreases fuel, 0
  {
    var t := Step(c);
    match t.signal
    case Next => Exec(t.next, fuel - 1)
    case ExitCalled => Outcome(t.next, Exited)
    case Raised(e) => Outcome(t.next, Failed(e))
  }

  /** One turn of the loop inside a bounded run. */
  lemma ExecStep(c: Config, fuel: nat, t: Transition)
    requires c.addr < |c.code| && fuel > 0 && t == Step(c)
    ensures t.signal == Next ==> Exec(c, fuel) == Exec(t.next, fuel - 1)
    ensures t.signal == ExitCalled ==> Exec(c, fuel) == Outcome(t.next, Exited)
    ensures t.signal.Raised? ==> Exec(c, fuel) == Outcome(t.next, Failed(t.signal.error))
  {
    assert Exec(c, fuel) == Resume(c, fuel);
  }
}
