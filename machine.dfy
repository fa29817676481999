/** The `Machine` class of vm.py: a program, an operand stack it mutates through
    `push` and `pop`, and an instruction pointer the `run` loop advances.

    Standard input and standard output are modelled as two more fields: the lines
    `read` has still to consume and the text written so far. `Push`, `Pop`, `Top` and the
    constructor state their effect on the fields directly; every operator method,
    `Dispatch` and one turn of the loop are proved to change the fields exactly as the
    matching function of the Semantics module says, and `Run` ends as `Semantics.Exec`. */
module Vm {
  import opened Values
  import Semantics
  import StackLaws

  class Machine {
    const code: seq<Semantics.Token>
    var stack: seq<Value>
    var addr: nat
    var input: seq<string>
    var output: string

    /** The fields as a configuration of the Semantics module. */
    function State(): Semantics.Config
      reads this
    {
      Semantics.Config(code, stack, addr, input, output)
    }

    constructor (code: seq<Semantics.Token>, input: seq<string>)
      ensures State() == Semantics.Config(code, [], 0, input, "")
    {
      this.code := code;
      this.stack := [];
      this.addr := 0;
      this.input := input;
      this.output := "";
    }

    method Push(v: Value)
      modifies this
      ensures State() == old(State()).(stack := old(stack) + [v])
    {
      stack := stack + [v];
    }

    /** `stack.pop()`: the top value, or an underflow on an empty stack. */
    method Pop() returns (r: Result<Value>)
      modifies this
      ensures old(stack) == [] ==> r == Err(StackUnderflow) && State() == old(State())
      ensures old(stack) != [] ==>
        && r == Ok(old(stack)[|old(stack)| - 1])
        && State() == old(State()).(stack := old(stack)[..|old(stack)| - 1])
    {
      if stack == [] {
        return Err(StackUnderflow);
      }
      r := Ok(stack[|stack| - 1]);
      stack := stack[..|stack| - 1];
    }

    /** The `top` property: reads the top value without removing it. */
    method Top() returns (r: Result<Value>)
      ensures stack == [] ==> r == Err(StackUnderflow)
      ensures stack != [] ==> r == Ok(stack[|stack| - 1])
    {
      if stack == [] {
        return Err(StackUnderflow);
      }
      return Ok(stack[|stack| - 1]);
    }

    /** The body the binary operators share: pop v2, pop v1, push f(v1, v2). */
    method Binary(f: (Value, Value) -> Result<Value>) returns (sig: Semantics.Signal)
      modifies this
      ensures Semantics.Transition(State(), sig) == Semantics.Binary(old(State()), f)
    {
      var v2 := Pop();
      if v2.Err? { return Semantics.Raised(v2.error); }
      var v1 := Pop();
      if v1.Err? { return Semantics.Raised(v1.error); }
      var r := f(v1.value, v2.value);
      if r.Err? { return Semantics.Raised(r.error); }
      Push(r.value);
      sig := Semantics.Next;
    }

    /** The body the casts share: pop v, push f(v). */
    method Unary(f: Value -> Result<Value>) returns (sig: Semantics.Signal)
      modifies this
      ensures Semantics.Transition(State(), sig) == Semantics.Unary(old(State()), f)
    {
      var v := Pop();
      if v.Err? { return Semantics.Raised(v.error); }
      var r := f(v.value);
      if r.Err? { return Semantics.Raised(r.error); }
      Push(r.value);
      sig := Semantics.Next;
    }

    method Mod() returns (sig: Semantics.Signal)
      modifies this
      ensures Semantics.Transition(State(), sig) == Semantics.Binary(old(State()), PyModulo)
    {
      sig := Binary(PyModulo);
    }

    method Mul() returns (sig: Semantics.Signal)
      modifies this
      ensures Semantics.Transition(State(), sig) == Semantics.Binary(old(State()), PyMul)
    {
      sig := Binary(PyMul);
    }

    method Plus() returns (sig: Semantics.Signal)
      modifies this
      ensures Semantics.Transition(State(), sig) == Semantics.Binary(old(State()), PyAdd)
    {
      sig := Binary(PyAdd);
    }

    method Minus() returns (sig: Semantics.Signal)
      modifies this
      ensures Semantics.Transition(State(), sig) == Semantics.Binary(old(State()), PySub)
    {
      sig := Binary(PySub);
    }

    /** Registered under `/`, but pushes v1 - v2. */
    method Div() returns (sig: Semantics.Signal)
      modifies this
      ensures Semantics.Transition(State(), sig) == Semantics.Binary(old(State()), PySub)
    {
      sig := Binary(PySub);
    }

    method Eq() returns (sig: Semantics.Signal)
      modifies this
      ensures Semantics.Transition(State(), sig) == Semantics.Binary(old(State()), Semantics.EqValue)
    {
      sig := Binary(Semantics.EqValue);
    }

    method CastInt() returns (sig: Semantics.Signal)
      modifies this
      ensures Semantics.Transition(State(), sig) == Semantics.Unary(old(State()), IntOf)
    {
      sig := Unary(IntOf);
    }

    method CastStr() returns (sig: Semantics.Signal)
      modifies this
      ensures Semantics.Transition(State(), sig) == Semantics.Unary(old(State()), Semantics.StrValue)
    {
      sig := Unary(Semantics.StrValue);
    }

    method Drop() returns (sig: Semantics.Signal)
      modifies this
      ensures Semantics.Transition(State(), sig) == Semantics.DropOp(old(State()))
    {
      var v := Pop();
      if v.Err? { return Semantics.Raised(v.error); }
      sig := Semantics.Next;
    }

    method Dup() returns (sig: Semantics.Signal)
      modifies this
      ensures Semantics.Transition(State(), sig) == Semantics.DupOp(old(State()))
    {
      var v := Pop();
      if v.Err? { return Semantics.Raised(v.error); }
      Push(v.value);
      Push(v.value);
      sig := Semantics.Next;
    }

    /** `exit(0)` ends the process; here it ends the run. */
    method Exit() returns (sig: Semantics.Signal)
      ensures Semantics.Transition(State(), sig) == Semantics.ApplyOp(Semantics.Exit, State())
    {
      sig := Semantics.ExitCalled;
    }

    method IfStmt() returns (sig: Semantics.Signal)
      modifies this
      ensures Semantics.Transition(State(), sig) == Semantics.IfOp(old(State()))
    {
      var falseClause := Pop();
      if falseClause.Err? { return Semantics.Raised(falseClause.error); }
      var trueClause := Pop();
      if trueClause.Err? { return Semantics.Raised(trueClause.error); }
      var cond := Pop();
      if cond.Err? { return Semantics.Raised(cond.error); }
      if Truthy(cond.value) {
        Push(trueClause.value);
      } else {
        Push(falseClause.value);
      }
      sig := Semantics.Next;
    }

    method Jmp() returns (sig: Semantics.Signal)
      modifies this
      ensures Semantics.Transition(State(), sig) == Semantics.JmpOp(old(State()))
    {
      var target := Pop();
      if target.Err? { return Semantics.Raised(target.error); }
      var a := AsInt(target.value);
      if a.None? {
        // comparing a str with 0 raises TypeError
        return Semantics.Raised(TypeMismatch);
      }
      if 0 <= a.value < |code| {
        addr := a.value;
        sig := Semantics.Next;
      } else {
        sig := Semantics.Raised(InvalidJumpTarget);
      }
    }

    method Over() returns (sig: Semantics.Signal)
      modifies this
      ensures Semantics.Transition(State(), sig) == Semantics.OverOp(old(State()))
    {
      var v2 := Pop();
      if v2.Err? { return Semantics.Raised(v2.error); }
      var v1 := Pop();
      if v1.Err? { return Semantics.Raised(v1.error); }
      Push(v1.value);
      Push(v2.value);
      Push(v1.value);
      sig := Semantics.Next;
    }

    method Print() returns (sig: Semantics.Signal)
      modifies this
      ensures Semantics.Transition(State(), sig) == Semantics.PrintOp(old(State()))
    {
      var v := Pop();
      if v.Err? { return Semantics.Raised(v.error); }
      output := output + Str(v.value);
      sig := Semantics.Next;
    }

    method Println() returns (sig: Semantics.Signal)
      modifies this
      ensures Semantics.Transition(State(), sig) == Semantics.PrintlnOp(old(State()))
    {
      var v := Pop();
      if v.Err? { return Semantics.Raised(v.error); }
      output := output + Str(v.value) + "\n";
      sig := Semantics.Next;
    }

    /** `input()`: the next line, or end of input when none is left. */
    method Read() returns (sig: Semantics.Signal)
      modifies this
      ensures Semantics.Transition(State(), sig) == Semantics.ReadOp(old(State()))
    {
      if input == [] {
        return Semantics.Raised(EndOfInput);
      }
      var text := input[0];
      input := input[1..];
      Push(VStr(text));
      sig := Semantics.Next;
    }

    /** Writes every element, top first, one per line; the stack is left as it is. */
    method DumpStack() returns (sig: Semantics.Signal)
      modifies this
      ensures Semantics.Transition(State(), sig) == Semantics.DumpStackOp(old(State()))
    {
      var i := |stack|;
      while i > 0
        invariant 0 <= i <= |stack|
        invariant stack == old(stack) && input == old(input) && addr == old(addr)
        invariant output == old(output) + Semantics.StackDump(stack[i..])
      {
        i := i - 1;
        StackLaws.StackDumpFrom(stack, i);
        StackLaws.Regroup(old(output), Semantics.StackDump(stack[i + 1..]), Str(stack[i]), "\n");
        output := output + Str(stack[i]) + "\n";
      }
      assert stack[0..] == stack;
      sig := Semantics.Next;
    }

    method Swap() returns (sig: Semantics.Signal)
      modifies this
      ensures Semantics.Transition(State(), sig) == Semantics.SwapOp(old(State()))
    {
      var v2 := Pop();
      if v2.Err? { return Semantics.Raised(v2.error); }
      var v1 := Pop();
      if v1.Err? { return Semantics.Raised(v1.error); }
      Push(v2.value);
      Push(v1.value);
      sig := Semantics.Next;
    }

    /** Calls the handler the dispatch table holds for op. */
    method Invoke(op: Semantics.Op) returns (sig: Semantics.Signal)
      modifies this
      ensures Semantics.Transition(State(), sig) == Semantics.ApplyOp(op, old(State()))
    {
      match op
      case Mod => sig := Mod();
      case Mul => sig := Mul();
      case Plus => sig := Plus();
      case Minus => sig := Minus();
      case Div => sig := Div();
      case Eq => sig := Eq();
      case CastInt => sig := CastInt();
      case CastStr => sig := CastStr();
      case Drop => sig := Drop();
      case Dup => sig := Dup();
      case Exit => sig := Exit();
      case IfStmt => sig := IfStmt();
      case Jmp => sig := Jmp();
      case Over => sig := Over();
      case Print => sig := Print();
      case Println => sig := Println();
      case Read => sig := Read();
      case DumpStack => sig := DumpStack();
      case Swap => sig := Swap();
    }

    /** `dispatch(opcode)`. */
    method Dispatch(tok: Semantics.Token) returns (sig: Semantics.Signal)
      modifies this
      ensures Semantics.Transition(State(), sig) == Semantics.Dispatch(tok, old(State()))
    {
      match tok
      case IntTok(n) =>
        Push(VInt(n));
        sig := Semantics.Next;
      case FloatTok(_) =>
        sig := Semantics.Next;
      case StrTok(s) =>
        var op := Semantics.OpOf(s);
        if op.Some? {
          sig := Invoke(op.value);
        } else if s == "" {
          sig := Semantics.Raised(EmptyToken);
        } else if s[0] == '"' && s[|s| - 1] == '"' {
          Push(VStr(Semantics.Unquote(s)));
          sig := Semantics.Next;
        } else {
          sig := Semantics.Next;
        }
    }

    /** The body of the `run` loop: fetch `code[addr]`, advance `addr`, dispatch. */
    method Fetch() returns (sig: Semantics.Signal)
      requires addr < |code|
      modifies this
      ensures Semantics.Transition(State(), sig) == Semantics.Step(old(State()))
    {
      var opcode := code[addr];
      addr := addr + 1;
      sig := Dispatch(opcode);
    }

    /** One turn of the loop inside a run with `budget` tokens left: after `Next` the
        rest of the run is the bounded run from the new state with one token fewer;
        after `exit` or an error the run ends in the new state. */
    method Turn(ghost budget: nat) returns (sig: Semantics.Signal)
      requires addr < |code| && budget > 0
      modifies this
      ensures sig == Semantics.Next ==> Semantics.Exec(old(State()), budget) == Semantics.Exec(State(), budget - 1)
      ensures sig == Semantics.ExitCalled ==> Semantics.Exec(old(State()), budget) == Semantics.Outcome(State(), Semantics.Exited)
      ensures sig.Raised? ==> Semantics.Exec(old(State()), budget) == Semantics.Outcome(State(), Semantics.Failed(sig.error))
    {
      ghost var before := State();
      sig := Fetch();
      Semantics.ExecStep(before, budget, Semantics.Transition(State(), sig));
    }

    /** `run()`, stopped after at most `fuel` tokens: fetch `code[addr]`, advance
        `addr`, dispatch, until `addr` runs past the end, `exit` is called or an
        operator raises. */
    method Run(fuel: nat) returns (status: Semantics.Status)
      modifies this
      ensures Semantics.Outcome(State(), status) == Semantics.Exec(old(State()), fuel)
    {
      var budget := fuel;
      while addr < |code|
        invariant Semantics.Exec(State(), budget) == Semantics.Exec(old(State()), fuel)
        decreases budget
      {
        if budget == 0 {
          return Semantics.OutOfFuel;
        }
        var sig := Turn(budget);
        match sig
        case Next =>
          budget := budget - 1;
        case ExitCalled =>
          return Semantics.Exited;
        case Raised(e) =>
          return Semantics.Failed(e);
      }
      status := Semantics.Finished;
    }
  }
}
