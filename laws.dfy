/** The stack effect of each operator and of the dispatch of one token. */
module StackLaws {
  import opened Values
  import opened Semantics

  /** The dispatch table maps each operator name back to its own handler. */
  lemma OpNameRoundTrip(op: Op)
    ensures OpOf(OpName(op)) == Some(op)
  {
    match op
    case Mod =>
    case Mul =>
    case Plus =>
    case Minus =>
    case Div =>
    case Eq =>
    case CastInt =>
    case CastStr =>
    case Drop =>
    case Dup =>
    case Exit =>
    case IfStmt =>
    case Jmp =>
    case Over =>
    case Print =>
    case Println =>
    case Read =>
    case DumpStack =>
    case Swap =>
  }

  /** How many values an operator pops before it can fail for another reason. */
  function Arity(op: Op): nat
  {
    match op
    case Mod => 2
    case Mul => 2
    case Plus => 2
    case Minus => 2
    case Div => 2
    case Eq => 2
    case Over => 2
    case Swap => 2
    case IfStmt => 3
    case Exit => 0
    case Read => 0
    case DumpStack => 0
    case _ => 1
  }

  predicate IsBinary(op: Op)
  {
    op == Mod || op == Mul || op == Plus || op == Minus || op == Div || op == Eq
  }

  /** An operator fails with a stack underflow exactly when it is given fewer operands
      than it pops, and it then leaves the stack empty. */
  lemma UnderflowIffTooFewOperands(op: Op, c: Config)
    ensures ApplyOp(op, c).signal == Raised(StackUnderflow) <==> |c.stack| < Arity(op)
    ensures |c.stack| < Arity(op) ==> ApplyOp(op, c).next.stack == []
  {
    var n := |c.stack|;
    match op
    case Mod =>
      if n >= 2 { var r := PyModulo(c.stack[n - 2], c.stack[n - 1]); assert r.Err? ==> r.error != StackUnderflow; }
    case Mul =>
      if n >= 2 { var r := PyMul(c.stack[n - 2], c.stack[n - 1]); assert r.Err? ==> r.error != StackUnderflow; }
    case Plus =>
      if n >= 2 { var r := PyAdd(c.stack[n - 2], c.stack[n - 1]); assert r.Err? ==> r.error != StackUnderflow; }
    case Minus =>
      if n >= 2 { var r := PySub(c.stack[n - 2], c.stack[n - 1]); assert r.Err? ==> r.error != StackUnderflow; }
    case Div =>
      if n >= 2 { var r := PySub(c.stack[n - 2], c.stack[n - 1]); assert r.Err? ==> r.error != StackUnderflow; }
    case CastInt =>
      if n >= 1 { var r := IntOf(c.stack[n - 1]); assert r.Err? ==> r.error != StackUnderflow; }
    case _ =>
  }

  /** A binary operator pops two values and pushes one: everything below the two
      operands is kept, and a failing operator leaves the two operands popped. */
  lemma BinaryPopsTwoPushesOne(op: Op, c: Config)
    requires IsBinary(op)
    ensures var t, n := ApplyOp(op, c), |c.stack|;
      && t.next.addr == c.addr && t.next.input == c.input && t.next.output == c.output
      && (n >= 2 && t.signal == Next ==> |t.next.stack| == n - 1 && t.next.stack[..n - 2] == c.stack[..n - 2])
      && (n >= 2 && t.signal != Next ==> t.signal.Raised? && t.next.stack == c.stack[..n - 2])
  {
    var n := |c.stack|;
    if n >= 2 {
      var t := ApplyOp(op, c);
      if t.signal == Next {
        assert t.next.stack[..n - 2] == c.stack[..n - 2];
      }
    }
  }

  /** On two ints v1 (below) and v2 (top) each binary operator pushes `v1 op v2`;
      `/` pushes the difference, not a quotient, and `%` by zero fails. */
  lemma IntArithmetic(op: Op, c: Config, below: seq<Value>, a: int, b: int)
    requires IsBinary(op) && c.stack == below + [VInt(a), VInt(b)]
    ensures op == Plus ==> ApplyOp(op, c) == Transition(c.(stack := below + [VInt(a + b)]), Next)
    ensures op == Minus ==> ApplyOp(op, c) == Transition(c.(stack := below + [VInt(a - b)]), Next)
    ensures op == Div ==> ApplyOp(op, c) == Transition(c.(stack := below + [VInt(a - b)]), Next)
    ensures op == Mul ==> ApplyOp(op, c) == Transition(c.(stack := below + [VInt(a * b)]), Next)
    ensures op == Eq ==> ApplyOp(op, c) == Transition(c.(stack := below + [VBool(a == b)]), Next)
    ensures op == Mod && b == 0 ==> ApplyOp(op, c) == Transition(c.(stack := below), Raised(ZeroDivision))
    ensures op == Mod && b != 0 ==> ApplyOp(op, c) == Transition(c.(stack := below + [VInt(FloorMod(a, b))]), Next)
  {
    var n := |c.stack|;
    assert c.stack[..n - 2] == below && c.stack[n - 2] == VInt(a) && c.stack[n - 1] == VInt(b);
  }

  /** `dup` on a non-empty stack of any value type: one more element, the top two equal,
      the old stack kept underneath. */
  lemma DupLaw(c: Config)
    requires |c.stack| >= 1
    ensures var t, n := ApplyOp(Dup, c), |c.stack|;
      && t.signal == Next && |t.next.stack| == n + 1
      && t.next.stack[..n] == c.stack && t.next.stack[n] == t.next.stack[n - 1]
      && t.next.input == c.input && t.next.output == c.output
  {
    var n := |c.stack|;
    assert ApplyOp(Dup, c).next.stack[..n] == c.stack;
  }

  /** `swap` exchanges the top two values and keeps everything below. */
  lemma SwapLaw(c: Config, below: seq<Value>, v1: Value, v2: Value)
    requires c.stack == below + [v1, v2]
    ensures ApplyOp(Swap, c) == Transition(c.(stack := below + [v2, v1]), Next)
  {
    assert c.stack[..|c.stack| - 2] == below;
  }

  /** `swap swap` restores the stack (and any stack that is too short underflows). */
  lemma SwapTwiceRestores(c: Config)
    ensures |c.stack| >= 2 ==> ApplyOp(Swap, ApplyOp(Swap, c).next) == Transition(c, Next)
    ensures |c.stack| < 2 ==> ApplyOp(Swap, c).signal == Raised(StackUnderflow)
  {
    var n := |c.stack|;
    if n >= 2 {
      var below := c.stack[..n - 2];
      assert c.stack == below + [c.stack[n - 2], c.stack[n - 1]];
      SwapLaw(c, below, c.stack[n - 2], c.stack[n - 1]);
      var c1 := c.(stack := below + [c.stack[n - 1], c.stack[n - 2]]);
      SwapLaw(c1, below, c.stack[n - 1], c.stack[n - 2]);
      assert c1.(stack := below + [c.stack[n - 2], c.stack[n - 1]]) == c;
    }
  }

  /** `over` turns [.., v1, v2] into [.., v1, v2, v1]. */
  lemma OverLaw(c: Config, below: seq<Value>, v1: Value, v2: Value)
    requires c.stack == below + [v1, v2]
    ensures ApplyOp(Over, c) == Transition(c.(stack := below + [v1, v2, v1]), Next)
  {
    assert c.stack + [c.stack[|c.stack| - 2]] == below + [v1, v2, v1];
  }

  /** `drop` removes exactly the top. */
  lemma DropLaw(c: Config, below: seq<Value>, v: Value)
    requires c.stack == below + [v]
    ensures ApplyOp(Drop, c) == Transition(c.(stack := below), Next)
  {
    assert c.stack[..|c.stack| - 1] == below;
  }

  /** `if` pops the false clause, the true clause and the condition, in that order,
      and pushes the true clause when the condition is truthy, else the false clause. */
  lemma IfSelects(c: Config, below: seq<Value>, cond: Value, whenTrue: Value, whenFalse: Value)
    requires c.stack == below + [cond, whenTrue, whenFalse]
    ensures Truthy(cond) ==> ApplyOp(IfStmt, c) == Transition(c.(stack := below + [whenTrue]), Next)
    ensures !Truthy(cond) ==> ApplyOp(IfStmt, c) == Transition(c.(stack := below + [whenFalse]), Next)
  {
    var n := |c.stack|;
    assert c.stack[..n - 3] == below && c.stack[n - 3] == cond;
  }

  /** `jmp` pops a target; an int target inside the program becomes the instruction
      pointer, any other int raises the jump error, and a str raises a type error. */
  lemma JmpLaw(c: Config, below: seq<Value>, target: Value)
    requires c.stack == below + [target]
    ensures var t := ApplyOp(Jmp, c);
      && t.next.stack == below
      && (target.VStr? ==> t.signal == Raised(TypeMismatch))
      && (AsInt(target).Some? && 0 <= AsInt(target).value < |c.code| ==> t.signal == Next && t.next.addr == AsInt(target).value)
      && (AsInt(target).Some? && !(0 <= AsInt(target).value < |c.code|) ==> t.signal == Raised(InvalidJumpTarget) && t.next.addr == c.addr)
  {
    assert c.stack[..|c.stack| - 1] == below;
  }

  /** `print` and `println` pop the top and write its str() form, `println` with a newline. */
  lemma PrintLaw(c: Config, below: seq<Value>, v: Value)
    requires c.stack == below + [v]
    ensures ApplyOp(Print, c) == Transition(c.(stack := below, output := c.output + Str(v)), Next)
    ensures ApplyOp(Println, c) == Transition(c.(stack := below, output := c.output + Str(v) + "\n"), Next)
  {
    assert c.stack[..|c.stack| - 1] == below;
  }

  lemma Regroup(x: string, r: string, y: string, z: string)
    ensures ((x + r) + y) + z == x + ((r + y) + z)
  {
  }

  /** The dump of a suffix is the dump of the shorter suffix followed by its first element. */
  lemma StackDumpFrom(s: seq<Value>, i: nat)
    requires i < |s|
    ensures StackDump(s[i..]) == StackDump(s[i + 1..]) + Str(s[i]) + "\n"
  {
    assert s[i..][1..] == s[i + 1..];
  }

  lemma TailSnoc(s: seq<Value>, v: Value)
    requires s != []
    ensures (s + [v])[0] == s[0] && (s + [v])[1..] == s[1..] + [v]
  {
  }

  /** `stack` writes the elements top first and changes nothing else. */
  lemma {:induction false} StackDumpTopFirst(s: seq<Value>, v: Value)
    ensures StackDump(s + [v]) == Str(v) + "\n" + StackDump(s)
  {
    if s == [] {
      assert [v][1..] == [];
    } else {
      TailSnoc(s, v);
      StackDumpTopFirst(s[1..], v);
      Regroup(Str(v) + "\n", StackDump(s[1..]), Str(s[0]), "\n");
    }
  }

  /** `cast_str` then `cast_int` gives an int back unchanged. */
  lemma CastStrThenIntRestores(c: Config, below: seq<Value>, n: int)
    requires c.stack == below + [VInt(n)]
    ensures ApplyOp(CastInt, ApplyOp(CastStr, c).next) == Transition(c, Next)
  {
    assert c.stack[..|c.stack| - 1] == below;
    var c1 := ApplyOp(CastStr, c).next;
    assert c1.stack == below + [VStr(Str(VInt(n)))];
    assert c1.stack[..|c1.stack| - 1] == below;
    CastRoundTrip(n);
  }

  /** An int token is pushed unchanged and nothing else changes. */
  lemma DispatchInt(c: Config, n: int)
    ensures Dispatch(IntTok(n), c) == Transition(c.(stack := c.stack + [VInt(n)]), Next)
  {
  }

  /** Wrapping any text in `"` gives a token that is pushed as exactly that text. */
  lemma DispatchQuoted(c: Config, text: string)
    ensures Dispatch(StrTok("\"" + text + "\""), c) == Transition(c.(stack := c.stack + [VStr(text)]), Next)
  {
    var s := "\"" + text + "\"";
    assert s[0] == '"' && s[|s| - 1] == '"';
    assert Unquote(s) == text;
  }

  /** A float, or a str that is neither an operator name nor quoted nor empty, is
      ignored: the configuration is unchanged. */
  lemma DispatchIgnores(c: Config, tok: Token)
    requires tok.FloatTok? || (tok.StrTok? && OpOf(tok.s).None? && tok.s != "" && !IsQuoted(tok.s))
    ensures Dispatch(tok, c) == Transition(c, Next)
  {
  }
}
