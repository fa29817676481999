/** Whole runs of the fetch loop: straight-line programs, jumps, and the
    demonstration programs of vm.py. */
module Programs {
  import opened Values
  import opened Semantics
  import StackLaws

  /** A program in which no token is the `jmp` operator. */
  predicate JumpFree(code: seq<Token>)
  {
    forall k :: 0 <= k < |code| ==> code[k] != StrTok("jmp")
  }

  /** A reference reading of a jump-free run: the tokens are dispatched once each, in
      order, with the instruction pointer counting along, until one of them stops the run. */
  function Sequential(ts: seq<Token>, c: Config): Outcome
    decreases |ts|
  {
    if ts == [] then Outcome(c, Finished)
    else
      var t := Dispatch(ts[0], c.(addr := c.addr + 1));
      match t.signal
      case Next => Sequential(ts[1..], t.next)
      case ExitCalled => Outcome(t.next, Exited)
      case Raised(e) => Outcome(t.next, Failed(e))
  }

  /** The reference reading takes the same first step as the fetch loop. */
  lemma SequentialStep(c: Config, t: Transition)
    requires c.addr < |c.code| && c.code[c.addr] != StrTok("jmp") && t == Step(c)
    ensures t.signal == Next ==> Sequential(c.code[c.addr..], c) == Sequential(t.next.code[t.next.addr..], t.next)
    ensures t.signal == ExitCalled ==> Sequential(c.code[c.addr..], c) == Outcome(t.next, Exited)
    ensures t.signal.Raised? ==> Sequential(c.code[c.addr..], c) == Outcome(t.next, Failed(t.signal.error))
  {
    var ts := c.code[c.addr..];
    assert ts[0] == c.code[c.addr] && ts[1..] == c.code[c.addr + 1..];
  }

  /** Without `jmp`, the fetch loop executes every remaining token exactly once, in
      order, and a budget of one step per token is enough. */
  lemma {:induction false} StraightLineExecution(c: Config, fuel: nat)
    requires JumpFree(c.code) && c.addr <= |c.code| && fuel >= |c.code| - c.addr
    ensures Exec(c, fuel) == Sequential(c.code[c.addr..], c)
    decreases |c.code| - c.addr
  {
    if c.addr < |c.code| {
      var t := Step(c);
      ExecStep(c, fuel, t);
      SequentialStep(c, t);
      if t.signal == Next {
        StraightLineExecution(t.next, fuel - 1);
      }
    }
  }

  /** A `jmp` to an int (or bool) target inside the program pops it and makes the
      loop carry on from that target, so the next token fetched is `code[target]`; a
      target outside the program ends the run with the jump error. */
  lemma JmpThenFetch(c: Config, target: int, fuel: nat)
    requires c.addr < |c.code| && c.code[c.addr] == StrTok("jmp")
    requires |c.stack| >= 1 && AsInt(c.stack[|c.stack| - 1]) == Some(target)
    ensures var popped := c.stack[..|c.stack| - 1];
      && (0 <= target < |c.code| ==>
            Exec(c, fuel + 1) == Exec(c.(stack := popped, addr := target), fuel))
      && (!(0 <= target < |c.code|) ==>
            Exec(c, fuel + 1) == Outcome(c.(stack := popped, addr := c.addr + 1), Failed(InvalidJumpTarget)))
  {
    assert OpOf("jmp") == Some(Jmp);
    ExecStep(c, fuel + 1, Step(c));
  }

  /** Running an int token pushes it. */
  lemma ExecInt(c: Config, n: int, fuel: nat)
    requires c.addr < |c.code| && c.code[c.addr] == IntTok(n) && fuel > 0
    ensures Exec(c, fuel) == Exec(c.(stack := c.stack + [VInt(n)], addr := c.addr + 1), fuel - 1)
  {
    var t := Transition(c.(stack := c.stack + [VInt(n)], addr := c.addr + 1), Next);
    assert Step(c) == t;
    ExecStep(c, fuel, t);
  }

  /** Running a `"`-quoted token pushes the text between the quotes. */
  lemma ExecQuoted(c: Config, text: string, fuel: nat)
    requires c.addr < |c.code| && c.code[c.addr] == StrTok("\"" + text + "\"") && fuel > 0
    ensures Exec(c, fuel) == Exec(c.(stack := c.stack + [VStr(text)], addr := c.addr + 1), fuel - 1)
  {
    var t := Transition(c.(stack := c.stack + [VStr(text)], addr := c.addr + 1), Next);
    StackLaws.DispatchQuoted(c.(addr := c.addr + 1), text);
    assert Step(c) == t;
    ExecStep(c, fuel, t);
  }

  /** Running a token that dispatch ignores only advances the pointer. */
  lemma ExecIgnored(c: Config, fuel: nat)
    requires c.addr < |c.code| && fuel > 0
    requires var tok := c.code[c.addr];
      tok.FloatTok? || (tok.StrTok? && OpOf(tok.s).None? && tok.s != "" && !IsQuoted(tok.s))
    ensures Exec(c, fuel) == Exec(c.(addr := c.addr + 1), fuel - 1)
  {
    var t := Transition(c.(addr := c.addr + 1), Next);
    StackLaws.DispatchIgnores(c.(addr := c.addr + 1), c.code[c.addr]);
    assert Step(c) == t;
    ExecStep(c, fuel, t);
  }

  /** Running `+`, `-`, `*` or `/` on two ints replaces them by the result. */
  lemma ExecArith(c: Config, op: Op, below: seq<Value>, a: int, b: int, r: int, fuel: nat)
    requires c.addr < |c.code| && c.code[c.addr] == StrTok(OpName(op)) && fuel > 0
    requires c.stack == below + [VInt(a), VInt(b)]
    requires (op == Plus && r == a + b) || (op == Minus && r == a - b)
          || (op == Mul && r == a * b) || (op == Div && r == a - b)
    ensures Exec(c, fuel) == Exec(c.(stack := below + [VInt(r)], addr := c.addr + 1), fuel - 1)
  {
    var c', t := c.(addr := c.addr + 1), Transition(c.(stack := below + [VInt(r)], addr := c.addr + 1), Next);
    StackLaws.OpNameRoundTrip(op);
    StackLaws.IntArithmetic(op, c', below, a, b);
    assert ApplyOp(op, c') == t;
    assert Step(c) == t;
    ExecStep(c, fuel, t);
  }

  /** Running `println` pops the top and writes it with a newline. */
  lemma ExecPrintln(c: Config, below: seq<Value>, v: Value, fuel: nat)
    requires c.addr < |c.code| && c.code[c.addr] == StrTok("println") && fuel > 0
    requires c.stack == below + [v]
    ensures Exec(c, fuel)
      == Exec(c.(stack := below, addr := c.addr + 1, output := c.output + Str(v) + "\n"), fuel - 1)
  {
    var t := Transition(c.(stack := below, addr := c.addr + 1, output := c.output + Str(v) + "\n"), Next);
    assert OpOf("println") == Some(Println);
    StackLaws.PrintLaw(c.(addr := c.addr + 1), below, v);
    assert ApplyOp(Println, c.(addr := c.addr + 1)) == t;
    assert Step(c) == t;
    ExecStep(c, fuel, t);
  }

  const Demo: seq<Token> := [IntTok(521), IntTok(1314), StrTok("+"), IntTok(6), StrTok("*"), StrTok("println")]

  function Start(code: seq<Token>): Config
  {
    Config(code, [], 0, [], "")
  }

  lemma Render11010()
    ensures Str(VInt(11010)) == "11010"
  {
    assert Digits(1) == "1";
    assert Digits(11) == "11";
    assert Digits(110) == "110";
    assert Digits(1101) == "1101";
  }

  /** The first three tokens of the demonstration program leave 521 + 1314 = 1835. */
  lemma DemoAdds(fuel: nat)
    requires fuel >= 3
    ensures Exec(Start(Demo), fuel) == Exec(Config(Demo, [VInt(1835)], 3, [], ""), fuel - 3)
  {
    var c0 := Start(Demo);
    ExecInt(c0, 521, fuel);
    var c1 := c0.(stack := c0.stack + [VInt(521)], addr := c0.addr + 1);
    ExecInt(c1, 1314, fuel - 1);
    var c2 := c1.(stack := c1.stack + [VInt(1314)], addr := c1.addr + 1);
    assert c2.stack == [] + [VInt(521), VInt(1314)];
    ExecArith(c2, Plus, [], 521, 1314, 1835, fuel - 2);
    assert c2.(stack := [] + [VInt(1835)], addr := c2.addr + 1) == Config(Demo, [VInt(1835)], 3, [], "");
  }

  /** The last three tokens multiply 1835 by 6 and print the product; the printed
      value is not yet rendered as text. */
  lemma DemoFinish(fuel: nat)
    requires fuel >= 3
    ensures Exec(Config(Demo, [VInt(1835)], 3, [], ""), fuel)
      == Outcome(Config(Demo, [], 6, [], "" + Str(VInt(11010)) + "\n"), Finished)
  {
    var c3 := Config(Demo, [VInt(1835)], 3, [], "");
    ExecInt(c3, 6, fuel);
    var c4 := c3.(stack := c3.stack + [VInt(6)], addr := c3.addr + 1);
    assert c4.stack == [] + [VInt(1835), VInt(6)];
    ExecArith(c4, Mul, [], 1835, 6, 11010, fuel - 1);
    var c5 := c4.(stack := [] + [VInt(11010)], addr := c4.addr + 1);
    assert c5.stack == [] + [VInt(11010)];
    ExecPrintln(c5, [], VInt(11010), fuel - 2);
  }

  /** The first demonstration program prints (521 + 1314) * 6 = 11010 and a newline. */
  lemma DemoPrints11010(fuel: nat)
    requires fuel >= |Demo|
    ensures Exec(Start(Demo), fuel) == Outcome(Config(Demo, [], |Demo|, [], "11010\n"), Finished)
  {
    DemoAdds(fuel);
    DemoFinish(fuel - 3);
    Render11010();
  }

  /** Running `==` replaces the top two values by their comparison. */
  lemma ExecEq(c: Config, below: seq<Value>, v1: Value, v2: Value, fuel: nat)
    requires c.addr < |c.code| && c.code[c.addr] == StrTok("==") && fuel > 0
    requires c.stack == below + [v1, v2]
    ensures Exec(c, fuel) == Exec(c.(stack := below + [VBool(PyEq(v1, v2))], addr := c.addr + 1), fuel - 1)
  {
    var c', t := c.(addr := c.addr + 1), Transition(c.(stack := below + [VBool(PyEq(v1, v2))], addr := c.addr + 1), Next);
    assert OpOf("==") == Some(Eq);
    assert c'.stack[..|c'.stack| - 2] == below;
    assert ApplyOp(Eq, c') == t;
    assert Step(c) == t;
    ExecStep(c, fuel, t);
  }

  const CatDog: seq<Token> := [StrTok("\"cat\""), StrTok("\"dog\""), StrTok("==")]

  /** The two quoted literals are pushed without their quotes. */
  lemma CatDogPushed(fuel: nat)
    requires fuel >= 2
    ensures Exec(Start(CatDog), fuel) == Exec(Config(CatDog, [VStr("cat"), VStr("dog")], 2, [], ""), fuel - 2)
  {
    assert "\"" + "cat" + "\"" == "\"cat\"" && "\"" + "dog" + "\"" == "\"dog\"";
    var c0 := Start(CatDog);
    ExecQuoted(c0, "cat", fuel);
    var c1 := c0.(stack := c0.stack + [VStr("cat")], addr := c0.addr + 1);
    ExecQuoted(c1, "dog", fuel - 1);
    assert c1.(stack := c1.stack + [VStr("dog")], addr := c1.addr + 1) == Config(CatDog, [VStr("cat"), VStr("dog")], 2, [], "");
  }

  /** Two quoted strings that differ compare unequal: `false` is left on the stack. */
  lemma DistinctQuotedStringsCompareFalse(fuel: nat)
    requires fuel >= |CatDog|
    ensures Exec(Start(CatDog), fuel) == Outcome(Config(CatDog, [VBool(false)], 3, [], ""), Finished)
  {
    CatDogPushed(fuel);
    var c2 := Config(CatDog, [VStr("cat"), VStr("dog")], 2, [], "");
    assert c2.stack == [] + [VStr("cat"), VStr("dog")];
    ExecEq(c2, [], VStr("cat"), VStr("dog"), fuel - 2);
    assert "cat" != "dog" by { assert "cat"[0] != "dog"[0]; }
  }

  /** Unquoted words are not string literals: they are ignored, so `==` then finds
      an empty stack and the run fails. */
  lemma UnquotedWordsAreIgnored(fuel: nat)
    requires fuel >= 3
    ensures var code := [StrTok("cat"), StrTok("dog"), StrTok("==")];
      Exec(Start(code), fuel) == Outcome(Config(code, [], 3, [], ""), Failed(StackUnderflow))
  {
    var code := [StrTok("cat"), StrTok("dog"), StrTok("==")];
    assert !IsQuoted("cat") && !IsQuoted("dog");
    assert OpOf("cat") == None && OpOf("dog") == None && OpOf("==") == Some(Eq);
    var c0 := Start(code);
    ExecIgnored(c0, fuel);
    var c1 := c0.(addr := c0.addr + 1);
    ExecIgnored(c1, fuel - 1);
    var c2 := c1.(addr := c1.addr + 1);
    var t := Transition(Config(code, [], 3, [], ""), Raised(StackUnderflow));
    assert Step(c2) == t;
    ExecStep(c2, fuel - 2, t);
  }

  /** `0 jmp` sends the loop back to the first token with the stack as it was before,
      which is how the second demonstration program loops forever. */
  lemma JumpBackToStart(c: Config, fuel: nat)
    requires c.addr + 1 < |c.code| && c.code[c.addr] == IntTok(0) && c.code[c.addr + 1] == StrTok("jmp")
    ensures Exec(c, fuel + 2) == Exec(c.(addr := 0), fuel)
  {
    var c1 := Step(c).next;
    assert c1.stack == c.stack + [VInt(0)] && c1.addr == c.addr + 1;
    assert c1.stack[..|c1.stack| - 1] == c.stack;
    ExecStep(c, fuel + 2, Step(c));
    JmpThenFetch(c1, 0, fuel);
  }
}
