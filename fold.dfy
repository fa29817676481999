/** `constants_fold`: the peephole pass that replaces an `int int op` triple, op one
    of `+ - * /`, by the literal a fresh machine computes for those three tokens.

    The pass walks `zip(code, code[1:], code[2:])`. The first of the three iterators
    walks the list being rewritten, the other two walk copies taken before the loop,
    so once a fold has shortened the list the window it looks at is no longer three
    neighbouring tokens of any list. ConstantsFold keeps that loop as it is; what it
    amounts to is FoldFirstWindow (only the first foldable window is ever folded).
    FoldIntended is the scan over the rewritten list that the pass was evidently meant
    to be. */
module Fold {
  import opened Values
  import opened Semantics
  import Vm
  import Programs
  import StackLaws

  /** One fold: the values the trace message shows, and the position it happened at. */
  datatype FoldRecord = FoldRecord(a: int, b: int, op: string, result: int, at: nat)

  datatype FoldResult = FoldResult(folded: seq<Token>, trace: seq<FoldRecord>)

  predicate IsArithName(s: string)
  {
    s == "+" || s == "-" || s == "*" || s == "/"
  }

  predicate Foldable(a: Token, b: Token, op: Token)
  {
    a.IntTok? && b.IntTok? && op.StrTok? && IsArithName(op.s)
  }

  /** The window starting at j is an `int int op` triple. */
  predicate FoldableAt(code: seq<Token>, j: int)
  {
    0 <= j && j + 2 < |code| && Foldable(code[j], code[j + 1], code[j + 2])
  }

  /** The literal of a folded triple, as the machine computes it: `/` subtracts. */
  function FoldValue(a: int, b: int, op: string): int
    requires IsArithName(op)
  {
    if op == "+" then a + b
    else if op == "-" then a - b
    else if op == "*" then a * b
    else a - b
  }

  /** Running the three tokens `a b op` on a fresh machine leaves exactly the folded
      literal on its stack, and the run ends normally after three steps. */
  lemma WindowRun(a: int, b: int, op: string)
    requires IsArithName(op)
    ensures var code := [IntTok(a), IntTok(b), StrTok(op)];
      Exec(Config(code, [], 0, [], ""), 3) == Outcome(Config(code, [VInt(FoldValue(a, b, op))], 3, [], ""), Finished)
  {
    var code := [IntTok(a), IntTok(b), StrTok(op)];
    var c0 := Config(code, [], 0, [], "");
    var c1 := Config(code, [VInt(a)], 1, [], "");
    var c2 := Config(code, [VInt(a), VInt(b)], 2, [], "");
    var c3 := Config(code, [VInt(FoldValue(a, b, op))], 3, [], "");
    assert Step(c0) == Transition(c1, Next);
    ExecStep(c0, 3, Transition(c1, Next));
    assert Step(c1) == Transition(c2, Next);
    ExecStep(c1, 2, Transition(c2, Next));
    assert Step(c2) == Transition(c3, Next) by {
      var o := if op == "+" then Plus else if op == "-" then Minus else if op == "*" then Mul else Div;
      assert OpOf(op) == Some(o);
      StackLaws.IntArithmetic(o, c2.(addr := 3), [], a, b);
    }
    ExecStep(c2, 1, Transition(c3, Next));
  }

  function Record(code: seq<Token>, p: nat): FoldRecord
    requires FoldableAt(code, p)
  {
    FoldRecord(code[p].n, code[p + 1].n, code[p + 2].s, FoldValue(code[p].n, code[p + 1].n, code[p + 2].s), p)
  }

  /** The list with the window at p replaced by its literal. */
  function Replace(code: seq<Token>, p: nat): (r: seq<Token>)
    requires FoldableAt(code, p)
    ensures |r| == |code| - 2
    ensures r[..p] == code[..p] && r[p] == IntTok(Record(code, p).result) && r[p + 1..] == code[p + 3..]
  {
    code[..p] + [IntTok(Record(code, p).result)] + code[p + 3..]
  }

  /** The first foldable window at or after j. */
  function FirstFoldableFrom(code: seq<Token>, j: nat): (r: Option<nat>)
    ensures r.Some? ==> j <= r.value && FoldableAt(code, r.value)
    ensures r.Some? ==> forall k :: j <= k < r.value ==> !FoldableAt(code, k)
    ensures r.None? ==> forall k :: j <= k ==> !FoldableAt(code, k)
    decreases |code| - j
  {
    if j + 2 >= |code| then None
    else if FoldableAt(code, j) then Some(j)
    else FirstFoldableFrom(code, j + 1)
  }

  /** What the pass as written computes: the first foldable window is folded and
      nothing else changes. */
  function FoldFirstWindow(code: seq<Token>): FoldResult
  {
    match FirstFoldableFrom(code, 0)
    case None => FoldResult(code, [])
    case Some(p) => FoldResult(Replace(code, p), [Record(code, p)])
  }

  /** `constants_fold(code)`, with its loop as written: `a` comes from the list being
      rewritten, `b` and `op` from the copies taken before the loop, and each fold
      runs the three tokens on a fresh machine and splices the result in. */
  method ConstantsFold(code: seq<Token>) returns (folded: seq<Token>, trace: seq<FoldRecord>)
    ensures FoldResult(folded, trace) == FoldFirstWindow(code)
  {
    folded := code;  // the live list; `code` itself stands for the two copies
    trace := [];
    var i := 0;
    while i < |folded| && i + 2 < |code|
      invariant trace == [] ==> folded == code && FirstFoldableFrom(code, 0) == FirstFoldableFrom(code, i)
      invariant trace != [] ==>
        && |trace| == 1 && trace[0].at < i
        && FirstFoldableFrom(code, 0) == Some(trace[0].at)
        && trace[0] == Record(code, trace[0].at)
        && folded == Replace(code, trace[0].at)
      decreases |code| - i
    {
      var a, b, op := folded[i], code[i + 1], code[i + 2];
      if trace != [] {
        // after the one fold, the live token at i is the one `op` is read from
        assert a == code[i + 2];
      }
      if Foldable(a, b, op) {
        var m := new Vm.Machine([a, b, op], []);
        var status := m.Run(3);
        WindowRun(a.n, b.n, op.s);
        var top := m.Top();
        var v := top.value.i;
        var hi := if i + 3 <= |folded| then i + 3 else |folded|;
        folded := folded[..i] + [IntTok(v)] + folded[hi..];
        trace := trace + [FoldRecord(a.n, b.n, op.s, v, i)];
      }
      i := i + 1;
    }
  }

  /** The pass folds at most once, only an `int int op` window, and only the first one;
      each fold shortens the list by two and writes one trace record; it never fails (the
      digit limit on formatting ints is not modelled). */
  lemma FoldFirstWindowShape(code: seq<Token>)
    ensures var r := FoldFirstWindow(code);
      && |r.trace| <= 1
      && |r.folded| == |code| - 2 * |r.trace|
      && (r.trace == [] <==> forall j :: !FoldableAt(code, j))
      && (r.trace == [] ==> r.folded == code)
      && (forall k :: 0 <= k < |r.trace| ==>
            && FoldableAt(code, r.trace[k].at)
            && code[r.trace[k].at] == IntTok(r.trace[k].a)
            && code[r.trace[k].at + 1] == IntTok(r.trace[k].b)
            && code[r.trace[k].at + 2] == StrTok(r.trace[k].op)
            && r.trace[k].result == FoldValue(r.trace[k].a, r.trace[k].b, r.trace[k].op)
            && r.folded[r.trace[k].at] == IntTok(r.trace[k].result)
            && (forall j :: 0 <= j < r.trace[k].at ==> !FoldableAt(code, j)))
  {
    var r := FoldFirstWindow(code);
    if r.trace != [] {
      var p := r.trace[0].at;
      assert |Replace(code, p)| == |code| - 2;
    } else {
      assert FirstFoldableFrom(code, 0).None?;
    }
  }

  /** Puts the window a fold replaced back in place of its literal. */
  function Undo(s: seq<Token>, r: FoldRecord): seq<Token>
  {
    if r.at < |s| then s[..r.at] + [IntTok(r.a), IntTok(r.b), StrTok(r.op)] + s[r.at + 1..] else s
  }

  /** Undoes a trace of folds, the last one first. */
  function Unfold(s: seq<Token>, trace: seq<FoldRecord>): seq<Token>
    decreases |trace|
  {
    if trace == [] then s else Unfold(Undo(s, trace[|trace| - 1]), trace[..|trace| - 1])
  }

  lemma UndoReplace(code: seq<Token>, p: nat)
    requires FoldableAt(code, p)
    ensures Undo(Replace(code, p), Record(code, p)) == code
  {
    var s := Replace(code, p);
    assert s[..p] == code[..p] && s[p + 1..] == code[p + 3..];
    assert code == code[..p] + [code[p], code[p + 1], code[p + 2]] + code[p + 3..];
  }

  /** The trace records enough to rebuild the input from the output. */
  lemma FoldFirstWindowUnfolds(code: seq<Token>)
    ensures var r := FoldFirstWindow(code); Unfold(r.folded, r.trace) == code
  {
    match FirstFoldableFrom(code, 0)
    case None =>
    case Some(p) =>
      UndoReplace(code, p);
      assert [Record(code, p)][..0] == [];
  }

  /** A single `int int op` triple folds to the one literal the operator computes. */
  lemma FoldSingleWindow(a: int, b: int, op: string)
    requires IsArithName(op)
    ensures FoldFirstWindow([IntTok(a), IntTok(b), StrTok(op)])
      == FoldResult([IntTok(FoldValue(a, b, op))], [FoldRecord(a, b, op, FoldValue(a, b, op), 0)])
  {
    var code := [IntTok(a), IntTok(b), StrTok(op)];
    assert FoldableAt(code, 0);
    assert Replace(code, 0) == [IntTok(FoldValue(a, b, op))];
  }

  const FoldedDemo: seq<Token> := [IntTok(1835), IntTok(6), StrTok("*"), StrTok("println")]

  /** `521 1314 + 6 * println` becomes `1835 6 * println`: the second, newly formed
      window is not folded. */
  lemma DemoFold()
    ensures FoldFirstWindow(Programs.Demo) == FoldResult(FoldedDemo, [FoldRecord(521, 1314, "+", 1835, 0)])
  {
    var code := Programs.Demo;
    assert FoldableAt(code, 0);
    assert code[3..] == [IntTok(6), StrTok("*"), StrTok("println")];
  }

  /** The folded demonstration program still prints 11010. */
  lemma FoldedDemoPrints11010(fuel: nat)
    requires fuel >= |FoldedDemo|
    ensures Exec(Programs.Start(FoldedDemo), fuel)
      == Outcome(Config(FoldedDemo, [], |FoldedDemo|, [], "11010\n"), Finished)
  {
    var c0 := Programs.Start(FoldedDemo);
    Programs.ExecInt(c0, 1835, fuel);
    var c1 := c0.(stack := c0.stack + [VInt(1835)], addr := c0.addr + 1);
    Programs.ExecInt(c1, 6, fuel - 1);
    var c2 := c1.(stack := c1.stack + [VInt(6)], addr := c1.addr + 1);
    assert c2.stack == [] + [VInt(1835), VInt(6)];
    Programs.ExecArith(c2, Mul, [], 1835, 6, 11010, fuel - 2);
    var c3 := c2.(stack := [] + [VInt(11010)], addr := c2.addr + 1);
    assert c3.stack == [] + [VInt(11010)];
    Programs.ExecPrintln(c3, [], VInt(11010), fuel - 3);
    Programs.Render11010();
  }

  /** The scan the pass was evidently meant to be: it walks the windows of the list
      being rewritten, and after a fold carries on at the token after the new literal. */
  function FoldIntendedFrom(live: seq<Token>, i: nat, trace: seq<FoldRecord>): FoldResult
    decreases |live| - i
  {
    if i + 2 >= |live| then FoldResult(live, trace)
    else if FoldableAt(live, i) then FoldIntendedFrom(Replace(live, i), i + 1, trace + [Record(live, i)])
    else FoldIntendedFrom(live, i + 1, trace)
  }

  function FoldIntended(code: seq<Token>): FoldResult
  {
    FoldIntendedFrom(code, 0, [])
  }

  /** Some fold happened at one of the three positions of the window starting at j. */
  predicate FoldedNear(trace: seq<FoldRecord>, j: int)
  {
    exists k :: 0 <= k < |trace| && j <= trace[k].at <= j + 2
  }

  /** Every record names a literal still present in the list, computed as the machine
      computes it. */
  predicate RecordsHold(live: seq<Token>, trace: seq<FoldRecord>, i: nat)
  {
    forall k :: 0 <= k < |trace| ==>
      && trace[k].at < i && trace[k].at < |live|
      && live[trace[k].at] == IntTok(trace[k].result)
      && IsArithName(trace[k].op)
      && trace[k].result == FoldValue(trace[k].a, trace[k].b, trace[k].op)
  }

  /** What holds of the scan before position i of the live list. */
  predicate ScanInv(code: seq<Token>, live: seq<Token>, i: nat, trace: seq<FoldRecord>)
  {
    && |live| + 2 * |trace| == |code|
    && Unfold(live, trace) == code
    && RecordsHold(live, trace, i)
    && (forall j :: 0 <= j < i && FoldableAt(live, j) ==> FoldedNear(trace, j))
  }

  lemma UnfoldSnoc(s: seq<Token>, trace: seq<FoldRecord>, r: FoldRecord)
    ensures Unfold(s, trace + [r]) == Unfold(Undo(s, r), trace)
  {
    assert (trace + [r])[..|trace|] == trace;
  }

  /** One fold at i keeps the invariant. */
  lemma FoldKeeps(code: seq<Token>, live: seq<Token>, i: nat, trace: seq<FoldRecord>)
    requires ScanInv(code, live, i, trace) && FoldableAt(live, i)
    ensures ScanInv(code, Replace(live, i), i + 1, trace + [Record(live, i)])
  {
    var live', r := Replace(live, i), Record(live, i);
    var trace' := trace + [r];
    UndoReplace(live, i);
    UnfoldSnoc(live', trace, r);
    forall k | 0 <= k < |trace'|
      ensures trace'[k].at < |live'| && live'[trace'[k].at] == IntTok(trace'[k].result)
    {
      if k < |trace| {
        assert live'[trace[k].at] == live'[..i][trace[k].at];
      }
    }
    forall j | 0 <= j < i + 1 && FoldableAt(live', j)
      ensures FoldedNear(trace', j)
    {
      if j + 2 < i {
        assert live'[j] == live[j] && live'[j + 1] == live[j + 1] && live'[j + 2] == live[j + 2] by {
          assert live'[..i] == live[..i];
        }
        assert FoldableAt(live, j);
        var k :| 0 <= k < |trace| && j <= trace[k].at <= j + 2;
        assert trace'[k] == trace[k];
      } else {
        assert trace'[|trace|].at == i;
      }
    }
  }

  /** The corrected scan, from any point where the invariant holds. */
  lemma {:induction false} ScanCorrect(code: seq<Token>, live: seq<Token>, i: nat, trace: seq<FoldRecord>)
    requires ScanInv(code, live, i, trace) && i <= |live|
    ensures var r := FoldIntendedFrom(live, i, trace);
      && |r.folded| + 2 * |r.trace| == |code|
      && Unfold(r.folded, r.trace) == code
      && RecordsHold(r.folded, r.trace, |r.folded|)
      && (forall j :: FoldableAt(r.folded, j) ==> FoldedNear(r.trace, j))
    decreases |live| - i
  {
    if i + 2 >= |live| {
      forall k | 0 <= k < |trace| ensures trace[k].at < |live| { }
    } else if FoldableAt(live, i) {
      FoldKeeps(code, live, i, trace);
      ScanCorrect(code, Replace(live, i), i + 1, trace + [Record(live, i)]);
    } else {
      ScanCorrect(code, live, i + 1, trace);
    }
  }

  /** The corrected pass: the trace rebuilds the input, each fold shortens the list by
      two, every record is a literal the machine computes, and no foldable window is
      left except one that overlaps a literal the pass produced itself. */
  lemma FoldIntendedCorrect(code: seq<Token>)
    ensures var r := FoldIntended(code);
      && |r.folded| == |code| - 2 * |r.trace|
      && Unfold(r.folded, r.trace) == code
      && RecordsHold(r.folded, r.trace, |r.folded|)
      && (forall j :: FoldableAt(r.folded, j) ==> FoldedNear(r.trace, j))
  {
    ScanCorrect(code, code, 0, []);
  }

  /** The scan never drops a record it has written. */
  lemma {:induction false} TraceGrows(live: seq<Token>, i: nat, trace: seq<FoldRecord>)
    ensures var r := FoldIntendedFrom(live, i, trace);
      |trace| <= |r.trace| && r.trace[..|trace|] == trace
    decreases |live| - i
  {
    if i + 2 >= |live| {
    } else if FoldableAt(live, i) {
      var trace' := trace + [Record(live, i)];
      TraceGrows(Replace(live, i), i + 1, trace');
      var r := FoldIntendedFrom(Replace(live, i), i + 1, trace');
      assert r.trace[..|trace|] == r.trace[..|trace'|][..|trace|];
    } else {
      TraceGrows(live, i + 1, trace);
    }
  }

  /** Until its first fold the corrected scan walks the input itself. */
  lemma {:induction false} ScanBeforeFirstFold(code: seq<Token>, i: nat)
    ensures FirstFoldableFrom(code, i).None? ==> FoldIntendedFrom(code, i, []) == FoldResult(code, [])
    ensures FirstFoldableFrom(code, i).Some? ==>
      var p := FirstFoldableFrom(code, i).value;
      FoldIntendedFrom(code, i, []) == FoldIntendedFrom(Replace(code, p), p + 1, [Record(code, p)])
    decreases |code| - i
  {
    if i + 2 < |code| {
      if FoldableAt(code, i) {
        assert [] + [Record(code, i)] == [Record(code, i)];
      } else {
        ScanBeforeFirstFold(code, i + 1);
      }
    }
  }

  /** The pass as written and the corrected one make the same first fold (or neither
      folds at all); the one as written stops there. */
  lemma FirstFoldsAgree(code: seq<Token>)
    ensures var w, r := FoldFirstWindow(code), FoldIntended(code);
      && (w.trace == [] <==> r.trace == [])
      && (w.trace != [] ==> r.trace[0] == w.trace[0])
  {
    ScanBeforeFirstFold(code, 0);
    match FirstFoldableFrom(code, 0)
    case None =>
    case Some(p) =>
      TraceGrows(Replace(code, p), p + 1, [Record(code, p)]);
  }

  /** Two `int int op` triples laid side by side. */
  const TwoWindows: seq<Token> := [IntTok(1), IntTok(2), StrTok("+"), IntTok(3), IntTok(4), StrTok("+")]

  /** As written, `1 2 + 3 4 +` folds only its first window and leaves `3 4 +`
      unfolded, a window no fold overlaps. */
  lemma AsWrittenLeavesSecondWindow()
    ensures var r := FoldFirstWindow(TwoWindows);
      && r == FoldResult([IntTok(3), IntTok(3), IntTok(4), StrTok("+")], [FoldRecord(1, 2, "+", 3, 0)])
      && FoldableAt(r.folded, 1) && !FoldedNear(r.trace, 1)
  {
    var code := TwoWindows;
    assert FoldableAt(code, 0);
    assert code[3..] == [IntTok(3), IntTok(4), StrTok("+")];
  }

  /** The corrected scan folds both windows of `1 2 + 3 4 +`. */
  lemma IntendedFoldsBothWindows()
    ensures FoldIntended(TwoWindows)
      == FoldResult([IntTok(3), IntTok(7)], [FoldRecord(1, 2, "+", 3, 0), FoldRecord(3, 4, "+", 7, 1)])
  {
    var code := TwoWindows;
    assert FoldableAt(code, 0);
    var l1 := Replace(code, 0);
    assert l1 == [IntTok(3), IntTok(3), IntTok(4), StrTok("+")] by {
      assert code[3..] == [IntTok(3), IntTok(4), StrTok("+")];
    }
    assert FoldableAt(l1, 1);
    assert Replace(l1, 1) == [IntTok(3), IntTok(7)];
  }
}
