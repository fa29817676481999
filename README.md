# vm — a verified model of a tiny stack machine

`vm.py` defines `Machine`, a stack machine that runs a program of tokens: Python
ints, floats and strs. Its `run` loop fetches `code[addr]`, advances `addr` and
dispatches the token. The token is handled as follows:

- an operator name (`% * + - / == cast_int cast_str drop dup exit if jmp over print println read stack swap`) runs that operator's handler;
- an int is pushed;
- a `"`-quoted str is pushed without its quotes;
- an empty str raises an error at `opcode[0]`;
- anything else is ignored.

`constants_fold` is a peephole pass for the interactive loop. It replaces an
`int int op` window, with op one of `+ - * /`, by the literal that a fresh machine
computes for those three tokens.

The Dafny model has six modules.

- `Values` (values.dfy): the pushed values (int, str, bool) and the Python operators the machine applies to them:
  - bool counts as an int;
  - `str + str` concatenates and `str * int` repeats;
  - `%` is floor-modulo;
  - `str()` and `int()` convert between ints and their decimal text.
- `Semantics` (semantics.dfy): the machine as functions on a configuration (program, stack, instruction pointer, unread input lines, written output):
  - `ApplyOp` applies one operator;
  - `Dispatch` handles one token;
  - `Step` is one turn of the loop;
  - `Exec` is a run bounded by a step budget; it tests the loop condition, `Turn` checks the budget and `Resume` runs the loop body.
- `Vm` (machine.dfy): the class `Machine`. Its fields change in place. `Push`, `Pop`, `Top` and the constructor state their effect on the fields directly; every operator method, `Dispatch` and one turn of the loop are proved to change the fields exactly as the matching `Semantics` function says. `Run` is the `while` loop itself.
- `StackLaws` (laws.dfy): the stack effect of each operator and of dispatch.
- `Programs` (programs.dfy): whole runs, including straight-line programs, `jmp`, and the two demonstration programs.
- `Fold` (fold.dfy): `constants_fold` as written, what it amounts to, and the corrected pass.

A failing operator ends the run with an error status and leaves on the stack what the
Python list would hold at that point. Operands already popped stay popped, so a pop
from an empty stack always leaves the stack empty. `exit` ends the run with its own
status. `read` consumes the next of a given sequence of input lines. `print`,
`println` and `stack` append the text `str(v)` to an output string.

## Model

| member | source | states |
|---|---|---|
| Values.FloorMod | vm.py:66-69 | Python's `%` on ints: the remainder has the sign of the divisor and satisfies a == (a // b) * b + r |
| Values.Repeat | vm.py:71-74 | `s * n` is empty for n <= 0, and otherwise n·\|s\| characters starting with s; RepeatOne and RepeatAdd make it exactly n copies |
| Values.RepeatOne | vm.py:71-74 | `s * 1` is s |
| Values.RepeatAdd | vm.py:71-74 | `s * (m + n)` is `s * m` followed by `s * n`, so `s * n` is n copies of s end to end |
| Values.PyEq | vm.py:91-94 | `==` is equality for two strs, two ints or two bools, and a str never equals an int or a bool |
| Values.AsInt | vm.py:66-94 | definition: a bool counts as the int 0 or 1, a str is not a number; used by IntArithmetic and JmpLaw |
| Values.Truthy | vm.py:115-122 | definition of Python truthiness; its use by `if` is stated by StackLaws.IfSelects |
| Values.PyAdd | vm.py:76-79 | definition of `v1 + v2`; its effect on ints is stated by StackLaws.IntArithmetic |
| Values.PySub | vm.py:81-89 | definition of `v1 - v2`, shared by `-` and `/`; effect stated by StackLaws.IntArithmetic |
| Values.PyMul | vm.py:71-74 | definition of `v1 * v2`; effect stated by StackLaws.IntArithmetic and, for strs, Values.Repeat |
| Values.PyModulo | vm.py:66-69 | definition of `v1 % v2`; effect stated by StackLaws.IntArithmetic and Values.FloorMod |
| Values.Str | vm.py:100-102 | definition of `str(v)`; stated by Values.CastRoundTrip and Values.BoolCastFails |
| Values.Digits | vm.py:100-102 | `str(n)` writes at least one decimal digit; it is `0` exactly for 0, and a longer numeral never starts with `0` |
| Values.IntOf | vm.py:96-98 | `int(v)` yields an int; ints are returned unchanged; only a str can fail, with a cast error |
| Values.DigitsRoundTrip | vm.py:96-102 | reading back the digits of n gives n |
| Values.CastRoundTrip | vm.py:96-102 | `int(str(n)) == n` for every int n, negative ones included |
| Values.BoolCastFails | vm.py:96-102 | `int(str(b))` fails for a bool b: `str` writes `True`/`False` |
| Semantics.OpOf | vm.py:27-49 | a name the table finds is that operator's registered name |
| Semantics.Binary | vm.py:66-94 | definition of the shared binary body; stated by StackLaws.BinaryPopsTwoPushesOne and StackLaws.UnderflowIffTooFewOperands |
| Semantics.Unary | vm.py:96-102 | definition of the shared cast body; stated by StackLaws.CastStrThenIntRestores and StackLaws.UnderflowIffTooFewOperands |
| Semantics.DropOp | vm.py:104-105 | definition of `drop`; effect stated by StackLaws.DropLaw |
| Semantics.DupOp | vm.py:107-110 | definition of `dup`; effect stated by StackLaws.DupLaw |
| Semantics.IfOp | vm.py:115-122 | definition of `if`; effect stated by StackLaws.IfSelects |
| Semantics.JmpOp | vm.py:154-159 | definition of `jmp`; effect stated by StackLaws.JmpLaw and Programs.JmpThenFetch |
| Semantics.OverOp | vm.py:124-129 | definition of `over`; effect stated by StackLaws.OverLaw |
| Semantics.PrintOp | vm.py:132-134 | definition of `print`; effect stated by StackLaws.PrintLaw |
| Semantics.PrintlnOp | vm.py:136-138 | definition of `println`; effect stated by StackLaws.PrintLaw |
| Semantics.ReadOp | vm.py:140-142 | definition of `read`; Vm.Machine.Read is proved to follow it |
| Semantics.StackDump | vm.py:144-146 | definition of the text `stack` writes; stated by StackLaws.StackDumpTopFirst and StackLaws.StackDumpFrom |
| Semantics.DumpStackOp | vm.py:144-146 | definition of `stack`; effect stated by StackLaws.StackDumpTopFirst, and Vm.Machine.DumpStack's loop is proved to follow it |
| Semantics.SwapOp | vm.py:148-152 | definition of `swap`; effect stated by StackLaws.SwapLaw and StackLaws.SwapTwiceRestores |
| Semantics.IsQuoted | vm.py:52-53 | definition of the quoted-literal test; stated by StackLaws.DispatchQuoted and StackLaws.DispatchIgnores |
| Semantics.Unquote | vm.py:54 | definition of `opcode[1:-1]`; stated by StackLaws.DispatchQuoted |
| Semantics.ApplyOp | vm.py:66-159 | no operator changes the program, and only `jmp` moves the instruction pointer |
| Semantics.Dispatch | vm.py:26-54 | dispatch never changes the program, and only the `jmp` token moves the pointer |
| Semantics.Step | vm.py:59-63 | a step keeps the program, and a non-`jmp` token leaves the pointer one past the fetched token |
| Semantics.Exec | vm.py:59-63 | a run keeps the program and finishes normally only with the pointer at or past the end; a run cut short by the budget stops inside the program |
| Semantics.Turn | vm.py:59-63 | a turn of the bounded loop keeps the program; a turn cut short by the budget stops inside the program, and one that finishes normally stops at or past the end |
| Semantics.Resume | vm.py:60-63 | the loop body keeps the program; a run it finishes normally stops at or past the end, and one cut short by the budget stops inside the program (the hand-over per signal is the helper lemma `ExecStep`) |
| StackLaws.OpNameRoundTrip | vm.py:27-47 | every operator's name maps back to that operator |
| StackLaws.UnderflowIffTooFewOperands | vm.py:18-19 | an operator underflows exactly when the stack holds fewer values than it pops, and the stack is then empty |
| StackLaws.BinaryPopsTwoPushesOne | vm.py:66-94 | a binary operator keeps everything below its two operands and leaves one value in their place; on failure both stay popped |
| StackLaws.IntArithmetic | vm.py:66-94 | on ints: `+ - *` give sum, difference and product, `/` gives v1 - v2, `==` compares, `%` is floor-mod and fails on 0 |
| StackLaws.DupLaw | vm.py:107-110 | `dup` adds one element, the top two are equal, and the rest is unchanged |
| StackLaws.SwapLaw | vm.py:148-152 | `swap` exchanges the top two and keeps the rest |
| StackLaws.SwapTwiceRestores | vm.py:148-152 | `swap swap` restores the configuration; with fewer than two values `swap` underflows |
| StackLaws.OverLaw | vm.py:124-129 | `over` turns [.., v1, v2] into [.., v1, v2, v1] |
| StackLaws.DropLaw | vm.py:104-105 | `drop` removes exactly the top |
| StackLaws.IfSelects | vm.py:115-122 | `if` replaces cond, true clause and false clause by the true clause when cond is truthy, else by the false clause |
| StackLaws.JmpLaw | vm.py:154-159 | `jmp` pops its target: an in-range int becomes the pointer, an out-of-range one raises, and a str is a type error |
| StackLaws.PrintLaw | vm.py:132-138 | `print` and `println` pop the top and write `str(v)`; `println` adds a newline |
| StackLaws.StackDumpTopFirst | vm.py:144-146 | `stack` writes the top element first |
| StackLaws.CastStrThenIntRestores | vm.py:96-102 | `cast_str` then `cast_int` restores an int |
| StackLaws.DispatchInt | vm.py:50-51 | an int token is pushed unchanged |
| StackLaws.DispatchQuoted | vm.py:52-54 | a `"`-quoted token is pushed as exactly the text between the quotes |
| StackLaws.DispatchIgnores | vm.py:48-54 | a float, or a word that is neither an operator nor quoted, changes nothing |
| Programs.StraightLineExecution | vm.py:59-63 | without `jmp`, the loop dispatches every remaining token once, in order |
| Programs.Sequential | vm.py:59-63 | reference reading of a jump-free run; tied to the loop by Programs.StraightLineExecution |
| Programs.SequentialStep | vm.py:59-63 | the reference reading of a jump-free run takes the same first step as the loop |
| Programs.JmpThenFetch | vm.py:154-159 | after `jmp` to an in-range target the next token fetched is `code[target]`; an out-of-range target fails the run |
| Programs.ExecInt | vm.py:50-51 | running an int token pushes it and moves on |
| Programs.ExecQuoted | vm.py:52-54 | running a quoted token pushes the text between the quotes |
| Programs.ExecIgnored | vm.py:48-54 | running a float or an unknown unquoted word only moves on |
| Programs.ExecArith | vm.py:76-89 | running `+ - * /` on two ints replaces them by the sum, difference, product, or difference for `/` |
| Programs.ExecPrintln | vm.py:136-138 | running `println` pops the top and writes it with a newline |
| Programs.ExecEq | vm.py:91-94 | running `==` replaces the top two values by their comparison |
| Programs.DemoAdds | vm.py:214 | the first three demonstration tokens leave 1835 |
| Programs.DemoFinish | vm.py:214 | the last three demonstration tokens multiply by 6 and print the product |
| Programs.DemoPrints11010 | vm.py:214 | with any budget of at least 6 steps, `521 1314 + 6 * println` ends normally, with an empty stack, having printed `11010` |
| Programs.CatDogPushed | vm.py:52-54 | `"cat" "dog"` pushes both texts without quotes |
| Programs.DistinctQuotedStringsCompareFalse | vm.py:91-94 | `"cat" "dog" ==` ends normally, leaving only false |
| Programs.UnquotedWordsAreIgnored | vm.py:48-54 | `cat dog ==` ignores both words, and then `==` underflows |
| Programs.JumpBackToStart | vm.py:218-223 | `0 jmp` restarts the program with the stack it had |
| Vm.Machine.constructor | vm.py:9-12 | a new machine has the given program, an empty stack and pointer 0 |
| Vm.Machine.Push | vm.py:15-16 | appends one value and changes nothing else |
| Vm.Machine.Pop | vm.py:18-19 | removes and returns the top, or fails on an empty stack |
| Vm.Machine.Top | vm.py:21-23 | returns the top without changing anything, or fails on an empty stack |
| Vm.Machine.Mod | vm.py:66-69 | changes the machine exactly as `Semantics.Binary` with Python's `%` on (v1, v2): floor-modulo on ints, a type error for other operands, a division error for 0 |
| Vm.Machine.Mul | vm.py:71-74 | as `Semantics.Binary` with Python's `*`: a product on ints, repetition for str and int |
| Vm.Machine.Plus | vm.py:76-79 | as `Semantics.Binary` with Python's `+`: a sum on ints, concatenation on two strs |
| Vm.Machine.Minus | vm.py:81-84 | as `Semantics.Binary` with Python's `-` on ints |
| Vm.Machine.Div | vm.py:86-89 | as `Semantics.Binary` with `-`: the handler subtracts |
| Vm.Machine.Eq | vm.py:91-94 | as `Semantics.Binary` with `==`, pushing a bool |
| Vm.Machine.CastInt | vm.py:96-98 | as `Semantics.Unary` with `int()` |
| Vm.Machine.CastStr | vm.py:100-102 | as `Semantics.Unary` with `str()` |
| Vm.Machine.Drop | vm.py:104-105 | as `Semantics.DropOp`: pops the top, or underflows |
| Vm.Machine.Dup | vm.py:107-110 | as `Semantics.DupOp`: pushes a copy of the top |
| Vm.Machine.Exit | vm.py:112-113 | signals the end of the run and changes nothing |
| Vm.Machine.IfStmt | vm.py:115-122 | as `Semantics.IfOp`: pops three values and pushes the selected clause |
| Vm.Machine.Over | vm.py:124-129 | as `Semantics.OverOp`: pushes a copy of the second value |
| Vm.Machine.Print | vm.py:132-134 | as `Semantics.PrintOp`: pops the top and writes `str(v)` |
| Vm.Machine.Println | vm.py:136-138 | as `Semantics.PrintlnOp`: pops the top and writes `str(v)` and a newline |
| Vm.Machine.Read | vm.py:140-142 | as `Semantics.ReadOp`: pushes the next input line, or fails when none is left |
| Vm.Machine.DumpStack | vm.py:144-146 | as `Semantics.DumpStackOp`: the loop writes the elements top first and leaves the stack alone |
| Vm.Machine.Swap | vm.py:148-152 | as `Semantics.SwapOp`: exchanges the top two |
| Vm.Machine.Jmp | vm.py:154-159 | as `Semantics.JmpOp`: pops the target and moves the pointer there, or fails |
| Vm.Machine.Invoke | vm.py:48-49 | calls the handler the table holds, with that operator's effect |
| Vm.Machine.Fetch | vm.py:61-63 | the loop body: the new fields and signal are exactly `Semantics.Step` of the old state (fetch `code[addr]`, advance, dispatch) |
| Vm.Machine.Turn | vm.py:60-63 | one turn of the loop within a budget: after `Next` the rest of the run is the bounded run from the new state with one token fewer; after `exit` or an error the run ends in the new state with that status |
| Vm.Machine.Dispatch | vm.py:26-54 | changes the machine exactly as `Semantics.Dispatch` |
| Vm.Machine.Run | vm.py:59-63 | the final fields and status are those of `Semantics.Exec` with the same budget |
| Fold.WindowRun | vm.py:168-169 | a fresh machine run on `a b op` ends normally with exactly the folded value on its stack |
| Fold.FoldValue | vm.py:168-169 | definition of the folded literal; Fold.WindowRun proves a fresh machine computes it |
| Fold.Replace | vm.py:170 | the window of three tokens becomes one literal, and the tokens before and after are kept |
| Fold.FirstFoldableFrom | vm.py:165-167 | finds the first window at or after j with int, int and one of `+ - * /`, or reports that there is none |
| Fold.FoldFirstWindow | vm.py:164-172 | definition of what the pass as written amounts to; stated by Fold.ConstantsFold, Fold.FoldFirstWindowShape and Fold.FoldFirstWindowUnfolds |
| Fold.ConstantsFold | vm.py:164-172 | the loop as written computes `FoldFirstWindow`: only the first foldable window is folded |
| Fold.FoldFirstWindowShape | vm.py:164-172 | at most one fold, on an `int int op` window with nothing foldable before it; the value is a+b, a-b, a*b, or a-b for `/`; each fold shortens the list by 2 and writes one record; no fold means the list is unchanged |
| Fold.FoldFirstWindowUnfolds | vm.py:170-171 | the trace records rebuild the input from the output |
| Fold.FoldSingleWindow | vm.py:164-172 | a lone `a b op` folds to the one literal op computes |
| Fold.DemoFold | vm.py:214 | `521 1314 + 6 * println` folds to `1835 6 * println` |
| Fold.FoldedDemoPrints11010 | vm.py:214 | the folded demonstration still prints `11010` |
| Fold.ScanCorrect | vm.py:164-172 | the corrected scan, from any point where its invariant holds, rebuilds the input, keeps every record true, and leaves no foldable window without a fold in it |
| Fold.FoldIntendedFrom | vm.py:164-172 | definition of the corrected scan; stated by Fold.ScanCorrect and Fold.TraceGrows |
| Fold.FoldIntended | vm.py:164-172 | definition of the corrected pass; stated by Fold.FoldIntendedCorrect |
| Fold.FoldIntendedCorrect | vm.py:164-172 | the corrected pass: length drops by 2 per fold, the trace rebuilds the input, and every remaining foldable window overlaps a literal the pass produced |
| Fold.TraceGrows | vm.py:171 | the corrected scan only appends to its trace |
| Fold.ScanBeforeFirstFold | vm.py:165-167 | until its first fold, the corrected scan walks the input itself |
| Fold.FirstFoldsAgree | vm.py:164-172 | the pass as written and the corrected pass make the same first fold, or neither folds |
| Fold.AsWrittenLeavesSecondWindow | vm.py:165-170 | as written, `1 2 + 3 4 +` becomes `3 3 4 +`, an unfolded window no fold touches |
| Fold.IntendedFoldsBothWindows | vm.py:165-170 | the corrected pass turns `1 2 + 3 4 +` into `3 7` |

## Left out

- Console I/O: `welcome`, the prompt `read`, `repl` and its error messages, `test`, `parse_args` and the `__main__` block (vm.py:176-239). Their programs appear only as the example lemmas above.
- `parse_word` and `tokenize` (vm.py:184-195): the model starts from typed tokens (`IntTok`, `FloatTok`, `StrTok`), because Python's `int()`/`float()` text parsing is out of scope. A float token is only ever ignored.
- Values.ParseInt: accepts an optional sign followed by ASCII digits. It does not model the surrounding whitespace, the `_` separators or the non-ASCII digits that Python's `int()` also accepts. It also ignores CPython's limit on the digits of an int read from text (4300 by default since 3.11, adjustable with `sys.set_int_max_str_digits`), past which `int(s)` raises ValueError.
- Values.Str: ignores the same CPython digit limit. Past it, `str(v)` of an int raises ValueError, while the model always writes the digits.
- Values.CastRoundTrip: `int(str(n)) == n` is proved for every int. In CPython it holds only while n has at most the limit's number of digits (4300 by default); past that `str(n)` raises ValueError.
- StackLaws.PrintLaw: `print` and `println` of an int with more digits than the CPython limit raise ValueError in Python, while the model writes the digits. The same holds for `stack` and `cast_str`.
- Values.Repeat: CPython converts the repeat count to a 64-bit index first. A count below -2^63 or above 2^63-1, or a result longer than 2^63-1 characters, raises OverflowError; the model ignores this and repeats anyway, giving "" for every count <= 0.
- Values.PyMul: inherits that gap for `str * int` and `int * str`. A count outside the 64-bit index range, or an over-long result, raises OverflowError in CPython; the model returns the repeated string.
- Values.PyModulo: `str % value` is printf-style formatting in Python. It is modelled as a type error, which matches Python only when the string holds no `%` directive.
- The text the fold pass writes for each fold (vm.py:171) is kept as a `FoldRecord` of a, b, op, result and position, not as formatted text. Formatting a result with more digits than CPython's digit limit raises ValueError, so in Python the pass can then fail; the model ignores that limit.
- Vm.Machine.Run: takes a step budget, because a program that jumps back can loop forever (vm.py:218-223). A run that uses the budget up reports `OutOfFuel`, a status the Python loop does not have.
- Vm.Machine.Exit: Python's `exit(0)` ends the whole process. Here it ends the run with the `Exited` status.
- Fold.ConstantsFold: takes the program as an immutable sequence and returns the new one. Python's slice assignment also changes the caller's list in place, so that aliasing is not modelled. The fresh machine it runs gets no input lines, since no `read` can appear in a foldable window.
- Python exceptions are modelled as a closed set of error kinds. Which of them the REPL catches (vm.py:206-207) is not modelled.
- Where the code and a plain reading of the operator names differ, the model follows the code:
  - `/` subtracts;
  - `==` compares int and bool numerically (`True == 1`);
  - an unquoted word such as `cat` is ignored rather than pushed;
  - ints are unbounded Python ints, not fixed-width integers; the CPython limits listed above (the 64-bit repeat count and the digit limit on text conversion) are not modelled.

## Findings

| source | as written | input that shows it | evidently intended | confidence | as-written member | corrected member |
|---|---|---|---|---|---|---|
| vm.py:165-170 | `zip(code, code[1:], code[2:])` reads `a` from the list being shortened but `b` and `op` from copies made before the loop. After one fold, `a` at every later position is the token `op` is read from, so it is never an int and nothing more is folded | `1 2 + 3 4 +` gives `3 3 4 +` | fold every `int int op` window of the list as it is being rewritten, giving `3 7` | high (proved; not executed) | Fold.AsWrittenLeavesSecondWindow | Fold.FoldIntendedCorrect |
