/**
 * What visiting a tree does, stated about `Eval`: evaluation order, Python's
 * floor division, the quirks of the visitors (a declaration drops its
 * initializer, `++x` yields the name, `Assign` ignores its operator), which node
 * kinds fail, and what a visit can and cannot change.
 */
module InterpFacts {
  import opened Wrappers
  import opened Values
  import opened Ast
  import opened Symtab
  import opened Interp
  import Tokens

  // ---------------------------------------------------------------------------
  // Side-effect-free expressions
  // ---------------------------------------------------------------------------

  /** Expressions built from literals, variables and arithmetic (and nodes without a visitor). */
  predicate SideEffectFree(n: Node) {
    match n
    case Num(_) => true
    case Var(_, _) => true
    case BinOp(left, _, right) => SideEffectFree(left) && SideEffectFree(right)
    case Indexer(_) => true
    case Loop(_, _) => true
    case Condition(_, _, _) => true
    case If(_, _, _) => true
    case Else(_) => true
    case _ => false
  }

  /** Visiting a side-effect-free expression leaves table and output exactly as they were. */
  lemma {:induction false} SideEffectFreeKeepsState(n: Node, st: State)
    requires SideEffectFree(n)
    ensures Eval(n, st).st == st
    decreases n
  {
    if n.BinOp? && IsArith(n.op) {
      SideEffectFreeKeepsState(n.left, st);
      SideEffectFreeKeepsState(n.right, st);
    }
  }

  // ---------------------------------------------------------------------------
  // BinOp (Interpreter.py:23-33)
  // ---------------------------------------------------------------------------

  /**
   * The right operand runs in the state the left operand left behind. Whatever the
   * left side did, a variable on the right reads its value after those effects, and
   * the operation ends in that state. A left side that raises ends the operation
   * before the right side is visited.
   */
  lemma RightOperandReadsLeftState(l: Node, op: Tokens.TokenType, x: string, j: Option<Node>, r: Node, st: State)
    requires IsArith(op)
    ensures var a := Eval(l, st);
      a.result.Ok? && IsDeclaredIn(a.st.tab, x) ==>
        Eval(BinOp(l, op, Var(x, j)), st) == Run(Arith(op, a.result.value, a.st.tab[x]), a.st)
    ensures var a := Eval(l, st);
      a.result.Ok? && !IsDeclaredIn(a.st.tab, x) ==>
        Eval(BinOp(l, op, Var(x, j)), st) == Run(Err(Symbol(NotDeclared(x))), a.st)
    ensures Eval(l, st).result.Err? ==> Eval(BinOp(l, op, r), st) == Eval(l, st)
  {
    VarReadsTable(x, j, j, Eval(l, st).st);
  }

  /**
   * `++x op x` and `--x op x`, for every name, indices, starting value and
   * arithmetic operator: the right operand sees the updated value, and the left
   * operand contributes the name.
   */
  lemma UpdateSeenByRightOperand(x: string, i: Option<Node>, j: Option<Node>, v: int, op: Tokens.TokenType, st: State)
    requires IsArith(op)
    requires x in st.tab && st.tab[x] == IntVal(v)
    ensures Eval(BinOp(UnaryOp(Tokens.Incrementor, x, i), op, Var(x, j)), st)
      == Run(Arith(op, StrVal(x), IntVal(v + 1)), State(st.tab[x := IntVal(v + 1)], st.out))
    ensures Eval(BinOp(UnaryOp(Tokens.Decrementor, x, i), op, Var(x, j)), st)
      == Run(Arith(op, StrVal(x), IntVal(v - 1)), State(st.tab[x := IntVal(v - 1)], st.out))
  {
    IncrementYieldsName(x, i, v, st);
    RightOperandReadsLeftState(UnaryOp(Tokens.Incrementor, x, i), op, x, j, Num(0), st);
    RightOperandReadsLeftState(UnaryOp(Tokens.Decrementor, x, i), op, x, j, Num(0), st);
  }

  /**
   * The left operand is visited first and its side effects are seen by the
   * right: with x = 0, `++x * x` is the name "x" repeated x times, and x is 1 by
   * then, so the result is "x" (right-to-left order would give "").
   */
  lemma LeftOperandFirst()
    ensures var st := State(map["x" := IntVal(0)], []);
      Eval(BinOp(UnaryOp(Tokens.Incrementor, "x", None), Tokens.Mul, Var("x", None)), st)
        == Run(Ok(StrVal("x")), State(map["x" := IntVal(1)], []))
  {
    var st := State(map["x" := IntVal(0)], []);
    var st1 := State(map["x" := IntVal(0)]["x" := IntVal(1)], []);
    assert Eval(UnaryOp(Tokens.Incrementor, "x", None), st) == Run(Ok(StrVal("x")), st1);
    assert Eval(Var("x", None), st1) == Run(Ok(IntVal(1)), st1);
    assert Repeat("x", 1) == "x";
    assert map["x" := IntVal(0)]["x" := IntVal(1)] == map["x" := IntVal(1)];
  }

  /** On ints, +, - and * are the integer operations and // and % are floor division. */
  lemma IntegerArithmetic(x: int, y: int)
    ensures Arith(Tokens.Plus, IntVal(x), IntVal(y)) == Ok(IntVal(x + y))
    ensures Arith(Tokens.Minus, IntVal(x), IntVal(y)) == Ok(IntVal(x - y))
    ensures Arith(Tokens.Mul, IntVal(x), IntVal(y)) == Ok(IntVal(x * y))
    ensures y == 0 ==> Arith(Tokens.Div, IntVal(x), IntVal(y)) == Err(ZeroDivision)
    ensures y == 0 ==> Arith(Tokens.Mod, IntVal(x), IntVal(y)) == Err(ZeroDivision)
    ensures y != 0 ==> Arith(Tokens.Div, IntVal(x), IntVal(y)).Ok?
    ensures y != 0 ==> Arith(Tokens.Mod, IntVal(x), IntVal(y)).Ok?
    ensures y != 0 ==>
      var q := Arith(Tokens.Div, IntVal(x), IntVal(y)).value.i;
      var m := Arith(Tokens.Mod, IntVal(x), IntVal(y)).value.i;
      x == y * q + m && (y > 0 ==> 0 <= m < y) && (y < 0 ==> y < m <= 0)
  {
  }

  /** Floor division and modulo differ from truncation on negative operands. */
  lemma FloorExamples()
    ensures FloorDiv(-7, 2) == -4 && FloorMod(-7, 2) == 1
    ensures FloorDiv(7, -2) == -4 && FloorMod(7, -2) == -1
    ensures FloorDiv(-7, -2) == 3 && FloorMod(-7, -2) == -1
  {
  }

  /** Python's `+` joins two names and `*` repeats one; mixing a name with an int in `+` raises. */
  lemma StringArithmetic(s: string, t: string, k: int)
    ensures Arith(Tokens.Plus, StrVal(s), StrVal(t)) == Ok(StrVal(s + t))
    ensures Arith(Tokens.Plus, StrVal(s), IntVal(k)) == Err(TypeError)
    ensures Arith(Tokens.Minus, StrVal(s), StrVal(t)) == Err(TypeError)
    ensures Arith(Tokens.Mul, StrVal(s), IntVal(k)) == Arith(Tokens.Mul, IntVal(k), StrVal(s))
    ensures Arith(Tokens.Mul, StrVal(s), IntVal(k)) == Ok(StrVal(Repeat(s, k)))
  {
  }

  /** `s * (a + b) == s * a + s * b` for counts that are not negative. */
  lemma {:induction false} RepeatAdds(s: string, a: nat, b: nat)
    ensures Repeat(s, a + b) == Repeat(s, a) + Repeat(s, b)
    decreases a
  {
    if a == 0 {
      assert Repeat(s, a) + Repeat(s, b) == Repeat(s, b);
    } else {
      RepeatAdds(s, a - 1, b);
      assert Repeat(s, a + b) == s + Repeat(s, a - 1 + b);
    }
  }

  /** `s * n` is n copies of s: after any q < n copies comes one more copy of s. */
  lemma RepeatBlocks(s: string, n: nat, q: nat)
    requires q < n
    ensures Repeat(s, n) == Repeat(s, q) + (s + Repeat(s, n - q - 1))
  {
    RepeatAdds(s, q, n - q);
    assert Repeat(s, n - q) == s + Repeat(s, n - q - 1);
  }

  /** An operator with no branch in `visit_BinOp` yields None and visits neither operand. */
  lemma OtherOperatorYieldsNone(left: Node, op: Tokens.TokenType, right: Node, st: State)
    requires !IsArith(op)
    ensures Eval(BinOp(left, op, right), st) == Run(Ok(NoneVal), st)
  {
  }

  // ---------------------------------------------------------------------------
  // Num and Var (Interpreter.py:35-36, 64-65)
  // ---------------------------------------------------------------------------

  /** A variable reads its stored value, whatever its index expression, and changes nothing. */
  lemma VarReadsTable(name: string, i1: Option<Node>, i2: Option<Node>, st: State)
    ensures Eval(Var(name, i1), st) == Eval(Var(name, i2), st)
    ensures Eval(Var(name, i1), st).st == st
    ensures IsDeclaredIn(st.tab, name) ==> Eval(Var(name, i1), st).result == Ok(st.tab[name])
    ensures !IsDeclaredIn(st.tab, name) ==>
      Eval(Var(name, i1), st).result == Err(Symbol(NotDeclared(name)))
  {
  }

  // ---------------------------------------------------------------------------
  // UnaryOp (Interpreter.py:38-47)
  // ---------------------------------------------------------------------------

  /** `++x` / `--x` store x plus / minus one and yield the name "x", not the new value. */
  lemma IncrementYieldsName(name: string, idx: Option<Node>, v: int, st: State)
    requires name in st.tab && st.tab[name] == IntVal(v)
    ensures Eval(UnaryOp(Tokens.Incrementor, name, idx), st)
      == Run(Ok(StrVal(name)), State(st.tab[name := IntVal(v + 1)], st.out))
    ensures Eval(UnaryOp(Tokens.Decrementor, name, idx), st)
      == Run(Ok(StrVal(name)), State(st.tab[name := IntVal(v - 1)], st.out))
  {
    assert LookupIn(st.tab, name) == Ok(IntVal(v));
    assert Arith(Tokens.Plus, IntVal(v), IntVal(1)) == Ok(IntVal(v + 1));
    assert Arith(Tokens.Minus, IntVal(v), IntVal(1)) == Ok(IntVal(v - 1));
  }

  /** Incrementing an undeclared name, or one that holds a name, raises and changes nothing. */
  lemma IncrementFailures(name: string, idx: Option<Node>, st: State)
    ensures !IsDeclaredIn(st.tab, name) ==>
      Eval(UnaryOp(Tokens.Incrementor, name, idx), st) == Run(Err(Symbol(NotDeclared(name))), st)
    ensures name in st.tab && st.tab[name].StrVal? ==>
      Eval(UnaryOp(Tokens.Incrementor, name, idx), st) == Run(Err(TypeError), st)
  {
  }

  // ---------------------------------------------------------------------------
  // Compound (Interpreter.py:49-51)
  // ---------------------------------------------------------------------------

  /**
   * Children run in list order: running `a + b` is running `a`, then (unless it
   * raised) running `b` from the state `a` left.
   */
  lemma {:induction false} SequenceSplits(a: seq<Node>, b: seq<Node>, st: State)
    ensures EvalSeq(a + b, st)
      == (var o := EvalSeq(a, st); if o.result.Err? then o else EvalSeq(b, o.st))
    decreases a
  {
    if a != [] {
      assert (a + b)[0] == a[0] && (a + b)[1..] == a[1..] + b;
      var o := Eval(a[0], st);
      if o.result.Ok? {
        SequenceSplits(a[1..], b, o.st);
      }
    } else {
      assert a + b == b;
    }
  }

  /** One child that raises stops the block: the children after it are never visited. */
  lemma {:induction false} RaiseStopsBlock(a: seq<Node>, bad: Node, b: seq<Node>, st: State)
    requires EvalSeq(a, st).result.Ok?
    requires Eval(bad, EvalSeq(a, st).st).result.Err?
    ensures Eval(Compound(a + [bad] + b), st) == Eval(bad, EvalSeq(a, st).st)
  {
    SequenceSplits(a, [bad] + b, st);
    assert a + [bad] + b == a + ([bad] + b);
  }

  // ---------------------------------------------------------------------------
  // Assign (Interpreter.py:53-56)
  // ---------------------------------------------------------------------------

  /**
   * The right side is visited first, then its value replaces the variable's; the
   * operator (`=`, `+=`, ...) and the left index play no part.
   */
  lemma AssignStoresValue(name: string, idx: Option<Node>, op: Tokens.TokenType, right: Node, st: State)
    ensures forall idx2: Option<Node>, op2: Tokens.TokenType ::
      Eval(Assign(name, idx, op, right), st) == Eval(Assign(name, idx2, op2, right), st)
    ensures var o := Eval(right, st);
      o.result.Ok? && IsDeclaredIn(o.st.tab, name) ==>
        Eval(Assign(name, idx, op, right), st)
          == Run(Ok(NoneVal), State(o.st.tab[name := o.result.value], o.st.out))
    ensures var o := Eval(right, st);
      o.result.Ok? && !IsDeclaredIn(o.st.tab, name) ==>
        Eval(Assign(name, idx, op, right), st) == Run(Err(Symbol(AssignUndeclared(name))), o.st)
  {
  }

  // ---------------------------------------------------------------------------
  // Declarative (Interpreter.py:58-62)
  // ---------------------------------------------------------------------------

  /**
   * A declaration stores 0 and then only visits its initializer: the value is
   * dropped, so after `declare x = e` with a side-effect-free `e`, x is 0.
   */
  lemma DeclarationDropsInitializer(name: string, idx: Option<Node>, init: Node, st: State)
    requires !IsDeclaredIn(st.tab, name)
    requires SideEffectFree(init)
    ensures var o := Eval(Declarative(name, idx, Some(init)), st);
      o.st == State(st.tab[name := IntVal(0)], st.out) &&
      LookupIn(o.st.tab, name) == Ok(IntVal(0)) &&
      (o.result.Ok? <==> Eval(init, State(st.tab[name := IntVal(0)], st.out)).result.Ok?)
  {
    SideEffectFreeKeepsState(init, State(st.tab[name := IntVal(0)], st.out));
  }

  /** Redeclaring a name raises before the initializer is visited, and changes nothing. */
  lemma RedeclarationFails(name: string, idx: Option<Node>, init: Option<Node>, st: State)
    requires IsDeclaredIn(st.tab, name)
    ensures Eval(Declarative(name, idx, init), st) == Run(Err(Symbol(AlreadyDeclared(name))), st)
  {
  }

  // ---------------------------------------------------------------------------
  // Output (Interpreter.py:67-69) and nodes without a visitor (Interpreter.py:8-14)
  // ---------------------------------------------------------------------------

  /** `output e` appends exactly e's value to what has been printed. */
  lemma OutputAppends(e: Node, st: State)
    requires Eval(e, st).result.Ok?
    ensures var o := Eval(e, st);
      Eval(Output(e), st) == Run(Ok(NoneVal), State(o.st.tab, o.st.out + [o.result.value]))
  {
  }

  /** Loops, ifs, conditions, else branches and indexers have no visitor and raise. */
  lemma NoVisitorFails(n: Node, st: State)
    requires n.Loop? || n.If? || n.Condition? || n.Else? || n.Indexer?
    ensures Eval(n, st) == Run(Err(NoVisitMethod(KindName(n))), st)
    ensures n.Loop? ==> KindName(n) == "Loop"
    ensures n.If? ==> KindName(n) == "If"
  {
  }

  // ---------------------------------------------------------------------------
  // Whole programs
  // ---------------------------------------------------------------------------

  /** `declare x = 5; output x;` prints 0: the initializer is not stored. */
  lemma DeclareThenOutput()
    ensures Eval(Compound([Declarative("x", None, Some(Num(5))), Output(Var("x", None))]), State(map[], []))
      == Run(Ok(NoneVal), State(map["x" := IntVal(0)], [IntVal(0)]))
  {
  }

  /** `output 1; while (...) ...` prints 1 and then raises at the loop. */
  lemma LoopRaisesAfterEarlierOutput(cond: Node, body: Node)
    ensures Eval(Compound([Output(Num(1)), Loop(cond, body)]), State(map[], []))
      == Run(Err(NoVisitMethod("Loop")), State(map[], [IntVal(1)]))
  {
    var st1 := State(map[], [IntVal(1)]);
    assert Eval(Output(Num(1)), State(map[], [])) == Run(Ok(NoneVal), st1);
    SequenceSplits([Output(Num(1))], [Loop(cond, body)], State(map[], []));
  }
}
