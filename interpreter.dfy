/**
 * Interpreter.py: the tree-walking evaluator (`NodeVisitor.visit` and the
 * `Interpreter.visit_*` methods).
 *
 * `Eval` says what visiting a node returns and how it changes the interpreter's
 * state (the symbol table and everything printed so far); the class `Interpreter`
 * walks the tree step by step, updating its SymbolTable object and its output in
 * place, and each of its methods is proved to agree with `Eval`.
 */
module Interp {
  import opened Wrappers
  import opened Values
  import opened Ast
  import opened Symtab
  import Tokens

  /** The exceptions a visit can raise. */
  datatype Error =
    | Symbol(e: SymbolError)    // raised by the symbol table
    | NoVisitMethod(kind: string) // `generic_visit`: 'No visit_<kind> method'
    | TypeError                 // an operand of the wrong Python type
    | ZeroDivision              // `//` or `%` by zero

  /** What the interpreter holds: the table and the values printed so far. */
  datatype State = State(tab: Table, out: seq<Value>)

  /** The value a visit returns (or the exception it raises) and the state after it. */
  datatype Run = Run(result: Result<Value, Error>, st: State)

  // ---------------------------------------------------------------------------
  // Python integer and string arithmetic
  // ---------------------------------------------------------------------------

  /** Python's `a // b`: the floor of the exact quotient. */
  function FloorDiv(a: int, b: int): (q: int)
    requires b != 0
    ensures b > 0 ==> b * q <= a < b * q + b
    ensures b < 0 ==> b * q + b < a <= b * q
  {
    if b > 0 then a / b else (-a) / (-b)
  }

  /** Python's `a % b`: the remainder of floor division, with the divisor's sign. */
  function FloorMod(a: int, b: int): (m: int)
    requires b != 0
    ensures a == b * FloorDiv(a, b) + m
    ensures b > 0 ==> 0 <= m < b
    ensures b < 0 ==> b < m <= 0
  {
    if b > 0 then a % b else -((-a) % (-b))
  }

  /** Python's `s * n` on a string: n copies of s, none when n <= 0. */
  function Repeat(s: string, n: int): (r: string)
    ensures |r| == if n > 0 then n * |s| else 0
    ensures n > 0 ==> r[..|s|] == s
    decreases n
  {
    if n <= 0 then [] else s + Repeat(s, n - 1)
  }

  /** The operators `visit_BinOp` has a branch for. */
  predicate IsArith(op: Tokens.TokenType) {
    op in {Tokens.Plus, Tokens.Minus, Tokens.Mul, Tokens.Div, Tokens.Mod}
  }

  /** `a <op> b` on Python values: ints, str concatenation and str repetition. */
  function Arith(op: Tokens.TokenType, a: Value, b: Value): (r: Result<Value, Error>)
    requires IsArith(op)
    ensures (a.IntVal? && b.IntVal?) ==> (r.Err? <==> (op in {Tokens.Div, Tokens.Mod} && b.i == 0))
    ensures (a.NoneVal? || b.NoneVal?) ==> r == Err(TypeError)
  {
    match (op, a, b)
    case (Plus, IntVal(x), IntVal(y)) => Ok(IntVal(x + y))
    case (Plus, StrVal(x), StrVal(y)) => Ok(StrVal(x + y))
    case (Minus, IntVal(x), IntVal(y)) => Ok(IntVal(x - y))
    case (Mul, IntVal(x), IntVal(y)) => Ok(IntVal(x * y))
    case (Mul, StrVal(x), IntVal(y)) => Ok(StrVal(Repeat(x, y)))
    case (Mul, IntVal(x), StrVal(y)) => Ok(StrVal(Repeat(y, x)))
    case (Div, IntVal(x), IntVal(y)) => if y == 0 then Err(ZeroDivision) else Ok(IntVal(FloorDiv(x, y)))
    case (Mod, IntVal(x), IntVal(y)) => if y == 0 then Err(ZeroDivision) else Ok(IntVal(FloorMod(x, y)))
    case _ => Err(TypeError)
  }

  function Lift(r: Result<Value, SymbolError>): Result<Value, Error> {
    match r
    case Ok(v) => Ok(v)
    case Err(e) => Err(Symbol(e))
  }

  // ---------------------------------------------------------------------------
  // What visiting a node does
  // ---------------------------------------------------------------------------

  /** `visit(n)` from state `st`. Statements return None; an exception stops the walk. */
  function Eval(n: Node, st: State): (r: Run)
    ensures st.tab.Keys <= r.st.tab.Keys && st.out <= r.st.out
    decreases n
  {
    match n
    case BinOp(left, op, right) =>
      if IsArith(op) then
        var a := Eval(left, st);
        if a.result.Err? then a
        else
          var b := Eval(right, a.st);
          if b.result.Err? then b
          else Run(Arith(op, a.result.value, b.result.value), b.st)
      else Run(Ok(NoneVal), st)
    case Num(v) => Run(Ok(IntVal(v)), st)
    case UnaryOp(op, name, _) =>
      var v := LookupIn(st.tab, name);
      if v.Err? then Run(Err(Symbol(v.error)), st)
      else
        var updated :=
          if op == Tokens.Incrementor then Arith(Tokens.Plus, v.value, IntVal(1))
          else if op == Tokens.Decrementor then Arith(Tokens.Minus, v.value, IntVal(1))
          else Ok(v.value);
        if updated.Err? then Run(Err(updated.error), st)
        else
          // `assign` cannot raise here: the lookup just found the name declared
          var t := AssignIn(st.tab, name, updated.value);
          assert t.Ok?;
          Run(Ok(StrVal(name)), State(t.value, st.out))
    case Compound(children) => EvalSeq(children, st)
    case Assign(name, _, _, right) =>
      var o := Eval(right, st);
      if o.result.Err? then o
      else
        var t := AssignIn(o.st.tab, name, o.result.value);
        if t.Err? then Run(Err(Symbol(t.error)), o.st)
        else Run(Ok(NoneVal), State(t.value, o.st.out))
    case Declarative(name, _, init) =>
      var t := DeclareIn(st.tab, name);
      if t.Err? then Run(Err(Symbol(t.error)), st)
      else if init.None? then Run(Ok(NoneVal), State(t.value, st.out))
      else
        var o := Eval(init.value, State(t.value, st.out));
        if o.result.Err? then o else Run(Ok(NoneVal), o.st)
    case Var(name, _) => Run(Lift(LookupIn(st.tab, name)), st)
    case Output(e) =>
      var o := Eval(e, st);
      if o.result.Err? then o
      else Run(Ok(NoneVal), State(o.st.tab, o.st.out + [o.result.value]))
    case _ => Run(Err(NoVisitMethod(KindName(n))), st)
  }

  /** The children of a Compound, visited in list order until one raises. */
  function EvalSeq(cs: seq<Node>, st: State): (r: Run)
    ensures st.tab.Keys <= r.st.tab.Keys && st.out <= r.st.out
    decreases cs
  {
    if cs == [] then Run(Ok(NoneVal), st)
    else
      var o := Eval(cs[0], st);
      if o.result.Err? then o else EvalSeq(cs[1..], o.st)
  }

  // ---------------------------------------------------------------------------
  // The visitor object
  // ---------------------------------------------------------------------------

  class Interpreter {
    const symtab: SymbolTable
    /** The values passed to `print`, in order. */
    var output: seq<Value>

    ghost function Snapshot(): State
      reads this, symtab
    {
      State(symtab.tab, output)
    }

    /** The table `__init__` creates; walking the parsed root is `Visit`. */
    constructor ()
      ensures fresh(symtab) && symtab.tab == map[] && output == []
    {
      symtab := new SymbolTable();
      output := [];
    }

    /** `NodeVisitor.visit`: dispatch on the node's class, `generic_visit` if it has no visitor. */
    method Visit(node: Node) returns (r: Result<Value, Error>)
      modifies this, symtab
      ensures Run(r, Snapshot()) == Eval(node, old(Snapshot()))
      decreases node, 1
    {
      match node
      case BinOp(_, _, _) => r := VisitBinOp(node);
      case Num(_) => r := VisitNum(node);
      case UnaryOp(_, _, _) => r := VisitUnaryOp(node);
      case Compound(_) => r := VisitCompound(node);
      case Assign(_, _, _, _) => r := VisitAssign(node);
      case Declarative(_, _, _) => r := VisitDeclarative(node);
      case Var(_, _) => r := VisitVar(node);
      case Output(_) => r := VisitOutput(node);
      case _ => r := GenericVisit(node);
    }

    /** `generic_visit`: raise 'No visit_<kind> method'. */
    method GenericVisit(node: Node) returns (r: Result<Value, Error>)
      ensures r == Err(NoVisitMethod(KindName(node)))
    {
      return Err(NoVisitMethod(KindName(node)));
    }

    /** `visit_BinOp`: left, then right, then combine; an unknown operator gives None. */
    method VisitBinOp(node: Node) returns (r: Result<Value, Error>)
      requires node.BinOp?
      modifies this, symtab
      ensures Run(r, Snapshot()) == Eval(node, old(Snapshot()))
      decreases node, 0
    {
      var op := node.op;
      if IsArith(op) {
        // each of the five branches of the source evaluates `visit(left) <op> visit(right)`
        var a :- Visit(node.left);
        var b :- Visit(node.right);
        r := Arith(op, a, b);
      } else {
        r := Ok(NoneVal);
      }
    }

    /** `visit_Num`: the literal's value. */
    method VisitNum(node: Node) returns (r: Result<Value, Error>)
      requires node.Num?
      ensures r == Ok(IntVal(node.value))
    {
      return Ok(IntVal(node.value));
    }

    /** `visit_UnaryOp`: read the variable, store it plus or minus one, return its name. */
    method VisitUnaryOp(node: Node) returns (r: Result<Value, Error>)
      requires node.UnaryOp?
      modifies symtab
      ensures Run(r, Snapshot()) == Eval(node, old(Snapshot()))
    {
      var op := node.op;
      var name := node.name;
      var value :- VisitVar(Var(node.name, node.index));
      if op == Tokens.Incrementor {
        value :- Arith(Tokens.Plus, value, IntVal(1));
      } else if op == Tokens.Decrementor {
        value :- Arith(Tokens.Minus, value, IntVal(1));
      }
      var s := symtab.Assign(name, value);
      // `assign` cannot raise here: `visit_Var` just found the name declared
      assert s.Done?;
      return Ok(StrVal(name));
    }

    /** `visit_Compound`: visit the children in list order. */
    method VisitCompound(node: Node) returns (r: Result<Value, Error>)
      requires node.Compound?
      modifies this, symtab
      ensures Run(r, Snapshot()) == Eval(node, old(Snapshot()))
      decreases node, 0
    {
      var children := node.children;
      for i := 0 to |children|
        invariant EvalSeq(children[i..], Snapshot()) == EvalSeq(children, old(Snapshot()))
      {
        assert children[i..][0] == children[i] && children[i..][1..] == children[i + 1..];
        var v := Visit(children[i]);
        if v.Err? {
          return Err(v.error);
        }
      }
      return Ok(NoneVal);
    }

    /** `visit_Assign`: store the right side's value under the left variable's name. */
    method VisitAssign(node: Node) returns (r: Result<Value, Error>)
      requires node.Assign?
      modifies this, symtab
      ensures Run(r, Snapshot()) == Eval(node, old(Snapshot()))
      decreases node, 0
    {
      var varName := node.name;
      var value :- Visit(node.right);
      var s := symtab.Assign(varName, value);
      if s.Failed? {
        return Err(Symbol(s.error));
      }
      return Ok(NoneVal);
    }

    /** `visit_Declarative`: declare the name, then visit the initializer and drop its value. */
    method VisitDeclarative(node: Node) returns (r: Result<Value, Error>)
      requires node.Declarative?
      modifies this, symtab
      ensures Run(r, Snapshot()) == Eval(node, old(Snapshot()))
      decreases node, 0
    {
      var varName := node.name;
      var s := symtab.Declare(varName);
      if s.Failed? {
        return Err(Symbol(s.error));
      }
      if node.init.Some? {
        var _ :- Visit(node.init.value);
      }
      return Ok(NoneVal);
    }

    /** `visit_Var`: look the name up; the index is not evaluated. */
    method VisitVar(node: Node) returns (r: Result<Value, Error>)
      requires node.Var?
      ensures r.Ok? <==> IsDeclaredIn(symtab.tab, node.name)
      ensures r.Ok? ==> r.value == symtab.tab[node.name]
      ensures r.Err? ==> r.error == Symbol(NotDeclared(node.name))
    {
      var v := symtab.Lookup(node.name);
      return Lift(v);
    }

    /** `visit_Output`: evaluate the expression and print its value. */
    method VisitOutput(node: Node) returns (r: Result<Value, Error>)
      requires node.Output?
      modifies this, symtab
      ensures Run(r, Snapshot()) == Eval(node, old(Snapshot()))
      decreases node, 0
    {
      var value :- Visit(node.expr);
      output := output + [value];
      return Ok(NoneVal);
    }
  }
}
