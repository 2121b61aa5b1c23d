/**
 * AST.py: the tree the interpreter walks. Every class of AST.py is one
 * constructor; a field that holds a `Var` naming a target variable (UnaryOp's
 * identifier, Assign's left side, Declarative's var) is kept as that variable's
 * name and index expression. Operator fields keep only the operator token's type.
 */
module Ast {
  import opened Wrappers
  import opened Values
  import Tokens

  datatype Node =
    | BinOp(left: Node, op: Tokens.TokenType, right: Node)
    | Num(value: int)
    | UnaryOp(op: Tokens.TokenType, name: string, index: Option<Node>)
    | Compound(children: seq<Node>)
    | Assign(name: string, index: Option<Node>, op: Tokens.TokenType, right: Node)
    | Var(name: string, index: Option<Node>)
    | Indexer(token: Value)  // the token's value, a name in practice
    | Loop(condition: Node, body: Node)
    | Condition(left: Node, op: Tokens.TokenType, right: Node)
    | If(condition: Node, body: Node, elseNode: Option<Node>)
    | Else(after: Node)
    | Output(expr: Node)
    | Declarative(name: string, index: Option<Node>, init: Option<Node>)  // `assigned`

  /** The Python class name of a node, as `type(node).__name__` gives it. */
  function KindName(n: Node): string {
    match n
    case BinOp(_, _, _) => "BinOp"
    case Num(_) => "Num"
    case UnaryOp(_, _, _) => "UnaryOp"
    case Compound(_) => "Compound"
    case Assign(_, _, _, _) => "Assign"
    case Var(_, _) => "Var"
    case Indexer(_) => "Indexer"
    case Loop(_, _) => "Loop"
    case Condition(_, _, _) => "Condition"
    case If(_, _, _) => "If"
    case Else(_) => "Else"
    case Output(_) => "Output"
    case Declarative(_, _, _) => "Declarative"
  }
}
