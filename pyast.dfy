/**
  The parts of Python's `ast` trees that the two analysers look at. `ast.parse`,
  `ast.walk` and `ast.unparse` are not modelled: a parsed program arrives as these
  values, with condition and iterable texts already rendered as strings.
*/
module PyAst {

  /** The value of an `ast.Constant`: an int, a str, or any other constant kept as its text. */
  datatype Literal = IntLit(i: int) | StrLit(s: string) | OtherLit(repr: string)

  /** An expression, as far as the analysers distinguish expressions. */
  datatype Expr =
    | Constant(value: Literal)
    | Name(id: string)
    | ListDisplay(elts: seq<Expr>)
    | DictDisplay
    | OtherExpr

  /** An assignment or loop target: a plain name, or anything else (tuple, attribute, subscript). */
  datatype Target = NameTarget(id: string) | OtherTarget

  /** The `func` of an `ast.Call`: `f(...)`, `base.attr(...)`, or anything else. */
  datatype Callee = NameCallee(id: string) | AttributeCallee(base: Expr, attr: string) | OtherCallee

  /** One node yielded by `ast.walk`, in the three kinds the data-structure recorder reacts to. */
  datatype WalkNode =
    | AssignNode(line: int, targets: seq<Target>, value: Expr)
    | CallNode(line: int, func: Callee, args: seq<Expr>)
    | ListCompNode(line: int)
    | OtherNode

  /** A statement of a module or block body, as the flowchart builder distinguishes them. */
  datatype Stmt =
    | Assign(line: int, targets: seq<Target>)
    | If(line: int, test: string, body: seq<Stmt>, orelse: seq<Stmt>)
    | For(line: int, target: Target, iter: string, body: seq<Stmt>)
    | While(line: int, test: string, body: seq<Stmt>)
    | FunctionDef(line: int, name: string)
    | Return(line: int)
    | CallStmt(line: int, func: Callee)
    | OtherStmt(typeName: string, line: int)
}
