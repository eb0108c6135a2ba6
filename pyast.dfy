/** The part of the Python abstract syntax tree that the generator looks at,
    as the parser hands it over. Source positions, expression contexts and
    call keywords are not represented: no translation rule reads them. */
module PyAst {
  import opened Common

  /** A literal. `CFloat` carries the text Rust's `{}` formatting gives the f64,
      which is foreign to the model; `COther` is any other literal kind
      (bytes, complex, ellipsis, tuples of constants). */
  datatype Const =
    | CInt(i: int)
    | CFloat(display: string)
    | CBool(b: bool)
    | CStr(s: string)
    | CNone
    | COther

  datatype UnaryOperator = UAdd | USub | Not | Invert

  datatype BoolOperator = And | Or

  datatype Operator =
    | Add | Sub | Mult | MatMult | Div | Mod | Pow
    | LShift | RShift | BitOr | BitXor | BitAnd | FloorDiv

  datatype CmpOp = Eq | NotEq | Lt | LtE | Gt | GtE | Is | IsNot | In | NotIn

  datatype Expr =
    | Name(id: string)
    | Constant(c: Const)
    | UnaryOp(uop: UnaryOperator, operand: Expr)
    | BoolOp(bop: BoolOperator, values: seq<Expr>)
    | Call(func: Expr, args: seq<Expr>)
    | BinOp(left: Expr, op: Operator, right: Expr)
    | Compare(left: Expr, ops: seq<CmpOp>, comparators: seq<Expr>)
    | Subscript(base: Expr, index: Expr)
    | Attribute(obj: Expr, attr: string)
    | List(elts: seq<Expr>)
    | Tuple(elts: seq<Expr>)
    | ListComp(elt: Expr, generators: seq<Comprehension>)
    | OtherExpr

  /** One `for target in iter` clause of a comprehension (its `if` filters are
      not read by the generator). */
  datatype Comprehension = Comprehension(target: Expr, iter: Expr)

  /** A positional parameter (`args.args`) with its optional annotation. */
  datatype Arg = Arg(name: string, annotation: Option<Expr>)

  datatype Stmt =
    | Assign(targets: seq<Expr>, value: Expr)
    | For(target: Expr, iter: Expr, body: seq<Stmt>, orelse: seq<Stmt>)
    | AugAssign(target: Expr, aop: Operator, value: Expr)
    | While(test: Expr, body: seq<Stmt>, orelse: seq<Stmt>)
    | Return(result: Option<Expr>)
    | ExprStmt(e: Expr)
    | If(test: Expr, body: seq<Stmt>, orelse: seq<Stmt>)
    | FunctionDef(name: string, args: seq<Arg>, body: seq<Stmt>)
    | OtherStmt

  /** Shorthands for the call shapes the translator recognises. */
  function NameCall(f: string, args: seq<Expr>): Expr {
    Call(Name(f), args)
  }
}
