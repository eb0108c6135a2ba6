/** Expression-level translation, `src/generator/expr.rs`: Python expression
    trees become Rust expression text. Every function here is pure. */
module GenExpr {
  import opened Common
  import opened Text
  import opened PyAst

  /** What an expression the translator has no rule for becomes. */
  const Unsupported := "/* unsupported expr */"

  // ---------------------------------------------------------------------------
  // Constants and operators

  /** Rust's `{}` display of an f64, forced to read as a float literal. */
  function FloatLiteral(display: string): (r: string)
    ensures StartsWith(r, display)
    ensures '.' in r || 'e' in r
    ensures r == display <==> ('.' in display || 'e' in display)
  {
    if '.' in display || 'e' in display then display else display + ".0"
  }

  /** `constant_to_rust`. */
  function ConstantToRust(c: Const): (r: string)
    ensures c.CFloat? ==> r == FloatLiteral(c.display)
    ensures c.CStr? ==> |r| >= 2 && r[0] == '"' && r[|r| - 1] == '"' && '\n' !in r
  {
    match c
    case CInt(i) => IntToString(i)
    case CFloat(d) => FloatLiteral(d)
    case CBool(b) => if b then "true" else "false"
    case CStr(s) => EscapeNoNewline(s); "\"" + EscapeDefault(s) + "\""
    case CNone => "()"
    case COther => "0"
  }

  /** Rust's arithmetic operator for a Python one; unmapped operators read as `+`. */
  function BinOpSymbol(op: Operator): string {
    match op
    case Add => "+"
    case Sub => "-"
    case Mult => "*"
    case Div => "/"
    case _ => "+"
  }

  /** Rust's comparison operator for a Python one; unmapped ones read as `<`. */
  function CmpSymbol(op: CmpOp): string {
    match op
    case Lt => "<"
    case LtE => "<="
    case Gt => ">"
    case GtE => ">="
    case Eq => "=="
    case NotEq => "!="
    case _ => "<"
  }

  // ---------------------------------------------------------------------------
  // Expressions

  /** The calls rendered as Rust idioms instead of a fallback comment. */
  predicate IsBuiltinCall(f: Expr, args: seq<Expr>) {
    f.Name? &&
    (((f.id == "range" || f.id == "len") && |args| == 1) ||
     ((f.id == "max" || f.id == "min") && |args| == 2))
  }

  /** `expr_to_rust`. */
  function ExprToRust(e: Expr): string {
    match e
    case Name(id) => id
    case Constant(c) => ConstantToRust(c)
    case UnaryOp(op, x) =>
      var s := ExprToRust(x);
      (match op
       case USub => "-(" + s + ")"
       case Not => "!" + s
       case _ => "-" + s)
    case BoolOp(op, vs) =>
      if |vs| == 0 then Unsupported
      else Join(RenderAll(vs), if op == And then " && " else " || ")
    case Call(f, args) =>
      if f.Name? && f.id == "range" && |args| == 1 then "0.." + ExprToRust(args[0])
      else if f.Name? && f.id == "len" && |args| == 1 then ExprToRust(args[0]) + ".len()"
      else if f.Name? && (f.id == "max" || f.id == "min") && |args| == 2 then
        "(" + ExprToRust(args[0]) + ")." + f.id + "(" + ExprToRust(args[1]) + ")"
      else "/* call " + ExprToRust(f) + " fallback */"
    case BinOp(l, op, r) =>
      if op == Pow then "(" + ExprToRust(l) + ").powf(" + ExprToRust(r) + ")"
      else "(" + ExprToRust(l) + " " + BinOpSymbol(op) + " " + ExprToRust(r) + ")"
    case Compare(l, ops, cs) =>
      if |ops| == 1 && |cs| == 1 then ExprToRust(l) + " " + CmpSymbol(ops[0]) + " " + ExprToRust(cs[0])
      else Unsupported
    case Subscript(b, i) => ExprToRust(b) + "[" + ExprToRust(i) + "]"
    case Attribute(o, a) => ExprToRust(o) + "." + a
    case List(es) => "vec![" + Join(RenderAll(es), ", ") + "]"
    case Tuple(es) => "(" + Join(RenderAll(es), ", ") + ")"
    case ListComp(_, _) => Unsupported
    case OtherExpr => Unsupported
  }

  /** `iter().map(expr_to_rust).collect()`: the renderings of `es`, in order. */
  function RenderAll(es: seq<Expr>): (r: seq<string>)
    ensures |r| == |es|
    ensures forall i :: 0 <= i < |es| ==> r[i] == ExprToRust(es[i])
  {
    if |es| == 0 then []
    else RenderAll(es[..|es| - 1]) + [ExprToRust(es[|es| - 1])]
  }

  /** `translate_for_iter`. */
  function TranslateForIter(iter: Expr): string {
    if iter.Call? && iter.func.Name? && iter.func.id == "range" && |iter.args| == 1 then
      "0.." + ExprToRust(iter.args[0])
    else if iter.Call? && iter.func.Name? && iter.func.id == "range" && |iter.args| == 2 then
      ExprToRust(iter.args[0]) + ".." + ExprToRust(iter.args[1])
    else ExprToRust(iter)
  }

  /** `translate_while_test`. */
  function TranslateWhileTest(test: Expr): string {
    match test
    case Name(id) => id
    case UnaryOp(op, x) => if op == Not then "!" + TranslateWhileTest(x) else ExprToRust(test)
    case Compare(l, ops, cs) =>
      if |ops| == 1 && |cs| == 1 then ExprToRust(l) + " " + CmpSymbol(ops[0]) + " " + ExprToRust(cs[0])
      else ExprToRust(test)
    case _ => ExprToRust(test)
  }

  /** The guard `translate_len_guard` wraps around a rendered condition. */
  function GuardText(cond: string): string {
    "if " + cond + " " + Braced(GuardReturn)
  }

  const GuardMessage := "Vectors must be same length"

  const GuardHead := "\n        return Err(" + "pyo3::exceptions::PyValueError" + "::new_err(\""

  const GuardTail := "\"));\n    "

  const GuardReturn := GuardHead + GuardMessage + GuardTail

  /** An `==` or `!=` test between two operands, the tests that become guards. */
  predicate IsEqualityTest(test: Expr) {
    test.Compare? && |test.ops| == 1 && |test.comparators| == 1 &&
    (test.ops[0] == Eq || test.ops[0] == NotEq)
  }

  /** `translate_len_guard`. */
  function TranslateLenGuard(test: Expr): (r: Option<string>)
    ensures r.Some? <==> IsEqualityTest(test)
  {
    if test.Compare? && |test.ops| == 1 && |test.comparators| == 1 then
      var l := ExprToRust(test.left);
      var rt := ExprToRust(test.comparators[0]);
      match test.ops[0]
      case Eq => Some(GuardText(l + " == " + rt))
      case NotEq => Some(GuardText(l + " != " + rt))
      case _ => None
    else None
  }

  // ---------------------------------------------------------------------------
  // Properties

  /** A while test renders exactly as the expression itself: the dedicated
      `not` rule produces what the generic unary rule would. */
  lemma {:induction false} WhileTestIsExpr(test: Expr)
    ensures TranslateWhileTest(test) == ExprToRust(test)
  {
    match test
    case UnaryOp(op, x) =>
      if op == Not {
        WhileTestIsExpr(x);
      }
    case _ =>
  }

  /** A for-loop iterator renders as the expression itself, except that a
      two-argument `range(a, b)` becomes the range `a..b` instead of a
      fallback comment. */
  lemma ForIterAgrees(iter: Expr)
    ensures iter.Call? && iter.func == Name("range") && |iter.args| == 2 ==>
      TranslateForIter(iter) == ExprToRust(iter.args[0]) + ".." + ExprToRust(iter.args[1]) &&
      ExprToRust(iter) == "/* call range fallback */"
    ensures !(iter.Call? && iter.func == Name("range") && |iter.args| == 2) ==>
      TranslateForIter(iter) == ExprToRust(iter)
  {
  }

  /** The condition of a length guard is the rendering of the if-test. */
  lemma LenGuardCondition(test: Expr)
    requires IsEqualityTest(test)
    ensures TranslateLenGuard(test) == Some(GuardText(ExprToRust(test)))
  {
    var l := ExprToRust(test.left);
    var r := ExprToRust(test.comparators[0]);
    assert ExprToRust(test) == l + " " + CmpSymbol(test.ops[0]) + " " + r;
    if test.ops[0] == Eq {
      assert l + " " + "==" + " " + r == l + " == " + r;
    } else {
      assert l + " " + "!=" + " " + r == l + " != " + r;
    }
  }

  /** Every guard returns the "Vectors must be same length" error. */
  lemma GuardHasMessage(cond: string)
    ensures Contains(GuardText(cond), GuardMessage)
    ensures StartsWith(GuardText(cond), "if " + cond + " ")
  {
    BracedMiddle("if " + cond + " ", GuardHead, GuardMessage, GuardTail);
  }

  /** The middle of a braced text after a prefix occurs in it. */
  lemma BracedMiddle(p: string, h: string, m: string, t: string)
    ensures Contains(p + Braced(h + m + t), m)
    ensures StartsWith(p + Braced(h + m + t), p)
  {
    var front := p + "{" + h;
    var back := t + "}";
    assert p + Braced(h + m + t) == front + m + back;
    ContainsMiddle(front, m, back);
  }

  /** A float literal is left alone by a second pass. */
  lemma FloatLiteralIdempotent(display: string)
    ensures FloatLiteral(FloatLiteral(display)) == FloatLiteral(display)
  {
  }

  /** Python's `**` never survives: a power becomes `powf`. */
  lemma PowIsPowf(l: Expr, r: Expr)
    ensures ExprToRust(BinOp(l, Pow, r)) == "(" + ExprToRust(l) + ").powf(" + ExprToRust(r) + ")"
  {
  }

  /** `escape_default` always escapes a newline. */
  lemma {:induction false} EscapeNoNewline(s: string)
    ensures '\n' !in EscapeDefault(s)
    decreases |s|
  {
    if |s| > 0 {
      EscapeNoNewline(s[1..]);
      EscapeCharNoNewline(s[0]);
      assert EscapeDefault(s) == EscapeChar(s[0]) + EscapeDefault(s[1..]);
    }
  }

  lemma EscapeCharNoNewline(c: char)
    ensures '\n' !in EscapeChar(c)
  {
    if c == '\t' || c == '\r' || c == '\n' || c == '\\' || c == '\'' || c == '"' {
    } else if 0x20 <= c as int <= 0x7e {
    } else {
      HexEscapeNoNewline(c as int);
    }
  }

  lemma HexEscapeNoNewline(n: nat)
    ensures '\n' !in "\\u{" + NatToHex(n) + "}"
  {
    var h := NatToHex(n);
    assert forall i :: 0 <= i < |h| ==> h[i] != '\n';
  }

  // ---------------------------------------------------------------------------
  // The catch-all arms

  /** An arithmetic operator without a Rust symbol renders as addition. */
  lemma UnmappedOperatorIsAdd(l: Expr, op: Operator, r: Expr)
    requires op !in {Add, Sub, Mult, Div, Pow}
    ensures ExprToRust(BinOp(l, op, r)) == ExprToRust(BinOp(l, Add, r))
  {
  }

  /** Unary `+` and `~` share the catch-all arm: both render as a minus sign
      in front of the operand, so `+x` comes out as `-x`. */
  lemma UnaryCatchAll(x: Expr)
    ensures ExprToRust(UnaryOp(UAdd, x)) == ExprToRust(UnaryOp(Invert, x))
    ensures ExprToRust(UnaryOp(UAdd, x)) == "-" + ExprToRust(x)
    ensures ExprToRust(UnaryOp(UAdd, x)) != ExprToRust(UnaryOp(USub, x))
  {
  }

  /** Identity and membership tests render as `<`. */
  lemma UnmappedComparisonIsLt(l: Expr, op: CmpOp, c: Expr)
    requires op !in {Eq, NotEq, Lt, LtE, Gt, GtE}
    ensures ExprToRust(Compare(l, [op], [c])) == ExprToRust(Compare(l, [Lt], [c]))
  {
  }

  /** A chained comparison, an empty `and`/`or` and a list comprehension
      render like any node without a rule. */
  lemma UnsupportedForms(l: Expr, ops: seq<CmpOp>, cs: seq<Expr>, op: BoolOperator, elt: Expr, gens: seq<Comprehension>)
    ensures !(|ops| == 1 && |cs| == 1) ==> ExprToRust(Compare(l, ops, cs)) == ExprToRust(OtherExpr)
    ensures ExprToRust(BoolOp(op, [])) == ExprToRust(OtherExpr)
    ensures ExprToRust(ListComp(elt, gens)) == ExprToRust(OtherExpr)
  {
  }

  /** A call without a Rust idiom renders its callee only: the arguments
      never reach the output. */
  lemma FallbackCallDropsArgs(f: Expr, args1: seq<Expr>, args2: seq<Expr>)
    requires !IsBuiltinCall(f, args1) && !IsBuiltinCall(f, args2)
    ensures ExprToRust(Call(f, args1)) == ExprToRust(Call(f, args2))
  {
  }

  // ---------------------------------------------------------------------------
  // The documented renderings

  lemma RangeAndLen()
    ensures ExprToRust(NameCall("range", [Constant(CInt(10))])) == "0..10"
    ensures ExprToRust(NameCall("len", [Name("a")])) == "a.len()"
  {
    assert NatToString(10) == NatToString(1) + [DigitChar(0)];
  }

  lemma PowOfName()
    ensures ExprToRust(BinOp(Name("x"), Pow, Constant(CInt(2)))) == "(x).powf(2)"
  {
  }
}
