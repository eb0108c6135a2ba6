/** Expression renderings are inert for the `#[pyfunction]` block scanner
    (`parse_existing_functions` in `src/generator/mod.rs`): when the names,
    attributes, float displays and strings of an expression are free of braces,
    `#` and carriage returns, its Rust text has balanced braces and contains
    neither `#` nor a carriage return. */
module ExprInert {
  import opened Common
  import opened Text
  import opened PyAst
  import opened GenExpr

  /** A string constant that `escape_default` keeps free of braces and `#`
      (it passes both through unchanged). */
  predicate SafeString(s: string) {
    '{' !in s && '}' !in s && '#' !in s
  }

  predicate PlainConst(c: Const) {
    match c
    case CFloat(d) => Plain(d)
    case CStr(s) => SafeString(s)
    case _ => true
  }

  /** Every identifier, attribute, float display and string in `e` is inert. */
  predicate PlainExpr(e: Expr) {
    match e
    case Name(id) => Plain(id)
    case Constant(c) => PlainConst(c)
    case UnaryOp(_, x) => PlainExpr(x)
    case BoolOp(_, vs) => forall i :: 0 <= i < |vs| ==> PlainExpr(vs[i])
    case Call(f, args) => PlainExpr(f) && forall i :: 0 <= i < |args| ==> PlainExpr(args[i])
    case BinOp(l, _, r) => PlainExpr(l) && PlainExpr(r)
    case Compare(l, _, cs) => PlainExpr(l) && forall i :: 0 <= i < |cs| ==> PlainExpr(cs[i])
    case Subscript(b, i) => PlainExpr(b) && PlainExpr(i)
    case Attribute(o, a) => PlainExpr(o) && Plain(a)
    case List(es) => forall i :: 0 <= i < |es| ==> PlainExpr(es[i])
    case Tuple(es) => forall i :: 0 <= i < |es| ==> PlainExpr(es[i])
    case ListComp(elt, gens) =>
      PlainExpr(elt) &&
      forall i :: 0 <= i < |gens| ==> PlainExpr(gens[i].target) && PlainExpr(gens[i].iter)
    case OtherExpr => true
  }

  // ---------------------------------------------------------------------------
  // Templates over safe parts

  /** `a x b` is safe when `x` is and the plain texts `a`, `b` are. */
  lemma Around(a: string, x: string, b: string)
    requires Plain(a) && Safe(x) && Plain(b)
    ensures Safe(a + x + b)
  {
    PlainIsSafe(a);
    PlainIsSafe(b);
    SafeConcat3(a, x, b);
  }

  lemma UnaryText(s: string)
    requires Safe(s)
    ensures Safe("-(" + s + ")") && Safe("!" + s) && Safe("-" + s)
  {
    Around("-(", s, ")");
    PlainIsSafe("!");
    PlainIsSafe("-");
    SafeConcat("!", s);
    SafeConcat("-", s);
  }

  lemma RangeText(s: string)
    requires Safe(s)
    ensures Safe("0.." + s) && Safe(s + ".len()")
  {
    PlainIsSafe("0..");
    PlainIsSafe(".len()");
    SafeConcat("0..", s);
    SafeConcat(s, ".len()");
  }

  lemma FallbackText(s: string)
    requires Safe(s)
    ensures Safe("/* call " + s + " fallback */")
  {
    PlainChars("/* call ");
    PlainChars(" fallback */");
    Around("/* call ", s, " fallback */");
  }

  lemma MethodText(a: string, name: string, b: string)
    requires Safe(a) && Plain(name) && Safe(b)
    ensures Safe("(" + a + ")." + name + "(" + b + ")")
  {
    PlainIsSafe("(");
    PlainIsSafe(").");
    PlainIsSafe(name);
    PlainIsSafe(")");
    var s1 := "(" + a;
    SafeConcat("(", a);
    SafeConcat(s1, ").");
    SafeConcat(s1 + ").", name);
    SafeConcat(s1 + ")." + name, "(");
    SafeConcat(s1 + ")." + name + "(", b);
    SafeConcat(s1 + ")." + name + "(" + b, ")");
  }

  lemma InfixText(a: string, mid: string, b: string)
    requires Safe(a) && Plain(mid) && Safe(b)
    ensures Safe(a + mid + b)
  {
    PlainIsSafe(mid);
    SafeConcat3(a, mid, b);
  }

  lemma ParenText(a: string, mid: string, b: string)
    requires Safe(a) && Plain(mid) && Safe(b)
    ensures Safe("(" + a + mid + b + ")")
  {
    PlainIsSafe("(");
    PlainIsSafe(mid);
    PlainIsSafe(")");
    SafeConcat("(", a);
    SafeConcat("(" + a, mid);
    SafeConcat("(" + a + mid, b);
    SafeConcat("(" + a + mid + b, ")");
  }

  lemma IndexText(a: string, b: string)
    requires Safe(a) && Safe(b)
    ensures Safe(a + "[" + b + "]")
  {
    InfixText(a, "[", b);
    PlainIsSafe("]");
    SafeConcat(a + "[" + b, "]");
  }

  lemma VecText(j: string)
    requires Safe(j)
    ensures Safe("vec![" + j + "]")
  {
    PlainChars("vec![");
    Around("vec![", j, "]");
  }

  lemma RangeDotsPlain()
    ensures Plain("..")
  {
  }

  lemma ConnectivesPlain()
    ensures Plain(" && ") && Plain(" || ")
  {
  }

  lemma UnsupportedSafe()
    ensures Safe(Unsupported)
  {
    PlainChars(Unsupported);
    PlainIsSafe(Unsupported);
  }

  // ---------------------------------------------------------------------------
  // Constants

  lemma DigitsPlain(r: string)
    requires forall i :: 0 <= i < |r| ==> '0' <= r[i] <= '9'
    ensures Plain(r)
  {
  }

  lemma HexPlain(r: string)
    requires forall i :: 0 <= i < |r| ==> r[i] in "0123456789abcdef"
    ensures Plain(r)
  {
    assert forall i :: 0 <= i < |r| ==> r[i] != '{' && r[i] != '}' && r[i] != '#' && r[i] != '\r';
  }

  lemma UnicodeEscapeSafe(h: string)
    requires Plain(h)
    ensures Safe("\\u{" + h + "}")
  {
    PlainIsSafe(h);
    SafeBraced(h);
    PlainIsSafe("\\u");
    SafeConcat("\\u", Braced(h));
    assert "\\u" + Braced(h) == "\\u{" + h + "}";
  }

  lemma EscapeCharSafe(c: char)
    requires c != '{' && c != '}' && c != '#'
    ensures Safe(EscapeChar(c))
  {
    if c == '\t' || c == '\r' || c == '\n' || c == '\\' || c == '\'' || c == '"' {
      assert Plain(EscapeChar(c));
      PlainIsSafe(EscapeChar(c));
    } else if 0x20 <= c as int <= 0x7e {
      assert EscapeChar(c) == [c];
      PlainIsSafe([c]);
    } else {
      var h := NatToHex(c as int);
      assert EscapeChar(c) == "\\u{" + h + "}";
      HexPlain(h);
      UnicodeEscapeSafe(h);
    }
  }

  lemma {:induction false} EscapeSafe(s: string)
    requires SafeString(s)
    ensures Safe(EscapeDefault(s))
    decreases |s|
  {
    if |s| == 0 {
      PlainIsSafe("");
    } else {
      assert s[0] in s;
      assert forall c :: c in s[1..] ==> c in s;
      EscapeCharSafe(s[0]);
      EscapeSafe(s[1..]);
      SafeConcat(EscapeChar(s[0]), EscapeDefault(s[1..]));
    }
  }

  lemma ConstantSafe(c: Const)
    requires PlainConst(c)
    ensures Safe(ConstantToRust(c))
  {
    match c
    case CInt(i) =>
      var d := NatToString(if i < 0 then -i else i);
      DigitsPlain(d);
      PlainIsSafe(ConstantToRust(c));
    case CStr(s) =>
      EscapeSafe(s);
      Around("\"", EscapeDefault(s), "\"");
    case _ =>
      PlainIsSafe(ConstantToRust(c));
  }

  // ---------------------------------------------------------------------------
  // Expressions, constructor by constructor

  // The renderings of the compound expressions, one equation each; stating
  // them apart keeps the unfolding of `ExprToRust` out of the proofs below.

  lemma UnaryShape(op: UnaryOperator, x: Expr)
    ensures op == USub ==> ExprToRust(UnaryOp(op, x)) == "-(" + ExprToRust(x) + ")"
    ensures op == Not ==> ExprToRust(UnaryOp(op, x)) == "!" + ExprToRust(x)
    ensures op != USub && op != Not ==> ExprToRust(UnaryOp(op, x)) == "-" + ExprToRust(x)
  {
  }

  lemma BoolOpShape(op: BoolOperator, vs: seq<Expr>)
    ensures |vs| == 0 ==> ExprToRust(BoolOp(op, vs)) == Unsupported
    ensures |vs| > 0 && op == And ==> ExprToRust(BoolOp(op, vs)) == Join(RenderAll(vs), " && ")
    ensures |vs| > 0 && op == Or ==> ExprToRust(BoolOp(op, vs)) == Join(RenderAll(vs), " || ")
  {
  }

  lemma CallShape(f: Expr, args: seq<Expr>)
    ensures f.Name? && f.id == "range" && |args| == 1 ==>
      ExprToRust(Call(f, args)) == "0.." + ExprToRust(args[0])
    ensures f.Name? && f.id == "len" && |args| == 1 ==>
      ExprToRust(Call(f, args)) == ExprToRust(args[0]) + ".len()"
    ensures f.Name? && (f.id == "max" || f.id == "min") && |args| == 2 ==>
      ExprToRust(Call(f, args)) == "(" + ExprToRust(args[0]) + ")." + f.id + "(" + ExprToRust(args[1]) + ")"
    ensures !IsBuiltinCall(f, args) ==>
      ExprToRust(Call(f, args)) == "/* call " + ExprToRust(f) + " fallback */"
  {
  }

  lemma BinOpShape(l: Expr, op: Operator, r: Expr)
    ensures op == Pow ==>
      ExprToRust(BinOp(l, op, r)) == "(" + ExprToRust(l) + ")." + "powf" + "(" + ExprToRust(r) + ")"
    ensures op != Pow ==>
      ExprToRust(BinOp(l, op, r)) == "(" + ExprToRust(l) + (" " + BinOpSymbol(op) + " ") + ExprToRust(r) + ")"
  {
  }

  lemma CompareShape(l: Expr, ops: seq<CmpOp>, cs: seq<Expr>)
    ensures |ops| == 1 && |cs| == 1 ==>
      ExprToRust(Compare(l, ops, cs)) == ExprToRust(l) + (" " + CmpSymbol(ops[0]) + " ") + ExprToRust(cs[0])
    ensures !(|ops| == 1 && |cs| == 1) ==> ExprToRust(Compare(l, ops, cs)) == Unsupported
  {
  }

  lemma OtherShape(e: Expr)
    ensures e.Subscript? ==> ExprToRust(e) == ExprToRust(e.base) + "[" + ExprToRust(e.index) + "]"
    ensures e.Attribute? ==> ExprToRust(e) == ExprToRust(e.obj) + "." + e.attr
    ensures e.List? ==> ExprToRust(e) == "vec![" + Join(RenderAll(e.elts), ", ") + "]"
    ensures e.Tuple? ==> ExprToRust(e) == "(" + Join(RenderAll(e.elts), ", ") + ")"
    ensures e.ListComp? || e.OtherExpr? ==> ExprToRust(e) == Unsupported
  {
  }

  lemma UnarySafe(op: UnaryOperator, x: Expr)
    requires Safe(ExprToRust(x))
    ensures Safe(ExprToRust(UnaryOp(op, x)))
  {
    UnaryShape(op, x);
    UnaryText(ExprToRust(x));
  }

  lemma JoinedSafe(es: seq<Expr>, sep: string)
    requires Plain(sep)
    requires forall i :: 0 <= i < |es| ==> Safe(ExprToRust(es[i]))
    ensures Safe(Join(RenderAll(es), sep))
  {
    PlainIsSafe(sep);
    SafeJoin(RenderAll(es), sep);
  }

  lemma BoolOpSafe(op: BoolOperator, vs: seq<Expr>)
    requires forall i :: 0 <= i < |vs| ==> Safe(ExprToRust(vs[i]))
    ensures Safe(ExprToRust(BoolOp(op, vs)))
  {
    BoolOpShape(op, vs);
    ConnectivesPlain();
    if |vs| == 0 {
      UnsupportedSafe();
    } else if op == And {
      JoinedSafe(vs, " && ");
    } else {
      JoinedSafe(vs, " || ");
    }
  }

  lemma CallSafe(f: Expr, args: seq<Expr>)
    requires Safe(ExprToRust(f))
    requires forall i :: 0 <= i < |args| ==> Safe(ExprToRust(args[i]))
    requires f.Name? ==> Plain(f.id)
    ensures Safe(ExprToRust(Call(f, args)))
  {
    CallShape(f, args);
    if f.Name? && (f.id == "range" || f.id == "len") && |args| == 1 {
      RangeText(ExprToRust(args[0]));
    } else if f.Name? && (f.id == "max" || f.id == "min") && |args| == 2 {
      MethodText(ExprToRust(args[0]), f.id, ExprToRust(args[1]));
    } else {
      FallbackText(ExprToRust(f));
    }
  }

  /** The operator symbols, padded with spaces, are inert. */
  lemma OperatorPlain(op: Operator)
    ensures Plain(" " + BinOpSymbol(op) + " ")
  {
    var sym := BinOpSymbol(op);
    assert sym == "+" || sym == "-" || sym == "*" || sym == "/";
    assert Plain(sym) && Plain(" ");
  }

  lemma ComparisonPlain(op: CmpOp)
    ensures Plain(" " + CmpSymbol(op) + " ")
  {
    var sym := CmpSymbol(op);
    assert sym == "<" || sym == "<=" || sym == ">" || sym == ">=" || sym == "==" || sym == "!=";
    assert Plain(sym) && Plain(" ");
  }

  lemma PowfPlain()
    ensures Plain("powf")
  {
    PlainChars("powf");
  }

  lemma BinOpSafe(l: Expr, op: Operator, r: Expr)
    requires Safe(ExprToRust(l)) && Safe(ExprToRust(r))
    ensures Safe(ExprToRust(BinOp(l, op, r)))
  {
    var a, b := ExprToRust(l), ExprToRust(r);
    BinOpShape(l, op, r);
    if op == Pow {
      PowfPlain();
      MethodText(a, "powf", b);
    } else {
      OperatorPlain(op);
      ParenText(a, " " + BinOpSymbol(op) + " ", b);
    }
  }

  lemma CompareSafe(l: Expr, ops: seq<CmpOp>, cs: seq<Expr>)
    requires Safe(ExprToRust(l))
    requires forall i :: 0 <= i < |cs| ==> Safe(ExprToRust(cs[i]))
    ensures Safe(ExprToRust(Compare(l, ops, cs)))
  {
    CompareShape(l, ops, cs);
    if |ops| == 1 && |cs| == 1 {
      ComparisonPlain(ops[0]);
      InfixText(ExprToRust(l), " " + CmpSymbol(ops[0]) + " ", ExprToRust(cs[0]));
    } else {
      UnsupportedSafe();
    }
  }

  lemma SubscriptSafe(b: Expr, i: Expr)
    requires Safe(ExprToRust(b)) && Safe(ExprToRust(i))
    ensures Safe(ExprToRust(Subscript(b, i)))
  {
    OtherShape(Subscript(b, i));
    IndexText(ExprToRust(b), ExprToRust(i));
  }

  lemma AttributeSafe(o: Expr, a: string)
    requires Safe(ExprToRust(o)) && Plain(a)
    ensures Safe(ExprToRust(Attribute(o, a)))
  {
    OtherShape(Attribute(o, a));
    PlainIsSafe(a);
    InfixText(ExprToRust(o), ".", a);
  }

  lemma ListSafe(es: seq<Expr>)
    requires forall i :: 0 <= i < |es| ==> Safe(ExprToRust(es[i]))
    ensures Safe(ExprToRust(List(es)))
  {
    OtherShape(List(es));
    JoinedSafe(es, ", ");
    VecText(Join(RenderAll(es), ", "));
  }

  lemma TupleSafe(es: seq<Expr>)
    requires forall i :: 0 <= i < |es| ==> Safe(ExprToRust(es[i]))
    ensures Safe(ExprToRust(Tuple(es)))
  {
    OtherShape(Tuple(es));
    JoinedSafe(es, ", ");
    Around("(", Join(RenderAll(es), ", "), ")");
  }

  /** Inert leaves give an inert rendering: braces balance, and no `#` or
      carriage return appears. */
  lemma {:induction false} ExprSafe(e: Expr)
    requires PlainExpr(e)
    ensures Safe(ExprToRust(e))
    decreases e, 1
  {
    match e
    case Name(id) => PlainIsSafe(id);
    case Constant(c) => ConstantSafe(c);
    case UnaryOp(op, x) =>
      ExprSafe(x);
      UnarySafe(op, x);
    case BoolOp(op, vs) =>
      AllSafe(vs);
      BoolOpSafe(op, vs);
    case Call(f, args) =>
      ExprSafe(f);
      AllSafe(args);
      CallSafe(f, args);
    case BinOp(l, op, r) =>
      ExprSafe(l);
      ExprSafe(r);
      BinOpSafe(l, op, r);
    case Compare(l, ops, cs) =>
      ExprSafe(l);
      AllSafe(cs);
      CompareSafe(l, ops, cs);
    case Subscript(b, i) =>
      ExprSafe(b);
      ExprSafe(i);
      SubscriptSafe(b, i);
    case Attribute(o, a) =>
      ExprSafe(o);
      AttributeSafe(o, a);
    case List(es) =>
      AllSafe(es);
      ListSafe(es);
    case Tuple(es) =>
      AllSafe(es);
      TupleSafe(es);
    case ListComp(_, _) =>
      OtherShape(e);
      UnsupportedSafe();
    case OtherExpr =>
      OtherShape(e);
      UnsupportedSafe();
  }

  lemma {:induction false} AllSafe(es: seq<Expr>)
    requires forall i :: 0 <= i < |es| ==> PlainExpr(es[i])
    ensures forall i :: 0 <= i < |es| ==> Safe(ExprToRust(es[i]))
    decreases es, 0
  {
    forall i | 0 <= i < |es|
      ensures Safe(ExprToRust(es[i]))
    {
      ExprSafe(es[i]);
    }
  }

  /** For-loop iterators and while tests are expression renderings too. */
  lemma ForIterSafe(iter: Expr)
    requires PlainExpr(iter)
    ensures Safe(TranslateForIter(iter))
  {
    ForIterAgrees(iter);
    if iter.Call? && iter.func == Name("range") && |iter.args| == 2 {
      AllSafe(iter.args);
      RangeDotsPlain();
      InfixText(ExprToRust(iter.args[0]), "..", ExprToRust(iter.args[1]));
    } else {
      ExprSafe(iter);
    }
  }

  lemma WhileTestSafe(test: Expr)
    requires PlainExpr(test)
    ensures Safe(TranslateWhileTest(test))
  {
    WhileTestIsExpr(test);
    ExprSafe(test);
  }

  // ---------------------------------------------------------------------------
  // Length guards

  lemma GuardHeadPlain()
    ensures Plain(GuardHead)
  {
    PlainChars("\n        return Err(");
    PlainChars("pyo3::exceptions::PyValueError");
    PlainChars("::new_err(\"");
  }

  lemma GuardReturnPlain()
    ensures Plain(GuardReturn)
  {
    GuardHeadPlain();
    PlainChars(GuardMessage);
    PlainChars(GuardTail);
  }

  lemma GuardTextSafe(cond: string, ret: string)
    requires Safe(cond) && Plain(ret)
    ensures Safe("if " + cond + " " + Braced(ret))
  {
    PlainIsSafe(ret);
    SafeBraced(ret);
    Around("if ", cond, " ");
    SafeConcat("if " + cond + " ", Braced(ret));
  }

  /** Inert tests keep a length guard inert. */
  lemma LenGuardSafe(test: Expr)
    requires PlainExpr(test) && IsEqualityTest(test)
    ensures Safe(TranslateLenGuard(test).value)
  {
    LenGuardCondition(test);
    ExprSafe(test);
    GuardReturnPlain();
    GuardTextSafe(ExprToRust(test), GuardReturn);
  }
}
