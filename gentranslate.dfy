/** Statement and body translation, `src/generator/translate.rs`: a Python
    function body becomes the text of a Rust function body, with a flag saying
    whether some statement had no translation rule. */
module GenTranslate {
  import opened Common
  import opened Text
  import opened PyAst
  import opened GenExpr
  import opened GenInfer
  import opened Target

  datatype BodyTranslation = BodyTranslation(returnType: string, body: string, fallback: bool)

  datatype Translation = Translation(params: seq<Param>, returnType: string, body: string, fallback: bool)

  /** `"    ".repeat(depth)`. */
  function Indent(depth: nat): string {
    Repeat("    ", depth)
  }

  // ---------------------------------------------------------------------------
  // Fixed texts

  const UnhandledNote := "// Unhandled stmt\n"
  const OkTotal := "    Ok(total)"
  const LoopBodyNote := "    // unhandled loop body"
  const WhileBodyNote := "    // unhandled while body"
  const IfBodyNote := "// unhandled if body"
  const ElseBodyNote := "// unhandled else body"
  const DocstringNote := "// docstring omitted"
  const EchoBody := "// fallback: echo input\n" + "    Ok(data)"
  const TodoHead := "// TODO: translate loop body\n" + "        total += ("
  const TotalInit := "let mut total = 0.0f64;\n    for "
  const ConstantNote := "// returning constant " + "from Python: "

  // ---------------------------------------------------------------------------
  // Templates

  /** A Rust block `{` newline `inner` newline indentation `}`. */
  function Block(inner: string, depth: nat): string {
    Braced("\n" + inner + "\n" + Indent(depth))
  }

  /** `for`/`while` heads followed by their block. */
  function LoopText(head: string, loopBody: string, depth: nat): string {
    head + " " + Block(loopBody, depth)
  }

  /** The `else` part of an `if`: present only for a non-empty else text. */
  function ElseBlock(orelse: string, depth: nat): string {
    if orelse == "" then "" else " else " + Block(orelse, depth)
  }

  /** The loop body put in place of an untranslatable top-level range loop body. */
  function DefaultLoopBody(loopVar: string): string {
    TodoHead + loopVar + " as f64) * (" + loopVar + " as f64);"
  }

  /** The top-level `for v in range(n)` fast path: a sum into `total`. */
  function RangeLoopText(loopVar: string, iter: string, loopBody: string): string {
    TotalInit + loopVar + " in 0.." + iter + " " + Braced("\n        " + loopBody + "\n    ") + "\n    Ok(total)"
  }

  /** The name an initialising assignment declares. */
  function AssignedName(target: Expr): string {
    if target.Name? then target.id else "result"
  }

  /** A fill value that reads as a float gets an `f64` suffix. */
  function FillText(fill: string): string {
    if '.' in fill then fill + "f64" else fill
  }

  function ListInitText(name: string, fill: string, size: string): string {
    "let mut " + name + " = vec![" + FillText(fill) + "; " + size + "];"
  }

  function ListCompText(name: string, iter: string, loopVar: string, elt: string): string {
    "let " + name + ": Vec<f64> = " + iter + ".iter().map(|" + loopVar + "| " + elt + ").collect();"
  }

  /** The left-hand side of a plain assignment. */
  function AssignLhs(target: Expr, value: Expr): string {
    match target
    case Name(id) => "let mut " + id + AssignType(value)
    case Attribute(_, _) => "// attribute assign " + ExprToRust(target)
    case _ => "// complex assign " + ExprToRust(target)
  }

  predicate IsListInit(value: Expr) {
    value.BinOp? && value.op == Mult && value.left.List? && |value.left.elts| == 1
  }

  predicate IsSingleListComp(value: Expr) {
    value.ListComp? && |value.generators| == 1
  }

  /** The `Assign` arm of `translate_stmt_inner`, given the first target. */
  function AssignText(target: Expr, value: Expr): string {
    if target.Subscript? then
      ExprToRust(target.base) + "[" + ExprToRust(target.index) + "]" + " = " + ExprToRust(value) + ";"
    else if IsListInit(value) then
      ListInitText(AssignedName(target), ExprToRust(value.left.elts[0]), ExprToRust(value.right))
    else if IsSingleListComp(value) then
      ListCompText(AssignedName(target), ExprToRust(value.generators[0].iter),
                   ExprToRust(value.generators[0].target), ExprToRust(value.elt))
    else AssignLhs(target, value) + " = " + ExprToRust(value) + ";"
  }

  function AugSymbol(op: Operator): string {
    match op
    case Add => "+="
    case Sub => "-="
    case Mult => "*="
    case Div => "/="
    case _ => "+="
  }

  /** The statements `translate_stmt_inner` has no rule for. */
  predicate Untranslatable(s: Stmt) {
    (s.Assign? && |s.targets| == 0) || s.FunctionDef? || s.OtherStmt?
  }

  /** The top-level fast path's trigger: `for v in range(n)` with one argument. */
  predicate IsRangeLoop(s: Stmt) {
    s.For? && s.iter.Call? && s.iter.func.Name? && s.iter.func.id == "range" && |s.iter.args| == 1
  }

  function LoopVar(target: Expr): string {
    if target.Name? then target.id else "i"
  }

  predicate EndsWithNewline(line: string) {
    |line| > 0 && line[|line| - 1] == '\n'
  }

  /** What the statement loop appends for one translated (or untranslated) statement. */
  function Chunk(line: Option<string>, depth: nat): string {
    match line
    case Some(l) => Indent(depth) + l + (if EndsWithNewline(l) then "" else "\n")
    case None => Indent(depth) + UnhandledNote
  }

  /** The state of the statement loop: the text so far and `had_unhandled`. */
  datatype LoopState = LoopState(out: string, hadUnhandled: bool)

  // ---------------------------------------------------------------------------
  // The translation, as functions

  /** `translate_stmt_inner`. */
  function StmtInner(s: Stmt, depth: nat): (r: Option<string>)
    ensures r.None? <==> Untranslatable(s)
    decreases s, 0
  {
    match s
    case Assign(targets, value) =>
      if |targets| == 0 then None else Some(AssignText(targets[0], value))
    case For(target, iter, body, _) =>
      var inner := BodyInner(body, depth + 1);
      var loopBody := if inner.Some? then inner.value.body else LoopBodyNote;
      Some(LoopText("for " + ExprToRust(target) + " in " + TranslateForIter(iter), loopBody, depth))
    case AugAssign(target, op, value) =>
      Some(ExprToRust(target) + " " + AugSymbol(op) + " " + ExprToRust(value) + ";")
    case While(test, body, _) =>
      var inner := BodyInner(body, depth + 1);
      var loopBody := if inner.Some? then inner.value.body else Indent(depth) + WhileBodyNote;
      Some(LoopText("while " + TranslateWhileTest(test), loopBody, depth))
    case Return(result) =>
      Some(if result.Some? then "return " + ExprToRust(result.value) + ";" else "return ();")
    case ExprStmt(e) =>
      Some(if e.Constant? && e.c.CStr? then DocstringNote else "// expr: " + ExprToRust(e))
    case If(test, body, orelse) =>
      var guard := TranslateLenGuard(test);
      if guard.Some? then guard
      else
        var inner := BodyInner(body, depth + 1);
        var thenText := if inner.Some? then inner.value.body else IfBodyNote;
        var elseInner := BodyInner(orelse, depth + 1);
        var elseText := if |orelse| == 0 then "" else if elseInner.Some? then elseInner.value.body else ElseBodyNote;
        Some("if " + ExprToRust(test) + " " + Block(thenText, depth) + ElseBlock(elseText, depth))
    case FunctionDef(_, _, _) => None
    case OtherStmt => None
  }

  /** The translation of each statement, in order. */
  function StmtLines(stmts: seq<Stmt>, depth: nat): (r: seq<Option<string>>)
    ensures |r| == |stmts|
    decreases stmts, 1
  {
    seq(|stmts|, i requires 0 <= i < |stmts| => StmtInner(stmts[i], depth))
  }

  /** `translate_body_inner`. */
  function BodyInner(body: seq<Stmt>, depth: nat): (r: Option<BodyTranslation>)
    ensures r.None? <==> |body| == 0
    ensures r.Some? ==> r.value.returnType == FloatType
    decreases body, 2
  {
    if |body| == 0 then None
    else if depth == 1 && IsRangeLoop(body[0]) then
      var f := body[0];
      var loopVar := LoopVar(f.target);
      var inner := BodyInner(f.body, depth + 1);
      var loopBody := if inner.Some? then inner.value.body else DefaultLoopBody(loopVar);
      Some(BodyTranslation(FloatType, RangeLoopText(loopVar, ExprToRust(f.iter.args[0]), loopBody), false))
    else
      var st := GenericLoop(StmtLines(body, depth), depth);
      Some(BodyTranslation(FloatType, st.out + (if depth == 1 then OkTotal else ""), st.hadUnhandled))
  }

  /** The generic statement loop of `translate_body_inner`, over the
      statements' translations. */
  function GenericLoop(lines: seq<Option<string>>, depth: nat): LoopState {
    if |lines| == 0 then LoopState("", false)
    else
      var st := GenericLoop(lines[..|lines| - 1], depth);
      var line := lines[|lines| - 1];
      LoopState(st.out + Chunk(line, depth), st.hadUnhandled || line.None?)
  }

  // ---------------------------------------------------------------------------
  // The statement loop, as the source runs it

  /** `translate_body_inner`, with its loop over the statements. */
  method TranslateBodyInner(body: seq<Stmt>, depth: nat) returns (r: Option<BodyTranslation>)
    ensures r == BodyInner(body, depth)
    decreases body
  {
    if |body| == 0 {
      return None;
    }
    if depth == 1 && IsRangeLoop(body[0]) {
      var f := body[0];
      var iterExpr := ExprToRust(f.iter.args[0]);
      var loopVar := LoopVar(f.target);
      var inner := TranslateBodyInner(f.body, depth + 1);
      var loopBody := if inner.Some? then inner.value.body else DefaultLoopBody(loopVar);
      return Some(BodyTranslation(FloatType, RangeLoopText(loopVar, iterExpr, loopBody), false));
    }
    var out, hadUnhandled := TranslateStatements(body, depth);
    if depth == 1 {
      out := out + OkTotal;
    } else {
      assert out + "" == out;
    }
    r := Some(BodyTranslation(FloatType, out, hadUnhandled));
  }

  /** The generic loop of `translate_body_inner`: each statement's line,
      indented and newline-terminated, and whether any had no rule. */
  method TranslateStatements(body: seq<Stmt>, depth: nat) returns (out: string, hadUnhandled: bool)
    ensures LoopState(out, hadUnhandled) == GenericLoop(StmtLines(body, depth), depth)
  {
    ghost var lines := StmtLines(body, depth);
    var indent := Repeat("    ", depth);
    out := "";
    hadUnhandled := false;
    var i := 0;
    while i < |body|
      invariant 0 <= i <= |body|
      invariant LoopState(out, hadUnhandled) == GenericLoop(lines[..i], depth)
    {
      var line := StmtInner(body[i], depth);
      assert line == lines[i];
      LoopStep(lines, depth, i);
      out, hadUnhandled := PushLine(out, hadUnhandled, line, indent, depth);
      i := i + 1;
    }
    assert lines[..i] == lines;
  }

  /** One turn of the statement loop: the line, indented and terminated, or
      the unhandled note, and the flag raised for the latter. */
  method PushLine(out: string, hadUnhandled: bool, line: Option<string>, indent: string, ghost depth: nat)
    returns (out': string, hadUnhandled': bool)
    requires indent == Indent(depth)
    ensures LoopState(out', hadUnhandled') == LoopState(out + Chunk(line, depth), hadUnhandled || line.None?)
  {
    match line {
      case Some(l) =>
        ChunkOfLine(l, depth);
        out' := out + indent + l;
        hadUnhandled' := hadUnhandled;
        if !EndsWithNewline(l) {
          out' := out' + "\n";
          AppendAssoc4(out, indent, l, "\n");
        } else {
          AppendAssoc3(out, indent, l);
        }
      case None =>
        hadUnhandled' := true;
        out' := out + indent + UnhandledNote;
        AppendAssoc3(out, indent, UnhandledNote);
    }
  }

  /** The loop over a prefix one line longer adds that line's chunk. */
  lemma LoopStep(lines: seq<Option<string>>, depth: nat, i: nat)
    requires i < |lines|
    ensures GenericLoop(lines[..i + 1], depth)
      == LoopState(GenericLoop(lines[..i], depth).out + Chunk(lines[i], depth),
                   GenericLoop(lines[..i], depth).hadUnhandled || lines[i].None?)
  {
    assert lines[..i + 1][..i] == lines[..i];
  }

  lemma ChunkOfLine(l: string, depth: nat)
    ensures EndsWithNewline(l) ==> Chunk(Some(l), depth) == Indent(depth) + l
    ensures !EndsWithNewline(l) ==> Chunk(Some(l), depth) == Indent(depth) + l + "\n"
  {
  }

  // ---------------------------------------------------------------------------
  // The entry point

  /** The first definition of a function named `name` in the module (`find_map`). */
  function FindFunction(suite: seq<Stmt>, name: string): (r: Option<Stmt>)
    ensures r.None? <==> forall i :: 0 <= i < |suite| ==> !(suite[i].FunctionDef? && suite[i].name == name)
    ensures r.Some? ==> r.value.FunctionDef? && r.value.name == name
    ensures r.Some? ==> exists i :: 0 <= i < |suite| && suite[i] == r.value &&
                                   forall j :: 0 <= j < i ==> !(suite[j].FunctionDef? && suite[j].name == name)
    decreases |suite|
  {
    if |suite| == 0 then None
    else if suite[0].FunctionDef? && suite[0].name == name then Some(suite[0])
    else
      var rest := FindFunction(suite[1..], name);
      assert forall i :: 1 <= i < |suite| ==> suite[i] == suite[1..][i - 1];
      if rest.Some? then
        ghost var k :| 0 <= k < |suite[1..]| && suite[1..][k] == rest.value &&
          forall j :: 0 <= j < k ==> !(suite[1..][j].FunctionDef? && suite[1..][j].name == name);
        assert suite[k + 1] == rest.value;
        assert forall j :: 1 <= j < k + 1 ==> suite[j] == suite[1..][j - 1];
        rest
      else rest
  }

  /** The first statement is `return <name>`. */
  predicate ReturnsName(body: seq<Stmt>) {
    |body| > 0 && body[0].Return? && body[0].result.Some? && body[0].result.value.Name?
  }

  /** The first statement is `return <constant>`. */
  predicate ReturnsConstant(body: seq<Stmt>) {
    |body| > 0 && body[0].Return? && body[0].result.Some? && body[0].result.value.Constant?
  }

  const DefaultParams: seq<Param> := [("data", VecType)]

  function NameReturnBody(id: string): string {
    "// returning input name `" + id + "` as-is\n    Ok(" + id + ")"
  }

  function ConstantReturnBody(debug: string, value: string): string {
    ConstantNote + debug + "\n    Ok(" + value + ")"
  }

  /** `translate_function_body`; `constDebug` is the `{:?}` formatting of a constant. */
  function TranslateFunctionBody(target: TargetSpec, suite: seq<Stmt>, constDebug: Const -> string): (r: Option<Translation>)
    ensures r.None? <==> forall i :: 0 <= i < |suite| ==> !(suite[i].FunctionDef? && suite[i].name == target.func)
  {
    var def := FindFunction(suite, target.func);
    if def.None? then None
    else
      var inferred := InferParams(def.value.args);
      var params := if |inferred| == 0 then DefaultParams else inferred;
      var body := def.value.body;
      if ReturnsName(body) then
        Some(Translation(params, VecType, NameReturnBody(body[0].result.value.id), false))
      else if ReturnsConstant(body) then
        var e := body[0].result.value;
        Some(Translation(params, FloatType, ConstantReturnBody(constDebug(e.c), ExprToRust(e)), false))
      else
        match BodyInner(body, 1)
        case Some(t) => Some(Translation(params, t.returnType, t.body, t.fallback))
        case None => Some(Translation(params, VecType, EchoBody, true))
  }

  /** `translate_function_body` as the source runs it: the default parameter
      is pushed onto the inferred list, and the generic body goes through the
      statement loop. */
  method TranslateFunction(target: TargetSpec, suite: seq<Stmt>, constDebug: Const -> string) returns (r: Option<Translation>)
    ensures r == TranslateFunctionBody(target, suite, constDebug)
  {
    var def := FindFunction(suite, target.func);
    if def.None? {
      return None;
    }
    var params := InferParams(def.value.args);
    if |params| == 0 {
      params := params + [("data", VecType)];
      assert params == DefaultParams;
    }
    var body := def.value.body;
    if ReturnsName(body) {
      return Some(Translation(params, VecType, NameReturnBody(body[0].result.value.id), false));
    }
    if ReturnsConstant(body) {
      var e := body[0].result.value;
      return Some(Translation(params, FloatType, ConstantReturnBody(constDebug(e.c), ExprToRust(e)), false));
    }
    var translated := TranslateBodyInner(body, 1);
    if translated.Some? {
      var t := translated.value;
      return Some(Translation(params, t.returnType, t.body, t.fallback));
    }
    return Some(Translation(params, VecType, EchoBody, true));
  }

  // ---------------------------------------------------------------------------
  // Properties of the statement loop

  predicate SomeUntranslatable(stmts: seq<Stmt>) {
    exists i :: 0 <= i < |stmts| && Untranslatable(stmts[i])
  }

  /** The loop flags a fallback exactly when some line is missing. */
  lemma {:induction false} UnhandledIff(lines: seq<Option<string>>, depth: nat)
    ensures GenericLoop(lines, depth).hadUnhandled <==> exists i :: 0 <= i < |lines| && lines[i].None?
    decreases |lines|
  {
    if |lines| > 0 {
      var n := |lines| - 1;
      var prefix := lines[..n];
      UnhandledIff(prefix, depth);
      assert GenericLoop(lines, depth).hadUnhandled == (GenericLoop(prefix, depth).hadUnhandled || lines[n].None?);
      MissingSnoc(lines);
    }
  }

  /** Some line has no translation. */
  predicate HasMissing(lines: seq<Option<string>>) {
    exists i :: 0 <= i < |lines| && lines[i].None?
  }

  /** A line is missing from a sequence exactly when it is missing from all
      but the last, or the last is missing. */
  lemma MissingSnoc(lines: seq<Option<string>>)
    requires |lines| > 0
    ensures HasMissing(lines) <==> HasMissing(lines[..|lines| - 1]) || lines[|lines| - 1].None?
  {
    var n := |lines| - 1;
    var prefix := lines[..n];
    if exists i :: 0 <= i < n && prefix[i].None? {
      var i :| 0 <= i < n && prefix[i].None?;
      assert lines[i] == prefix[i];
    }
    if exists i :: 0 <= i < |lines| && lines[i].None? {
      var i :| 0 <= i < |lines| && lines[i].None?;
      if i < n {
        assert prefix[i] == lines[i];
      }
    }
  }

  /** A statement's translation is missing exactly when it has no rule. */
  lemma StmtLinesMissing(stmts: seq<Stmt>, depth: nat)
    ensures (exists i :: 0 <= i < |stmts| && StmtLines(stmts, depth)[i].None?) <==> SomeUntranslatable(stmts)
  {
    if exists i :: 0 <= i < |stmts| && StmtLines(stmts, depth)[i].None? {
      var i :| 0 <= i < |stmts| && StmtLines(stmts, depth)[i].None?;
      LineMissingAt(stmts, depth, i);
    }
    if SomeUntranslatable(stmts) {
      var i :| 0 <= i < |stmts| && Untranslatable(stmts[i]);
      LineMissingAt(stmts, depth, i);
    }
  }

  lemma LineMissingAt(stmts: seq<Stmt>, depth: nat, i: nat)
    requires i < |stmts|
    ensures StmtLines(stmts, depth)[i].None? <==> Untranslatable(stmts[i])
  {
    assert StmtLines(stmts, depth)[i] == StmtInner(stmts[i], depth);
  }

  /** Every line ends with a newline in the loop's output. */
  lemma LoopEndsWithNewline(lines: seq<Option<string>>, depth: nat)
    requires |lines| > 0
    ensures EndsWithNewline(GenericLoop(lines, depth).out)
  {
    var n := |lines| - 1;
    var st := GenericLoop(lines[..n], depth);
    var line := lines[n];
    var c := Chunk(line, depth);
    match line
    case Some(l) =>
      ChunkOfLine(l, depth);
    case None =>
      assert c == Indent(depth) + UnhandledNote;
    assert |c| > 0 && c[|c| - 1] == '\n';
    assert (st.out + c)[|st.out + c| - 1] == c[|c| - 1];
  }

  /** Every translated line appears, indented, in the loop's output. */
  lemma {:induction false} ChunkOccurs(lines: seq<Option<string>>, depth: nat, i: nat)
    requires i < |lines| && lines[i].Some?
    ensures Contains(GenericLoop(lines, depth).out, Indent(depth) + lines[i].value)
    decreases |lines|
  {
    var n := |lines| - 1;
    if i < n {
      var prefix := lines[..n];
      assert prefix[i] == lines[i];
      ChunkOccurs(prefix, depth, i);
      ContainsAppend(GenericLoop(prefix, depth).out, Indent(depth) + lines[i].value, Chunk(lines[n], depth));
    } else {
      LastChunkOccurs(lines, depth);
    }
  }

  lemma LastChunkOccurs(lines: seq<Option<string>>, depth: nat)
    requires |lines| > 0 && lines[|lines| - 1].Some?
    ensures Contains(GenericLoop(lines, depth).out, Indent(depth) + lines[|lines| - 1].value)
  {
    var n := |lines| - 1;
    ChunkHasLine(lines[n].value, depth);
    ContainsPrepend(GenericLoop(lines[..n], depth).out, Chunk(lines[n], depth), Indent(depth) + lines[n].value);
  }

  lemma ChunkHasLine(l: string, depth: nat)
    ensures Contains(Chunk(Some(l), depth), Indent(depth) + l)
  {
    ChunkOfLine(l, depth);
    ContainsMiddle("", Indent(depth) + l, if EndsWithNewline(l) then "" else "\n");
    assert "" + (Indent(depth) + l) == Indent(depth) + l;
  }

  /** The text of every translated statement of a generic body appears, indented, in it. */
  lemma StatementOccurs(body: seq<Stmt>, depth: nat, i: nat)
    requires i < |body| && !(depth == 1 && IsRangeLoop(body[0])) && StmtInner(body[i], depth).Some?
    ensures Contains(BodyInner(body, depth).value.body, Indent(depth) + StmtInner(body[i], depth).value)
  {
    var lines := StmtLines(body, depth);
    assert lines[i] == StmtInner(body[i], depth);
    ChunkOccurs(lines, depth, i);
    var out := GenericLoop(lines, depth).out;
    ContainsAppend(out, Indent(depth) + lines[i].value, if depth == 1 then OkTotal else "");
  }

  /** The documented meaning of `fallback`: the body is non-empty, and unless
      it starts with a top-level range loop, some statement has no rule. */
  lemma BodyFallback(body: seq<Stmt>, depth: nat)
    requires |body| > 0
    ensures BodyInner(body, depth).value.fallback <==>
      !(depth == 1 && IsRangeLoop(body[0])) && SomeUntranslatable(body)
  {
    UnhandledIff(StmtLines(body, depth), depth);
    StmtLinesMissing(body, depth);
  }

  /** A generic body ends with `Ok(total)` at the top level and with a newline
      when nested. */
  lemma BodyEnding(body: seq<Stmt>, depth: nat)
    requires |body| > 0 && !(depth == 1 && IsRangeLoop(body[0]))
    ensures depth == 1 ==> EndsWith(BodyInner(body, depth).value.body, OkTotal)
    ensures depth != 1 ==> EndsWithNewline(BodyInner(body, depth).value.body)
  {
    var st := GenericLoop(StmtLines(body, depth), depth);
    if depth == 1 {
      assert (st.out + OkTotal)[|st.out|..] == OkTotal;
    } else {
      LoopEndsWithNewline(StmtLines(body, depth), depth);
      assert st.out + "" == st.out;
    }
  }

  /** The top-level range-loop fast path ignores every statement after the loop. */
  lemma RangeLoopDropsRest(body: seq<Stmt>)
    requires |body| > 0 && IsRangeLoop(body[0])
    ensures BodyInner(body, 1) == BodyInner([body[0]], 1)
    ensures !BodyInner(body, 1).value.fallback
  {
  }

  // ---------------------------------------------------------------------------
  // Properties of the entry point

  /** Parameters: the inferred ones, or `data: Vec<f64>` for a function without any. */
  lemma TranslationParams(target: TargetSpec, suite: seq<Stmt>, constDebug: Const -> string)
    requires TranslateFunctionBody(target, suite, constDebug).Some?
    ensures var def := FindFunction(suite, target.func).value;
      var r := TranslateFunctionBody(target, suite, constDebug).value;
      |r.params| >= 1 &&
      (|def.args| > 0 ==> r.params == InferParams(def.args)) &&
      (|def.args| == 0 ==> r.params == DefaultParams)
  {
  }

  /** The translation returns `Vec<f64>` exactly for an echoed name and for the
      echo fallback of an empty body; everything else returns `f64`. */
  lemma TranslationReturnType(target: TargetSpec, suite: seq<Stmt>, constDebug: Const -> string)
    requires TranslateFunctionBody(target, suite, constDebug).Some?
    ensures var body := FindFunction(suite, target.func).value.body;
      var r := TranslateFunctionBody(target, suite, constDebug).value;
      (r.returnType == VecType <==> (ReturnsName(body) || |body| == 0)) &&
      (r.returnType != VecType ==> r.returnType == FloatType)
  {
  }

  /** `fallback` is set exactly when the body is empty or, past the fast
      paths, some statement has no translation rule. */
  lemma TranslationFallback(target: TargetSpec, suite: seq<Stmt>, constDebug: Const -> string)
    requires TranslateFunctionBody(target, suite, constDebug).Some?
    ensures var body := FindFunction(suite, target.func).value.body;
      var r := TranslateFunctionBody(target, suite, constDebug).value;
      r.fallback <==>
        (|body| == 0 ||
         (!ReturnsName(body) && !ReturnsConstant(body) && !IsRangeLoop(body[0]) &&
          SomeUntranslatable(body)))
  {
    var body := FindFunction(suite, target.func).value.body;
    if |body| > 0 {
      BodyFallback(body, 1);
    }
  }

  // ---------------------------------------------------------------------------
  // Properties of single statements

  /** Augmented assignment uses the binary operator's symbol followed by `=`,
      so unmapped operators become `+=` just as they become `+`. */
  lemma AugSymbolAgrees(op: Operator)
    ensures AugSymbol(op) == BinOpSymbol(op) + "="
  {
  }

  /** A for-loop's `else` block is never looked at. */
  lemma ForIgnoresElse(target: Expr, iter: Expr, body: seq<Stmt>, orelse1: seq<Stmt>, orelse2: seq<Stmt>, depth: nat)
    ensures StmtInner(For(target, iter, body, orelse1), depth) == StmtInner(For(target, iter, body, orelse2), depth)
  {
  }

  /** An `==`/`!=` test turns an `if` into a length guard on that test; both
      branches are dropped. */
  lemma EqualityIfIsGuard(test: Expr, body: seq<Stmt>, orelse: seq<Stmt>, depth: nat)
    requires IsEqualityTest(test)
    ensures StmtInner(If(test, body, orelse), depth) == Some(GuardText(ExprToRust(test)))
  {
    LenGuardCondition(test);
  }

  /** A float initialisation declares an `f64` binding. */
  lemma FloatInit(name: string, display: string, depth: nat)
    ensures StmtInner(Assign([Name(name)], Constant(CFloat(display))), depth) ==
      Some("let mut " + name + ": f64" + " = " + FloatLiteral(display) + ";")
  {
  }

  /** The subscript rule comes first: `a[i] = v` is a store whatever `v` is. */
  lemma SubscriptStoreFirst(base: Expr, index: Expr, value: Expr, depth: nat)
    ensures StmtInner(Assign([Subscript(base, index)], value), depth) ==
      Some(ExprToRust(base) + "[" + ExprToRust(index) + "]" + " = " + ExprToRust(value) + ";")
  {
  }

  /** `f64` is appended to a fill exactly when the fill contains a `.`;
      any other fill is kept as it is. */
  lemma ListInitFill(fill: string)
    ensures FillText(fill) == fill + "f64" <==> '.' in fill
    ensures '.' !in fill ==> FillText(fill) == fill
  {
    assert |fill + "f64"| != |fill|;
  }

  /** A list initialiser `[x] * n` assigned to a name or a non-subscript
      target becomes `let mut <name> = vec![<x>; <n>];`, with `f64` after a
      fill that contains a `.`. */
  lemma ListInitAssign(target: Expr, fill: Expr, size: Expr, depth: nat)
    requires !target.Subscript?
    ensures var name := if target.Name? then target.id else "result";
      var x, n := ExprToRust(fill), ExprToRust(size);
      var line := StmtInner(Assign([target], BinOp(List([fill]), Mult, size)), depth);
      ('.' in x ==> line == Some("let mut " + name + " = vec![" + x + "f64; " + n + "];")) &&
      ('.' !in x ==> line == Some("let mut " + name + " = vec![" + x + "; " + n + "];"))
  {
    var x, n := ExprToRust(fill), ExprToRust(size);
    var name := AssignedName(target);
    assert AssignText(target, BinOp(List([fill]), Mult, size)) == ListInitText(name, x, n);
    ListInitFill(x);
    if '.' in x {
      assert "let mut " + name + " = vec![" + (x + "f64") + "; " + n + "];" ==
             "let mut " + name + " = vec![" + x + "f64; " + n + "];";
    }
  }

  /** A loop's text is its head followed by the translation of its body. */
  lemma ForHasBody(target: Expr, iter: Expr, body: seq<Stmt>, orelse: seq<Stmt>, depth: nat)
    requires |body| > 0
    ensures var text := StmtInner(For(target, iter, body, orelse), depth).value;
      StartsWith(text, "for " + ExprToRust(target) + " in " + TranslateForIter(iter) + " ") &&
      Contains(text, BodyInner(body, depth + 1).value.body)
  {
    var head := "for " + ExprToRust(target) + " in " + TranslateForIter(iter);
    var inner := BodyInner(body, depth + 1).value.body;
    LoopHasBody(head, inner, depth);
  }

  lemma LoopHasBody(head: string, inner: string, depth: nat)
    ensures StartsWith(LoopText(head, inner, depth), head + " ")
    ensures Contains(LoopText(head, inner, depth), inner)
  {
    var front := head + " " + "{" + "\n";
    var back := "\n" + Indent(depth) + "}";
    assert LoopText(head, inner, depth) == front + inner + back;
    ContainsMiddle(front, inner, back);
    assert LoopText(head, inner, depth) == (head + " ") + Block(inner, depth);
  }

  // ---------------------------------------------------------------------------
  // Whole functions

  /** A loop of a generic top-level body appears in it with its head. */
  lemma ForLoopOccurs(body: seq<Stmt>, k: nat)
    requires k < |body| && !IsRangeLoop(body[0]) && body[k].For? && |body[k].body| > 0
    ensures Contains(BodyInner(body, 1).value.body,
                     "for " + ExprToRust(body[k].target) + " in " + TranslateForIter(body[k].iter))
  {
    var f := body[k];
    var text := StmtInner(f, 1).value;
    var head := "for " + ExprToRust(f.target) + " in " + TranslateForIter(f.iter);
    StatementOccurs(body, 1, k);
    ForHasBody(f.target, f.iter, f.body, f.orelse, 1);
    assert Contains(text, head + " ");
    ContainsPrefixOf(text, head, " ");
    ContainsPrepend(Indent(1), text, head);
    ContainsTransitive(BodyInner(body, 1).value.body, Indent(1) + text, head);
  }

  /** An augmented assignment inside such a loop appears in the body as
      `<target> <op>= `. */
  lemma AccumulationOccurs(body: seq<Stmt>, k: nat, j: nat)
    requires k < |body| && !IsRangeLoop(body[0]) && body[k].For?
    requires j < |body[k].body| && body[k].body[j].AugAssign?
    ensures var a := body[k].body[j];
      Contains(BodyInner(body, 1).value.body, ExprToRust(a.target) + " " + AugSymbol(a.aop) + " ")
  {
    var f := body[k];
    var a := f.body[j];
    var text := StmtInner(f, 1).value;
    var inner := BodyInner(f.body, 2).value.body;
    var line := StmtInner(a, 2).value;
    var sym := ExprToRust(a.target) + " " + AugSymbol(a.aop) + " ";
    StatementOccurs(body, 1, k);
    ForHasBody(f.target, f.iter, f.body, f.orelse, 1);
    StatementOccurs(f.body, 2, j);
    assert line == sym + (ExprToRust(a.value) + ";");
    ContainsPrefixOf(line, sym, ExprToRust(a.value) + ";");
    ContainsPrepend(Indent(2), line, sym);
    ContainsTransitive(inner, Indent(2) + line, sym);
    ContainsTransitive(text, inner, sym);
    ContainsPrepend(Indent(1), text, sym);
    ContainsTransitive(BodyInner(body, 1).value.body, Indent(1) + text, sym);
  }

  /** A module holding just `def` translates `def` through the generic path
      when its body does not start with a `return` of a name or constant. */
  lemma GenericFunction(target: TargetSpec, def: Stmt, constDebug: Const -> string)
    requires def.FunctionDef? && def.name == target.func && |def.args| > 0 && |def.body| > 0
    requires !ReturnsName(def.body) && !ReturnsConstant(def.body)
    ensures var b := BodyInner(def.body, 1).value;
      TranslateFunctionBody(target, [def], constDebug) ==
        Some(Translation(InferParams(def.args), b.returnType, b.body, b.fallback))
  {
    assert FindFunction([def], target.func) == Some(def);
  }

  /** What the source's tests check of a translated summing function: an
      `f64` result, no fallback, a loop over `0..` and an accumulation into
      `total`. */
  predicate SummingLoop(t: BodyTranslation) {
    t.returnType == FloatType && !t.fallback &&
    Contains(t.body, "for i in 0..") && Contains(t.body, "total += ")
  }

  /** The unannotated parameters `a`, `b`, typed by their names. */
  lemma TwoVectorArgs(a: string, b: string)
    requires a !in ScalarNames && b !in ScalarNames
    ensures InferParams([Arg(a, None), Arg(b, None)]) == [(a, VecType), (b, VecType)]
  {
  }

  /** A function with two unannotated vector-named parameters `a`, `b` and
      a generic body translates to that body, with `a` and `b` of type
      `Vec<f64>`. */
  lemma TwoVectorFunction(target: TargetSpec, a: string, b: string, body: seq<Stmt>, constDebug: Const -> string)
    requires a !in ScalarNames && b !in ScalarNames && |body| > 0
    requires !ReturnsName(body) && !ReturnsConstant(body)
    ensures var bt := BodyInner(body, 1).value;
      TranslateFunctionBody(target, [FunctionDef(target.func, [Arg(a, None), Arg(b, None)], body)], constDebug) ==
        Some(Translation([(a, VecType), (b, VecType)], bt.returnType, bt.body, bt.fallback))
  {
    TwoVectorArgs(a, b);
    GenericFunction(target, FunctionDef(target.func, [Arg(a, None), Arg(b, None)], body), constDebug);
  }

  /** `range(len(v))` iterates over `0..v.len()`. */
  lemma RangeLenIter(v: string)
    ensures TranslateForIter(NameCall("range", [NameCall("len", [Name(v)])])) == "0.." + (v + ".len()")
  {
    assert ExprToRust(NameCall("len", [Name(v)])) == v + ".len()";
  }

  /** The loop `for i in range(len(v))` at position 1 shows up as `for i in 0..`. */
  lemma RangeLenLoopOccurs(body: seq<Stmt>, v: string)
    requires |body| > 1 && !IsRangeLoop(body[0]) && body[1].For? && |body[1].body| > 0
    requires body[1].target == Name("i") && body[1].iter == NameCall("range", [NameCall("len", [Name(v)])])
    ensures Contains(BodyInner(body, 1).value.body, "for i in 0..")
  {
    ForLoopOccurs(body, 1);
    RangeLenHead(v);
    ContainsPrefixOf(BodyInner(body, 1).value.body, "for i in 0..", v + ".len()");
  }

  lemma RangeLenHead(v: string)
    ensures "for " + ExprToRust(Name("i")) + " in " + TranslateForIter(NameCall("range", [NameCall("len", [Name(v)])]))
            == "for i in 0.." + (v + ".len()")
  {
    RangeLenIter(v);
  }

  /** `total += ..` as statement `j` of the loop at position 1 shows up as `total += `. */
  lemma TotalAccumulates(body: seq<Stmt>, j: nat)
    requires |body| > 1 && !IsRangeLoop(body[0]) && body[1].For? && j < |body[1].body|
    requires body[1].body[j].AugAssign? && body[1].body[j].target == Name("total") && body[1].body[j].aop == Add
    ensures Contains(BodyInner(body, 1).value.body, "total += ")
  {
    AccumulationOccurs(body, 1, j);
    assert ExprToRust(Name("total")) + " " + AugSymbol(Add) + " " == "total += ";
  }

  /** Three translatable statements at the top level never fall back. */
  lemma ThreeStatementsTranslate(body: seq<Stmt>)
    requires |body| == 3 && !IsRangeLoop(body[0])
    requires !Untranslatable(body[0]) && !Untranslatable(body[1]) && !Untranslatable(body[2])
    ensures !BodyInner(body, 1).value.fallback && BodyInner(body, 1).value.returnType == FloatType
  {
    BodyFallback(body, 1);
  }

  /** The body of `dot_product(a, b)` in the source's test, as parsed, over
      any two parameter names (`0.0` displays as `0`). */
  function DotProductBody(a: string, b: string): seq<Stmt> {
    [Assign([Name("total")], Constant(CFloat("0"))),
     For(Name("i"), NameCall("range", [NameCall("len", [Name(a)])]),
         [AugAssign(Name("total"), Add, BinOp(Subscript(Name(a), Name("i")), Mult, Subscript(Name(b), Name("i"))))],
         []),
     Return(Some(Name("total")))]
  }

  /** The body of `euclidean(p1, p2)` in the source's test, as parsed. */
  function EuclideanBody(p1: string, p2: string): seq<Stmt> {
    [Assign([Name("total")], Constant(CFloat("0"))),
     For(Name("i"), NameCall("range", [NameCall("len", [Name(p1)])]),
         [Assign([Name("diff")], BinOp(Subscript(Name(p1), Name("i")), Sub, Subscript(Name(p2), Name("i")))),
          AugAssign(Name("total"), Add, BinOp(Name("diff"), Mult, Name("diff")))],
         []),
     Return(Some(BinOp(Name("total"), Pow, Constant(CFloat("0.5")))))]
  }

  lemma DotProductBodySums(a: string, b: string)
    ensures SummingLoop(BodyInner(DotProductBody(a, b), 1).value)
  {
    var body := DotProductBody(a, b);
    ThreeStatementsTranslate(body);
    RangeLenLoopOccurs(body, a);
    TotalAccumulates(body, 0);
  }

  lemma EuclideanBodySums(p1: string, p2: string)
    ensures SummingLoop(BodyInner(EuclideanBody(p1, p2), 1).value)
  {
    var body := EuclideanBody(p1, p2);
    ThreeStatementsTranslate(body);
    RangeLenLoopOccurs(body, p1);
    TotalAccumulates(body, 1);
  }

  /** `test_translate_dot_product_zero_fallback`, for any two parameter
      names that are not read as sizes (the test's are `a` and `b`): the
      function translates without fallback, with `Vec<f64>` parameters, an
      `f64` result, a loop over `0..` and an accumulation `total += `. */
  lemma DotProductTranslates(target: TargetSpec, a: string, b: string, constDebug: Const -> string)
    requires a !in ScalarNames && b !in ScalarNames
    ensures var t := TranslateFunctionBody(target, [FunctionDef(target.func, [Arg(a, None), Arg(b, None)], DotProductBody(a, b))], constDebug);
      t.Some? && t.value.params == [(a, VecType), (b, VecType)] &&
      SummingLoop(BodyTranslation(t.value.returnType, t.value.body, t.value.fallback))
  {
    DotProductBodySums(a, b);
    TwoVectorFunction(target, a, b, DotProductBody(a, b), constDebug);
  }

  /** `test_translate_euclidean_body`, for any two such names (the test's
      are `p1` and `p2`): the same outcome. */
  lemma EuclideanTranslates(target: TargetSpec, p1: string, p2: string, constDebug: Const -> string)
    requires p1 !in ScalarNames && p2 !in ScalarNames
    ensures var t := TranslateFunctionBody(target, [FunctionDef(target.func, [Arg(p1, None), Arg(p2, None)], EuclideanBody(p1, p2))], constDebug);
      t.Some? && t.value.params == [(p1, VecType), (p2, VecType)] &&
      SummingLoop(BodyTranslation(t.value.returnType, t.value.body, t.value.fallback))
  {
    EuclideanBodySums(p1, p2);
    TwoVectorFunction(target, p1, p2, EuclideanBody(p1, p2), constDebug);
  }
}
