/** PyO3 rendering, `src/generator/render.rs`: one `#[pyfunction]` per target,
    the `lib.rs` that registers them, the crate manifest, and the recovery of a
    function's name from its rendered text. */
module GenRender {
  import opened Common
  import opened Text
  import opened PyAst
  import opened GenInfer
  import opened GenTranslate
  import opened Target

  // ---------------------------------------------------------------------------
  // The two hand-written kernels

  const CountPairsName := "count_pairs"
  const BpeEncodeName := "bpe_encode"
  const PairMapType := "std::collections::" + "HashMap<(i64, i64), i64>"
  const BytesType := "Vec<u8>"
  const TokensType := "Vec<i64>"

  const CountPairsHead := "let mut counts: " + PairMapType + " = std::collections::" + "HashMap::new();\n    " +
    "for i in 0..tokens.len()" + ".saturating_sub(1) "
  const CountPairsLoop := "\n        let a = tokens[i] as i64;" + "\n        let b = tokens[i + 1] as i64;" +
    "\n        let entry = counts" + ".entry((a, b)).or_insert(0);" + "\n        *entry += 1;\n    "
  const CountPairsTail := "\n    Ok(counts)"
  /** The body `count_pairs` always gets: a map bumped once per adjacent pair. */
  const CountPairsBody := CountPairsHead + Braced(CountPairsLoop) + CountPairsTail

  const BpeHead := "let mut tokens: Vec<i64> = text" + ".into_iter().map(|v| v as i64)" +
    ".collect();\n    let mut changed " + "= true;\n    while changed "
  const BpeOuterHead := "\n        changed = false;\n" + "        let mut i: usize = 0;\n" +
    "        while i + 1 < tokens.len() "
  const BpeInner := "\n            // placeholder merge " + "logic; real merges handled " +
    "in Python\n            i += 1;\n" + "        "
  const BpeOuter := BpeOuterHead + Braced(BpeInner) + "\n    "
  const BpeTail := "\n    Ok(tokens)"
  /** The body `bpe_encode` always gets: a byte-to-token copy inside a merge
      loop that merges nothing. */
  const BpeBody := BpeHead + Braced(BpeOuter) + BpeTail

  predicate IsSpecial(func: string) {
    func == CountPairsName || func == BpeEncodeName
  }

  // ---------------------------------------------------------------------------
  // The translation a function is rendered from

  /** What a target that names no function is rendered as. */
  const EchoTranslation := Translation(DefaultParams, VecType, EchoBody, true)

  /** `translate_function_body(..).unwrap_or_else(..)`. */
  function BaseTranslation(target: TargetSpec, suite: seq<Stmt>, fmt: Formatters): Translation {
    match TranslateFunctionBody(target, suite, fmt.constDebug)
    case Some(t) => t
    case None => EchoTranslation
  }

  /** The overrides for the hand-written kernels; every field is replaced. */
  function Special(func: string, t: Translation): Translation {
    if func == CountPairsName then Translation([("tokens", VecType)], PairMapType, CountPairsBody, false)
    else if func == BpeEncodeName then Translation([("text", BytesType), ("merges", VecType)], TokensType, BpeBody, false)
    else t
  }

  function NdarrayParam(p: Param): Param {
    if p.1 == VecType then (p.0, ArrayType) else p
  }

  /** The ndarray-mode rewrite of the parameter list, element by element. */
  function NdarrayParams(params: seq<Param>): (r: seq<Param>)
    ensures |r| == |params|
  {
    seq(|params|, i requires 0 <= i < |params| => NdarrayParam(params[i]))
  }

  /** The translation after the overrides and the ndarray rewrite. */
  function FinalTranslation(target: TargetSpec, suite: seq<Stmt>, nd: bool, fmt: Formatters): Translation {
    Overridden(target.func, BaseTranslation(target, suite, fmt), nd)
  }

  /** The overrides, then the ndarray rewrite, applied to a base translation. */
  function Overridden(func: string, base: Translation, nd: bool): Translation {
    var t := Special(func, base);
    if nd then t.(params := NdarrayParams(t.params)) else t
  }

  // ---------------------------------------------------------------------------
  // The rendered text

  const Marker := "#[pyfunction]"
  const FnPrefix := "pub fn "
  const PyLine := "    let _ = py; // reserved " + "for future GIL use"
  const NdarrayNote := "\n    // ndarray: use p1.as_slice()? " + "to get &[f64] for indexing"

  /** The guards emitted before the body: none in ndarray mode. */
  function LenCheckText(params: seq<Param>, nd: bool): string {
    if nd then "" else
      match LenChecks(params)
      case Some(c) => c
      case None => ""
  }

  function ParamText(p: Param): string {
    p.0 + ": " + p.1
  }

  /** `params.iter().map(|(n, t)| format!("{n}: {t}")).join(", ")`. */
  function ParamsText(params: seq<Param>): string {
    Join(seq(|params|, i requires 0 <= i < |params| => ParamText(params[i])), ", ")
  }

  /** The doc comment line; `percent` is the `{:.2}` rendering of the share. */
  function DocLine(target: TargetSpec): string {
    DocOpen + target.func + DocAt + NatToString(target.line) + " (" + target.percent + "%): " + target.reason
  }

  const DocOpen := "/// Auto-generated from Python " + "hotspot `"
  const DocAt := "` at line "

  function SignatureHead(name: string): string {
    FnPrefix + name + "("
  }

  function SignatureTail(params: string, ret: string): string {
    "py: Python, " + params + ") -> PyResult<" + ret + "> {"
  }

  /** The format string of `render_function_with_options`, filled in. */
  function FunctionText(doc: string, sig: string, note: string, lenCheck: string, body: string): string {
    Marker + "\n" + doc + "\n" + sig + FunctionRest(note, lenCheck, body)
  }

  /** Everything after the signature's opening brace. */
  function FunctionRest(note: string, lenCheck: string, body: string): string {
    note + "\n" + PyLine + "\n" + "    " + lenCheck + "\n" + "    " + body + "\n" + "}\n"
  }

  /** `render_function_with_options`: the rendered source and the reported
      fallback flag. */
  function Rendering(target: TargetSpec, suite: seq<Stmt>, nd: bool, fmt: Formatters): (string, bool) {
    RenderingOf(target, BaseTranslation(target, suite, fmt), nd, fmt)
  }

  /** The rendering once the base translation is known. */
  function RenderingOf(target: TargetSpec, base: Translation, nd: bool, fmt: Formatters): (string, bool) {
    var t := Overridden(target.func, base, nd);
    var sig := SignatureHead(fmt.snakeCase(target.func)) + SignatureTail(ParamsText(t.params), t.returnType);
    (FunctionText(DocLine(target), sig, if nd then NdarrayNote else "", LenCheckText(t.params, nd), t.body), t.fallback)
  }

  /** `render_function_with_options` as the source runs it: the translation is
      overwritten field by field, and the ndarray rewrite updates the
      parameter list in place. */
  method RenderFunction(target: TargetSpec, suite: seq<Stmt>, nd: bool, fmt: Formatters)
    returns (rendered: string, fallback: bool)
    ensures (rendered, fallback) == Rendering(target, suite, nd, fmt)
  {
    var found := TranslateFunction(target, suite, fmt.constDebug);
    var translation := if found.Some? then found.value else EchoTranslation;
    assert translation == BaseTranslation(target, suite, fmt);
    rendered, fallback := RenderTranslated(target, translation, nd, fmt);
  }

  /** The rest of `render_function_with_options`, from the unwrapped
      translation on. */
  method RenderTranslated(target: TargetSpec, base: Translation, nd: bool, fmt: Formatters)
    returns (rendered: string, fallback: bool)
    ensures (rendered, fallback) == RenderingOf(target, base, nd, fmt)
  {
    var rustName := fmt.snakeCase(target.func);
    var translation := ApplyOverrides(target.func, base);
    if nd {
      var params := RewriteParams(translation.params);
      translation := translation.(params := params);
    }
    assert translation == Overridden(target.func, base, nd);
    var lenCheck := "";
    if !nd {
      var checks := RenderLenChecks(translation.params);
      lenCheck := if checks.Some? then checks.value else "";
    }
    assert lenCheck == LenCheckText(translation.params, nd);
    var note := if nd then NdarrayNote else "";
    var sig := SignatureHead(rustName) + SignatureTail(ParamsText(translation.params), translation.returnType);
    rendered := FunctionText(DocLine(target), sig, note, lenCheck, translation.body);
    fallback := translation.fallback;
  }

  /** The `match target.func` overrides, field by field. */
  method ApplyOverrides(func: string, t: Translation) returns (r: Translation)
    ensures r == Special(func, t)
  {
    r := t;
    if func == CountPairsName {
      r := r.(params := [("tokens", VecType)]);
      r := r.(returnType := PairMapType);
      r := r.(body := CountPairsBody);
      r := r.(fallback := false);
    } else if func == BpeEncodeName {
      r := r.(params := [("text", BytesType), ("merges", VecType)]);
      r := r.(returnType := TokensType);
      r := r.(body := BpeBody);
      r := r.(fallback := false);
    }
  }

  /** The `for (_, ty) in &mut translation.params` loop. */
  method RewriteParams(params: seq<Param>) returns (r: seq<Param>)
    ensures r == NdarrayParams(params)
  {
    r := params;
    var i := 0;
    while i < |r|
      invariant 0 <= i <= |r| == |params|
      invariant forall j :: 0 <= j < i ==> r[j] == NdarrayParam(params[j])
      invariant forall j :: i <= j < |r| ==> r[j] == params[j]
    {
      if r[i].1 == VecType {
        r := r[i := (r[i].0, ArrayType)];
      }
      i := i + 1;
    }
  }

  // ---------------------------------------------------------------------------
  // Recovering the name

  /** The name in the first line that starts with `pub fn `: the text up to the
      first `(`; `generated` when there is no such line. */
  function FirstFnName(lines: seq<string>): string
    decreases |lines|
  {
    if |lines| == 0 then "generated"
    else if StartsWith(lines[0], FnPrefix) then Before(lines[0][|FnPrefix|..], '(')
    else FirstFnName(lines[1..])
  }

  /** With no signature line the name is `generated`; otherwise it is read
      from the first signature line. */
  lemma {:induction false} FirstFnNameSpec(lines: seq<string>)
    ensures (forall i :: 0 <= i < |lines| ==> !StartsWith(lines[i], FnPrefix)) ==>
      FirstFnName(lines) == "generated"
    ensures forall k :: 0 <= k < |lines| && StartsWith(lines[k], FnPrefix) &&
                        (forall i :: 0 <= i < k ==> !StartsWith(lines[i], FnPrefix)) ==>
                        FirstFnName(lines) == Before(lines[k][|FnPrefix|..], '(')
    decreases |lines|
  {
    if |lines| > 0 && !StartsWith(lines[0], FnPrefix) {
      var rest := lines[1..];
      FirstFnNameSpec(rest);
      assert forall i :: 1 <= i < |lines| ==> lines[i] == rest[i - 1];
    }
  }

  /** `extract_fn_name`. */
  function ExtractFnName(src: string): string {
    FirstFnName(Lines(src))
  }

  /** A recovered name never spans lines. */
  lemma NameHasNoNewline(src: string)
    ensures '\n' !in ExtractFnName(src)
  {
    var lines := Lines(src);
    LinesHaveNoNewline(src);
    FirstFnNameSpec(lines);
    if exists k :: 0 <= k < |lines| && StartsWith(lines[k], FnPrefix) {
      var k := FirstFnLine(lines);
      var r := Before(lines[k][|FnPrefix|..], '(');
      assert forall j :: 0 <= j < |r| ==> r[j] == lines[k][|FnPrefix| + j];
    }
  }

  /** The index of the first line that starts with `pub fn `. */
  lemma FirstFnLine(lines: seq<string>) returns (k: nat)
    requires exists k :: 0 <= k < |lines| && StartsWith(lines[k], FnPrefix)
    ensures k < |lines| && StartsWith(lines[k], FnPrefix)
    ensures forall i :: 0 <= i < k ==> !StartsWith(lines[i], FnPrefix)
  {
    var j :| 0 <= j < |lines| && StartsWith(lines[j], FnPrefix);
    k := 0;
    while !StartsWith(lines[k], FnPrefix)
      invariant k <= j
      invariant forall i :: 0 <= i < k ==> !StartsWith(lines[i], FnPrefix)
      decreases j - k
    {
      k := k + 1;
    }
  }

  /** The first line of text that starts with a newline-free `p` not ending
      in a carriage return starts with `p`. */
  lemma FirstLineStartsWith(p: string, rest: string)
    requires |p| > 0 && '\n' !in p && p[|p| - 1] != '\r'
    ensures |Lines(p + rest)| >= 1 && StartsWith(Lines(p + rest)[0], p)
  {
    var s := p + rest;
    var pieces := Split(s, '\n');
    var first := pieces[0];
    assert first == Before(s, '\n');
    assert forall j :: 0 <= j < |p| ==> s[j] == p[j] && s[j] != '\n';
    if '\n' !in s {
      SplitNoSeparator(s, '\n');
    }
    assert |first| >= |p|;
    assert first[..|p|] == s[..|p|] == p;
    if |pieces| > 1 {
      assert Lines(s) == [StripCR(first)] + LinesOfPieces(pieces[1..]);
      var l := StripCR(first);
      assert |first| == |p| ==> first == p;
      assert l[..|p|] == p;
    } else {
      assert Lines(s) == [first];
    }
  }

  /** Before the first `(` of `name(...` is `name`. */
  lemma BeforeParen(name: string, rest: string)
    requires '(' !in name
    ensures Before(name + "(" + rest, '(') == name
  {
    var s := name + "(" + rest;
    var r := Before(s, '(');
    assert s[|name|] == '(';
    assert '(' in s;
    assert forall j :: 0 <= j < |name| ==> s[j] == name[j] && s[j] != '(';
    assert |r| == |name|;
    assert r == s[..|name|] == name;
  }

  /** A line that does not start with `p` gives no name. */
  lemma NotFnLine(a: string)
    requires |a| > 0 && a[0] != 'p'
    ensures !StartsWith(StripCR(a), FnPrefix)
  {
    var l := StripCR(a);
    assert FnPrefix[0] == 'p';
    if |l| > 0 {
      assert l[0] == a[0];
    }
  }

  /** Two lines that are not signatures, then a signature: the name is the
      signature's. */
  lemma ExtractThirdLine(a: string, b: string, name: string, sigTail: string, rest: string)
    requires '\n' !in a && '\n' !in b && '\n' !in name && '(' !in name
    requires |a| > 0 && a[0] != 'p' && |b| > 0 && b[0] != 'p'
    ensures FirstFnName(Lines(a + "\n" + b + "\n" + (SignatureHead(name) + sigTail) + rest)) == name
  {
    var head := SignatureHead(name);
    var after := head + (sigTail + rest);
    assert a + "\n" + b + "\n" + (head + sigTail) + rest == a + "\n" + (b + "\n" + after);
    LinesCons2(a, b, after);
    NotFnLine(a);
    NotFnLine(b);
    SignatureName(name, sigTail + rest);
    NameAfterTwo(StripCR(a), StripCR(b), Lines(after));
  }

  /** Two lines that are not signatures before a signature line. */
  lemma NameAfterTwo(x: string, y: string, ls: seq<string>)
    requires !StartsWith(x, FnPrefix) && !StartsWith(y, FnPrefix)
    requires |ls| >= 1 && StartsWith(ls[0], FnPrefix)
    ensures FirstFnName([x, y] + ls) == Before(ls[0][|FnPrefix|..], '(')
  {
    var all := [x, y] + ls;
    assert all[0] == x && all[1] == y && all[2] == ls[0];
    FirstFnNameSpec(all);
  }

  /** The name in a signature line, wherever the line ends. */
  lemma SignatureName(name: string, rest: string)
    requires '\n' !in name && '(' !in name
    ensures var lines := Lines(SignatureHead(name) + rest);
      |lines| >= 1 && StartsWith(lines[0], FnPrefix) && Before(lines[0][|FnPrefix|..], '(') == name
  {
    var head := SignatureHead(name);
    assert head == FnPrefix + name + "(";
    assert forall j :: 0 <= j < |head| ==> head[j] != '\n';
    FirstLineStartsWith(head, rest);
    var line := Lines(head + rest)[0];
    assert line[..|FnPrefix|] == head[..|FnPrefix|] == FnPrefix;
    assert line[|FnPrefix|..] == name + "(" + line[|head|..];
    BeforeParen(name, line[|head|..]);
  }

  /** The name recovered from any text of the rendered shape is the name in
      its signature. */
  lemma ExtractFromFunctionText(doc: string, name: string, sigTail: string, note: string, lenCheck: string, body: string)
    requires '\n' !in doc && '\n' !in name && '(' !in name
    requires |doc| > 0 && doc[0] == '/'
    ensures ExtractFnName(FunctionText(doc, SignatureHead(name) + sigTail, note, lenCheck, body)) == name
  {
    assert '\n' !in Marker && Marker[0] == '#';
    ExtractThirdLine(Marker, doc, name, sigTail, FunctionRest(note, lenCheck, body));
  }

  /** `extract_fn_name` undoes the rendering: it gives back the snake-case
      name, as long as the target's texts stay on their line and the name
      has no `(`. */
  lemma ExtractRendered(target: TargetSpec, base: Translation, nd: bool, fmt: Formatters)
    requires '\n' !in target.func && '\n' !in target.percent && '\n' !in target.reason
    requires '\n' !in fmt.snakeCase(target.func) && '(' !in fmt.snakeCase(target.func)
    ensures ExtractFnName(RenderingOf(target, base, nd, fmt).0) == fmt.snakeCase(target.func)
  {
    var t := Overridden(target.func, base, nd);
    var doc := DocLine(target);
    DocLineOneLine(target);
    ExtractFromFunctionText(doc, fmt.snakeCase(target.func), SignatureTail(ParamsText(t.params), t.returnType),
      if nd then NdarrayNote else "", LenCheckText(t.params, nd), t.body);
  }

  lemma DocLineOneLine(target: TargetSpec)
    requires '\n' !in target.func && '\n' !in target.percent && '\n' !in target.reason
    ensures '\n' !in DocLine(target) && |DocLine(target)| > 0 && DocLine(target)[0] == '/'
  {
    var digits := NatToString(target.line);
    DigitsNoNewline(target.line);
    DocLiterals();
    NoNewlineParts(DocOpen, target.func, DocAt, digits, " (", target.percent, "%): ", target.reason);
  }

  lemma DigitsNoNewline(n: nat)
    ensures '\n' !in NatToString(n)
  {
  }

  lemma DocLiterals()
    ensures '\n' !in DocOpen && '\n' !in DocAt && '\n' !in " (" && '\n' !in "%): "
    ensures |DocOpen| > 0 && DocOpen[0] == '/'
  {
    NoNewlineAppend("/// Auto-generated from Python ", "hotspot `");
  }

  lemma NoNewlineAppend(a: string, b: string)
    requires '\n' !in a && '\n' !in b
    ensures '\n' !in a + b
  {
  }

  lemma NoNewlineParts(a: string, b: string, c: string, d: string, e: string, f: string, g: string, h: string)
    requires |a| > 0
    requires '\n' !in a && '\n' !in b && '\n' !in c && '\n' !in d
    requires '\n' !in e && '\n' !in f && '\n' !in g && '\n' !in h
    ensures '\n' !in a + b + c + d + e + f + g + h && (a + b + c + d + e + f + g + h)[0] == a[0]
  {
  }

  // ---------------------------------------------------------------------------
  // Properties of one rendering

  /** A target that names no function is the echo stub, reported as a
      fallback, unless it is one of the hand-written kernels. */
  lemma RenderEcho(target: TargetSpec, suite: seq<Stmt>, nd: bool, fmt: Formatters)
    requires forall i :: 0 <= i < |suite| ==> !(suite[i].FunctionDef? && suite[i].name == target.func)
    requires !IsSpecial(target.func)
    ensures FinalTranslation(target, suite, nd, fmt) ==
      Translation(if nd then [("data", ArrayType)] else DefaultParams, VecType, EchoBody, true)
    ensures Rendering(target, suite, nd, fmt).1
  {
    if nd {
      assert NdarrayParams(DefaultParams) == [("data", ArrayType)];
    }
  }

  /** The reported flag is the translation's `fallback` (true when the function
      is missing), except for the hand-written kernels, which never report one. */
  lemma RenderFlag(target: TargetSpec, base: Translation, nd: bool, fmt: Formatters)
    ensures RenderingOf(target, base, nd, fmt).1 == (!IsSpecial(target.func) && base.fallback)
  {
    assert RenderingOf(target, base, nd, fmt).1 == Overridden(target.func, base, nd).fallback;
    OverriddenFlag(target.func, base, nd);
  }

  lemma OverriddenFlag(func: string, base: Translation, nd: bool)
    ensures Overridden(func, base, nd).fallback == (!IsSpecial(func) && base.fallback)
  {
  }

  /** The translation's `fallback` is reported as it is, and a missing
      function always counts as a fallback. */
  lemma BaseFallback(target: TargetSpec, suite: seq<Stmt>, fmt: Formatters)
    ensures BaseTranslation(target, suite, fmt).fallback ==
      match TranslateFunctionBody(target, suite, fmt.constDebug)
      case Some(t) => t.fallback
      case None => true
  {
  }

  /** The ndarray rewrite: `Vec<f64>` parameters become array views, names and
      every other type stay, and nothing is left typed `Vec<f64>`. */
  lemma NdarrayRewrite(params: seq<Param>)
    ensures forall i :: 0 <= i < |params| ==> NdarrayParams(params)[i].0 == params[i].0
    ensures forall i :: 0 <= i < |params| ==> NdarrayParams(params)[i].1 != VecType
    ensures forall i :: 0 <= i < |params| ==>
      (NdarrayParams(params)[i].1 == params[i].1 <==> params[i].1 != VecType)
    ensures forall i :: 0 <= i < |params| && params[i].1 == VecType ==> NdarrayParams(params)[i].1 == ArrayType
  {
  }

  /** In ndarray mode no length guard is emitted and the parameters are the
      rewritten ones; otherwise the guards are those of the parameters. */
  lemma RenderGuards(func: string, base: Translation, nd: bool)
    ensures var t := Special(func, base);
      var f := Overridden(func, base, nd);
      (nd ==> f.params == NdarrayParams(t.params) && LenCheckText(f.params, nd) == "") &&
      (!nd ==> f.params == t.params &&
               (LenCheckText(f.params, nd) == "" <==> |VecParamNames(f.params)| < 2))
  {
    var t := Special(func, base);
    if !nd {
      var c := LenChecks(t.params);
      if c.Some? {
        var v := VecParamNames(t.params);
        ChecksMention(v[0], v[1..], 0);
        ContainsFirstChar(c.value, MismatchMessage);
      }
    }
  }

  /** Outside ndarray mode, the `bpe_encode` override's parameters
      `text: Vec<u8>` and `merges: Vec<f64>` both count as vectors, so its
      rendering gets a guard rejecting texts whose length differs from the
      number of merges; the body is the placeholder loop whatever the Python
      function says. In ndarray mode there is no guard. */
  lemma BpeEncodeGuarded(target: TargetSpec, base: Translation, fmt: Formatters)
    requires target.func == BpeEncodeName
    ensures LenCheckText(Overridden(target.func, base, false).params, false) == LenCheck("text", "merges")
    ensures Contains(RenderingOf(target, base, false, fmt).0, Mismatch("text", "merges"))
    ensures Overridden(target.func, base, false).body == BpeBody
    ensures LenCheckText(Overridden(target.func, base, true).params, true) == ""
  {
    var t := Overridden(target.func, base, false);
    assert t.params == [("text", BytesType), ("merges", VecType)];
    assert StartsWith(BytesType, "Vec<") && StartsWith(VecType, "Vec<");
    TwoVectorParams("text", BytesType, "merges", VecType);
    CheckMentions("text", "merges");
    GuardInRendering(target, base, fmt, Mismatch("text", "merges"));
  }

  /** Whatever the guard text contains, the rendered function contains. */
  lemma GuardInRendering(target: TargetSpec, base: Translation, fmt: Formatters, m: string)
    requires Contains(LenCheckText(Overridden(target.func, base, false).params, false), m)
    ensures Contains(RenderingOf(target, base, false, fmt).0, m)
  {
    var t := Overridden(target.func, base, false);
    var sig := SignatureHead(fmt.snakeCase(target.func)) + SignatureTail(ParamsText(t.params), t.returnType);
    GuardInFunctionText(DocLine(target), sig, "", LenCheckText(t.params, false), t.body, m);
  }

  lemma GuardInFunctionText(doc: string, sig: string, note: string, lenCheck: string, body: string, m: string)
    requires Contains(lenCheck, m)
    ensures Contains(FunctionText(doc, sig, note, lenCheck, body), m)
  {
    var front := Marker + "\n" + doc + "\n" + sig + (note + "\n" + PyLine + "\n" + "    ");
    var back := "\n" + "    " + body + "\n" + "}\n";
    assert FunctionText(doc, sig, note, lenCheck, body) == front + lenCheck + back;
    ContainsWithin(front, lenCheck, back, m);
  }

  // ---------------------------------------------------------------------------
  // lib.rs

  const LibHead := "use pyo3::prelude::*;"
  const NumpyImport := "use numpy;"
  const ModuleAttr := "#[pymodule]"
  const ModuleFn := "fn rustify_ml_ext(_py: Python, " + "m: &PyModule) -> PyResult<()> {"
  const ModuleOk := "Ok(())"

  function AddLine(name: string): string {
    "m.add_function(wrap_pyfunction!(" + name + ", m)?)?;"
  }

  function FunctionNames(functions: seq<string>): (r: seq<string>)
    ensures |r| == |functions|
  {
    seq(|functions|, i requires 0 <= i < |functions| => ExtractFnName(functions[i]))
  }

  function AddLines(names: seq<string>): (r: seq<string>)
    ensures |r| == |names|
  {
    seq(|names|, i requires 0 <= i < |names| => AddLine(names[i]))
  }

  /** `render_lib_rs_with_options`. */
  function RenderLibRs(functions: seq<string>, nd: bool): string {
    ImportsText(nd) + FunctionsText(functions) + ModuleText(FunctionNames(functions))
  }

  /** The `use` lines and the empty line after them. */
  function ImportsText(nd: bool): string {
    LibHead + "\n" + (if nd then NumpyImport + "\n" else "") + "\n"
  }

  /** The `#[pymodule]` function registering every name. */
  function ModuleText(names: seq<string>): string {
    ModuleAttr + "\n" + ModuleFn + "\n" + Join(AddLines(names), "\n    ") + "\n" + ModuleOk + "\n" + "}\n"
  }

  /** The registration lines as `lines()` sees them: the first at the margin,
      the others indented; one empty line when there is nothing to register. */
  function AdderLines(names: seq<string>): seq<string> {
    if |names| == 0 then [""]
    else seq(|names|, i requires 0 <= i < |names| => (if i == 0 then "" else "    ") + AddLine(names[i]))
  }

  function HeaderLines(nd: bool): seq<string> {
    [LibHead] + (if nd then [NumpyImport] else []) + [""]
  }

  /** The text between the imports and the module function. */
  function FunctionsText(functions: seq<string>): string {
    Join(functions, "\n") + "\n"
  }

  /** The lines of `lib.rs`: the imports, the functions' lines, then the module
      function with exactly one registration per function, in order. */
  lemma LibLines(functions: seq<string>, nd: bool)
    ensures Lines(RenderLibRs(functions, nd)) ==
      HeaderLines(nd) + Lines(FunctionsText(functions)) + [ModuleAttr, ModuleFn] +
      AdderLines(FunctionNames(functions)) + [ModuleOk, "}"]
  {
    var names := FunctionNames(functions);
    HeaderText(nd);
    EndsInNewline(Join(functions, "\n"));
    NamesHaveNoNewline(functions);
    TailLines(names, Join(AddLines(names), "\n    "));
    ThreeParts(ImportsText(nd), FunctionsText(functions), ModuleText(names));
    AppendAssoc4(HeaderLines(nd) + Lines(FunctionsText(functions)), [ModuleAttr, ModuleFn], AdderLines(names), [ModuleOk, "}"]);
  }

  /** No registered name spans lines. */
  lemma NamesHaveNoNewline(functions: seq<string>)
    ensures forall i :: 0 <= i < |functions| ==> '\n' !in FunctionNames(functions)[i]
  {
    forall i | 0 <= i < |functions|
      ensures '\n' !in FunctionNames(functions)[i]
    {
      NameHasNoNewline(functions[i]);
    }
  }

  /** Three texts, the first two newline-terminated, read as their lines in turn. */
  lemma ThreeParts(a: string, b: string, c: string)
    requires |a| > 0 && a[|a| - 1] == '\n'
    requires |b| > 0 && b[|b| - 1] == '\n'
    ensures Lines(a + b + c) == Lines(a) + Lines(b) + Lines(c)
  {
    LinesAppend(a, b + c);
    LinesAppend(b, c);
    assert a + b + c == a + (b + c);
  }

  lemma EndsInNewline(x: string)
    ensures |x + "\n"| > 0 && (x + "\n")[|x + "\n"| - 1] == '\n'
  {
  }

  lemma HeaderText(nd: bool)
    ensures Lines(ImportsText(nd)) == HeaderLines(nd)
    ensures |ImportsText(nd)| > 0 && ImportsText(nd)[|ImportsText(nd)| - 1] == '\n'
  {
    HeaderLiterals();
    TwoHeaderLines(LibHead, NumpyImport, nd);
  }

  /** The import lines are single lines. */
  lemma HeaderLiterals()
    ensures '\n' !in LibHead && StripCR(LibHead) == LibHead
    ensures '\n' !in NumpyImport && StripCR(NumpyImport) == NumpyImport
  {
  }

  /** A line, an optional second line and an empty line. */
  lemma TwoHeaderLines(a: string, b: string, nd: bool)
    requires '\n' !in a && StripCR(a) == a
    requires '\n' !in b && StripCR(b) == b
    ensures var imports := if nd then b + "\n" else "";
      Lines(a + "\n" + imports + "\n") == [a] + (if nd then [b] else []) + [""]
  {
    var ls := [a] + (if nd then [b] else []) + [""];
    assert StripCR("") == "";
    if nd {
      assert ls == [a, b, ""];
      assert ls[1..] == [b, ""] && ls[1..][1..] == [""];
      assert Join([""], "\n") == "";
      assert Join([b, ""], "\n") == b + "\n" + "";
      assert Join(ls, "\n") == a + "\n" + (b + "\n" + "");
      assert Join(ls, "\n") + "\n" == a + "\n" + (b + "\n") + "\n";
    } else {
      assert ls == [a, ""];
      assert ls[1..] == [""];
      assert Join(ls, "\n") + "\n" == a + "\n" + "" + "\n";
    }
    LinesOfJoined(ls);
  }

  lemma TailLines(names: seq<string>, adders: string)
    requires forall i :: 0 <= i < |names| ==> '\n' !in names[i]
    requires adders == Join(AddLines(names), "\n    ")
    ensures Lines(ModuleText(names)) == [ModuleAttr, ModuleFn] + AdderLines(names) + [ModuleOk, "}"]
  {
    ModuleLiterals();
    LinesCons2Chain(ModuleAttr, ModuleFn, adders, ModuleOk, "}\n");
    ClosingLines();
    AddersLines(names, adders, ModuleOk + "\n" + "}\n");
  }

  /** The two header lines of the module function are single lines. */
  lemma ModuleLiterals()
    ensures '\n' !in ModuleAttr && StripCR(ModuleAttr) == ModuleAttr
    ensures '\n' !in ModuleFn && StripCR(ModuleFn) == ModuleFn
  {
    var f1 := "fn rustify_ml_ext(_py: Python, ";
    var f2 := "m: &PyModule) -> PyResult<()> {";
    assert forall i :: 0 <= i < |f1| ==> f1[i] != '\n';
    assert forall i :: 0 <= i < |f2| ==> f2[i] != '\n';
    assert ModuleFn == f1 + f2;
    assert forall i :: 0 <= i < |ModuleFn| ==> ModuleFn[i] != '\n';
  }

  lemma ClosingLines()
    ensures Lines(ModuleOk + "\n" + "}\n") == [ModuleOk, "}"]
  {
    assert '\n' !in ModuleOk && StripCR(ModuleOk) == ModuleOk;
    assert Lines("") == [];
    LinesCons("}", "");
    assert "}" + "\n" + "" == "}\n";
    LinesCons(ModuleOk, "}\n");
  }

  lemma AddersLines(names: seq<string>, adders: string, closing: string)
    requires forall i :: 0 <= i < |names| ==> '\n' !in names[i]
    requires adders == Join(AddLines(names), "\n    ")
    ensures Lines(adders + "\n" + closing) == AdderLines(names) + Lines(closing)
  {
    var ls := AdderLines(names);
    if |names| == 0 {
      LinesCons("", closing);
    } else {
      JoinIndented(AddLines(names), "", "    ");
      assert "\n" + "    " == "\n    ";
      assert ls == seq(|names|, i requires 0 <= i < |names| => (if i == 0 then "" else "    ") + AddLines(names)[i]);
      assert adders == Join(ls, "\n");
      forall i | 0 <= i < |ls|
        ensures '\n' !in ls[i] && StripCR(ls[i]) == ls[i]
      {
        AddLineShape(names[i], if i == 0 then "" else "    ");
      }
      LinesOfJoined(ls);
      LinesAppend(adders + "\n", closing);
    }
  }

  lemma AddLineShape(name: string, ind: string)
    requires '\n' !in name && '\n' !in ind
    ensures '\n' !in ind + AddLine(name) && StripCR(ind + AddLine(name)) == ind + AddLine(name)
  {
    var l := ind + AddLine(name);
    assert l[|l| - 1] == ';';
  }

  // ---------------------------------------------------------------------------
  // Cargo.toml

  const CargoPackage := "[package]\nname = \"rustify_ml_ext\"\n" + "version = \"0.1.0\"\nedition = \"2024\"\n\n"
  const LibSection := "[lib]\nname = \"rustify_ml_ext\"\n"
  const CrateType := "crate-type = [\"cdylib\"]"
  const CargoLib := LibSection + CrateType + "\n\n"
  const Pyo3Dependency := "pyo3 = { version = \"0.21\", " + "features = [\"extension-module\"] }"
  const CargoDependencies := "[dependencies]\n" + Pyo3Dependency + "\n"
  const NumpyDependency := "numpy = \"0.21\"\n"

  /** `render_cargo_toml_with_options`. */
  function RenderCargoToml(nd: bool): string {
    CargoPackage + CargoLib + CargoDependencies + (if nd then NumpyDependency else "")
  }

  /** The manifest always builds a `cdylib` against pyo3 0.21 with
      `extension-module`, and ends with the numpy dependency exactly in
      ndarray mode. */
  lemma CargoManifest(nd: bool)
    ensures Contains(RenderCargoToml(nd), CrateType)
    ensures Contains(RenderCargoToml(nd), Pyo3Dependency)
    ensures EndsWith(RenderCargoToml(nd), NumpyDependency) <==> nd
  {
    var dep := if nd then NumpyDependency else "";
    ContainsInSecond(CargoPackage, LibSection, CrateType, "\n\n", CargoDependencies + dep);
    assert RenderCargoToml(nd) == CargoPackage + CargoLib + (CargoDependencies + dep);
    ContainsInSecond(CargoPackage + CargoLib, "[dependencies]\n", Pyo3Dependency, "\n", dep);
    if nd {
      EndsWithAppended(CargoPackage + CargoLib + CargoDependencies, NumpyDependency);
    } else {
      assert Pyo3Dependency[|Pyo3Dependency| - 1] == '}';
      assert NumpyDependency[|NumpyDependency| - 2] == '"';
      NotEndsWith(CargoPackage + CargoLib + "[dependencies]\n", Pyo3Dependency, NumpyDependency);
    }
  }

  lemma ContainsInSecond(a: string, b: string, t: string, c: string, d: string)
    ensures Contains(a + (b + t + c) + d, t)
  {
    ContainsMiddle(b, t, c);
    ContainsWithin(a, b + t + c, d, t);
  }

  lemma EndsWithAppended(x: string, y: string)
    ensures EndsWith(x + y, y)
  {
    assert (x + y)[|x + y| - |y|..] == y;
  }

  /** Text ending in `y` and a newline does not end in a `z` whose
      next-to-last character differs from the last of `y`. */
  lemma NotEndsWith(x: string, y: string, z: string)
    requires |y| > 0 && |z| >= 2 && z[|z| - 2] != y[|y| - 1]
    ensures !EndsWith(x + y + "\n" + "", z)
  {
    var s := x + y + "\n" + "";
    assert s[|s| - 2] == y[|y| - 1];
    if |z| <= |s| {
      assert s[|s| - |z|..][|z| - 2] == s[|s| - 2];
    }
  }
}
