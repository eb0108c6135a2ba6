/** Parameter and assignment type inference, `src/generator/infer.rs`, and the
    length guards emitted for vector parameters. */
module GenInfer {
  import opened Common
  import opened Text
  import opened PyAst
  import opened GenExpr
  import opened ExprInert

  /** A parameter name and its Rust type, as `(String, String)` in the source. */
  type Param = (string, string)

  const UsizeType := "usize"
  const FloatType := "f64"
  const VecType := "Vec<f64>"
  const ArrayType := "numpy::PyReadonlyArray1<f64>"

  /** The only types inference ever produces. */
  predicate KnownType(t: string) {
    t == UsizeType || t == FloatType || t == VecType || t == ArrayType
  }

  /** Parameter names read as loop counts or sizes when unannotated. */
  const ScalarNames: set<string> := {"window", "k", "n", "m", "length", "size", "count", "steps"}

  /** `infer_type_from_name`. */
  function TypeFromName(name: string): (t: string)
    ensures t == UsizeType <==> name in ScalarNames
    ensures t == UsizeType || t == VecType
  {
    if name in ScalarNames then UsizeType else VecType
  }

  /** `infer_type_from_annotation`. */
  function TypeFromAnnotation(annotation: Option<Expr>): (t: string)
    ensures KnownType(t)
    ensures t == UsizeType <==> annotation == Some(Name("int"))
    ensures t == FloatType <==> annotation == Some(Name("float"))
    ensures t == ArrayType <==>
      (annotation.Some? && annotation.value.Attribute? && annotation.value.obj.Name? &&
       (annotation.value.obj.id == "np" || annotation.value.obj.id == "numpy"))
  {
    match annotation
    case Some(Name(id)) =>
      if id == "int" then UsizeType else if id == "float" then FloatType else VecType
    case Some(Attribute(obj, attr)) =>
      if obj.Name? && (obj.id == "np" || obj.id == "numpy") then ArrayType
      else if obj.Name? && obj.id == "torch" && attr == "Tensor" then VecType
      else VecType
    case _ => VecType
  }

  /** The type `infer_params` gives one argument: from its annotation if it
      has one, from its name otherwise. */
  function ArgType(a: Arg): string {
    if a.annotation.None? then TypeFromName(a.name) else TypeFromAnnotation(a.annotation)
  }

  /** `infer_params`: one parameter per argument, in order. */
  function InferParams(args: seq<Arg>): (r: seq<Param>)
    ensures |r| == |args|
    ensures forall i :: 0 <= i < |args| ==> r[i] == (args[i].name, ArgType(args[i]))
  {
    if |args| == 0 then [] else InferParams(args[..|args| - 1]) + [(args[|args| - 1].name, ArgType(args[|args| - 1]))]
  }

  /** `infer_assign_type`: the annotation suffix of a `let` for a literal. */
  function AssignType(value: Expr): (r: string)
    ensures r == ": f64" <==> value.Constant? && value.c.CFloat?
    ensures r == ": i64" <==> value.Constant? && value.c.CInt?
    ensures r == "" <==> !(value.Constant? && (value.c.CFloat? || value.c.CInt?))
  {
    match value
    case Constant(CFloat(_)) => ": f64"
    case Constant(CInt(_)) => ": i64"
    case _ => ""
  }

  // ---------------------------------------------------------------------------
  // Length guards

  /** The filter of `render_len_checks`: a vector-like type. */
  predicate IsVecType(t: string) {
    Contains(t, "Vec<") || Contains(t, "[f64]")
  }

  /** The names of the vector-like parameters, in order. */
  function VecParamNames(params: seq<Param>): (r: seq<string>)
    ensures |r| <= |params|
    ensures (forall i :: 0 <= i < |params| ==> IsVecType(params[i].1)) ==>
      r == seq(|params|, i requires 0 <= i < |params| => params[i].0)
    ensures (forall i :: 0 <= i < |params| ==> !IsVecType(params[i].1)) ==> r == []
  {
    if |params| == 0 then []
    else
      var last := params[|params| - 1];
      VecParamNames(params[..|params| - 1]) + (if IsVecType(last.1) then [last.0] else [])
  }

  const MismatchMessage := "length mismatch"

  /** The error return inside one length check (the same shape as a guard's). */
  const MismatchReturn := GuardHead + MismatchMessage + GuardTail

  /** The condition of the check comparing `first` with `other`. */
  function Mismatch(first: string, other: string): string {
    first + ".len() != " + other + ".len()"
  }

  /** The check comparing `first` with `other`. */
  function LenCheck(first: string, other: string): string {
    "    if " + Mismatch(first, other) + " " + Braced(MismatchReturn) + "\n"
  }

  /** The checks comparing `first` with each of `others`, in order. */
  function CheckList(first: string, others: seq<string>): (r: seq<string>)
    ensures |r| == |others|
    ensures forall i :: 0 <= i < |others| ==> r[i] == LenCheck(first, others[i])
  {
    seq(|others|, i requires 0 <= i < |others| => LenCheck(first, others[i]))
  }

  function ChecksAgainst(first: string, others: seq<string>): string {
    Concat(CheckList(first, others))
  }

  /** What `render_len_checks` returns: nothing for fewer than two vector
      parameters, otherwise a check of the first against every other one. */
  function LenChecks(params: seq<Param>): (r: Option<string>)
    ensures r.None? <==> |VecParamNames(params)| < 2
  {
    var v := VecParamNames(params);
    if |v| < 2 then None else Some(ChecksAgainst(v[0], v[1..]))
  }

  /** `render_len_checks`: the loop appending one check per further vector. */
  method RenderLenChecks(params: seq<Param>) returns (r: Option<string>)
    ensures r == LenChecks(params)
  {
    var vecParams := VecParamNames(params);
    if |vecParams| < 2 {
      return None;
    }
    var first := vecParams[0];
    var checks := "";
    var i := 1;
    while i < |vecParams|
      invariant 1 <= i <= |vecParams|
      invariant checks == ChecksAgainst(first, vecParams[1..i])
    {
      assert vecParams[1..i + 1] == vecParams[1..i] + [vecParams[i]];
      ChecksSnoc(first, vecParams[1..i], vecParams[i]);
      checks := checks + LenCheck(first, vecParams[i]);
      i := i + 1;
    }
    assert vecParams[1..i] == vecParams[1..];
    r := Some(checks);
  }

  /** One more vector appends one more check. */
  lemma ChecksSnoc(first: string, others: seq<string>, other: string)
    ensures ChecksAgainst(first, others + [other]) == ChecksAgainst(first, others) + LenCheck(first, other)
  {
    var parts := CheckList(first, others + [other]);
    assert parts[..|others|] == CheckList(first, others);
  }

  // ---------------------------------------------------------------------------
  // Properties

  lemma AvoidsVecMarkers(s: string)
    requires forall i :: 0 <= i < |s| ==> s[i] != 'V' && s[i] != '['
    ensures !IsVecType(s)
  {
    if Contains(s, "Vec<") {
      ContainsFirstChar(s, "Vec<");
    }
    if Contains(s, "[f64]") {
      ContainsFirstChar(s, "[f64]");
    }
  }

  /** Of the inferred types exactly `Vec<f64>` gets length checks; a NumPy array
      parameter never does. */
  lemma VecTypeIsVec(t: string)
    requires KnownType(t)
    ensures IsVecType(t) <==> t == VecType
  {
    if t == VecType {
      assert StartsWith(t, "Vec<");
    } else if t == ArrayType {
      AvoidsVecMarkers(ArrayType);
    } else if t == UsizeType {
      AvoidsVecMarkers(UsizeType);
    } else {
      AvoidsVecMarkers(FloatType);
    }
  }

  /** Parameters keep their names and order, and every type is a known one. */
  lemma InferredParams(args: seq<Arg>)
    ensures forall i :: 0 <= i < |args| ==> InferParams(args)[i].0 == args[i].name
    ensures forall i :: 0 <= i < |args| ==> KnownType(InferParams(args)[i].1)
    ensures forall i :: 0 <= i < |args| && args[i].annotation.None? ==>
      (InferParams(args)[i].1 == UsizeType <==> args[i].name in ScalarNames)
  {
  }

  /** Each check names both vectors and reports the mismatch. */
  lemma {:induction false} ChecksMention(first: string, others: seq<string>, j: nat)
    requires j < |others|
    ensures Contains(ChecksAgainst(first, others), Mismatch(first, others[j]))
    ensures Contains(ChecksAgainst(first, others), MismatchMessage)
    decreases |others|
  {
    var n := |others| - 1;
    ChecksSnoc(first, others[..n], others[n]);
    assert others == others[..n] + [others[n]];
    var prefix := ChecksAgainst(first, others[..n]);
    var check := LenCheck(first, others[n]);
    if j < n {
      ChecksMention(first, others[..n], j);
      assert others[..n][j] == others[j];
      ContainsAppend(prefix, Mismatch(first, others[j]), check);
      ContainsAppend(prefix, MismatchMessage, check);
    } else {
      CheckMentions(first, others[n]);
      ContainsPrepend(prefix, check, Mismatch(first, others[n]));
      ContainsPrepend(prefix, check, MismatchMessage);
    }
  }

  lemma CheckMentions(first: string, other: string)
    ensures Contains(LenCheck(first, other), Mismatch(first, other))
    ensures Contains(LenCheck(first, other), MismatchMessage)
  {
    ContainsSecondOf5("    if ", Mismatch(first, other), " ", Braced(MismatchReturn), "\n");
    ContainsFourthOf5("    if ", Mismatch(first, other), " ", Braced(MismatchReturn), "\n");
    ContainsMiddle("{", MismatchReturn, "}");
    ContainsMiddle(GuardHead, MismatchMessage, GuardTail);
    ContainsTransitive(Braced(MismatchReturn), MismatchReturn, MismatchMessage);
    ContainsTransitive(LenCheck(first, other), Braced(MismatchReturn), MismatchMessage);
  }

  lemma MismatchReturnPlain()
    ensures Plain(MismatchReturn)
  {
    GuardHeadPlain();
    PlainChars(MismatchMessage);
    PlainChars(GuardTail);
  }

  lemma CheckLiteralsPlain()
    ensures Plain("    if ") && Plain(".len() != ") && Plain(".len()") && Plain(" ") && Plain("\n")
  {
    PlainChars("    if ");
    PlainChars(".len() != ");
    PlainChars(".len()");
  }

  lemma MismatchPlain(first: string, other: string)
    requires Plain(first) && Plain(other)
    ensures Plain(Mismatch(first, other))
  {
    CheckLiteralsPlain();
  }

  /** A check between inert names is inert for the block scanner. */
  lemma LenCheckSafe(first: string, other: string)
    requires Plain(first) && Plain(other)
    ensures Safe(LenCheck(first, other))
  {
    CheckLiteralsPlain();
    MismatchReturnPlain();
    MismatchPlain(first, other);
    PlainIsSafe(Mismatch(first, other));
    PlainIsSafe(MismatchReturn);
    SafeBraced(MismatchReturn);
    SafeTemplate5("    if ", Mismatch(first, other), " ", Braced(MismatchReturn), "\n");
  }

  lemma ChecksSafe(first: string, others: seq<string>)
    requires Plain(first) && forall i :: 0 <= i < |others| ==> Plain(others[i])
    ensures Safe(ChecksAgainst(first, others))
  {
    var parts := CheckList(first, others);
    forall i | 0 <= i < |parts| ensures Safe(parts[i]) {
      LenCheckSafe(first, others[i]);
    }
    SafeConcatAll(parts);
  }

  /** The names `VecParamNames` returns are names of the input parameters. */
  lemma {:induction false} VecNamesFrom(params: seq<Param>, k: nat)
    requires k < |VecParamNames(params)|
    ensures exists i :: 0 <= i < |params| && params[i].0 == VecParamNames(params)[k] && IsVecType(params[i].1)
    decreases |params|
  {
    var n := |params| - 1;
    var front := VecParamNames(params[..n]);
    if k < |front| {
      VecNamesFrom(params[..n], k);
      var i :| 0 <= i < n && params[..n][i].0 == front[k] && IsVecType(params[..n][i].1);
      assert params[i] == params[..n][i];
    } else {
      assert params[n].0 == VecParamNames(params)[k];
    }
  }

  /** How many parameters have a vector-like type. */
  function VecCount(params: seq<Param>): nat
    decreases |params|
  {
    if |params| == 0 then 0
    else VecCount(params[..|params| - 1]) + (if IsVecType(params[|params| - 1].1) then 1 else 0)
  }

  /** One name is kept per vector-like parameter. */
  lemma {:induction false} VecNamesLength(params: seq<Param>)
    ensures |VecParamNames(params)| == VecCount(params)
    decreases |params|
  {
    if |params| > 0 {
      VecNamesLength(params[..|params| - 1]);
    }
  }

  /** The names kept from a prefix of the parameters begin the names kept
      from all of them. */
  lemma {:induction false} VecNamesPrefix(params: seq<Param>, j: nat)
    requires j <= |params|
    ensures VecParamNames(params[..j]) <= VecParamNames(params)
    decreases |params| - j
  {
    if j == |params| {
      assert params[..j] == params;
    } else {
      VecNamesPrefix(params, j + 1);
      assert params[..j + 1][..j] == params[..j];
    }
  }

  /** Every vector-like parameter is kept, at the position given by the
      number of vector-like parameters before it: the names come in
      parameter order, none is skipped. */
  lemma VecNamesComplete(params: seq<Param>, i: nat)
    requires i < |params| && IsVecType(params[i].1)
    ensures VecCount(params[..i]) < |VecParamNames(params)|
    ensures VecParamNames(params)[VecCount(params[..i])] == params[i].0
    ensures params[i].0 in VecParamNames(params)
  {
    var p := params[..i + 1];
    VecNamesPrefix(params, i + 1);
    assert p[..i] == params[..i];
    assert p[i] == params[i];
    assert VecParamNames(p) == VecParamNames(params[..i]) + [params[i].0];
    VecNamesLength(params[..i]);
  }

  /** The guards compare inert names only, so they are inert. */
  lemma LenChecksSafe(params: seq<Param>)
    requires forall i :: 0 <= i < |params| ==> Plain(params[i].0)
    requires LenChecks(params).Some?
    ensures Safe(LenChecks(params).value)
  {
    var v := VecParamNames(params);
    forall k | 0 <= k < |v| ensures Plain(v[k]) {
      VecNamesFrom(params, k);
    }
    ChecksSafe(v[0], v[1..]);
  }

  /** Two vector parameters `a`, `b` give the single check reporting a
      mismatch between them. */
  lemma TwoVectors(a: string, b: string)
    ensures LenChecks([(a, VecType), (b, VecType)]) == Some(LenCheck(a, b))
  {
    assert StartsWith(VecType, "Vec<");
    assert IsVecType(VecType);
    TwoVectorParams(a, VecType, b, VecType);
  }

  /** Any two parameters of vector-like types give one check between them. */
  lemma TwoVectorParams(a: string, ta: string, b: string, tb: string)
    requires IsVecType(ta) && IsVecType(tb)
    ensures LenChecks([(a, ta), (b, tb)]) == Some(LenCheck(a, b))
  {
    var params := [(a, ta), (b, tb)];
    assert VecParamNames(params) == [a, b];
    assert [a, b][1..] == [b];
    ChecksSnoc(a, [], b);
    assert [] + [b] == [b];
    assert CheckList(a, []) == [];
    assert ChecksAgainst(a, [b]) == "" + LenCheck(a, b);
    assert "" + LenCheck(a, b) == LenCheck(a, b);
  }
}
