# rustify-ml core in Dafny

rustify-ml turns the hot functions of a Python program into a Rust/PyO3
extension crate. This project models:

- **The Python→Rust code generator** under `src/generator/`. This covers:
  - expression rendering (`expr.rs`);
  - parameter and literal type inference, and the vector-length guards (`infer.rs`);
  - the depth-indexed statement and body translator with its `fallback` flag (`translate.rs`);
  - the `#[pyfunction]` text, the `lib.rs` registration table, `Cargo.toml`, and name recovery from a rendered function (`render.rs`);
  - re-scanning an existing `lib.rs` by brace balance, the name-keyed merge, and fallback counting (`mod.rs`).
- **The integer and text kernels:**
  - the BPE encoder and pair counter of the generated extension (`dist/rustify_ml_ext/src/lib.rs`) and of `examples/bpe_tokenizer.py`;
  - that file's vocabulary trainer, `build_vocab`;
  - the greedy longest-match tokenizer of `examples/slow_tokenizer.py`.
- **The windowed vector kernels** of the extension and of `rustify-stdlib`: their output lengths, the indices they read, their error guards, and their sums over exact reals.

Modules, one per file:

| module | file | models |
|---|---|---|
| `Common` | common.dfy | `Option`, and `Result` for `anyhow`/`PyResult` errors |
| `Text` | text.dfy | the Rust `str` operations used (`lines`, `split`, `starts_with`, `contains`, `trim_start`, `join`, `escape_default`) and the brace-balance predicates |
| `PyAst` | pyast.dfy | the subset of the Python AST that the generator matches on |
| `Target` | target.dfy | `TargetSpec` |
| `GenExpr` | genexpr.dfy | `src/generator/expr.rs` |
| `ExprInert` | exprinert.dfy | rendered expressions built from brace-free, `#`-free names and literals are brace-balanced and free of `#` |
| `GenInfer` | geninfer.dfy | `src/generator/infer.rs` |
| `GenTranslate` | gentranslate.dfy | `src/generator/translate.rs` |
| `GenRender` | genrender.dfy | `src/generator/render.rs` |
| `Generator` | generator.dfy | `src/generator/mod.rs` |
| `VecMath` | vecmath.dfy | reference definitions of sums, dot products, windows, differences and prefix sums |
| `ExtKernels` | extkernels.dfy | the windowed kernels of `dist/rustify_ml_ext/src/lib.rs` |
| `StdKernels` | stdkernels.dfy | `rustify-stdlib/src/lib.rs` |
| `Bpe` | bpe.dfy | `bpe_encode` and `count_pairs`, which are the same algorithm in the extension and in `examples/bpe_tokenizer.py` |
| `BpeTokenizer` | bpetokenizer.dfy | `build_vocab` of `examples/bpe_tokenizer.py` |
| `SlowTokenizer` | slowtokenizer.dfy | `examples/slow_tokenizer.py` |

Each loop of the source is a `method` with a `while` or `for` loop, proved equal to a specification function. The properties the source promises are lemmas about those functions.

Foreign pieces are parameters:
- Snake-casing (`heck`) and the `{:?}` display of a constant are fields of a `Formatters` record.
- The f64 `{}` display is the string carried by a float constant.
- The `{:.2}` percent is a string field of `TargetSpec`.
- The square root of `euclidean` is a function argument.
- The Python source arrives already parsed, as `Option<seq<Stmt>>`, where `None` stands for a parse failure.
- The old `lib.rs` arrives as `Option<string>`, where `None` means there was no file.

Where the code and its own unit tests disagree, the model follows the code (see "Where the code and its tests disagree" below).

## Model

| member | source | states |
|---|---|---|
| GenExpr.ExprToRust | src/generator/expr.rs:9-98 | `expr_to_rust`, arm by arm; its lemmas below state the catch-all arms, the documented renderings and the unit examples, and `ExprInert.ExprSafe` states that inert inputs render inert |
| GenExpr.TranslateForIter | src/generator/expr.rs:122-140 | a `for` iterator; `GenExpr.ForIterAgrees` relates it to `expr_to_rust`, and `ExprInert.ForIterSafe` states that it keeps inert inputs inert |
| GenExpr.TranslateWhileTest | src/generator/expr.rs:148-175 | a `while` test; `GenExpr.WhileTestIsExpr` proves it equal to `expr_to_rust` on every expression |
| GenExpr.UnmappedOperatorIsAdd | src/generator/expr.rs:51-65 | every binary operator other than `+ - * / **` renders exactly as `+` would |
| GenExpr.UnaryCatchAll | src/generator/expr.rs:13-20 | unary `+` and `~` share the catch-all arm, which renders `-x`, not `x`, and differs from unary minus's `-(x)` |
| GenExpr.UnmappedComparisonIsLt | src/generator/expr.rs:66-79 | every comparison operator other than `== != < <= > >=` renders exactly as `<` would |
| GenExpr.UnsupportedForms | src/generator/expr.rs:21-96 | a chained or empty comparison, an empty `and`/`or` and a list comprehension all render as the unsupported-expression marker |
| GenExpr.FallbackCallDropsArgs | src/generator/expr.rs:29-50 | a call none of the built-in arms matches renders the same whatever its arguments |
| GenExpr.FloatLiteral | src/generator/expr.rs:105-112 | the rendering starts with the display string and always contains `.` or `e`; it equals the display exactly when the display already has one of them |
| GenExpr.ConstantToRust | src/generator/expr.rs:101-118 | a float renders as its float literal; a string renders between double quotes and contains no newline |
| GenExpr.RenderAll | src/generator/expr.rs:26 | `map(expr_to_rust)`: one rendering per element, in order |
| GenExpr.TranslateLenGuard | src/generator/expr.rs:179-198 | gives a guard exactly for a single `==` or `!=` comparison |
| GenExpr.LenGuardCondition | src/generator/expr.rs:179-198 | the guard is `if <rendered comparison> { return Err(..length..) }` |
| GenExpr.GuardHasMessage | src/generator/expr.rs:179-198 | every guard starts with `if <cond> ` and carries the "Vectors must be same length" message |
| GenExpr.WhileTestIsExpr | src/generator/expr.rs:148-175 | `translate_while_test(e) == expr_to_rust(e)` for every expression, by induction through `not` |
| GenExpr.ForIterAgrees | src/generator/expr.rs:122-140 | `range(a, b)` gives `a..b`, although `expr_to_rust` renders the same call as the call-fallback marker; every other iterator renders as `expr_to_rust` does |
| GenExpr.FloatLiteralIdempotent | src/generator/expr.rs:105-112 | appending `.0` is needed at most once: the literal of a literal is itself |
| GenExpr.PowIsPowf | src/generator/expr.rs:59-61 | exponentiation always renders as `(l).powf(r)` |
| GenExpr.EscapeNoNewline | src/generator/expr.rs:114 | `escape_default` never leaves a newline in a string literal |
| GenExpr.RangeAndLen | src/generator/mod.rs:194-226 | the unit examples: `range(10)` gives `0..10` and `len(a)` gives `a.len()` |
| GenExpr.PowOfName | src/generator/mod.rs:228-245 | the unit example: `x ** 2` gives `(x).powf(2)` |
| ExprInert.ConstantSafe | src/generator/expr.rs:101-118 | a constant without braces or `#` renders brace-balanced and free of `#` and carriage returns |
| ExprInert.EscapeSafe | src/generator/expr.rs:114 | `escape_default` of such a string keeps it brace-balanced and free of `#` |
| ExprInert.ExprSafe | src/generator/expr.rs:9-98 | an expression whose names, attributes and literals are free of braces, `#` and carriage returns renders brace-balanced and free of both |
| ExprInert.ForIterSafe | src/generator/expr.rs:122-140 | the same holds for a `for` iterator |
| ExprInert.WhileTestSafe | src/generator/expr.rs:148-175 | the same holds for a `while` test |
| ExprInert.LenGuardSafe | src/generator/expr.rs:179-198 | the same holds for a length guard |
| GenInfer.TypeFromName | src/generator/infer.rs:51-56 | `usize` exactly for window, k, n, m, length, size, count and steps; `Vec<f64>` otherwise |
| GenInfer.TypeFromAnnotation | src/generator/infer.rs:28-45 | `int` maps to `usize` and `float` to `f64`, both if and only if; `np.*`/`numpy.*` maps to the numpy array view, also if and only if; anything else maps to `Vec<f64>` |
| GenInfer.InferParams | src/generator/infer.rs:6-18 | one entry per positional parameter, with the same names in the same order |
| GenInfer.InferredParams | src/generator/infer.rs:6-18 | every inferred type is one of the four known types; an unannotated parameter is typed by its name |
| GenInfer.AssignType | src/generator/infer.rs:61-70 | `: f64` exactly for a float literal, `: i64` exactly for an int literal, and empty otherwise |
| GenInfer.VecParamNames | src/generator/infer.rs:81-85 | the filter keeps at most all names; it keeps all of them when every type qualifies and none when no type does |
| GenInfer.VecNamesLength | src/generator/infer.rs:81-85 | exactly one name is kept per qualifying parameter |
| GenInfer.VecNamesPrefix | src/generator/infer.rs:81-85 | the names kept from a prefix of the parameters begin the names kept from all of them |
| GenInfer.VecNamesComplete | src/generator/infer.rs:81-85 | every qualifying parameter is kept, at the position given by the number of qualifying parameters before it, so the names come in parameter order and none is skipped |
| GenInfer.VecNamesFrom | src/generator/infer.rs:81-85 | every kept name belongs to a parameter whose type contains `Vec<` or `[f64]` |
| GenInfer.VecTypeIsVec | src/generator/infer.rs:83 | of the inferred types, only `Vec<f64>` qualifies; `usize`, `f64` and the numpy view never do |
| GenInfer.AvoidsVecMarkers | src/generator/infer.rs:83 | a type with no `V` and no `[` never qualifies |
| GenInfer.CheckList | src/generator/infer.rs:93-99 | one guard per later vector, the i-th comparing the first vector with the (i+1)-th |
| GenInfer.LenChecks | src/generator/infer.rs:87-89 | no guards exactly when fewer than two parameters qualify |
| GenInfer.ChecksMention | src/generator/infer.rs:91-100 | the guard text names every pair `first`/`other` and carries "length mismatch" |
| GenInfer.LenChecksSafe | src/generator/infer.rs:94-98 | with brace-free names the guard text is brace-balanced |
| GenInfer.RenderLenChecks | src/generator/infer.rs:80-101 | the `push_str` loop builds exactly the guards that `LenChecks` specifies |
| GenInfer.TwoVectors | src/generator/mod.rs:249-258 | the unit example: two vector parameters give exactly one guard, comparing the first with the second |
| GenTranslate.StmtInner | src/generator/translate.rs:177-332 | a statement has no translation exactly when it is of an unhandled kind or an assignment without targets |
| GenTranslate.BodyInner | src/generator/translate.rs:100-173 | no translation exactly for an empty block; the return type is always `f64` |
| GenTranslate.TranslateBodyInner | src/generator/translate.rs:100-173 | the range-loop template or the generic statement loop, equal to `BodyInner` |
| GenTranslate.TranslateStatements | src/generator/translate.rs:144-162 | the loop that pushes the lines and sets `had_unhandled` computes the specified fold over the statement lines |
| GenTranslate.PushLine | src/generator/translate.rs:148-161 | one step: the indented line, a newline added unless the line already ends in one, or the unhandled marker with the flag raised |
| GenTranslate.ChunkOfLine | src/generator/translate.rs:150-154 | a newline is appended exactly when the line does not already end with one |
| GenTranslate.UnhandledIff | src/generator/translate.rs:146-161 | the flag is raised exactly when some line has no translation |
| GenTranslate.LoopEndsWithNewline | src/generator/translate.rs:147-162 | the generic text of a non-empty block always ends with a newline |
| GenTranslate.ChunkOccurs | src/generator/translate.rs:147-161 | every translated statement appears in the text, indented to its depth |
| GenTranslate.StatementOccurs | src/generator/translate.rs:144-171 | the same holds for a translated body |
| GenTranslate.BodyFallback | src/generator/translate.rs:144-171 | a body falls back exactly when it is not the top-level range loop and some statement at this level is untranslatable; nested flags are discarded |
| GenTranslate.BodyEnding | src/generator/translate.rs:164-166 | `Ok(total)` ends the top-level body; a nested body ends with a newline |
| GenTranslate.RangeLoopDropsRest | src/generator/translate.rs:107-142 | a leading `for v in range(x)` at depth 1 discards the remaining statements and never falls back |
| GenTranslate.FindFunction | src/generator/translate.rs:34-37 | none exactly when no top-level definition has the target name; otherwise the first one that does |
| GenTranslate.TranslateFunctionBody | src/generator/translate.rs:33-93 | no translation exactly when the target is not defined at top level |
| GenTranslate.TranslateFunction | src/generator/translate.rs:33-93 | the method, which pushes the default `data` parameter, equals `TranslateFunctionBody` |
| GenTranslate.TranslationParams | src/generator/translate.rs:39-42 | the parameters are never empty: the inferred ones, or `data: Vec<f64>` for a zero-parameter definition |
| GenTranslate.TranslationReturnType | src/generator/translate.rs:45-93 | `Vec<f64>` exactly for a leading `return <name>` or an empty body; `f64` otherwise |
| GenTranslate.TranslationFallback | src/generator/translate.rs:45-93 | fallback exactly for an empty body, or, past the two fast paths and the range template, when some statement is untranslatable |
| GenTranslate.AugSymbolAgrees | src/generator/translate.rs:261-271 | `+ - * /` map to `+= -= *= /=`, and every other operator maps to `+=` |
| GenTranslate.ForIgnoresElse | src/generator/translate.rs:244-260 | a for loop's `else` branch never changes its translation |
| GenTranslate.EqualityIfIsGuard | src/generator/translate.rs:302-305 | an `if` over a single `==`/`!=` becomes the length guard; its body and else branch are dropped |
| GenTranslate.FloatInit | src/generator/translate.rs:233-242 | `x = 0.0` gives `let mut x: f64 = <float literal>;` |
| GenTranslate.SubscriptStoreFirst | src/generator/translate.rs:181-186 | a subscript target is tried first: `a[i] = v;` whatever `v` is |
| GenTranslate.ListInitFill | src/generator/translate.rs:199-203 | `f64` is appended to a list-initialiser fill exactly when the fill contains `.`, and any other fill is kept unchanged |
| GenTranslate.ListInitAssign | src/generator/translate.rs:187-209 | `t = [x] * n` becomes `let mut t = vec![xf64; n];` when `x` renders with a `.`, and `vec![x; n]` otherwise; a target that is not a name is called `result` |
| GenTranslate.ForHasBody | src/generator/translate.rs:244-260 | a for loop renders `for <target> in <iter> ` followed by its translated body |
| GenTranslate.ForLoopOccurs | src/generator/translate.rs:244-260 | a loop of a generic top-level body appears in the body's text with its `for <target> in <iter>` head |
| GenTranslate.AccumulationOccurs | src/generator/translate.rs:261-271 | an augmented assignment inside such a loop appears in the body's text as `<target> <op>= ` |
| GenTranslate.GenericFunction | src/generator/translate.rs:33-93 | a module holding one definition with parameters, whose body does not start with `return <name>` or `return <constant>`, translates to the inferred parameters and the generic body translation |
| GenTranslate.TwoVectorFunction | src/generator/translate.rs:33-93 | such a definition with two parameters not named like sizes gets them both as `Vec<f64>` |
| GenTranslate.ThreeStatementsTranslate | src/generator/translate.rs:144-171 | a top-level body of three translatable statements has return type `f64` and does not fall back |
| GenTranslate.DotProductTranslates | src/generator/mod.rs:392-409 | the `dot_product(a, b)` of the unit test translates, for any two such parameter names, with `Vec<f64>` parameters, return type `f64`, no fallback, `for i in 0..` and `total += ` in the body |
| GenTranslate.EuclideanTranslates | src/generator/mod.rs:262-283 | the same for the `euclidean(p1, p2)` of the unit test |
| GenRender.ApplyOverrides | src/generator/render.rs:30-47 | the in-place overrides for `count_pairs` and `bpe_encode`; every other target is unchanged |
| GenRender.RewriteParams | src/generator/render.rs:50-56 | the `&mut` loop computes the ndarray rewrite of the parameter list |
| GenRender.NdarrayRewrite | src/generator/render.rs:50-56 | names are kept; exactly the `Vec<f64>` types become the numpy view, and no `Vec<f64>` is left |
| GenRender.RenderingOf | src/generator/render.rs:77-90 | the rendered `#[pyfunction]` text and fallback flag of a translation; `GenRender.ExtractRendered` reads its name back, `GenRender.RenderFlag` states its flag, and `GenRender.RenderGuards` its guard |
| GenRender.RenderFunction | src/generator/render.rs:16-93 | the rendered text and flag equal the specified rendering of the target |
| GenRender.RenderTranslated | src/generator/render.rs:30-92 | the overrides, rewrite, guards and text, applied to a given translation |
| GenRender.RenderEcho | src/generator/render.rs:22-28 | a missing function gets the echo stub (`data: Vec<f64>`, or the numpy view in ndarray mode; `Vec<f64>`; `Ok(data)`) and reports fallback |
| GenRender.BaseFallback | src/generator/render.rs:22-28 | the flag is the translation's own, or true when the function is missing |
| GenRender.RenderFlag | src/generator/render.rs:30-92 | the reported flag is the translation's `fallback`, except that `count_pairs` and `bpe_encode` always report false |
| GenRender.RenderGuards | src/generator/render.rs:50-62 | ndarray mode emits no guard and uses the rewritten parameters; otherwise there is no guard exactly when fewer than two parameters are vectors |
| GenRender.BpeEncodeGuarded | src/generator/render.rs:37-62 | outside ndarray mode, the `bpe_encode` override (`text: Vec<u8>`, `merges: Vec<f64>`) gets the guard comparing `text` with `merges`, its message is in the rendered text, and the body is the placeholder loop; ndarray mode has no guard |
| GenRender.GuardInFunctionText | src/generator/render.rs:77-90 | the guard text sits inside the rendered function text |
| GenRender.ExtractFnName | src/generator/render.rs:143-150 | `extract_fn_name`; `GenRender.FirstFnNameSpec` states what it returns and `GenRender.ExtractRendered` that it inverts the rendering |
| GenRender.FirstFnNameSpec | src/generator/render.rs:143-150 | the text up to `(` of the first line starting with `pub fn `, or `generated` when there is no such line |
| GenRender.NameHasNoNewline | src/generator/render.rs:143-150 | an extracted name never contains a newline |
| GenRender.ExtractFromFunctionText | src/generator/render.rs:77-80 | the name is read back from the third line of any text of the rendered shape |
| GenRender.ExtractRendered | src/generator/render.rs:77-90 | round trip: `extract_fn_name` of the rendered text is the snake-cased target name, when name, percent and reason have no newline and the snake name has no `(` |
| GenRender.RenderLibRs | src/generator/render.rs:96-116 | the `lib.rs` text; `GenRender.LibLines` states its lines and `Generator.RescanRendered` that re-scanning it gives the functions back |
| GenRender.LibLines | src/generator/render.rs:96-116 | the lines of `lib.rs`: the header (`use numpy;` exactly in ndarray mode), the functions, then one `add_function` line per function, in order |
| GenRender.RenderCargoToml | src/generator/render.rs:119-139 | the `Cargo.toml` text; `GenRender.CargoManifest` states what it always declares and when it adds numpy |
| GenRender.CargoManifest | src/generator/render.rs:119-140 | the manifest always declares `cdylib` and pyo3 with `extension-module`, and ends with the numpy dependency exactly in ndarray mode |
| Generator.DetectsNumpy | src/generator/mod.rs:32-34 | numpy detection; `Generator.DetectsNumpyGrows` and `Generator.NumpyImportDetected` state its properties |
| Generator.DetectsNumpyGrows | src/generator/mod.rs:32-34 | numpy detection is preserved when text is added on either side |
| Generator.NumpyImportDetected | src/generator/mod.rs:32-34 | a source starting with `import numpy as np` is detected |
| Generator.Step | src/generator/mod.rs:43-69 | one line of the brace scan; `Generator.OpenBlock`, `Generator.CutBlock`, `Generator.MarkerDiscards` and `Generator.Outside` state its cases |
| Generator.Scan | src/generator/mod.rs:37-72 | the brace scan over all lines; `Generator.BlocksStartWithMarker`, `Generator.OpenBlockDropped` and `Generator.RescanRendered` state what it finds |
| Generator.ParseExistingFunctions | src/generator/mod.rs:37-72 | the line loop computes the specified brace scan over the lines of the old `lib.rs` |
| Generator.BlocksAtMostMarkers | src/generator/mod.rs:43-52 | blocks found, plus a block still open, number at most the marker lines |
| Generator.BlocksStartWithMarker | src/generator/mod.rs:43-52 | every block's first line is a `#[pyfunction]` marker, and there are at most as many blocks as markers |
| Generator.OpenBlock | src/generator/mod.rs:54-63 | after a marker, lines that never close the block are collected with the running balance and the `seen_open` flag |
| Generator.CutBlock | src/generator/mod.rs:64-68 | the block is cut at the first line after which a brace was seen and the balance is at most zero |
| Generator.MarkerDiscards | src/generator/mod.rs:45-51 | a new marker discards an unclosed block and starts afresh |
| Generator.OpenBlockDropped | src/generator/mod.rs:37-72 | a block still open at the end of the input is dropped |
| Generator.Outside | src/generator/mod.rs:54 | outside a block, lines without a marker are ignored |
| Generator.RescanRendered | src/generator/mod.rs:37-72 | re-scanning `render_lib_rs_with_options(fs)` gives back every `f` without its final newline, in order, when each `f` is one well-formed block |
| Generator.Merged | src/generator/mod.rs:125-146 | the name-keyed merge of old blocks and new renderings; `Generator.MergedNames`, `Generator.OldOnlyKept`, `Generator.LastTargetWins` and `Generator.MergedKeyedByName` state what it holds |
| Generator.MergedNames | src/generator/mod.rs:125-146 | the merged names are the old block names together with the new target names |
| Generator.OldOnlyKept | src/generator/mod.rs:132-135 | a name that only an old block has keeps that block (its last one) |
| Generator.LastTargetWins | src/generator/mod.rs:139-146 | a name that a target renders takes the last such target's rendering |
| Generator.MergedKeyedByName | src/generator/mod.rs:125-146 | every merged entry is stored under its own extracted name |
| Generator.FallbackCountBounds | src/generator/mod.rs:138-145 | the count is at most the number of targets; it equals it exactly when all fell back, and is zero exactly when none did |
| Generator.InsertExisting | src/generator/mod.rs:132-135 | the first loop inserts every old block under its extracted name |
| Generator.InsertRendered | src/generator/mod.rs:138-146 | the second loop inserts every rendering under its name and counts, repeats included, the renders that fell back |
| Generator.ListValues | src/generator/mod.rs:148 | the functions are the map's values, each once, in some enumeration order of its keys |
| Generator.ListedNames | src/generator/mod.rs:148 | the names of the listed functions are exactly the map's keys, and no function is listed twice |
| Generator.GenerateWithOptions | src/generator/mod.rs:94-172 | no targets gives the "no targets" error and a parse failure gives the parse error; otherwise the result holds the merged functions in any order, the fallback count, and the `lib.rs` and `Cargo.toml` texts rendered in ndarray mode exactly when ML mode is on and numpy is detected |
| Generator.Generate | src/generator/mod.rs:75-82 | the errors and the result of `generate_with_options` with ML mode off: the merged functions in any order, the fallback count, and the `lib.rs` and `Cargo.toml` texts, never in ndarray mode |
| Generator.GenerateMl | src/generator/mod.rs:85-92 | the same with ML mode on: ndarray mode exactly when the source mentions numpy |
| VecMath.WindowInBounds | dist/rustify_ml_ext/src/lib.rs:88-91 | every `signal[i + j]` a windowed loop reads is in bounds |
| VecMath.Convolution | dist/rustify_ml_ext/src/lib.rs:86 | `out_len` outputs: `n - k + 1` when `n >= k`, otherwise none |
| VecMath.WindowMeans | dist/rustify_ml_ext/src/lib.rs:101 | `n - w + 1` outputs when `n >= w`, otherwise none |
| VecMath.Differences | dist/rustify_ml_ext/src/lib.rs:116 | `n - 1` outputs, none for an empty signal |
| VecMath.PrefixSums | dist/rustify_ml_ext/src/lib.rs:126 | one output per sample |
| VecMath.MeansAreConvolution | dist/rustify_ml_ext/src/lib.rs:98-111 | a moving average is the convolution with a kernel of ones, divided by the window |
| VecMath.DotSymmetric | rustify-stdlib/src/lib.rs:27-31 | the dot product is symmetric |
| VecMath.SqDistSymmetric | rustify-stdlib/src/lib.rs:11-19 | the summed squared differences are symmetric |
| VecMath.SqDistNonNegative | rustify-stdlib/src/lib.rs:11-19 | they are non-negative, and zero from a point to itself |
| VecMath.DiffOfCumsum | dist/rustify_ml_ext/src/lib.rs:113-133 | `diff(cumsum(s))` is `s` without its first sample |
| VecMath.CumsumOfDiff | dist/rustify_ml_ext/src/lib.rs:113-133 | `cumsum(diff(s))[i]` is `s[i + 1] - s[0]` |
| VecMath.Telescopes | dist/rustify_ml_ext/src/lib.rs:113-121 | the first `m` differences sum to `s[m] - s[0]` |
| ExtKernels.Convolve1d | dist/rustify_ml_ext/src/lib.rs:82-96 | the buffer holds each window's dot product with the kernel |
| ExtKernels.MovingAverage | dist/rustify_ml_ext/src/lib.rs:98-111 | the buffer holds the mean of every full window |
| ExtKernels.Diff | dist/rustify_ml_ext/src/lib.rs:113-121 | the buffer holds the neighbour differences |
| ExtKernels.Cumsum | dist/rustify_ml_ext/src/lib.rs:123-133 | the buffer holds the running totals |
| ExtKernels.RunningMeans | dist/rustify_ml_ext/src/lib.rs:68-69 | one output per input value |
| ExtKernels.RunningMean | dist/rustify_ml_ext/src/lib.rs:66-80 | each output is the mean of the trailing window `start..=i`, or 0.0 when that range is empty |
| ExtKernels.RunningMeanCount | dist/rustify_ml_ext/src/lib.rs:70-76 | the range holds `min(window, i + 1)` values, and is empty exactly when the window is 0 |
| ExtKernels.RunningMeanZeroWindow | dist/rustify_ml_ext/src/lib.rs:77 | with a zero window, every output takes the 0.0 branch |
| ExtKernels.RunningMeanIsMovingAverage | dist/rustify_ml_ext/src/lib.rs:66-80 | once a full window fits, the running mean is the moving average of the window ending at `i` |
| StdKernels.Euclidean | rustify-stdlib/src/lib.rs:7-20 | an error exactly when the lengths differ, carrying "length mismatch" |
| StdKernels.EuclideanSymmetric | rustify-stdlib/src/lib.rs:7-20 | the distance is symmetric; the root is taken of a non-negative sum, which is zero from a point to itself |
| StdKernels.DotProduct | rustify-stdlib/src/lib.rs:23-32 | the "length mismatch" error exactly for different lengths; otherwise the dot product |
| StdKernels.MovingAverage | rustify-stdlib/src/lib.rs:35-52 | a zero window is refused first, then a signal shorter than the window; otherwise the `n - window + 1` window means |
| StdKernels.Convolve1d | rustify-stdlib/src/lib.rs:55-73 | an empty kernel is refused first, then a signal shorter than the kernel; otherwise the `n - k + 1` window dot products |
| StdKernels.BpeEncode | rustify-stdlib/src/lib.rs:76-78 | always succeeds, with at least one value per character |
| StdKernels.BpeEncodeIgnoresMerges | rustify-stdlib/src/lib.rs:76-78 | whatever the merges, the result equals the merging encoder run with no merges |
| StdKernels.BpeEncodeAb | rustify-stdlib/src/lib.rs:118-122 | the unit example: "ab" gives `[97, 98]` |
| StdKernels.UnitTestValues | rustify-stdlib/src/lib.rs:106-116 | over exact reals, the unit examples of the moving average and the convolution |
| Bpe.Utf8Char | examples/bpe_tokenizer.py:25 | a character encodes to 1–4 bytes, a single byte exactly for ASCII, and a lead byte followed by continuation bytes otherwise |
| Bpe.Utf8 | dist/rustify_ml_ext/src/lib.rs:137 | byte values in 0..255, between one and four per character |
| Bpe.Utf8Ascii | examples/bpe_tokenizer.py:25 | ASCII text encodes to its code points |
| Bpe.RankMapLast | examples/bpe_tokenizer.py:28-30 | a pair has a rank exactly when it is in the merges, and it keeps the index of its last occurrence |
| Bpe.RankMapBound | dist/rustify_ml_ext/src/lib.rs:138-141 | every rank is below the number of merges |
| Bpe.BuildRanks | dist/rustify_ml_ext/src/lib.rs:138-141 | the insert loop builds that rank map |
| Bpe.MergeAt | dist/rustify_ml_ext/src/lib.rs:148-152 | a merge writes the new id at `i`, removes `tokens[i + 1]`, keeps everything else, and shortens the tokens by one |
| Bpe.PassFrom | examples/bpe_tokenizer.py:36-46 | a pass never lengthens the tokens; its flag is raised exactly when it merged something, and a pass that merged nothing leaves the tokens as they were |
| Bpe.CleanPass | examples/bpe_tokenizer.py:37-46 | a pass that merged nothing saw no ranked pair from its start on |
| Bpe.Encode | dist/rustify_ml_ext/src/lib.rs:136-159 | the encoder equals the repeated passes over the UTF-8 bytes with the rank map; examples/bpe_tokenizer.py:14-48 is the same algorithm |
| Bpe.MergePasses | dist/rustify_ml_ext/src/lib.rs:142-157 | the nested `while` loops compute those passes, and they terminate |
| Bpe.EncodedIrreducible | dist/rustify_ml_ext/src/lib.rs:142-157 | on exit no adjacent pair of the result has a rank |
| Bpe.EncodedShorter | dist/rustify_ml_ext/src/lib.rs:148-152 | the output is never longer than the bytes |
| Bpe.IrreducibleFixed | examples/bpe_tokenizer.py:33-46 | tokens that have no ranked pair are returned unchanged |
| Bpe.EncodeNoMerges | examples/bpe_tokenizer.py:33-46 | with no merges, the result is the UTF-8 bytes |
| Bpe.EncodeHi | dist/rustify_ml_ext/src/lib.rs:137 | "hi" with no merges gives `[104, 105]` |
| Bpe.PassInRange | dist/rustify_ml_ext/src/lib.rs:149 | a pass keeps every token below `256 + |merges|` |
| Bpe.EncodedInRange | dist/rustify_ml_ext/src/lib.rs:142-157 | the same holds for the whole encoding |
| Bpe.EncodeSummary | examples/bpe_tokenizer.py:14-48 | the result of the UTF-8 bytes is no longer than them, uses ids below `256 + |merges|`, and has no ranked pair left |
| Bpe.LeftToRightNotByRank | examples/bpe_tokenizer.py:32-46 | the passes merge left to right, not lowest rank first: merges `[(2, 3), (1, 2)]` turn `[1, 2, 3]` into `[257, 3]` |
| Bpe.Bump | dist/rustify_ml_ext/src/lib.rs:167-168 | `entry().or_insert(0) += 1` adds the pair to the keys |
| Bpe.CountPairs | dist/rustify_ml_ext/src/lib.rs:161-171 | the counting loop computes the specified pair counts |
| Bpe.CountsAreOccurrences | examples/bpe_tokenizer.py:51-57 | the keys are exactly the adjacent pairs, and each count is that pair's number of occurrences |
| Bpe.CountsOfShort | dist/rustify_ml_ext/src/lib.rs:164 | inputs of length 0 or 1 give an empty map |
| Bpe.CountsSum | dist/rustify_ml_ext/src/lib.rs:164-169 | the counts sum to `len.saturating_sub(1)` |
| Bpe.CountsExample | examples/bpe_tokenizer.py:51-57 | `[1, 2, 1, 2]` gives `{(1, 2): 2, (2, 1): 1}` |
| BpeTokenizer.PairCountsCover | examples/bpe_tokenizer.py:54-56 | every adjacent pair is counted |
| BpeTokenizer.CountsEmpty | examples/bpe_tokenizer.py:66-68 | there are no counts exactly when there are fewer than two tokens |
| BpeTokenizer.CountedIsAdjacent | examples/bpe_tokenizer.py:54-56 | every counted pair occurs adjacently |
| BpeTokenizer.MostFrequentIsMax | examples/bpe_tokenizer.py:69 | the chosen pair is counted, with a count no other pair exceeds |
| BpeTokenizer.MostFrequentIsEarliestMax | examples/bpe_tokenizer.py:69 | ties go to the first-inserted pair: every earlier position holds a pair with a strictly smaller count |
| BpeTokenizer.PickMostFrequent | examples/bpe_tokenizer.py:69 | `max` over the dictionary, in insertion order, gives the most frequent pair |
| BpeTokenizer.ReplacePair | examples/bpe_tokenizer.py:71-82 | the replacement pass computes the specified replacement |
| BpeTokenizer.ReplacedLength | examples/bpe_tokenizer.py:73-82 | the new length is the old length minus the number of non-overlapping left-to-right replacements |
| BpeTokenizer.ReplacesOccurrence | examples/bpe_tokenizer.py:76-78 | a pair that occurs is replaced at least once |
| BpeTokenizer.ReplacedHead | examples/bpe_tokenizer.py:76-81 | the first output is the new id when the tokens start with the pair, and the first token otherwise |
| BpeTokenizer.ReplacedRemovesPair | examples/bpe_tokenizer.py:71-82 | with a fresh id the pair no longer occurs |
| BpeTokenizer.ReplacedInRange | examples/bpe_tokenizer.py:71-82 | ids stay below a bound above the new id |
| BpeTokenizer.Training | examples/bpe_tokenizer.py:65-70 | at most `num_merges` pairs, and fewer only when fewer than two tokens remain |
| BpeTokenizer.RoundRemovesPair | examples/bpe_tokenizer.py:69-82 | a round whose new id is `256 +` the merges learned so far shortens the tokens, keeps every id below the next free one, and leaves the best pair absent |
| BpeTokenizer.TrainRound | examples/bpe_tokenizer.py:66-82 | one round stops exactly when there are fewer than two tokens; otherwise it picks the most frequent pair and replaces it |
| BpeTokenizer.Train | examples/bpe_tokenizer.py:62-84 | the round loop learns the specified merges from the bytes |
| BpeTokenizer.BuildVocab | examples/bpe_tokenizer.py:60-84 | `build_vocab` learns those merges from the UTF-8 bytes of the text |
| SlowTokenizer.Cap | examples/slow_tokenizer.py:13 | the first length tried is `min(10, len(text) - i)`: in bounds, and at least 1 inside the text |
| SlowTokenizer.LongestMatch | examples/slow_tokenizer.py:13-19 | the longest key at `i` no longer than the cap, or 0; no longer length up to the cap is a key |
| SlowTokenizer.SearchLength | examples/slow_tokenizer.py:13-19 | the descending loop with `break` finds that length |
| SlowTokenizer.Tokenize | examples/slow_tokenizer.py:7-23 | the outer loop emits the specified tokens and terminates |
| SlowTokenizer.PiecesJoin | examples/slow_tokenizer.py:11-22 | the matched pieces join back into the text |
| SlowTokenizer.PiecesMatchTokens | examples/slow_tokenizer.py:15-21 | one piece per token, 1–10 characters each; each token is its piece's id, or 0 |
| SlowTokenizer.TokensArePieces | examples/slow_tokenizer.py:9-23 | the tokens segment the whole text |
| SlowTokenizer.TokensFromVocab | examples/slow_tokenizer.py:15-21 | every token is 0 or the id of a key that occurs in the text |
| SlowTokenizer.TokensLength | examples/slow_tokenizer.py:11-22 | `i` advances by 1 to 10 each step, so there are between `len/10` and `len` tokens |
| SlowTokenizer.EmptyVocab | examples/slow_tokenizer.py:20-21 | with an empty vocabulary, every character gives the unknown token 0 |
| SlowTokenizer.FirstTokenIsLongest | examples/slow_tokenizer.py:13-19 | the first token is the longest key at the start |

## Where the code and its tests disagree

The model follows `src/generator/translate.rs` in three places where the unit tests in `src/generator/mod.rs` expect other behaviour. These are known deviations of the code and are not proved as properties:

- `mod.rs:331-350` expects a list comprehension to return `Vec<f64>`. The generic path always returns `f64` (`translate.rs:168-170`); see `GenTranslate.BodyInner` and `GenTranslate.TranslationReturnType`.
- `mod.rs:352-371` expects a tuple return type and `return Ok((..));`. The code renders `return e;` (`translate.rs:286-291`) with return type `f64`.
- `mod.rs:373-390` expects `for … else` to fall back. A for loop's `else` branch is never looked at (`translate.rs:244-260`); see `GenTranslate.ForIgnoresElse`.

In three more places the code does something its comments or its placement do not suggest, and the model follows the code:

- **BPE merge order.** The comment at `examples/bpe_tokenizer.py:32` says merges apply lowest rank first. The pass actually merges any ranked pair left to right (`Bpe.LeftToRightNotByRank`).
- **`bpe_encode`'s override.** `render.rs:37-47` replaces a `bpe_encode` target's parameters with `text: Vec<u8>` and `merges: Vec<f64>` before the guards are rendered. Both types contain `Vec<`, so outside ndarray mode the function rejects every call where the text's length differs from the number of merges. Its body is a placeholder loop that never merges, as its own comment says (`GenRender.BpeEncodeGuarded`).
- **`running_mean`'s `0.0` branch.** It is taken exactly when the window is 0, which makes the range `start..=i` empty (`ExtKernels.RunningMeanCount`, `ExtKernels.RunningMeanZeroWindow`).

## Left out

- Parsing: `rustpython_parser` is foreign, so the AST is an input and a parse failure is `None`.
- Reading the source (`extract_code`), `create_dir_all`, reading and writing `lib.rs` and `Cargo.toml`, and the `tracing` logging in `generate_with_options` are file-system effects. The old `lib.rs` text is an input, and the new texts are returned in the result together with `generated_functions` and `fallback_functions`.
- `heck::to_snake_case`, the `{:?}` display of a constant, the f64 `{}` display and the `{:.2}` percent are foreign formatting. They are parameters, or strings carried by the inputs.
- `GenerateWithOptions`: the order of `HashMap::into_values` is unspecified. The result is stated as the map's values in any enumeration order (a ghost `order`), not as one fixed order.
- `Generator.RescanRendered` takes as a hypothesis that each rendered function is one well-formed block. The step from the inert-rendering lemmas (`ExprInert.ExprSafe`, `ExprInert.ForIterSafe`, `ExprInert.WhileTestSafe`, `ExprInert.LenGuardSafe`, `GenInfer.LenChecksSafe`) to that hypothesis for a whole `RenderingOf` text is not proved. It would need a brace-balance argument over every statement form of the translator.
- `ParseExistingFunctions`: `brace_balance` is an unbounded integer. The i32 overflow after 2^31 unmatched braces is not modelled.
- Floating point: the kernels compute over exact reals, so rounding, NaN and infinities are not modelled.
- `ExtKernels.MovingAverage`: with window 0 the source divides 0.0 by 0 and gives NaN for each of its `n + 1` outputs. The model gives 0.0 for them instead, because reals have no NaN; the output length is still exact.
- `StdKernels.Euclidean`: the square root is a parameter, so only its argument, the summed squared differences, is constrained.
- The extension's `euclidean`, `dot_product`, `normalize_pixels`, `standard_scale`, `min_max_scale` and `l2_normalize` (`dist/rustify_ml_ext/src/lib.rs:5-64`) are float-only loops without index or error logic beyond what `VecMath` and `StdKernels` already state.
- `Bpe.MergePasses`: the token vector is a `seq` value updated by slicing. The in-place `tokens[i] =` / `remove(i + 1)` on a `Vec` is not modelled as an array.
- Python dictionary insertion order is modelled through positions in the token list: `BpeTokenizer.MostFrequentIsEarliestMax` states the tie-break as the earliest position.
- Python `str` is a sequence of Unicode scalar values encoded to UTF-8. Lone surrogates, which Python's `encode` rejects, are not modelled.
- `src/generator.rs` is not part of this model. It is an older monolithic copy of the generator that cannot be compiled beside `src/generator/mod.rs` and differs from it.
- `src/profiler.rs`, `src/input.rs`, `src/builder.rs`, `src/main.rs`, `src/analyzer.rs`, `src/utils.rs` and `src/lib.rs` are not part of this model. They are subprocesses, input handling, CLI glue and data carriers.
- The benchmark and harness files, and the other example scripts, are not part of this model.
- The PyO3 module registration functions (`rustify_ml_ext`, `rustify_stdlib`) only register functions and are not modelled.
