/** The generator's entry point (`src/generator/mod.rs`): numpy detection, the
    brace-balanced re-scan of an existing `lib.rs`, and the name-keyed merge of
    the functions found there with the freshly rendered ones. The file system
    is not modelled: the old `lib.rs` comes in as an optional string and the
    new `lib.rs` and `Cargo.toml` texts come out in the result. */
module Generator {
  import opened Common
  import opened Text
  import opened PyAst
  import opened Target
  import opened GenRender

  // ---------------------------------------------------------------------------
  // numpy detection

  /** `detects_numpy`: the source mentions numpy in one of three spellings. */
  predicate DetectsNumpy(code: string) {
    Contains(code, "import numpy") || Contains(code, "from numpy") || Contains(code, "import np")
  }

  /** ndarray mode needs both the ML flag and a numpy import. */
  predicate UseNdarray(mlMode: bool, code: string) {
    mlMode && DetectsNumpy(code)
  }

  /** Once some part of the source mentions numpy, the whole source does:
      adding code before or after never switches detection off. */
  lemma DetectsNumpyGrows(a: string, b: string)
    ensures DetectsNumpy(a) ==> DetectsNumpy(a + b)
    ensures DetectsNumpy(b) ==> DetectsNumpy(a + b)
  {
    var pats := ["import numpy", "from numpy", "import np"];
    forall p | p in pats
      ensures Contains(a, p) ==> Contains(a + b, p)
      ensures Contains(b, p) ==> Contains(a + b, p)
    {
      if Contains(a, p) {
        ContainsAppend(a, p, b);
      }
      if Contains(b, p) {
        ContainsPrepend(a, b, p);
      }
    }
  }

  /** A source that starts with `import numpy as np` is detected. */
  lemma NumpyImportDetected(rest: string)
    ensures DetectsNumpy("import numpy as np\n" + rest)
  {
    var s := "import numpy as np\n" + rest;
    assert s[..12] == "import numpy";
    assert StartsWith(s, "import numpy");
  }

  // ---------------------------------------------------------------------------
  // Re-scanning an existing lib.rs

  /** A line opening a function block: its trimmed start is `#[pyfunction]`. */
  predicate IsMarker(line: string) {
    StartsWith(TrimStart(line), Marker)
  }

  /** `line.matches('{').count()` and `line.matches('}').count()`. */
  function Opens(line: string): nat {
    multiset(line)['{']
  }

  function Closes(line: string): nat {
    multiset(line)['}']
  }

  /** The scanner's variables: the finished blocks, the lines of the block
      being collected, whether one is open, its brace balance and whether an
      opening brace has been seen in it. The balance is an `i32` in the
      source; it is unbounded here. */
  datatype ScanState = ScanState(funcs: seq<string>, current: seq<string>, inFn: bool,
                                 balance: int, seenOpen: bool)

  const Start := ScanState([], [], false, 0, false)

  /** One iteration of the line loop in `parse_existing_functions`. */
  function Step(st: ScanState, line: string): ScanState {
    if IsMarker(line) then ScanState(st.funcs, [line], true, 0, false)
    else if !st.inFn then st
    else
      var current := st.current + [line];
      var seen := st.seenOpen || Opens(line) > 0;
      var balance := st.balance + Opens(line) - Closes(line);
      if seen && balance <= 0 then ScanState(st.funcs + [Join(current, "\n")], [], false, balance, seen)
      else ScanState(st.funcs, current, true, balance, seen)
  }

  /** The loop run over `lines`, from state `st`. */
  function Run(st: ScanState, lines: seq<string>): ScanState
    decreases |lines|
  {
    if |lines| == 0 then st else Step(Run(st, lines[..|lines| - 1]), lines[|lines| - 1])
  }

  function Scan(lines: seq<string>): ScanState {
    Run(Start, lines)
  }

  /** `parse_existing_functions`: the loop over `lib_rs.lines()`. */
  method ParseExistingFunctions(lib: string) returns (funcs: seq<string>)
    ensures funcs == Scan(Lines(lib)).funcs
  {
    var lines := Lines(lib);
    funcs := [];
    var current: seq<string> := [];
    var inFn := false;
    var balance: int := 0;
    var seenOpen := false;
    var i := 0;
    while i < |lines|
      invariant 0 <= i <= |lines|
      invariant ScanState(funcs, current, inFn, balance, seenOpen) == Scan(lines[..i])
    {
      var line := lines[i];
      assert lines[..i + 1][..i] == lines[..i];
      var trimmed := TrimStart(line);
      if StartsWith(trimmed, Marker) {
        current := [];
        inFn := true;
        balance := 0;
        seenOpen := false;
        current := current + [line];
      } else if inFn {
        current := current + [line];
        var opens := Opens(line);
        var closes := Closes(line);
        if opens > 0 {
          seenOpen := true;
        }
        balance := balance + opens;
        balance := balance - closes;
        if seenOpen && balance <= 0 {
          funcs := funcs + [Join(current, "\n")];
          current := [];
          inFn := false;
        }
      }
      i := i + 1;
    }
    assert lines[..i] == lines;
  }

  /** Running over two stretches of lines is running over the first, then
      the second. */
  lemma {:induction false} RunAppend(st: ScanState, a: seq<string>, b: seq<string>)
    ensures Run(st, a + b) == Run(Run(st, a), b)
    decreases |b|
  {
    if |b| > 0 {
      var b' := b[..|b| - 1];
      assert (a + b)[..|a + b| - 1] == a + b';
      RunAppend(st, a, b');
    } else {
      assert a + b == a;
    }
  }

  /** The number of marker lines. */
  function MarkerCount(lines: seq<string>): nat
    decreases |lines|
  {
    if |lines| == 0 then 0
    else MarkerCount(lines[..|lines| - 1]) + (if IsMarker(lines[|lines| - 1]) then 1 else 0)
  }

  /** Every block, and the open one, was started by its own marker line. */
  lemma {:induction false} BlocksAtMostMarkers(lines: seq<string>)
    ensures |Scan(lines).funcs| + (if Scan(lines).inFn then 1 else 0) <= MarkerCount(lines)
    decreases |lines|
  {
    if |lines| > 0 {
      BlocksAtMostMarkers(lines[..|lines| - 1]);
    }
  }

  /** What the scanner keeps true: the open block starts with a marker line,
      and every finished block is marker-started lines joined by newlines. */
  predicate ScanInvariant(st: ScanState) {
    (st.inFn ==> |st.current| >= 1 && IsMarker(st.current[0])) &&
    (forall i :: 0 <= i < |st.current| ==> '\n' !in st.current[i]) &&
    (forall k :: 0 <= k < |st.funcs| ==> IsMarker(Before(st.funcs[k], '\n')))
  }

  lemma StepKeepsInvariant(st: ScanState, line: string)
    requires ScanInvariant(st) && '\n' !in line
    ensures ScanInvariant(Step(st, line))
  {
    if !IsMarker(line) && st.inFn {
      var current := st.current + [line];
      assert current[0] == st.current[0];
      assert forall i :: 0 <= i < |current| ==> '\n' !in current[i];
      var next := Step(st, line);
      if next.funcs != st.funcs {
        assert next.funcs == st.funcs + [Join(current, "\n")];
        FinishedBlockMarked(current);
      }
    }
  }

  /** A finished block's first line is the marker line that opened it. */
  lemma FinishedBlockMarked(current: seq<string>)
    requires |current| >= 1 && IsMarker(current[0])
    requires forall i :: 0 <= i < |current| ==> '\n' !in current[i]
    ensures IsMarker(Before(Join(current, "\n"), '\n'))
  {
    SplitJoin(current, '\n');
  }

  lemma {:induction false} RunKeepsInvariant(lines: seq<string>)
    requires forall i :: 0 <= i < |lines| ==> '\n' !in lines[i]
    ensures ScanInvariant(Scan(lines))
    decreases |lines|
  {
    if |lines| > 0 {
      RunKeepsInvariant(lines[..|lines| - 1]);
      StepKeepsInvariant(Scan(lines[..|lines| - 1]), lines[|lines| - 1]);
    }
  }

  /** Every block found in a `lib.rs` begins with a `#[pyfunction]` line, and
      there are no more blocks than such lines. */
  lemma BlocksStartWithMarker(lib: string)
    ensures forall k :: 0 <= k < |Scan(Lines(lib)).funcs| ==> IsMarker(Before(Scan(Lines(lib)).funcs[k], '\n'))
    ensures |Scan(Lines(lib)).funcs| <= MarkerCount(Lines(lib))
  {
    LinesHaveNoNewline(lib);
    RunKeepsInvariant(Lines(lib));
    BlocksAtMostMarkers(Lines(lib));
  }

  // ---------------------------------------------------------------------------
  // Where a block is cut

  /** The balance and the "opening brace seen" flag after the lines of a
      block that follow its marker. */
  function Balance(body: seq<string>): int
    decreases |body|
  {
    if |body| == 0 then 0
    else Balance(body[..|body| - 1]) + Opens(body[|body| - 1]) - Closes(body[|body| - 1])
  }

  predicate SeenOpen(body: seq<string>)
    decreases |body|
  {
    |body| > 0 && (SeenOpen(body[..|body| - 1]) || Opens(body[|body| - 1]) > 0)
  }

  /** The cut condition after these lines. */
  predicate Closed(body: seq<string>) {
    SeenOpen(body) && Balance(body) <= 0
  }

  /** The condition holds after no prefix of `body`. */
  predicate NeverClosed(body: seq<string>) {
    forall j :: 1 <= j <= |body| ==> !Closed(body[..j])
  }

  /** The condition first holds after the last line of `body`. */
  predicate ClosesAtEnd(body: seq<string>) {
    |body| > 0 && Closed(body) && NeverClosed(body[..|body| - 1])
  }

  predicate NoMarkers(lines: seq<string>) {
    forall i :: 0 <= i < |lines| ==> !IsMarker(lines[i])
  }

  /** One more line of an open block, in terms of the block's lines. */
  lemma StepInBlock(funcs: seq<string>, m: string, body: seq<string>)
    requires |body| > 0 && !IsMarker(body[|body| - 1])
    ensures var b' := body[..|body| - 1];
      Step(ScanState(funcs, [m] + b', true, Balance(b'), SeenOpen(b')), body[|body| - 1]) ==
        if Closed(body) then ScanState(funcs + [Join([m] + body, "\n")], [], false, Balance(body), SeenOpen(body))
        else ScanState(funcs, [m] + body, true, Balance(body), SeenOpen(body))
  {
    var b' := body[..|body| - 1];
    assert [m] + b' + [body[|body| - 1]] == [m] + body;
  }

  /** Running over a marker and more lines is one step after the shorter run. */
  lemma RunLast(st: ScanState, m: string, body: seq<string>)
    requires |body| > 0
    ensures Run(st, [m] + body) == Step(Run(st, [m] + body[..|body| - 1]), body[|body| - 1])
  {
    var full := [m] + body;
    assert full[..|full| - 1] == [m] + body[..|body| - 1];
  }

  /** Until the cut condition holds, a block keeps collecting lines. */
  lemma {:induction false} OpenBlock(st: ScanState, m: string, body: seq<string>)
    requires IsMarker(m) && NoMarkers(body) && NeverClosed(body)
    ensures Run(st, [m] + body) == ScanState(st.funcs, [m] + body, true, Balance(body), SeenOpen(body))
    decreases |body|
  {
    if |body| > 0 {
      var b' := body[..|body| - 1];
      assert forall j :: 1 <= j <= |b'| ==> b'[..j] == body[..j];
      OpenBlock(st, m, b');
      RunLast(st, m, body);
      StepInBlock(st.funcs, m, body);
      assert body[..|body|] == body;
    } else {
      assert [m] + body == [m];
      assert Run(st, [m][..0]) == st;
    }
  }

  /** A block is cut at the first line after which the condition holds, and
      becomes its lines joined by newlines. */
  lemma CutBlock(st: ScanState, m: string, body: seq<string>)
    requires IsMarker(m) && NoMarkers(body) && ClosesAtEnd(body)
    ensures Run(st, [m] + body) ==
      ScanState(st.funcs + [Join([m] + body, "\n")], [], false, Balance(body), SeenOpen(body))
  {
    var b' := body[..|body| - 1];
    assert forall i :: 0 <= i < |b'| ==> b'[i] == body[i];
    OpenBlock(st, m, b');
    RunLast(st, m, body);
    StepInBlock(st.funcs, m, body);
  }

  /** A new marker discards a block that has not been cut. */
  lemma MarkerDiscards(st: ScanState, m: string, body: seq<string>, m2: string)
    requires IsMarker(m) && IsMarker(m2) && NoMarkers(body) && NeverClosed(body)
    ensures Run(st, [m] + body + [m2]) == ScanState(st.funcs, [m2], true, 0, false)
  {
    OpenBlock(st, m, body);
    assert ([m] + body + [m2])[..|[m] + body + [m2]| - 1] == [m] + body;
  }

  /** A block still open at the end of the text is dropped. */
  lemma OpenBlockDropped(before: seq<string>, m: string, body: seq<string>)
    requires IsMarker(m) && NoMarkers(body) && NeverClosed(body)
    ensures Scan(before + ([m] + body)).funcs == Scan(before).funcs
  {
    RunAppend(Start, before, [m] + body);
    OpenBlock(Scan(before), m, body);
  }

  /** Outside a block, lines that are not markers are skipped. */
  lemma {:induction false} Outside(st: ScanState, lines: seq<string>)
    requires !st.inFn && NoMarkers(lines)
    ensures Run(st, lines) == st
    decreases |lines|
  {
    if |lines| > 0 {
      Outside(st, lines[..|lines| - 1]);
    }
  }

  // ---------------------------------------------------------------------------
  // Re-scanning what the renderer writes

  /** A function text the scanner reads back whole: newline-terminated, no
      carriage return, a marker on its first line and on no other, and a brace
      balance that first returns to zero on its last line. */
  predicate WellFormedBlock(f: string)
    ensures WellFormedBlock(f) ==> |f| > 0
  {
    |f| > 0 && f[|f| - 1] == '\n' && '\r' !in f &&
    var ls := Lines(f);
    |ls| >= 2 && IsMarker(ls[0]) && NoMarkers(ls[1..]) && ClosesAtEnd(ls[1..])
  }

  /** Each function without its final newline. */
  function Trimmed(fs: seq<string>): (r: seq<string>)
    requires forall i :: 0 <= i < |fs| ==> |fs[i]| > 0
    ensures |r| == |fs|
  {
    seq(|fs|, i requires 0 <= i < |fs| => fs[i][..|fs[i]| - 1])
  }

  /** The lines of the functions part of `lib.rs`: each function's lines and
      the empty line the separator and the final newline leave after it. */
  function BlockLines(fs: seq<string>): seq<string>
    decreases |fs|
  {
    if |fs| == 0 then [] else Lines(fs[0]) + [""] + BlockLines(fs[1..])
  }

  lemma NewlineLines(x: string)
    ensures Lines("\n" + x) == [""] + Lines(x)
  {
    LinesCons("", x);
    assert "" + "\n" + x == "\n" + x;
  }

  /** A text whose last character is a newline. */
  predicate NewlineEnded(f: string) {
    |f| > 0 && f[|f| - 1] == '\n'
  }

  lemma {:induction false} FunctionsTextLines(fs: seq<string>)
    requires |fs| >= 1
    requires forall i :: 0 <= i < |fs| ==> NewlineEnded(fs[i])
    ensures Lines(FunctionsText(fs)) == BlockLines(fs)
    decreases |fs|
  {
    assert NewlineEnded(fs[0]);
    if |fs| == 1 {
      LastBlockLines(fs[0]);
      assert FunctionsText(fs) == fs[0] + "\n";
      assert BlockLines(fs) == Lines(fs[0]) + [""] + BlockLines([]);
    } else {
      var rest := fs[1..];
      assert forall i :: 0 <= i < |rest| ==> NewlineEnded(rest[i]) by {
        forall i | 0 <= i < |rest| ensures NewlineEnded(rest[i]) {
          assert rest[i] == fs[i + 1];
        }
      }
      FunctionsTextLines(rest);
      BlockStep(fs[0], rest);
      assert [fs[0]] + rest == fs;
    }
  }

  lemma LastBlockLines(f: string)
    requires NewlineEnded(f)
    ensures Lines(f + "\n") == Lines(f) + [""]
  {
    NewlineLines("");
    assert Lines("") == [];
    LinesAppend(f, "\n");
    assert "\n" + "" == "\n";
  }

  lemma BlockStep(f: string, rest: seq<string>)
    requires NewlineEnded(f) && |rest| >= 1
    requires Lines(FunctionsText(rest)) == BlockLines(rest)
    ensures Lines(FunctionsText([f] + rest)) == BlockLines([f] + rest)
  {
    FunctionsTextCons(f, rest);
    BlockLinesCons(f, rest);
    BlockThenText(f, FunctionsText(rest));
  }

  lemma FunctionsTextCons(f: string, rest: seq<string>)
    requires |rest| >= 1
    ensures FunctionsText([f] + rest) == f + ("\n" + FunctionsText(rest))
  {
    assert ([f] + rest)[1..] == rest;
    assert Join([f] + rest, "\n") == f + "\n" + Join(rest, "\n");
  }

  lemma BlockLinesCons(f: string, rest: seq<string>)
    ensures BlockLines([f] + rest) == Lines(f) + [""] + BlockLines(rest)
  {
    assert ([f] + rest)[1..] == rest;
  }

  lemma BlockThenText(f: string, t: string)
    requires NewlineEnded(f)
    ensures Lines(f + ("\n" + t)) == Lines(f) + [""] + Lines(t)
  {
    LinesAppend(f, "\n" + t);
    NewlineLines(t);
  }

  /** The lines of a well-formed function joined back give the function
      without its final newline. */
  lemma BlockReadBack(f: string)
    requires WellFormedBlock(f)
    ensures Join(Lines(f), "\n") == f[..|f| - 1]
  {
    var x := f[..|f| - 1];
    assert f == x + "\n";
    LinesOfTerminated(x);
    JoinSplit(x, '\n');
  }

  lemma ShortNotMarker(l: string)
    requires |l| < |Marker|
    ensures !IsMarker(l)
  {
  }

  /** One well-formed function and the empty line after it. */
  lemma OneBlock(st: ScanState, f: string)
    requires !st.inFn && WellFormedBlock(f)
    ensures !Run(st, Lines(f) + [""]).inFn
    ensures Run(st, Lines(f) + [""]).funcs == st.funcs + [f[..|f| - 1]]
  {
    var ls := Lines(f);
    assert ls == [ls[0]] + ls[1..];
    CutBlock(st, ls[0], ls[1..]);
    BlockReadBack(f);
    var st1 := Run(st, ls);
    ShortNotMarker("");
    Outside(st1, [""]);
    RunAppend(st, ls, [""]);
  }

  /** Every function of `fs` is well formed, stated one function at a time. */
  predicate AllWellFormed(fs: seq<string>)
    decreases |fs|
  {
    |fs| == 0 || (WellFormedBlock(fs[0]) && AllWellFormed(fs[1..]))
  }

  lemma {:induction false} AllWellFormedEach(fs: seq<string>)
    requires forall i :: 0 <= i < |fs| ==> WellFormedBlock(fs[i])
    ensures AllWellFormed(fs)
    decreases |fs|
  {
    if |fs| > 0 {
      var rest := fs[1..];
      forall i | 0 <= i < |rest|
        ensures WellFormedBlock(rest[i])
      {
        assert rest[i] == fs[i + 1];
      }
      AllWellFormedEach(rest);
    }
  }

  lemma {:induction false} AllWellFormedNonEmpty(fs: seq<string>)
    requires AllWellFormed(fs)
    ensures forall i :: 0 <= i < |fs| ==> |fs[i]| > 0
    decreases |fs|
  {
    if |fs| > 0 {
      AllWellFormedNonEmpty(fs[1..]);
      assert forall i :: 1 <= i < |fs| ==> fs[i] == fs[1..][i - 1];
    }
  }

  lemma {:induction false} RunBlocks(st: ScanState, fs: seq<string>)
    requires !st.inFn && AllWellFormed(fs)
    ensures forall i :: 0 <= i < |fs| ==> |fs[i]| > 0
    ensures !Run(st, BlockLines(fs)).inFn
    ensures Run(st, BlockLines(fs)).funcs == st.funcs + Trimmed(fs)
    decreases |fs|
  {
    AllWellFormedNonEmpty(fs);
    if |fs| == 0 {
      assert st.funcs + Trimmed(fs) == st.funcs;
    } else {
      var st1 := Run(st, Lines(fs[0]) + [""]);
      OneBlock(st, fs[0]);
      RunBlocks(st1, fs[1..]);
      BlocksThenRest(st, fs);
      TrimmedCons(fs);
      var x := fs[0][..|fs[0]| - 1];
      var t := Trimmed(fs[1..]);
      AppendAssoc3(st.funcs, [x], t);
    }
  }

  lemma TrimmedCons(fs: seq<string>)
    requires |fs| > 0
    requires forall i :: 0 <= i < |fs| ==> |fs[i]| > 0
    ensures Trimmed(fs) == [fs[0][..|fs[0]| - 1]] + Trimmed(fs[1..])
  {
  }

  lemma BlocksThenRest(st: ScanState, fs: seq<string>)
    requires |fs| > 0
    ensures Run(st, BlockLines(fs)) == Run(Run(st, Lines(fs[0]) + [""]), BlockLines(fs[1..]))
  {
    var first := Lines(fs[0]) + [""];
    assert BlockLines(fs) == first + BlockLines(fs[1..]);
    RunAppend(st, first, BlockLines(fs[1..]));
  }

  /** A line starting with a letter is not a marker. */
  lemma LetterNotMarker(l: string)
    requires |l| > 0 && 'A' <= l[0] <= 'z'
    ensures !IsMarker(l)
  {
    assert TrimStart(l) == l;
  }

  lemma IndentedNotMarker(x: string)
    requires |x| > 0 && 'A' <= x[0] <= 'z'
    ensures !IsMarker("    " + x)
  {
    var l := "    " + x;
    assert TrimStart(l) == TrimStart(l[1..]);
    assert l[1..] == "   " + x;
    assert TrimStart("   " + x) == TrimStart("  " + x) by { assert ("   " + x)[1..] == "  " + x; }
    assert TrimStart("  " + x) == TrimStart(" " + x) by { assert ("  " + x)[1..] == " " + x; }
    assert TrimStart(" " + x) == TrimStart(x) by { assert (" " + x)[1..] == x; }
    assert TrimStart(x) == x;
  }

  lemma HeaderNoMarkers(nd: bool)
    ensures NoMarkers(HeaderLines(nd))
  {
    LetterNotMarker(LibHead);
    ShortNotMarker(NumpyImport);
    ShortNotMarker("");
  }

  lemma TrailerNoMarkers(names: seq<string>)
    ensures NoMarkers(TrailerLines(names))
  {
    ShortNotMarker(ModuleAttr);
    ModuleFnNotMarker();
    ShortNotMarker(ModuleOk);
    ShortNotMarker("}");
    var adders := AdderLines(names);
    forall i | 0 <= i < |adders|
      ensures !IsMarker(adders[i])
    {
      if |names| == 0 {
        ShortNotMarker("");
      } else if i == 0 {
        assert adders[i] == "" + AddLine(names[i]) == AddLine(names[i]);
        LetterNotMarker(AddLine(names[i]));
      } else {
        IndentedNotMarker(AddLine(names[i]));
      }
    }
  }

  lemma ModuleFnNotMarker()
    ensures !IsMarker(ModuleFn)
  {
    assert ModuleFn[0] == 'f';
    LetterNotMarker(ModuleFn);
  }

  /** Re-scanning a rendered `lib.rs` gives back each function, in order,
      without its final newline, as long as every function is well formed. */
  lemma RescanRendered(fs: seq<string>, nd: bool)
    requires forall i :: 0 <= i < |fs| ==> |fs[i]| > 0 && WellFormedBlock(fs[i])
    ensures Scan(Lines(RenderLibRs(fs, nd))).funcs == Trimmed(fs)
  {
    var names := FunctionNames(fs);
    var head := HeaderLines(nd);
    var mid := Lines(FunctionsText(fs));
    var tail := TrailerLines(names);
    LibLinesGrouped(fs, nd);
    HeaderNoMarkers(nd);
    TrailerNoMarkers(names);
    MiddleBlocks(fs);
    Framed(head, mid, tail);
  }

  /** The module function's lines, after the functions. */
  function TrailerLines(names: seq<string>): seq<string> {
    [ModuleAttr, ModuleFn] + AdderLines(names) + [ModuleOk, "}"]
  }

  lemma LibLinesGrouped(fs: seq<string>, nd: bool)
    ensures Lines(RenderLibRs(fs, nd)) ==
      HeaderLines(nd) + Lines(FunctionsText(fs)) + TrailerLines(FunctionNames(fs))
  {
    LibLines(fs, nd);
    var h := HeaderLines(nd) + Lines(FunctionsText(fs));
    AppendAssoc4(h, [ModuleAttr, ModuleFn], AdderLines(FunctionNames(fs)), [ModuleOk, "}"]);
  }

  /** Lines without markers around the middle change nothing it yields. */
  lemma Framed(head: seq<string>, mid: seq<string>, tail: seq<string>)
    requires NoMarkers(head) && NoMarkers(tail) && !Scan(mid).inFn
    ensures Scan(head + mid + tail).funcs == Scan(mid).funcs
  {
    Outside(Start, head);
    RunAppend(Start, head, mid);
    RunAppend(Start, head + mid, tail);
    Outside(Run(Start, mid), tail);
  }

  /** The functions part of `lib.rs` yields the functions and leaves no block open. */
  lemma MiddleBlocks(fs: seq<string>)
    requires forall i :: 0 <= i < |fs| ==> |fs[i]| > 0 && WellFormedBlock(fs[i])
    ensures !Scan(Lines(FunctionsText(fs))).inFn
    ensures Scan(Lines(FunctionsText(fs))).funcs == Trimmed(fs)
  {
    var mid := Lines(FunctionsText(fs));
    if |fs| == 0 {
      assert FunctionsText(fs) == "\n";
      NewlineLines("");
      assert Lines("") == [];
      ShortNotMarker("");
      Outside(Start, mid);
    } else {
      FunctionsTextLines(fs);
      AllWellFormedEach(fs);
      RunBlocks(Start, fs);
    }
  }

  // ---------------------------------------------------------------------------
  // Merging old and new functions by name

  /** Inserting `(name, text)` entries into a map in order, as repeated
      `HashMap::insert` does: a later entry replaces an earlier one. */
  function PutAll(m: map<string, string>, entries: seq<(string, string)>): map<string, string>
    decreases |entries|
  {
    if |entries| == 0 then m
    else
      var e := entries[|entries| - 1];
      PutAll(m, entries[..|entries| - 1])[e.0 := e.1]
  }

  function EntryNames(entries: seq<(string, string)>): set<string> {
    set e | e in entries :: e.0
  }

  lemma {:induction false} PutAllKeys(m: map<string, string>, entries: seq<(string, string)>)
    ensures PutAll(m, entries).Keys == m.Keys + EntryNames(entries)
    decreases |entries|
  {
    if |entries| > 0 {
      var front := entries[..|entries| - 1];
      var e := entries[|entries| - 1];
      PutAllKeys(m, front);
      assert entries == front + [e];
      assert EntryNames(entries) == EntryNames(front) + {e.0};
    }
  }

  /** A key no entry names keeps its value. */
  lemma {:induction false} PutAllKeeps(m: map<string, string>, entries: seq<(string, string)>, k: string)
    requires k in m && k !in EntryNames(entries)
    ensures k in PutAll(m, entries) && PutAll(m, entries)[k] == m[k]
    decreases |entries|
  {
    if |entries| > 0 {
      var front := entries[..|entries| - 1];
      assert forall e :: e in front ==> e in entries;
      PutAllKeeps(m, front, k);
      assert entries[|entries| - 1] in entries;
    }
  }

  /** The last entry for a name decides its value. */
  lemma {:induction false} PutAllLast(m: map<string, string>, entries: seq<(string, string)>, j: nat)
    requires j < |entries|
    requires forall i :: j < i < |entries| ==> entries[i].0 != entries[j].0
    ensures entries[j].0 in PutAll(m, entries) && PutAll(m, entries)[entries[j].0] == entries[j].1
    decreases |entries|
  {
    var front := entries[..|entries| - 1];
    if j < |entries| - 1 {
      PutAllLast(m, front, j);
    }
  }

  /** When every entry, and every pair already in the map, is keyed by the
      name of its text, so is the result. */
  predicate KeyedByName(m: map<string, string>) {
    forall k :: k in m ==> ExtractFnName(m[k]) == k
  }

  lemma {:induction false} PutAllKeyedByName(m: map<string, string>, entries: seq<(string, string)>)
    requires KeyedByName(m)
    requires forall i :: 0 <= i < |entries| ==> entries[i].0 == ExtractFnName(entries[i].1)
    ensures KeyedByName(PutAll(m, entries))
    decreases |entries|
  {
    if |entries| > 0 {
      PutAllKeyedByName(m, entries[..|entries| - 1]);
    }
  }

  /** The blocks read from the old `lib.rs`, keyed by their names. */
  function OldEntries(blocks: seq<string>): (r: seq<(string, string)>)
    ensures |r| == |blocks|
  {
    seq(|blocks|, i requires 0 <= i < |blocks| => (ExtractFnName(blocks[i]), blocks[i]))
  }

  /** The new renderings, keyed by their names. */
  function NewEntries(renders: seq<(string, bool)>): (r: seq<(string, string)>)
    ensures |r| == |renders|
  {
    seq(|renders|, i requires 0 <= i < |renders| => (ExtractFnName(renders[i].0), renders[i].0))
  }

  /** `functions_by_name` after both loops. */
  function Merged(blocks: seq<string>, renders: seq<(string, bool)>): map<string, string> {
    PutAll(PutAll(map[], OldEntries(blocks)), NewEntries(renders))
  }

  function OldNames(blocks: seq<string>): set<string> {
    set b | b in blocks :: ExtractFnName(b)
  }

  function NewNames(renders: seq<(string, bool)>): set<string> {
    set r | r in renders :: ExtractFnName(r.0)
  }

  lemma OldEntryNames(blocks: seq<string>)
    ensures EntryNames(OldEntries(blocks)) == OldNames(blocks)
  {
    var es := OldEntries(blocks);
    forall n | n in OldNames(blocks)
      ensures n in EntryNames(es)
    {
      var b :| b in blocks && ExtractFnName(b) == n;
      var i :| 0 <= i < |blocks| && blocks[i] == b;
      assert es[i] in es;
    }
  }

  lemma NewEntryNames(renders: seq<(string, bool)>)
    ensures EntryNames(NewEntries(renders)) == NewNames(renders)
  {
    var es := NewEntries(renders);
    forall n | n in NewNames(renders)
      ensures n in EntryNames(es)
    {
      var r :| r in renders && ExtractFnName(r.0) == n;
      var i :| 0 <= i < |renders| && renders[i] == r;
      assert es[i] in es;
    }
  }

  /** The merged names are the old names and the new names. */
  lemma MergedNames(blocks: seq<string>, renders: seq<(string, bool)>)
    ensures Merged(blocks, renders).Keys == OldNames(blocks) + NewNames(renders)
  {
    PutAllKeys(map[], OldEntries(blocks));
    PutAllKeys(PutAll(map[], OldEntries(blocks)), NewEntries(renders));
    OldEntryNames(blocks);
    NewEntryNames(renders);
  }

  /** A name only the old `lib.rs` has keeps its (last) old block. */
  lemma OldOnlyKept(blocks: seq<string>, renders: seq<(string, bool)>, j: nat)
    requires j < |blocks|
    requires ExtractFnName(blocks[j]) !in NewNames(renders)
    requires forall i :: j < i < |blocks| ==> ExtractFnName(blocks[i]) != ExtractFnName(blocks[j])
    ensures var name := ExtractFnName(blocks[j]);
      name in Merged(blocks, renders) && Merged(blocks, renders)[name] == blocks[j]
  {
    var before := PutAll(map[], OldEntries(blocks));
    PutAllLast(map[], OldEntries(blocks), j);
    NewEntryNames(renders);
    PutAllKeeps(before, NewEntries(renders), ExtractFnName(blocks[j]));
  }

  /** A name a target renders takes the last such target's rendering. */
  lemma LastTargetWins(blocks: seq<string>, renders: seq<(string, bool)>, j: nat)
    requires j < |renders|
    requires forall i :: j < i < |renders| ==> ExtractFnName(renders[i].0) != ExtractFnName(renders[j].0)
    ensures var name := ExtractFnName(renders[j].0);
      name in Merged(blocks, renders) && Merged(blocks, renders)[name] == renders[j].0
  {
    PutAllLast(PutAll(map[], OldEntries(blocks)), NewEntries(renders), j);
  }

  /** Every merged function sits under its own name. */
  lemma MergedKeyedByName(blocks: seq<string>, renders: seq<(string, bool)>)
    ensures KeyedByName(Merged(blocks, renders))
  {
    PutAllKeyedByName(map[], OldEntries(blocks));
    PutAllKeyedByName(PutAll(map[], OldEntries(blocks)), NewEntries(renders));
  }

  /** `fallback_functions`: how many renderings, repeats included, fell back. */
  function FallbackCount(renders: seq<(string, bool)>): nat
    decreases |renders|
  {
    if |renders| == 0 then 0
    else FallbackCount(renders[..|renders| - 1]) + (if renders[|renders| - 1].1 then 1 else 0)
  }

  /** At most one per target; all of them exactly when every target fell
      back, none exactly when no target did. */
  lemma {:induction false} FallbackCountBounds(renders: seq<(string, bool)>)
    ensures FallbackCount(renders) <= |renders|
    ensures FallbackCount(renders) == |renders| <==> forall i :: 0 <= i < |renders| ==> renders[i].1
    ensures FallbackCount(renders) == 0 <==> forall i :: 0 <= i < |renders| ==> !renders[i].1
    decreases |renders|
  {
    if |renders| > 0 {
      var front := renders[..|renders| - 1];
      FallbackCountBounds(front);
      assert forall i :: 0 <= i < |front| ==> front[i] == renders[i];
    }
  }

  // ---------------------------------------------------------------------------
  // generate_with_options

  /** What a generation returns: the functions written to `lib.rs` (in the
      map's order), the fallback count, and the two files' texts. */
  datatype GenerationResult = GenerationResult(functions: seq<string>, fallbackFunctions: nat,
                                               libRs: string, cargoToml: string)

  const NoTargetsMessage := "no targets selected for generation"
  const ParseFailureMessage := "failed to parse Python input for generation"

  /** `order` lists every key of `m` exactly once. */
  predicate Enumerates(order: seq<string>, m: map<string, string>) {
    (forall i :: 0 <= i < |order| ==> order[i] in m) &&
    (forall k :: k in m ==> k in order) &&
    (forall i, j :: 0 <= i < j < |order| ==> order[i] != order[j])
  }

  /** `fs` are the values of `m`, one per key, in the order `order`. */
  predicate Lists(fs: seq<string>, m: map<string, string>, order: seq<string>) {
    Enumerates(order, m) && |fs| == |order| &&
    forall i :: 0 <= i < |fs| ==> fs[i] == m[order[i]]
  }

  /** `into_values().collect()`: the values in some order of the keys. */
  method ListValues(m: map<string, string>) returns (fs: seq<string>, ghost order: seq<string>)
    ensures Lists(fs, m, order)
  {
    var rest := m.Keys;
    fs := [];
    order := [];
    while rest != {}
      invariant rest <= m.Keys
      invariant forall i :: 0 <= i < |order| ==> order[i] in m && order[i] !in rest
      invariant forall k :: k in m ==> k in rest || k in order
      invariant forall i, j :: 0 <= i < j < |order| ==> order[i] != order[j]
      invariant |fs| == |order| && forall i :: 0 <= i < |fs| ==> fs[i] == m[order[i]]
      decreases |rest|
    {
      var k :| k in rest;
      fs := fs + [m[k]];
      order := order + [k];
      rest := rest - {k};
    }
  }

  /** The listed functions are named exactly by the map's keys. */
  lemma ListedNames(fs: seq<string>, m: map<string, string>, order: seq<string>)
    requires Lists(fs, m, order) && KeyedByName(m)
    ensures (set f | f in fs :: ExtractFnName(f)) == m.Keys
    ensures forall i, j :: 0 <= i < j < |fs| ==> fs[i] != fs[j]
  {
    forall k | k in m
      ensures k in (set f | f in fs :: ExtractFnName(f))
    {
      var i :| 0 <= i < |order| && order[i] == k;
      assert fs[i] in fs;
    }
    forall i, j | 0 <= i < j < |fs|
      ensures fs[i] != fs[j]
    {
      assert ExtractFnName(fs[i]) == order[i];
      assert ExtractFnName(fs[j]) == order[j];
    }
  }

  /** The old blocks: none when there is no readable `lib.rs`. */
  function OldBlocks(existingLib: Option<string>): seq<string> {
    if existingLib.None? then [] else Scan(Lines(existingLib.value)).funcs
  }

  /** How one target is rendered against the parsed module: the merge is
      stated over any such function, and generation uses `RenderWith`. */
  type Renderer = (seq<Stmt>, TargetSpec, bool) -> (string, bool)

  /** `render_function_with_options` with the configured formatters. */
  function RenderWith(fmt: Formatters): Renderer {
    (suite: seq<Stmt>, t: TargetSpec, nd: bool) => Rendering(t, suite, nd, fmt)
  }

  /** Every target rendered against the parsed module. */
  function Renders(render: Renderer, targets: seq<TargetSpec>, suite: seq<Stmt>, nd: bool): (r: seq<(string, bool)>)
    ensures |r| == |targets|
  {
    seq(|targets|, i requires 0 <= i < |targets| => render(suite, targets[i], nd))
  }

  /** The first merge loop: every old block under its name. */
  method InsertExisting(blocks: seq<string>) returns (functionsByName: map<string, string>)
    ensures functionsByName == PutAll(map[], OldEntries(blocks))
  {
    functionsByName := map[];
    var i := 0;
    while i < |blocks|
      invariant 0 <= i <= |blocks|
      invariant functionsByName == PutAll(map[], OldEntries(blocks)[..i])
    {
      var name := ExtractFnName(blocks[i]);
      assert OldEntries(blocks)[..i + 1][..i] == OldEntries(blocks)[..i];
      functionsByName := functionsByName[name := blocks[i]];
      i := i + 1;
    }
    assert OldEntries(blocks)[..i] == OldEntries(blocks);
  }

  /** The second merge loop: render every target, count the fallbacks and
      put each rendering under its name. */
  method InsertRendered(m: map<string, string>, targets: seq<TargetSpec>, suite: seq<Stmt>,
                        nd: bool, render: Renderer)
    returns (functionsByName: map<string, string>, fallbackFunctions: nat)
    ensures functionsByName == PutAll(m, NewEntries(Renders(render, targets, suite, nd)))
    ensures fallbackFunctions == FallbackCount(Renders(render, targets, suite, nd))
  {
    ghost var all := Renders(render, targets, suite, nd);
    functionsByName := m;
    fallbackFunctions := 0;
    assert all[..0] == [];
    var j := 0;
    while j < |targets|
      invariant j <= |targets|
      invariant Placed(m, all, j, functionsByName, fallbackFunctions)
    {
      var rendering := render(suite, targets[j], nd);
      var rendered, fallback := rendering.0, rendering.1;
      assert rendering == all[j];
      PlacedStep(m, all, j, functionsByName, fallbackFunctions);
      var name := ExtractFnName(rendered);
      if fallback {
        fallbackFunctions := fallbackFunctions + 1;
      }
      functionsByName := functionsByName[name := rendered];
      j := j + 1;
    }
    assert all[..j] == all;
  }

  /** The first `j` renderings are in the map and counted. */
  ghost predicate Placed(m: map<string, string>, all: seq<(string, bool)>, j: nat,
                         functionsByName: map<string, string>, fallbackFunctions: nat) {
    j <= |all| &&
    functionsByName == PutAll(m, NewEntries(all[..j])) &&
    fallbackFunctions == FallbackCount(all[..j])
  }

  lemma PlacedStep(m: map<string, string>, all: seq<(string, bool)>, j: nat,
                   functionsByName: map<string, string>, fallbackFunctions: nat)
    requires j < |all| && Placed(m, all, j, functionsByName, fallbackFunctions)
    ensures Placed(m, all, j + 1, functionsByName[ExtractFnName(all[j].0) := all[j].0],
                   fallbackFunctions + (if all[j].1 then 1 else 0))
  {
    RenderStep(m, all[..j], all[j]);
    assert all[..j + 1] == all[..j] + [all[j]];
  }

  /** One more rendering puts its block under its name and counts its fallback. */
  lemma RenderStep(m: map<string, string>, renders: seq<(string, bool)>, x: (string, bool))
    ensures PutAll(m, NewEntries(renders + [x])) == PutAll(m, NewEntries(renders))[ExtractFnName(x.0) := x.0]
    ensures FallbackCount(renders + [x]) == FallbackCount(renders) + (if x.1 then 1 else 0)
  {
    var more := renders + [x];
    assert more[..|more| - 1] == renders;
    assert NewEntries(more)[..|more| - 1] == NewEntries(renders);
  }

  /** `generate_with_options` without the file system: `parsed` is the parsed
      module (`None` when the source does not parse) and `existingLib` the
      old `lib.rs` (`None` when there is none or it cannot be read). */
  method GenerateWithOptions(code: string, parsed: Option<seq<Stmt>>, targets: seq<TargetSpec>,
                             existingLib: Option<string>, mlMode: bool, fmt: Formatters)
    returns (r: Result<GenerationResult>, ghost order: seq<string>)
    ensures |targets| == 0 ==> r == Err(NoTargetsMessage)
    ensures |targets| > 0 && parsed.None? ==> r == Err(ParseFailureMessage)
    ensures |targets| > 0 && parsed.Some? ==>
      var nd := UseNdarray(mlMode, code);
      var renders := Renders(RenderWith(fmt), targets, parsed.value, nd);
      r.Ok? && Lists(r.value.functions, Merged(OldBlocks(existingLib), renders), order) &&
      r.value.fallbackFunctions == FallbackCount(renders) &&
      r.value.libRs == RenderLibRs(r.value.functions, nd) &&
      r.value.cargoToml == RenderCargoToml(nd)
  {
    order := [];
    if |targets| == 0 {
      return Err(NoTargetsMessage), order;
    }
    var useNdarray := mlMode && DetectsNumpy(code);
    if parsed.None? {
      return Err(ParseFailureMessage), order;
    }
    var suite := parsed.value;
    var functionsByName: map<string, string> := map[];
    if existingLib.Some? {
      var blocks := ParseExistingFunctions(existingLib.value);
      functionsByName := InsertExisting(blocks);
    }
    var fallbackFunctions;
    functionsByName, fallbackFunctions := InsertRendered(functionsByName, targets, suite, useNdarray, RenderWith(fmt));
    var functions;
    functions, order := ListValues(functionsByName);
    var libRs := RenderLibRs(functions, useNdarray);
    var cargoToml := RenderCargoToml(useNdarray);
    r := Ok(GenerationResult(functions, fallbackFunctions, libRs, cargoToml));
  }

  /** `generate`: never in ndarray mode. */
  method Generate(code: string, parsed: Option<seq<Stmt>>, targets: seq<TargetSpec>,
                  existingLib: Option<string>, fmt: Formatters)
    returns (r: Result<GenerationResult>, ghost order: seq<string>)
    ensures |targets| == 0 ==> r == Err(NoTargetsMessage)
    ensures |targets| > 0 && parsed.None? ==> r == Err(ParseFailureMessage)
    ensures |targets| > 0 && parsed.Some? ==>
      var renders := Renders(RenderWith(fmt), targets, parsed.value, false);
      r.Ok? && Lists(r.value.functions, Merged(OldBlocks(existingLib), renders), order) &&
      r.value.fallbackFunctions == FallbackCount(renders) &&
      r.value.libRs == RenderLibRs(r.value.functions, false) &&
      r.value.cargoToml == RenderCargoToml(false)
  {
    r, order := GenerateWithOptions(code, parsed, targets, existingLib, false, fmt);
  }

  /** `generate_ml`: ndarray mode exactly when the source imports numpy. */
  method GenerateMl(code: string, parsed: Option<seq<Stmt>>, targets: seq<TargetSpec>,
                    existingLib: Option<string>, fmt: Formatters)
    returns (r: Result<GenerationResult>, ghost order: seq<string>)
    ensures |targets| == 0 ==> r == Err(NoTargetsMessage)
    ensures |targets| > 0 && parsed.None? ==> r == Err(ParseFailureMessage)
    ensures |targets| > 0 && parsed.Some? ==>
      var nd := DetectsNumpy(code);
      var renders := Renders(RenderWith(fmt), targets, parsed.value, nd);
      r.Ok? && Lists(r.value.functions, Merged(OldBlocks(existingLib), renders), order) &&
      r.value.fallbackFunctions == FallbackCount(renders) &&
      r.value.libRs == RenderLibRs(r.value.functions, nd) &&
      r.value.cargoToml == RenderCargoToml(nd)
  {
    r, order := GenerateWithOptions(code, parsed, targets, existingLib, true, fmt);
  }
}
