/** The Rust `str` operations the generator relies on, over Dafny strings
    (`seq<char>`, one element per Unicode scalar value): `starts_with`,
    `contains`, `join`, `repeat`, `split`, `lines`, `trim_start`,
    `to_string` of integers and `escape_default`, plus brace counting. */
module Text {

  // ---------------------------------------------------------------------------
  // Prefixes and substrings

  /** `s.starts_with(p)`. */
  predicate StartsWith(s: string, p: string) {
    |p| <= |s| && s[..|p|] == p
  }

  /** `s.ends_with(p)`. */
  predicate EndsWith(s: string, p: string) {
    |p| <= |s| && s[|s| - |p|..] == p
  }

  /** `s.contains(t)` for a string pattern: `t` occurs contiguously in `s`. */
  predicate Contains(s: string, t: string)
    decreases |s|
  {
    StartsWith(s, t) || (|s| > 0 && Contains(s[1..], t))
  }

  lemma {:induction false} ContainsMiddle(a: string, t: string, b: string)
    ensures Contains(a + t + b, t)
  {
    if |a| == 0 {
      assert a + t + b == t + b;
      assert (t + b)[..|t|] == t;
    } else {
      assert (a + t + b)[1..] == a[1..] + t + b;
      ContainsMiddle(a[1..], t, b);
    }
  }

  lemma {:induction false} ContainsAppend(s: string, t: string, b: string)
    requires Contains(s, t)
    ensures Contains(s + b, t)
  {
    if StartsWith(s, t) {
      assert (s + b)[..|t|] == s[..|t|];
    } else {
      assert (s + b)[1..] == s[1..] + b;
      ContainsAppend(s[1..], t, b);
    }
  }

  lemma {:induction false} ContainsPrepend(a: string, s: string, t: string)
    requires Contains(s, t)
    ensures Contains(a + s, t)
  {
    if |a| == 0 {
      assert a + s == s;
    } else {
      assert (a + s)[1..] == a[1..] + s;
      ContainsPrepend(a[1..], s, t);
    }
  }

  /** Occurrence is preserved by any surrounding context. */
  lemma ContainsWithin(a: string, s: string, b: string, t: string)
    requires Contains(s, t)
    ensures Contains(a + s + b, t)
  {
    ContainsPrepend(a, s, t);
    ContainsAppend(a + s, t, b);
  }

  /** A one-character pattern occurs exactly when the character is an element. */
  lemma {:induction false} ContainsChar(s: string, c: char)
    ensures Contains(s, [c]) <==> c in s
  {
    if |s| > 0 {
      ContainsChar(s[1..], c);
      assert s == [s[0]] + s[1..];
    }
  }

  /** A pattern whose first character is absent does not occur. */
  lemma {:induction false} ContainsFirstChar(s: string, t: string)
    requires |t| > 0 && Contains(s, t)
    ensures t[0] in s
    decreases |s|
  {
    if !StartsWith(s, t) {
      ContainsFirstChar(s[1..], t);
    }
  }

  lemma {:induction false} ContainsTransitive(s: string, t: string, u: string)
    requires Contains(s, t) && Contains(t, u)
    ensures Contains(s, u)
    decreases |s|
  {
    if StartsWith(s, t) {
      assert s == t + s[|t|..];
      ContainsAppend(t, u, s[|t|..]);
    } else {
      ContainsTransitive(s[1..], t, u);
      assert s == [s[0]] + s[1..];
      ContainsPrepend([s[0]], s[1..], u);
    }
  }

  /** A pattern's prefix occurs wherever the pattern does. */
  lemma ContainsPrefixOf(s: string, p: string, q: string)
    requires Contains(s, p + q)
    ensures Contains(s, p)
  {
    ContainsMiddle("", p, q);
    assert "" + p + q == p + q;
    ContainsTransitive(s, p + q, p);
  }

  /** The second and the fourth of five pieces occur in their concatenation. */
  lemma ContainsSecondOf5(a: string, t: string, b: string, c: string, d: string)
    ensures Contains(a + t + b + c + d, t)
  {
    assert a + t + b + c + d == a + t + (b + c + d);
    ContainsMiddle(a, t, b + c + d);
  }

  lemma ContainsFourthOf5(a: string, b: string, c: string, t: string, d: string)
    ensures Contains(a + b + c + t + d, t)
  {
    ContainsMiddle(a + b + c, t, d);
  }

  // ---------------------------------------------------------------------------
  // Building strings

  /** `parts.join(sep)`. */
  function Join(parts: seq<string>, sep: string): string
    decreases |parts|
  {
    if |parts| == 0 then ""
    else if |parts| == 1 then parts[0]
    else parts[0] + sep + Join(parts[1..], sep)
  }

  /** Regrouping appended pieces, as successive `push_str` or `push` calls do. */
  lemma AppendAssoc3<T>(a: seq<T>, b: seq<T>, c: seq<T>)
    ensures a + b + c == a + (b + c)
  {
  }

  lemma AppendAssoc4<T>(a: seq<T>, b: seq<T>, c: seq<T>, d: seq<T>)
    ensures a + b + c + d == a + (b + c + d)
  {
  }

  /** The concatenation of all parts, like repeated `push_str`. */
  function Concat(parts: seq<string>): string
    decreases |parts|
  {
    if |parts| == 0 then "" else Concat(parts[..|parts| - 1]) + parts[|parts| - 1]
  }

  /** `s.repeat(n)`. */
  function Repeat(s: string, n: nat): (r: string)
    ensures |r| == n * |s|
  {
    if n == 0 then "" else s + Repeat(s, n - 1)
  }

  function DigitChar(d: nat): char
    requires d < 16
  {
    "0123456789abcdef"[d]
  }

  /** Decimal rendering of a natural number. */
  function NatToString(n: nat): (r: string)
    ensures |r| >= 1
    ensures forall i :: 0 <= i < |r| ==> '0' <= r[i] <= '9'
  {
    if n < 10 then [DigitChar(n)] else NatToString(n / 10) + [DigitChar(n % 10)]
  }

  /** `i.to_string()` for an integer of any width: '-' then the digits. */
  function IntToString(i: int): string {
    if i < 0 then "-" + NatToString(-i) else NatToString(i)
  }

  /** Lower-case hexadecimal without leading zeros, as in Rust's `\u{..}` escapes. */
  function NatToHex(n: nat): (r: string)
    ensures |r| >= 1
    ensures forall i :: 0 <= i < |r| ==> r[i] in "0123456789abcdef"
  {
    if n < 16 then [DigitChar(n)] else NatToHex(n / 16) + [DigitChar(n % 16)]
  }

  /** `char::escape_default`. */
  function EscapeChar(c: char): string {
    if c == '\t' then "\\t"
    else if c == '\r' then "\\r"
    else if c == '\n' then "\\n"
    else if c == '\\' then "\\\\"
    else if c == '\'' then "\\'"
    else if c == '"' then "\\\""
    else if 0x20 <= c as int <= 0x7e then [c]
    else "\\u{" + NatToHex(c as int) + "}"
  }

  /** `str::escape_default`: every character escaped by `EscapeChar`. */
  function EscapeDefault(s: string): string
    decreases |s|
  {
    if |s| == 0 then "" else EscapeChar(s[0]) + EscapeDefault(s[1..])
  }

  // ---------------------------------------------------------------------------
  // Splitting

  /** Position of the first `c` in `s`. */
  function IndexOf(s: string, c: char): (k: nat)
    requires c in s
    ensures k < |s| && s[k] == c && c !in s[..k]
  {
    if s[0] == c then 0
    else
      var k := IndexOf(s[1..], c);
      assert s[..k + 1] == [s[0]] + s[1..][..k];
      k + 1
  }

  /** `s.split(c)`: the pieces between the occurrences of `c`; always at least one. */
  function Split(s: string, c: char): (r: seq<string>)
    ensures |r| >= 1
    ensures forall i :: 0 <= i < |r| ==> c !in r[i]
    decreases |s|
  {
    if c !in s then [s]
    else
      var k := IndexOf(s, c);
      [s[..k]] + Split(s[k + 1..], c)
  }

  lemma SplitNoSeparator(s: string, c: char)
    requires c !in s
    ensures Split(s, c) == [s]
  {
  }

  /** `IndexOf` finds the first occurrence and no other. */
  lemma {:induction false} IndexOfFirst(s: string, c: char, k: nat)
    requires k < |s| && s[k] == c && c !in s[..k]
    ensures IndexOf(s, c) == k
    decreases k
  {
    if k > 0 {
      assert s[0] == s[..k][0];
      assert s[1..][..k - 1] == s[1..k];
      assert forall j :: 0 <= j < k - 1 ==> s[1..k][j] == s[..k][j + 1];
      IndexOfFirst(s[1..], c, k - 1);
    }
  }

  /** Splitting at an inserted separator splits the two sides independently. */
  lemma {:induction false} SplitAround(a: string, c: char, b: string)
    ensures Split(a + [c] + b, c) == Split(a, c) + Split(b, c)
    decreases |a|
  {
    if c !in a {
      SplitAtFirst(a, c, b);
    } else {
      var j := IndexOf(a, c);
      var a' := a[j + 1..];
      SplitAround(a', c, b);
      SplitInFirst(a, c, b, j);
    }
  }

  /** The separator after a part free of it ends the first piece. */
  lemma SplitAtFirst(a: string, c: char, b: string)
    requires c !in a
    ensures Split(a + [c] + b, c) == Split(a, c) + Split(b, c)
  {
    var s := a + [c] + b;
    assert s[|a|] == c;
    assert s[..|a|] == a;
    assert s[|a| + 1..] == b;
    SplitHead(s, c, |a|);
  }

  /** A separator inside the first part ends the first piece before the
      inserted one. */
  lemma SplitInFirst(a: string, c: char, b: string, j: nat)
    requires j < |a| && a[j] == c && c !in a[..j]
    requires Split(a[j + 1..] + [c] + b, c) == Split(a[j + 1..], c) + Split(b, c)
    ensures Split(a + [c] + b, c) == Split(a, c) + Split(b, c)
  {
    CharAssoc(a, c, b);
    CharAssoc(a[j + 1..], c, b);
    SplitBefore(a, [c] + b, c, j, Split(b, c));
  }

  lemma CharAssoc(a: string, c: char, b: string)
    ensures a + [c] + b == a + ([c] + b)
  {
  }

  /** Whatever follows a separator-containing first part, the pieces of the
      first part come first. */
  lemma SplitBefore(a: string, t: string, c: char, j: nat, y: seq<string>)
    requires j < |a| && a[j] == c && c !in a[..j]
    requires Split(a[j + 1..] + t, c) == Split(a[j + 1..], c) + y
    ensures Split(a + t, c) == Split(a, c) + y
  {
    SliceOfAppend(a, t, j);
    SplitHead(a + t, c, j);
    SplitHead(a, c, j);
    AppendAssoc3([a[..j]], Split(a[j + 1..], c), y);
  }

  /** The first separator at `j` cuts off the first piece. */
  lemma SplitHead(s: string, c: char, j: nat)
    requires j < |s| && s[j] == c && c !in s[..j]
    ensures Split(s, c) == [s[..j]] + Split(s[j + 1..], c)
  {
    IndexOfFirst(s, c, j);
  }

  /** Slicing inside the first of two strings. */
  lemma SliceOfAppend(a: string, t: string, j: nat)
    requires j < |a|
    ensures (a + t)[..j] == a[..j] && (a + t)[j] == a[j] && (a + t)[j + 1..] == a[j + 1..] + t
  {
  }

  /** Joining the pieces with the separator gives the string back. */
  lemma {:induction false} JoinSplit(s: string, c: char)
    ensures Join(Split(s, c), [c]) == s
    decreases |s|
  {
    if c in s {
      var k := IndexOf(s, c);
      var rest := Split(s[k + 1..], c);
      JoinSplit(s[k + 1..], c);
      assert Split(s, c) == [s[..k]] + rest;
      assert ([s[..k]] + rest)[1..] == rest;
      assert s == s[..k] + [c] + s[k + 1..];
    }
  }

  /** Joining pieces that do not contain the separator, then splitting, gives the pieces back. */
  lemma {:induction false} SplitJoin(parts: seq<string>, c: char)
    requires |parts| >= 1
    requires forall i :: 0 <= i < |parts| ==> c !in parts[i]
    ensures Split(Join(parts, [c]), c) == parts
    decreases |parts|
  {
    var rest := parts[1..];
    if |parts| > 1 {
      SplitJoin(rest, c);
      assert Join(parts, [c]) == parts[0] + [c] + Join(rest, [c]);
      SplitAround(parts[0], c, Join(rest, [c]));
      assert c !in parts[0];
      assert Split(parts[0], c) == [parts[0]];
      assert [parts[0]] + rest == parts;
    }
  }

  function StripCR(l: string): (r: string)
    ensures StartsWith(l, r)
  {
    if |l| > 0 && l[|l| - 1] == '\r' then l[..|l| - 1] else l
  }

  /** `s.lines()`: lines end at "\n" (and a "\r" just before it is dropped);
      a final line terminator is optional, and a last line without one is kept
      as it is. */
  function Lines(s: string): seq<string> {
    LinesOfPieces(Split(s, '\n'))
  }

  /** The lines given the pieces between the newlines: every piece but the last
      ended at a "\n"; an empty last piece is no line. */
  function LinesOfPieces(pieces: seq<string>): seq<string>
    requires |pieces| >= 1
    decreases |pieces|
  {
    if |pieces| == 1 then (if pieces[0] == "" then [] else [pieces[0]])
    else [StripCR(pieces[0])] + LinesOfPieces(pieces[1..])
  }

  lemma {:induction false} LinesOfPlainPieces(pieces: seq<string>)
    requires |pieces| >= 1 && pieces[|pieces| - 1] == ""
    requires forall i :: 0 <= i < |pieces| ==> '\r' !in pieces[i]
    ensures LinesOfPieces(pieces) == pieces[..|pieces| - 1]
    decreases |pieces|
  {
    if |pieces| > 1 {
      assert |pieces[0]| > 0 ==> pieces[0][|pieces[0]| - 1] in pieces[0];
      LinesOfPlainPieces(pieces[1..]);
    }
  }

  /** A character absent from every piece is absent from every line. */
  lemma {:induction false} LinesOfPiecesAvoid(pieces: seq<string>, c: char)
    requires |pieces| >= 1
    requires forall i :: 0 <= i < |pieces| ==> c !in pieces[i]
    ensures forall i :: 0 <= i < |LinesOfPieces(pieces)| ==> c !in LinesOfPieces(pieces)[i]
    decreases |pieces|
  {
    if |pieces| > 1 {
      LinesOfPiecesAvoid(pieces[1..], c);
      var l := StripCR(pieces[0]);
      assert forall k :: 0 <= k < |l| ==> l[k] == pieces[0][k];
    }
  }

  lemma LinesHaveNoNewline(s: string)
    ensures forall i :: 0 <= i < |Lines(s)| ==> '\n' !in Lines(s)[i]
  {
    LinesOfPiecesAvoid(Split(s, '\n'), '\n');
  }

  lemma {:induction false} LinesOfPiecesAppend(p: seq<string>, q: seq<string>)
    requires |p| >= 1 && |q| >= 1
    ensures LinesOfPieces(p + q) == LinesOfPieces(p + [""]) + LinesOfPieces(q)
    decreases |p|
  {
    if |p| == 1 {
      assert (p + q)[1..] == q;
      assert (p + [""])[1..] == [""];
    } else {
      assert (p + q)[1..] == p[1..] + q;
      assert (p + [""])[1..] == p[1..] + [""];
      LinesOfPiecesAppend(p[1..], q);
    }
  }

  /** Text that ends in a newline contributes its own lines, whatever follows. */
  lemma LinesAppend(a: string, b: string)
    requires |a| > 0 && a[|a| - 1] == '\n'
    ensures Lines(a + b) == Lines(a) + Lines(b)
  {
    var a0 := a[..|a| - 1];
    assert a == a0 + ['\n'] + "";
    assert a + b == a0 + ['\n'] + b;
    SplitAround(a0, '\n', "");
    SplitAround(a0, '\n', b);
    assert Split("", '\n') == [""];
    LinesOfPiecesAppend(Split(a0, '\n'), Split(b, '\n'));
  }

  /** The first line, then the rest. */
  lemma LinesCons(l: string, rest: string)
    requires '\n' !in l
    ensures Lines(l + "\n" + rest) == [StripCR(l)] + Lines(rest)
  {
    SplitNoSeparator(l, '\n');
    SplitAround(l, '\n', rest);
    assert l + "\n" + rest == l + ['\n'] + rest;
    assert ([l] + Split(rest, '\n'))[1..] == Split(rest, '\n');
  }

  /** The first two lines, then the rest. */
  lemma LinesCons2(a: string, b: string, rest: string)
    requires '\n' !in a && '\n' !in b
    ensures Lines(a + "\n" + (b + "\n" + rest)) == [StripCR(a), StripCR(b)] + Lines(rest)
  {
    LinesCons(a, b + "\n" + rest);
    LinesCons(b, rest);
  }

  /** `LinesCons2` for a text written as one left-nested chain. */
  lemma LinesCons2Chain(a: string, b: string, c: string, d: string, e: string)
    requires '\n' !in a && '\n' !in b
    ensures Lines(a + "\n" + b + "\n" + c + "\n" + d + "\n" + e) ==
      [StripCR(a), StripCR(b)] + Lines(c + "\n" + (d + "\n" + e))
  {
    var rest := c + "\n" + (d + "\n" + e);
    assert a + "\n" + b + "\n" + c + "\n" + d + "\n" + e == a + "\n" + (b + "\n" + rest);
    LinesCons2(a, b, rest);
  }

  /** A line that reads back as itself: no newline, and no carriage return at
      its end. */
  predicate WholeLine(l: string) {
    '\n' !in l && StripCR(l) == l
  }

  /** Newline-terminated lines read back as themselves. */
  lemma {:induction false} LinesOfJoined(ls: seq<string>)
    requires |ls| >= 1
    requires forall i :: 0 <= i < |ls| ==> WholeLine(ls[i])
    ensures Lines(Join(ls, "\n") + "\n") == ls
    decreases |ls|
  {
    assert WholeLine(ls[0]);
    if |ls| == 1 {
      LinesOfLastLine(ls[0]);
      assert Join(ls, "\n") == ls[0];
    } else {
      var rest := ls[1..];
      assert forall i :: 0 <= i < |rest| ==> WholeLine(rest[i]) by {
        forall i | 0 <= i < |rest| ensures WholeLine(rest[i]) {
          assert rest[i] == ls[i + 1];
        }
      }
      LinesOfJoined(rest);
      LinesOfJoinedStep(ls[0], rest);
      assert [ls[0]] + rest == ls;
    }
  }

  lemma LinesOfLastLine(l: string)
    requires WholeLine(l)
    ensures Lines(l + "\n") == [l]
  {
    assert Lines("") == [];
    LinesCons(l, "");
    assert l + "\n" + "" == l + "\n";
  }

  lemma LinesOfJoinedStep(l: string, rest: seq<string>)
    requires WholeLine(l) && |rest| >= 1
    requires Lines(Join(rest, "\n") + "\n") == rest
    ensures Lines(Join([l] + rest, "\n") + "\n") == [l] + rest
  {
    var tail := Join(rest, "\n") + "\n";
    LinesCons(l, tail);
    assert ([l] + rest)[1..] == rest;
    assert Join([l] + rest, "\n") == l + "\n" + Join(rest, "\n");
    AppendAssoc3(l + "\n", Join(rest, "\n"), "\n");
  }

  /** Joining with a newline followed by an indent is joining indented lines
      with a newline. */
  lemma {:induction false} JoinIndented(xs: seq<string>, p: string, ind: string)
    requires |xs| >= 1
    ensures p + Join(xs, "\n" + ind) ==
      Join(seq(|xs|, i requires 0 <= i < |xs| => (if i == 0 then p else ind) + xs[i]), "\n")
    decreases |xs|
  {
    var ys := seq(|xs|, i requires 0 <= i < |xs| => (if i == 0 then p else ind) + xs[i]);
    if |xs| > 1 {
      JoinIndented(xs[1..], ind, ind);
      var zs := seq(|xs| - 1, i requires 0 <= i < |xs| - 1 => (if i == 0 then ind else ind) + xs[1..][i]);
      assert ys[1..] == zs;
      assert p + Join(xs, "\n" + ind) == (p + xs[0]) + "\n" + (ind + Join(xs[1..], "\n" + ind));
    }
  }

  /** For text without carriage returns that ends in a newline, the lines are
      the pieces between the newlines. */
  lemma LinesOfTerminated(x: string)
    requires '\r' !in x
    ensures Lines(x + "\n") == Split(x, '\n')
  {
    var front := Split(x, '\n');
    SplitAround(x, '\n', "");
    assert x + "\n" == x + ['\n'] + "";
    assert Split("", '\n') == [""];
    var pieces := front + [""];
    assert Split(x + "\n", '\n') == pieces;
    forall i | 0 <= i < |pieces|
      ensures '\r' !in pieces[i]
    {
      if i < |front| {
        PiecesAvoid(x, '\n', '\r', i);
      }
    }
    LinesOfPlainPieces(pieces);
    assert pieces[..|pieces| - 1] == front;
  }

  /** A character missing from `s` is missing from every piece of it. */
  lemma {:induction false} PiecesAvoid(s: string, c: char, d: char, i: nat)
    requires d !in s
    requires i < |Split(s, c)|
    ensures d !in Split(s, c)[i]
    decreases |s|
  {
    if c in s {
      var k := IndexOf(s, c);
      var rest := Split(s[k + 1..], c);
      assert Split(s, c) == [s[..k]] + rest;
      if i > 0 {
        assert s == s[..k + 1] + s[k + 1..];
        assert d !in s[k + 1..];
        PiecesAvoid(s[k + 1..], c, d, i - 1);
        assert Split(s, c)[i] == rest[i - 1];
      } else {
        assert s == s[..k] + s[k..];
        assert d !in s[..k];
      }
    }
  }

  /** `char::is_whitespace`: the Unicode White_Space property. */
  predicate IsWhitespace(c: char) {
    var n := c as int;
    (0x09 <= n <= 0x0d) || n == 0x20 || n == 0x85 || n == 0xa0 || n == 0x1680
    || (0x2000 <= n <= 0x200a) || n == 0x2028 || n == 0x2029 || n == 0x202f
    || n == 0x205f || n == 0x3000
  }

  /** `s.trim_start()`: what is left starts with a non-whitespace character. */
  function TrimStart(s: string): (r: string)
    ensures |r| <= |s|
    ensures |r| > 0 ==> !IsWhitespace(r[0])
    decreases |s|
  {
    if |s| > 0 && IsWhitespace(s[0]) then TrimStart(s[1..]) else s
  }

  /** Only leading whitespace is removed: the result is a suffix of the input
      and everything cut off is whitespace. */
  lemma {:induction false} TrimStartSuffix(s: string)
    ensures var r := TrimStart(s);
      r == s[|s| - |r|..] && forall i :: 0 <= i < |s| - |r| ==> IsWhitespace(s[i])
    decreases |s|
  {
    if |s| > 0 && IsWhitespace(s[0]) {
      TrimStartSuffix(s[1..]);
      var r := TrimStart(s);
      assert s[1..][|s| - 1 - |r|..] == s[|s| - |r|..];
      forall i | 0 <= i < |s| - |r|
        ensures IsWhitespace(s[i])
      {
        if i > 0 {
          assert s[i] == s[1..][i - 1];
        }
      }
    }
  }

  /** The text before the first `c`, the first item of `s.split(c)`. */
  function Before(s: string, c: char): (r: string)
    ensures c !in r
    ensures StartsWith(s, r)
    ensures c in s ==> |r| < |s| && s[|r|] == c
  {
    Split(s, c)[0]
  }

  // ---------------------------------------------------------------------------
  // Brace counting

  /** Opening minus closing braces: what `matches('{').count()` minus
      `matches('}').count()` adds to a running balance. */
  function Depth(s: string): int {
    (multiset(s)['{'] as int) - (multiset(s)['}'] as int)
  }

  function Delta(c: char): int {
    if c == '{' then 1 else if c == '}' then -1 else 0
  }

  /** Reading `s` from depth `d`, the depth never drops below zero. */
  predicate Walk(s: string, d: int)
    decreases |s|
  {
    |s| == 0 || (d + Delta(s[0]) >= 0 && Walk(s[1..], d + Delta(s[0])))
  }

  /** Balanced braces: no prefix closes more than it opened, and the total is zero. */
  predicate Balanced(s: string) {
    Walk(s, 0) && Depth(s) == 0
  }

  lemma DepthCons(s: string)
    requires |s| > 0
    ensures Depth(s) == Delta(s[0]) + Depth(s[1..])
  {
    assert s == [s[0]] + s[1..];
    assert multiset(s) == multiset([s[0]]) + multiset(s[1..]);
  }

  lemma DepthConcat(a: string, b: string)
    ensures Depth(a + b) == Depth(a) + Depth(b)
  {
    assert multiset(a + b) == multiset(a) + multiset(b);
  }

  lemma {:induction false} WalkConcat(a: string, b: string, d: int)
    requires Walk(a, d) && Walk(b, d + Depth(a))
    ensures Walk(a + b, d)
    decreases |a|
  {
    if |a| == 0 {
      assert a + b == b;
    } else {
      DepthCons(a);
      assert (a + b)[0] == a[0];
      assert (a + b)[1..] == a[1..] + b;
      WalkConcat(a[1..], b, d + Delta(a[0]));
    }
  }

  /** Starting deeper never hurts. */
  lemma {:induction false} WalkMonotone(s: string, d: int, e: int)
    requires Walk(s, d) && d <= e
    ensures Walk(s, e)
    decreases |s|
  {
    if |s| > 0 {
      WalkMonotone(s[1..], d + Delta(s[0]), e + Delta(s[0]));
    }
  }

  /** Text without braces is walked at a constant depth. */
  lemma {:induction false} BraceFreeWalk(s: string, d: int)
    requires '{' !in s && '}' !in s && d >= 0
    ensures Walk(s, d) && Depth(s) == 0
    decreases |s|
  {
    if |s| > 0 {
      assert s[0] in s;
      assert forall c :: c in s[1..] ==> c in s;
      BraceFreeWalk(s[1..], d);
      DepthCons(s);
    }
  }

  /** Every prefix of a walk from `d` stays at or above zero. */
  lemma {:induction false} WalkPrefix(s: string, d: int, k: nat)
    requires Walk(s, d) && d >= 0 && k <= |s|
    ensures d + Depth(s[..k]) >= 0
    decreases |s|
  {
    if k > 0 {
      assert s[..k] == [s[0]] + s[1..][..k - 1];
      DepthConcat([s[0]], s[1..][..k - 1]);
      DepthCons([s[0]]);
      assert [s[0]][1..] == [];
      WalkPrefix(s[1..], d + Delta(s[0]), k - 1);
    }
  }

  lemma BalancedConcat(a: string, b: string)
    requires Balanced(a) && Balanced(b)
    ensures Balanced(a + b)
  {
    WalkConcat(a, b, 0);
    DepthConcat(a, b);
  }

  /** A pair of braces around balanced text is balanced. */
  lemma BalancedBraced(x: string)
    requires Balanced(x)
    ensures Balanced("{" + x + "}")
  {
    DepthCons("{");
    DepthCons("}");
    assert "{"[1..] == [] && "}"[1..] == [];
    WalkMonotone(x, 0, 1);
    WalkConcat("{", x, 0);
    DepthConcat("{", x);
    WalkConcat("{" + x, "}", 0);
    DepthConcat("{" + x, "}");
  }

  /** A braced block around balanced text, between brace-free text, is balanced. */
  lemma BalancedWrap(a: string, x: string, b: string)
    requires '{' !in a && '}' !in a && '{' !in b && '}' !in b
    requires Balanced(x)
    ensures Balanced(a + "{" + x + "}" + b)
  {
    BraceFreeBalanced(a);
    BraceFreeBalanced(b);
    BalancedBraced(x);
    var w := "{" + x + "}";
    BalancedConcat(a, w);
    BalancedConcat(a + w, b);
    assert a + w + b == a + "{" + x + "}" + b;
  }

  lemma BraceFreeBalanced(s: string)
    requires '{' !in s && '}' !in s
    ensures Balanced(s)
  {
    BraceFreeWalk(s, 0);
  }

  // ---------------------------------------------------------------------------
  // Text the block scanner treats as inert

  /** No brace, no `#` (so no line of it can start a `#[pyfunction]` block)
      and no carriage return (so `lines()` gives the text back unchanged). */
  predicate Plain(s: string) {
    '{' !in s && '}' !in s && '#' !in s && '\r' !in s
  }

  predicate InertChar(c: char) {
    c != '{' && c != '}' && c != '#' && c != '\r'
  }

  /** Character by character is how `Plain` is checked for a literal. */
  lemma PlainChars(s: string)
    requires forall i :: 0 <= i < |s| ==> InertChar(s[i])
    ensures Plain(s)
  {
  }

  /** Like `Plain`, but braces are allowed as long as they balance. */
  predicate Safe(s: string) {
    Balanced(s) && '#' !in s && '\r' !in s
  }

  lemma PlainIsSafe(s: string)
    requires Plain(s)
    ensures Safe(s)
  {
    BraceFreeBalanced(s);
  }

  lemma SafeConcat(a: string, b: string)
    requires Safe(a) && Safe(b)
    ensures Safe(a + b)
  {
    BalancedConcat(a, b);
  }

  lemma SafeConcat3(a: string, b: string, c: string)
    requires Safe(a) && Safe(b) && Safe(c)
    ensures Safe(a + b + c)
  {
    SafeConcat(a, b);
    SafeConcat(a + b, c);
  }

  /** `{x}`: a Rust block or a format brace pair around `x`. */
  function Braced(x: string): string {
    "{" + x + "}"
  }

  lemma SafeBraced(x: string)
    requires Safe(x)
    ensures Safe(Braced(x))
  {
    BalancedBraced(x);
  }

  /** `a { x } b` with plain `a`, `b` and safe `x`. */
  lemma SafeWrap(a: string, x: string, b: string)
    requires Plain(a) && Safe(x) && Plain(b)
    ensures Safe(a + "{" + x + "}" + b)
  {
    BalancedWrap(a, x, b);
  }

  /** Safe pieces between plain literal pieces: the shape of every template the
      generator fills. Stating that shape over variables keeps the literals
      of a particular template out of the reasoning about it. */
  lemma SafeTemplate5(p0: string, x1: string, p1: string, x2: string, p2: string)
    requires Plain(p0) && Plain(p1) && Plain(p2)
    requires Safe(x1) && Safe(x2)
    ensures Safe(p0 + x1 + p1 + x2 + p2)
  {
    PlainIsSafe(p0);
    PlainIsSafe(p1);
    PlainIsSafe(p2);
    SafeConcat(p0, x1);
    SafeConcat(p0 + x1, p1);
    SafeConcat(p0 + x1 + p1, x2);
    SafeConcat(p0 + x1 + p1 + x2, p2);
  }

  lemma SafeTemplate7(p0: string, x1: string, p1: string, x2: string, p2: string, x3: string, p3: string)
    requires Plain(p0) && Plain(p1) && Plain(p2) && Plain(p3)
    requires Safe(x1) && Safe(x2) && Safe(x3)
    ensures Safe(p0 + x1 + p1 + x2 + p2 + x3 + p3)
  {
    SafeTemplate5(p0, x1, p1, x2, p2);
    PlainIsSafe(p3);
    SafeConcat(p0 + x1 + p1 + x2 + p2, x3);
    SafeConcat(p0 + x1 + p1 + x2 + p2 + x3, p3);
  }

  lemma {:induction false} SafeConcatAll(parts: seq<string>)
    requires forall i :: 0 <= i < |parts| ==> Safe(parts[i])
    ensures Safe(Concat(parts))
    decreases |parts|
  {
    if |parts| == 0 {
      PlainIsSafe("");
    } else {
      SafeConcatAll(parts[..|parts| - 1]);
      SafeConcat(Concat(parts[..|parts| - 1]), parts[|parts| - 1]);
    }
  }

  lemma {:induction false} SafeJoin(parts: seq<string>, sep: string)
    requires Safe(sep)
    requires forall i :: 0 <= i < |parts| ==> Safe(parts[i])
    ensures Safe(Join(parts, sep))
    decreases |parts|
  {
    if |parts| == 0 {
      PlainIsSafe("");
    } else if |parts| > 1 {
      SafeJoin(parts[1..], sep);
      SafeConcat3(parts[0], sep, Join(parts[1..], sep));
    }
  }
}
