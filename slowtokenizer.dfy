/** The greedy longest-match tokenizer of `examples/slow_tokenizer.py`: at
    every position the longest vocabulary key of at most ten characters is
    taken, and a character no key starts with becomes the unknown token 0. */
module SlowTokenizer {
  import opened Text

  /** The longest key length tried at any position. */
  const MaxLength := 10

  /** The unknown-token id. */
  const Unknown := 0

  /** The first length the descending search tries at position `i`. */
  function Cap(text: string, i: nat): (r: nat)
    requires i <= |text|
    ensures r <= MaxLength && i + r <= |text|
    ensures i < |text| ==> r >= 1
  {
    if MaxLength <= |text| - i then MaxLength else |text| - i
  }

  /** The `m` characters at position `i` form a key. */
  predicate KeyAt(text: string, vocab: map<string, int>, i: nat, m: nat) {
    i + m <= |text| && text[i..i + m] in vocab
  }

  /** The descending search from length `len`: the largest `m <= len` with
      `text[i..i + m]` a key, or 0 when there is none. */
  function LongestMatch(text: string, vocab: map<string, int>, i: nat, len: nat): (r: nat)
    requires i + len <= |text|
    ensures r <= len
    ensures r > 0 ==> text[i..i + r] in vocab
    ensures forall m :: r < m <= len ==> !KeyAt(text, vocab, i, m)
    decreases len
  {
    if len == 0 then 0
    else if text[i..i + len] in vocab then len
    else LongestMatch(text, vocab, i, len - 1)
  }

  /** The tokens emitted from position `i` to the end of the text. */
  function Tokens(text: string, vocab: map<string, int>, i: nat): seq<int>
    requires i <= |text|
    decreases |text| - i
  {
    if i == |text| then []
    else
      var len := LongestMatch(text, vocab, i, Cap(text, i));
      if len > 0 then [vocab[text[i..i + len]]] + Tokens(text, vocab, i + len)
      else [Unknown] + Tokens(text, vocab, i + 1)
  }

  /** The pieces of text the tokens stand for, from position `i`. */
  function Pieces(text: string, vocab: map<string, int>, i: nat): seq<string>
    requires i <= |text|
    decreases |text| - i
  {
    if i == |text| then []
    else
      var len := LongestMatch(text, vocab, i, Cap(text, i));
      if len > 0 then [text[i..i + len]] + Pieces(text, vocab, i + len)
      else [text[i..i + 1]] + Pieces(text, vocab, i + 1)
  }

  /** The token a piece stands for: its id, or the unknown token. */
  function TokenOf(vocab: map<string, int>, piece: string): int {
    if piece in vocab then vocab[piece] else Unknown
  }

  /** `tokenize`: the outer scan over positions. A found length (the
      `matched` flag) emits the key's id and skips the key; otherwise the
      unknown token is emitted and one character skipped. */
  method Tokenize(text: string, vocab: map<string, int>) returns (tokens: seq<int>)
    ensures tokens == Tokens(text, vocab, 0)
  {
    ghost var goal := Tokens(text, vocab, 0);
    tokens := [];
    var i := 0;
    while i < |text|
      invariant i <= |text|
      invariant tokens + Tokens(text, vocab, i) == goal
      decreases |text| - i
    {
      var length := SearchLength(text, vocab, i);
      if length > 0 {
        TokensOnMatch(text, vocab, tokens, i, length, goal);
        tokens := tokens + [vocab[text[i..i + length]]];
        i := i + length;
      } else {
        TokensOnNoMatch(text, vocab, tokens, i, goal);
        tokens := tokens + [Unknown];
        i := i + 1;
      }
    }
  }

  /** The inner descending loop of `tokenize`: tries the lengths from the cap
      down to 1 and stops at the first one that is a key; 0 when none is. */
  method SearchLength(text: string, vocab: map<string, int>, i: nat) returns (length: nat)
    requires i < |text|
    ensures length == LongestMatch(text, vocab, i, Cap(text, i))
  {
    length := if MaxLength <= |text| - i then MaxLength else |text| - i;
    while length > 0
      invariant i + length <= |text|
      invariant LongestMatch(text, vocab, i, length) == LongestMatch(text, vocab, i, Cap(text, i))
      decreases length
    {
      if text[i..i + length] in vocab {
        return;
      }
      length := length - 1;
    }
  }

  /** A position where the search finds a key of `len` characters emits its id. */
  lemma TokensOnMatch(text: string, vocab: map<string, int>, done: seq<int>, i: nat, len: nat, goal: seq<int>)
    requires i < |text| && 0 < len == LongestMatch(text, vocab, i, Cap(text, i))
    requires done + Tokens(text, vocab, i) == goal
    ensures (done + [vocab[text[i..i + len]]]) + Tokens(text, vocab, i + len) == goal
  {
    var rest := Tokens(text, vocab, i + len);
    assert Tokens(text, vocab, i) == [vocab[text[i..i + len]]] + rest;
    AppendAssoc3(done, [vocab[text[i..i + len]]], rest);
  }

  /** A position where the search finds no key emits the unknown token. */
  lemma TokensOnNoMatch(text: string, vocab: map<string, int>, done: seq<int>, i: nat, goal: seq<int>)
    requires i < |text| && LongestMatch(text, vocab, i, Cap(text, i)) == 0
    requires done + Tokens(text, vocab, i) == goal
    ensures (done + [Unknown]) + Tokens(text, vocab, i + 1) == goal
  {
    var rest := Tokens(text, vocab, i + 1);
    assert Tokens(text, vocab, i) == [Unknown] + rest;
    AppendAssoc3(done, [Unknown], rest);
  }

  /** Appending a token and then the rest is appending both at once. */
  /** The pieces, joined, give back the rest of the text. */
  lemma {:induction false} PiecesJoin(text: string, vocab: map<string, int>, i: nat)
    requires i <= |text|
    ensures Concat(Pieces(text, vocab, i)) == text[i..]
    decreases |text| - i
  {
    if i < |text| {
      var len := LongestMatch(text, vocab, i, Cap(text, i));
      var next := if len > 0 then i + len else i + 1;
      var piece, rest := text[i..next], Pieces(text, vocab, next);
      PiecesJoin(text, vocab, next);
      assert Pieces(text, vocab, i) == [piece] + rest;
      ConcatCons(piece, rest);
      SliceSplit(text, i, next);
    }
  }

  lemma SliceSplit(s: string, a: nat, b: nat)
    requires a <= b <= |s|
    ensures s[a..] == s[a..b] + s[b..]
  {
  }

  /** There is one piece per token, non-empty and at most ten characters
      long, and each token is the id of its piece, or 0 when the piece is
      not a key. */
  lemma {:induction false} PiecesMatchTokens(text: string, vocab: map<string, int>, i: nat)
    requires i <= |text|
    ensures |Pieces(text, vocab, i)| == |Tokens(text, vocab, i)|
    ensures forall k :: 0 <= k < |Pieces(text, vocab, i)| ==>
      1 <= |Pieces(text, vocab, i)[k]| <= MaxLength
      && Tokens(text, vocab, i)[k] == TokenOf(vocab, Pieces(text, vocab, i)[k])
    decreases |text| - i
  {
    if i < |text| {
      var len := LongestMatch(text, vocab, i, Cap(text, i));
      var next := if len > 0 then i + len else i + 1;
      PiecesMatchTokens(text, vocab, next);
      if len == 0 {
        assert !KeyAt(text, vocab, i, 1);
      }
    }
  }

  /** The tokens are a segmentation of the text into pieces. */
  lemma TokensArePieces(text: string, vocab: map<string, int>)
    ensures Concat(Pieces(text, vocab, 0)) == text
    ensures |Pieces(text, vocab, 0)| == |Tokens(text, vocab, 0)|
    ensures forall k :: 0 <= k < |Pieces(text, vocab, 0)| ==>
      1 <= |Pieces(text, vocab, 0)[k]| <= MaxLength
      && Tokens(text, vocab, 0)[k] == TokenOf(vocab, Pieces(text, vocab, 0)[k])
  {
    PiecesJoin(text, vocab, 0);
    PiecesMatchTokens(text, vocab, 0);
    assert text[0..] == text;
  }

  /** Every token is 0 or the id of a key that occurs in the text. */
  lemma TokensFromVocab(text: string, vocab: map<string, int>, k: nat)
    requires k < |Tokens(text, vocab, 0)|
    ensures Tokens(text, vocab, 0)[k] == Unknown
      || exists a, b :: 0 <= a < b <= |text| && text[a..b] in vocab && Tokens(text, vocab, 0)[k] == vocab[text[a..b]]
  {
    TokensArePieces(text, vocab);
    var ps := Pieces(text, vocab, 0);
    PieceOccurs(ps, k);
    var a := |Concat(ps[..k])|;
    var b := a + |ps[k]|;
    assert text[a..b] == ps[k];
  }

  /** Piece `k` sits in the joined string right after the pieces before it. */
  lemma PieceOccurs(ps: seq<string>, k: nat)
    requires k < |ps|
    ensures |Concat(ps[..k])| + |ps[k]| <= |Concat(ps)|
    ensures Concat(ps)[|Concat(ps[..k])|..|Concat(ps[..k])| + |ps[k]|] == ps[k]
  {
    ConcatSplit(ps, k);
    assert ps[k..] == [ps[k]] + ps[k + 1..];
    ConcatCons(ps[k], ps[k + 1..]);
  }

  /** Joining a piece in front of others puts its text first. */
  lemma ConcatCons(p: string, rest: seq<string>)
    ensures Concat([p] + rest) == p + Concat(rest)
  {
    ConcatSplit([p] + rest, 1);
    assert ([p] + rest)[..1] == [p];
    assert ([p] + rest)[1..] == rest;
    assert [p][..0] == [];
  }

  /** Joining distributes over a split of the sequence. */
  lemma {:induction false} ConcatSplit(ps: seq<string>, k: nat)
    requires k <= |ps|
    ensures Concat(ps) == Concat(ps[..k]) + Concat(ps[k..])
    decreases |ps|
  {
    if k < |ps| {
      var n := |ps| - 1;
      ConcatSplit(ps[..n], k);
      assert ps[..n][..k] == ps[..k];
      assert ps[k..][..n - k] == ps[..n][k..];
      assert ps[k..][n - k] == ps[n];
    } else {
      assert ps[..k] == ps;
      assert ps[k..] == [];
    }
  }

  /** Each step moves forward by at least one character and at most ten, so
      there are between a tenth of the characters and all of them tokens. */
  lemma {:induction false} TokensLength(text: string, vocab: map<string, int>, i: nat)
    requires i <= |text|
    ensures |Tokens(text, vocab, i)| <= |text| - i
    ensures |text| - i <= MaxLength * |Tokens(text, vocab, i)|
    decreases |text| - i
  {
    if i < |text| {
      var len := LongestMatch(text, vocab, i, Cap(text, i));
      TokensLength(text, vocab, if len > 0 then i + len else i + 1);
    }
  }

  /** With an empty vocabulary every character is the unknown token. */
  lemma {:induction false} EmptyVocab(text: string, i: nat)
    requires i <= |text|
    ensures Tokens(text, map[], i) == seq(|text| - i, _ => Unknown)
    decreases |text| - i
  {
    if i < |text| {
      EmptyVocab(text, i + 1);
      assert LongestMatch(text, map[], i, Cap(text, i)) == 0;
    }
  }

  /** The first token is the longest key at the start: no longer prefix of
      at most ten characters is a key. */
  lemma FirstTokenIsLongest(text: string, vocab: map<string, int>, m: nat)
    requires |text| > 0 && |Pieces(text, vocab, 0)[0]| < m <= MaxLength && m <= |text|
    ensures text[..m] !in vocab
  {
    var len := LongestMatch(text, vocab, 0, Cap(text, 0));
    assert !KeyAt(text, vocab, 0, m);
    assert text[0..m] == text[..m];
  }
}
