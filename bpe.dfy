/** Byte-pair encoding as the `rustify_ml_ext` extension implements it
    (`bpe_encode` and `count_pairs` in `dist/rustify_ml_ext/src/lib.rs`); the
    Python example `examples/bpe_tokenizer.py` runs the same two loops, so
    both are modelled here once. Tokens are unbounded integers: the Rust
    `i64` and the Python `int` agree on every value these loops can make. */
module Bpe {
  import opened Common

  // ---------------------------------------------------------------------------
  // The starting tokens: the UTF-8 bytes of the text

  /** The UTF-8 encoding of one Unicode scalar value. */
  function Utf8Char(c: char): (r: seq<int>)
    ensures 1 <= |r| <= 4
    ensures forall k :: 0 <= k < |r| ==> 0 <= r[k] < 256
    ensures (|r| == 1) == (c as int < 0x80)
    ensures |r| == 1 ==> r[0] == c as int
    ensures |r| > 1 ==> r[0] >= 0xC0 && forall k :: 1 <= k < |r| ==> 0x80 <= r[k] < 0xC0
  {
    var n := c as int;
    if n < 0x80 then [n]
    else if n < 0x800 then [0xC0 + n / 0x40, 0x80 + n % 0x40]
    else if n < 0x1_0000 then [0xE0 + n / 0x1000, 0x80 + (n / 0x40) % 0x40, 0x80 + n % 0x40]
    else [0xF0 + n / 0x4_0000, 0x80 + (n / 0x1000) % 0x40, 0x80 + (n / 0x40) % 0x40, 0x80 + n % 0x40]
  }

  /** `text.into_bytes()` / `text.encode("utf-8")`, each byte as a token. */
  function Utf8(s: string): (r: seq<int>)
    ensures |s| <= |r| <= 4 * |s|
    ensures forall k :: 0 <= k < |r| ==> 0 <= r[k] < 256
  {
    if |s| == 0 then [] else Utf8(s[..|s| - 1]) + Utf8Char(s[|s| - 1])
  }

  /** Text made of ASCII characters encodes to one byte per character, its code. */
  lemma {:induction false} Utf8Ascii(s: string)
    requires forall k :: 0 <= k < |s| ==> s[k] as int < 0x80
    ensures Utf8(s) == seq(|s|, k requires 0 <= k < |s| => s[k] as int)
  {
    if |s| > 0 {
      Utf8Ascii(s[..|s| - 1]);
    }
  }

  // ---------------------------------------------------------------------------
  // The merge ranks

  /** The `merge_rank` map: every pair under its index in `merges`; inserting
      in order lets a later duplicate overwrite an earlier rank. */
  function RankMap(merges: seq<Pair>): map<Pair, nat>
  {
    if |merges| == 0 then map[]
    else RankMap(merges[..|merges| - 1])[merges[|merges| - 1] := |merges| - 1]
  }

  /** The pairs with a rank are exactly the listed pairs, and each one's rank is
      the index of its LAST occurrence in the list. */
  lemma {:induction false} RankMapLast(merges: seq<Pair>, p: Pair)
    ensures p in RankMap(merges) <==> p in merges
    ensures p in RankMap(merges) ==>
      var r := RankMap(merges)[p];
      r < |merges| && merges[r] == p && forall k :: r < k < |merges| ==> merges[k] != p
  {
    if |merges| > 0 {
      var front := merges[..|merges| - 1];
      RankMapLast(front, p);
      assert merges == front + [merges[|merges| - 1]];
      if p in RankMap(merges) && p != merges[|merges| - 1] {
        assert p in front;
      }
    }
  }

  /** Every rank is an index into `merges`. */
  lemma RankMapBound(merges: seq<Pair>)
    ensures forall p :: p in RankMap(merges) ==> RankMap(merges)[p] < |merges|
  {
    forall p | p in RankMap(merges)
      ensures RankMap(merges)[p] < |merges|
    {
      RankMapLast(merges, p);
    }
  }

  /** The loop over `merges.enumerate()` that fills `merge_rank`. */
  method BuildRanks(merges: seq<Pair>) returns (mergeRank: map<Pair, nat>)
    ensures mergeRank == RankMap(merges)
  {
    mergeRank := map[];
    for rank := 0 to |merges|
      invariant mergeRank == RankMap(merges[..rank])
    {
      assert merges[..rank + 1][..rank] == merges[..rank];
      mergeRank := mergeRank[merges[rank] := rank];
    }
    assert merges[..|merges|] == merges;
  }

  // ---------------------------------------------------------------------------
  // Merge passes

  /** One merge at `i`: the pair there becomes the single token `id`. */
  function MergeAt(t: seq<int>, i: nat, id: int): (r: seq<int>)
    requires i + 1 < |t|
    ensures |r| == |t| - 1 && r[i] == id
    ensures r[..i] == t[..i] && r[i + 1..] == t[i + 2..]
  {
    t[..i] + [id] + t[i + 2..]
  }

  /** The rest of one left-to-right pass from position `i`: a ranked pair is
      merged and the same position is looked at again, anything else moves
      on. The flag says whether the pass has merged anything. */
  function PassFrom(t: seq<int>, i: nat, ranks: map<Pair, nat>, changed: bool): (r: (seq<int>, bool))
    requires i <= |t|
    ensures |r.0| <= |t|
    ensures r.1 <==> changed || |r.0| < |t|
    ensures !r.1 ==> r.0 == t
    decreases |t| - i
  {
    if i + 1 < |t| then
      if (t[i], t[i + 1]) in ranks then PassFrom(MergeAt(t, i, 256 + ranks[(t[i], t[i + 1])]), i, ranks, true)
      else PassFrom(t, i + 1, ranks, changed)
    else (t, changed)
  }

  /** Passes repeated until one merges nothing. */
  function Encoded(t: seq<int>, ranks: map<Pair, nat>): seq<int>
    decreases |t|
  {
    var pass := PassFrom(t, 0, ranks, false);
    if pass.1 then Encoded(pass.0, ranks) else pass.0
  }

  /** `bpe_encode`: repeated left-to-right merge passes over the UTF-8 bytes
      until a pass changes nothing. */
  method Encode(text: string, merges: seq<Pair>) returns (tokens: seq<int>)
    ensures tokens == Encoded(Utf8(text), RankMap(merges))
  {
    var mergeRank := BuildRanks(merges);
    tokens := MergePasses(Utf8(text), mergeRank);
  }

  /** The `while changed` loop of `bpe_encode`, from the UTF-8 bytes on. */
  method MergePasses(bytes: seq<int>, mergeRank: map<Pair, nat>) returns (tokens: seq<int>)
    ensures tokens == Encoded(bytes, mergeRank)
  {
    tokens := bytes;
    ghost var goal := Encoded(tokens, mergeRank);
    var changed := true;
    while changed
      invariant changed ==> Encoded(tokens, mergeRank) == goal
      invariant !changed ==> tokens == goal
      decreases |tokens| + if changed then 1 else 0
    {
      changed := false;
      ghost var start := tokens;
      var i := 0;
      while i + 1 < |tokens|
        invariant i <= |tokens|
        invariant PassFrom(tokens, i, mergeRank, changed) == PassFrom(start, 0, mergeRank, false)
        decreases |tokens| - i
      {
        var pair := (tokens[i], tokens[i + 1]);
        if pair in mergeRank {
          var newId := 256 + mergeRank[pair];
          ghost var merged := MergeAt(tokens, i, newId);
          tokens := tokens[i := newId];
          tokens := tokens[..i + 1] + tokens[i + 2..];
          assert tokens == merged;
          changed := true;
        } else {
          i := i + 1;
        }
      }
    }
  }

  // ---------------------------------------------------------------------------
  // What the passes guarantee

  /** No adjacent pair of `t` has a rank. */
  predicate Irreducible(t: seq<int>, ranks: map<Pair, nat>) {
    forall k :: 0 <= k < |t| - 1 ==> (t[k], t[k + 1]) !in ranks
  }

  /** A pass that merges nothing has looked at every pair from `i` on. */
  lemma {:induction false} CleanPass(t: seq<int>, i: nat, ranks: map<Pair, nat>, changed: bool)
    requires i <= |t| && !PassFrom(t, i, ranks, changed).1
    ensures forall k :: i <= k < |t| - 1 ==> (t[k], t[k + 1]) !in ranks
    decreases |t| - i
  {
    if i + 1 < |t| {
      CleanPass(t, i + 1, ranks, changed);
    }
  }

  /** On exit no adjacent pair of the result is a key of the rank map. */
  lemma {:induction false} EncodedIrreducible(t: seq<int>, ranks: map<Pair, nat>)
    ensures Irreducible(Encoded(t, ranks), ranks)
    decreases |t|
  {
    var next, changed := PassFrom(t, 0, ranks, false).0, PassFrom(t, 0, ranks, false).1;
    if changed {
      EncodedIrreducible(next, ranks);
    } else {
      CleanPass(t, 0, ranks, false);
    }
  }

  /** Merging never lengthens: the result is at most as long as the input. */
  lemma {:induction false} EncodedShorter(t: seq<int>, ranks: map<Pair, nat>)
    ensures |Encoded(t, ranks)| <= |t|
    decreases |t|
  {
    var next, changed := PassFrom(t, 0, ranks, false).0, PassFrom(t, 0, ranks, false).1;
    if changed {
      EncodedShorter(next, ranks);
    }
  }

  /** An input with no ranked pair comes back unchanged. */
  lemma {:induction false} IrreducibleFixed(t: seq<int>, ranks: map<Pair, nat>)
    requires Irreducible(t, ranks)
    ensures Encoded(t, ranks) == t
  {
    IrreducibleClean(t, 0, ranks);
  }

  /** A pass over pairs none of which has a rank merges nothing. */
  lemma {:induction false} IrreducibleClean(t: seq<int>, i: nat, ranks: map<Pair, nat>)
    requires i <= |t| && Irreducible(t, ranks)
    ensures PassFrom(t, i, ranks, false) == (t, false)
    decreases |t| - i
  {
    if i + 1 < |t| {
      IrreducibleClean(t, i + 1, ranks);
    }
  }

  /** With no merges the result is the text's UTF-8 bytes. */
  lemma EncodeNoMerges(text: string)
    ensures Encoded(Utf8(text), RankMap([])) == Utf8(text)
  {
    IrreducibleFixed(Utf8(text), RankMap([]));
  }

  /** The fixture: "hi" with no merges encodes to its bytes `[104, 105]`. */
  lemma EncodeHi()
    ensures Encoded(Utf8("hi"), RankMap([])) == [104, 105]
  {
    EncodeNoMerges("hi");
    Utf8Ascii("hi");
  }

  /** All tokens lie in `[0, bound)`. */
  predicate InRange(t: seq<int>, bound: int) {
    forall k :: 0 <= k < |t| ==> 0 <= t[k] < bound
  }

  /** A pass keeps every token below `256 + |merges|`: merged ids are `256 + rank`. */
  lemma {:induction false} PassInRange(t: seq<int>, i: nat, merges: seq<Pair>, changed: bool)
    requires i <= |t| && InRange(t, 256 + |merges|)
    ensures InRange(PassFrom(t, i, RankMap(merges), changed).0, 256 + |merges|)
    decreases |t| - i
  {
    var ranks := RankMap(merges);
    if i + 1 < |t| {
      if (t[i], t[i + 1]) in ranks {
        RankMapBound(merges);
        var m := MergeAt(t, i, 256 + ranks[(t[i], t[i + 1])]);
        forall k | 0 <= k < |m|
          ensures 0 <= m[k] < 256 + |merges|
        {
          if k < i {
            assert m[k] == m[..i][k];
          } else if k > i {
            assert m[k] == m[i + 1..][k - i - 1];
          }
        }
        PassInRange(m, i, merges, true);
      } else {
        PassInRange(t, i + 1, merges, changed);
      }
    }
  }

  /** Every output token is a byte or `256 + rank` of some merge. */
  lemma {:induction false} EncodedInRange(t: seq<int>, merges: seq<Pair>)
    requires InRange(t, 256 + |merges|)
    ensures InRange(Encoded(t, RankMap(merges)), 256 + |merges|)
    decreases |t|
  {
    var next, changed := PassFrom(t, 0, RankMap(merges), false).0, PassFrom(t, 0, RankMap(merges), false).1;
    PassInRange(t, 0, merges, false);
    if changed {
      EncodedInRange(next, merges);
    }
  }

  /** The result of encoding a text: UTF-8 bytes and merge ids only, no longer
      than the byte count, and with no mergeable pair left. */
  lemma EncodeSummary(text: string, merges: seq<Pair>)
    ensures var r := Encoded(Utf8(text), RankMap(merges));
      |r| <= |Utf8(text)| && InRange(r, 256 + |merges|) && Irreducible(r, RankMap(merges))
  {
    EncodedShorter(Utf8(text), RankMap(merges));
    EncodedInRange(Utf8(text), merges);
    EncodedIrreducible(Utf8(text), RankMap(merges));
  }

  /** The pass is left to right over any mergeable pair, not lowest rank first:
      with merges `[(2, 3), (1, 2)]` the tokens `[1, 2, 3]` merge `(1, 2)`
      (rank 1) although `(2, 3)` has the lower rank 0. */
  lemma LeftToRightNotByRank()
    ensures Encoded([1, 2, 3], RankMap([(2, 3), (1, 2)])) == [257, 3]
  {
    var merges: seq<Pair> := [(2, 3), (1, 2)];
    assert merges[..1] == [(2, 3)] && merges[..1][..0] == [];
    assert RankMap(merges[..1]) == map[(2, 3) := 0];
    var ranks := RankMap(merges);
    assert ranks == map[(2, 3) := 0, (1, 2) := 1];
    assert MergeAt([1, 2, 3], 0, 257) == [257, 3];
    assert PassFrom([1, 2, 3], 0, ranks, false) == ([257, 3], true);
    assert PassFrom([257, 3], 0, ranks, false) == ([257, 3], false);
  }

  // ---------------------------------------------------------------------------
  // Pair counting

  /** The number of positions with a right neighbour: `len.saturating_sub(1)`. */
  function Positions(t: seq<int>): nat {
    if |t| > 0 then |t| - 1 else 0
  }

  /** One more occurrence of `p`: `entry(p).or_insert(0) += 1` / `get(p, 0) + 1`. */
  function Bump(counts: map<Pair, int>, p: Pair): (r: map<Pair, int>)
    ensures r.Keys == counts.Keys + {p}
  {
    counts[p := if p in counts then counts[p] + 1 else 1]
  }

  /** The counts of the pairs at the first `m` positions. */
  function CountsUpTo(t: seq<int>, m: nat): map<Pair, int>
    requires m <= Positions(t)
  {
    if m == 0 then map[] else Bump(CountsUpTo(t, m - 1), (t[m - 1], t[m]))
  }

  /** The counts of every adjacent pair. */
  function PairCounts(t: seq<int>): map<Pair, int> {
    CountsUpTo(t, Positions(t))
  }

  /** `count_pairs`: bump every adjacent pair once. */
  method CountPairs(tokens: seq<int>) returns (counts: map<Pair, int>)
    ensures counts == PairCounts(tokens)
  {
    counts := map[];
    for i := 0 to Positions(tokens)
      invariant counts == CountsUpTo(tokens, i)
    {
      var a := tokens[i];
      var b := tokens[i + 1];
      counts := Bump(counts, (a, b));
    }
  }

  /** How many of the first `m` positions hold the pair `p`. */
  function Occurrences(t: seq<int>, p: Pair, m: nat): nat
    requires m <= Positions(t)
  {
    if m == 0 then 0 else Occurrences(t, p, m - 1) + if (t[m - 1], t[m]) == p then 1 else 0
  }

  /** The keys are exactly the adjacent pairs, and each count is the number of
      positions holding that pair. */
  lemma {:induction false} CountsAreOccurrences(t: seq<int>, m: nat, p: Pair)
    requires m <= Positions(t)
    ensures p in CountsUpTo(t, m) <==> Occurrences(t, p, m) > 0
    ensures p in CountsUpTo(t, m) ==> CountsUpTo(t, m)[p] == Occurrences(t, p, m)
    ensures Occurrences(t, p, m) > 0 <==> exists k :: 0 <= k < m && (t[k], t[k + 1]) == p
  {
    if m > 0 {
      CountsAreOccurrences(t, m - 1, p);
    }
  }

  /** Inputs with fewer than two tokens have no pairs. */
  lemma CountsOfShort(t: seq<int>)
    requires |t| <= 1
    ensures PairCounts(t) == map[]
  {
  }

  /** The sum of a map's values. */
  ghost function SumValues(m: map<Pair, int>): int
    decreases |m.Keys|
  {
    if m.Keys == {} then 0
    else
      var k :| k in m.Keys;
      m[k] + SumValues(m - {k})
  }

  /** The sum may take out any one key first. */
  lemma {:induction false} SumValuesRemove(m: map<Pair, int>, k: Pair)
    requires k in m
    ensures SumValues(m) == m[k] + SumValues(m - {k})
    decreases |m.Keys|
  {
    var j :| j in m.Keys && SumValues(m) == m[j] + SumValues(m - {j});
    if j != k {
      SumValuesRemove(m - {j}, k);
      SumValuesRemove(m - {k}, j);
      assert m - {j} - {k} == m - {k} - {j};
    }
  }

  /** Bumping a pair adds one to the total. */
  lemma BumpSum(counts: map<Pair, int>, p: Pair)
    ensures SumValues(Bump(counts, p)) == SumValues(counts) + 1
  {
    var b := Bump(counts, p);
    SumValuesRemove(b, p);
    assert b - {p} == counts - {p};
    if p in counts {
      SumValuesRemove(counts, p);
    } else {
      assert counts - {p} == counts;
    }
  }

  /** The counts add up to the number of positions, `len.saturating_sub(1)`. */
  lemma {:induction false} CountsSum(t: seq<int>, m: nat)
    requires m <= Positions(t)
    ensures SumValues(CountsUpTo(t, m)) == m
  {
    if m > 0 {
      CountsSum(t, m - 1);
      BumpSum(CountsUpTo(t, m - 1), (t[m - 1], t[m]));
    }
  }

  /** The fixture `[1, 2, 1, 2]` counts `(1, 2)` twice and `(2, 1)` once. */
  lemma CountsExample()
    ensures PairCounts([1, 2, 1, 2]) == map[(1, 2) := 2, (2, 1) := 1]
  {
  }
}
