/** BPE training from the Python example `examples/bpe_tokenizer.py`:
    `build_vocab` repeatedly picks the most frequent adjacent pair and
    replaces its occurrences by a fresh id. The module's `bpe_encode` and
    `count_pairs` are the loops of module `Bpe`. */
module BpeTokenizer {
  import opened Common
  import opened Bpe
  import Text

  /** Every adjacent pair of `t` has a count. */
  predicate AllCounted(t: seq<int>, counts: map<Pair, int>) {
    forall k :: 0 <= k < Positions(t) ==> (t[k], t[k + 1]) in counts
  }

  /** The counts of `t` cover its pairs. */
  lemma PairCountsCover(t: seq<int>)
    ensures AllCounted(t, PairCounts(t))
  {
    forall k | 0 <= k < Positions(t)
      ensures (t[k], t[k + 1]) in PairCounts(t)
    {
      CountsAreOccurrences(t, Positions(t), (t[k], t[k + 1]));
    }
  }

  /** The counts are empty exactly when `t` has fewer than two tokens, so
      `if not counts: break` stops when no pair is left. */
  lemma CountsEmpty(t: seq<int>)
    ensures PairCounts(t) == map[] <==> |t| < 2
  {
    if |t| >= 2 {
      CountsAreOccurrences(t, Positions(t), (t[0], t[1]));
      assert (t[0], t[1]) in PairCounts(t);
    }
  }

  /** `max(counts, key=counts.get)` from position `k` on, with `best` the
      winner so far. A dict iterates its keys in insertion order, which for
      `counts` is the order of first occurrence; walking the positions left to
      right meets the keys in that order, and a strictly larger count is needed
      to replace the winner, so ties go to the pair seen first. */
  function BestFrom(t: seq<int>, counts: map<Pair, int>, k: nat, best: Pair): Pair
    requires k <= Positions(t)
    decreases Positions(t) - k
  {
    if k == Positions(t) then best
    else
      var p := (t[k], t[k + 1]);
      BestFrom(t, counts, k + 1, if Count(counts, p) > Count(counts, best) then p else best)
  }

  /** The count of `p`; every pair the scan asks about is counted. */
  function Count(counts: map<Pair, int>, p: Pair): int {
    if p in counts then counts[p] else 0
  }

  /** The pair `build_vocab` learns from `t`. */
  function MostFrequent(t: seq<int>): Pair
    requires |t| >= 2
  {
    BestFrom(t, PairCounts(t), 1, (t[0], t[1]))
  }

  /** The pair at position `k`. */
  function PairAt(t: seq<int>, k: nat): Pair
    requires k < Positions(t)
  {
    (t[k], t[k + 1])
  }

  /** The pair at `w` has the largest count, and every pair before it a
      strictly smaller one. */
  predicate EarliestMax(t: seq<int>, counts: map<Pair, int>, w: nat)
    requires w < Positions(t)
  {
    (forall i :: 0 <= i < Positions(t) ==> Count(counts, PairAt(t, i)) <= Count(counts, PairAt(t, w))) &&
    (forall i :: 0 <= i < w ==> Count(counts, PairAt(t, i)) < Count(counts, PairAt(t, w)))
  }

  /** The invariant of the scan: the winner is the earliest pair at its count,
      and no pair seen so far has a larger count. */
  lemma {:induction false} BestFromIsEarliestMax(t: seq<int>, counts: map<Pair, int>, k: nat, j: nat)
    requires j < k <= Positions(t)
    requires forall i :: 0 <= i < k ==> Count(counts, PairAt(t, i)) <= Count(counts, PairAt(t, j))
    requires forall i :: 0 <= i < j ==> Count(counts, PairAt(t, i)) < Count(counts, PairAt(t, j))
    ensures exists w :: 0 <= w < Positions(t) && BestFrom(t, counts, k, PairAt(t, j)) == PairAt(t, w) &&
                        EarliestMax(t, counts, w)
    decreases Positions(t) - k
  {
    if k == Positions(t) {
      assert EarliestMax(t, counts, j);
    } else if Count(counts, PairAt(t, k)) > Count(counts, PairAt(t, j)) {
      BestFromIsEarliestMax(t, counts, k + 1, k);
    } else {
      BestFromIsEarliestMax(t, counts, k + 1, j);
    }
  }

  /** The learned pair occurs in `t`, and every pair occurring before its
      first occurrence has a strictly smaller count, every other one at most
      the same count. */
  lemma MostFrequentIsEarliestMax(t: seq<int>)
    requires |t| >= 2
    ensures exists w :: 0 <= w < Positions(t) && MostFrequent(t) == PairAt(t, w) && EarliestMax(t, PairCounts(t), w)
  {
    BestFromIsEarliestMax(t, PairCounts(t), 1, 0);
  }

  /** No counted pair has a larger count than the learned one. */
  lemma MostFrequentIsMax(t: seq<int>)
    requires |t| >= 2
    ensures MostFrequent(t) in PairCounts(t)
    ensures forall p :: p in PairCounts(t) ==> PairCounts(t)[p] <= PairCounts(t)[MostFrequent(t)]
  {
    var counts := PairCounts(t);
    MostFrequentIsEarliestMax(t);
    var w :| 0 <= w < Positions(t) && MostFrequent(t) == PairAt(t, w) && EarliestMax(t, counts, w);
    PairCountsCover(t);
    forall p | p in counts
      ensures counts[p] <= counts[PairAt(t, w)]
    {
      CountedIsAdjacent(t, p);
    }
  }

  /** A counted pair occurs at some position. */
  lemma CountedIsAdjacent(t: seq<int>, p: Pair)
    requires p in PairCounts(t)
    ensures exists k :: 0 <= k < Positions(t) && PairAt(t, k) == p
  {
    CountsAreOccurrences(t, Positions(t), p);
    var k :| 0 <= k < Positions(t) && (t[k], t[k + 1]) == p;
    assert PairAt(t, k) == p;
  }

  /** The scan for `max(counts, key=counts.get)`. */
  method PickMostFrequent(tokens: seq<int>, counts: map<Pair, int>) returns (best: Pair)
    requires |tokens| >= 2 && counts == PairCounts(tokens)
    ensures best == MostFrequent(tokens)
  {
    PairCountsCover(tokens);
    best := (tokens[0], tokens[1]);
    var k := 1;
    while k < |tokens| - 1
      invariant 1 <= k <= Positions(tokens) && best in counts
      invariant BestFrom(tokens, counts, k, best) == MostFrequent(tokens)
    {
      var p := (tokens[k], tokens[k + 1]);
      if counts[p] > counts[best] {
        best := p;
      }
      k := k + 1;
    }
  }

  /** Every occurrence of `best`, left to right and without overlap, replaced by `id`. */
  function Replaced(t: seq<int>, best: Pair, id: int): seq<int>
    decreases |t|
  {
    if |t| == 0 then []
    else if |t| >= 2 && (t[0], t[1]) == best then [id] + Replaced(t[2..], best, id)
    else [t[0]] + Replaced(t[1..], best, id)
  }

  /** The number of replacements `Replaced` makes. */
  function Replacements(t: seq<int>, best: Pair): nat
    decreases |t|
  {
    if |t| == 0 then 0
    else if |t| >= 2 && (t[0], t[1]) == best then 1 + Replacements(t[2..], best)
    else Replacements(t[1..], best)
  }

  /** The replacement pass of `build_vocab`, building `new_tokens`. */
  method ReplacePair(tokens: seq<int>, best: Pair, newId: int) returns (newTokens: seq<int>)
    ensures newTokens == Replaced(tokens, best, newId)
  {
    var i := 0;
    newTokens := [];
    while i < |tokens|
      invariant i <= |tokens|
      invariant newTokens + Replaced(tokens[i..], best, newId) == Replaced(tokens, best, newId)
    {
      if i < |tokens| - 1 && (tokens[i], tokens[i + 1]) == best {
        assert tokens[i..][2..] == tokens[i + 2..];
        newTokens := newTokens + [newId];
        i := i + 2;
      } else {
        assert tokens[i..][1..] == tokens[i + 1..];
        newTokens := newTokens + [tokens[i]];
        i := i + 1;
      }
    }
  }

  /** Each replacement turns two tokens into one. */
  lemma {:induction false} ReplacedLength(t: seq<int>, best: Pair, id: int)
    ensures |Replaced(t, best, id)| == |t| - Replacements(t, best)
    decreases |t|
  {
    if |t| >= 2 && (t[0], t[1]) == best {
      ReplacedLength(t[2..], best, id);
    } else if |t| > 0 {
      ReplacedLength(t[1..], best, id);
    }
  }

  /** A pair that occurs is replaced at least once. */
  lemma {:induction false} ReplacesOccurrence(t: seq<int>, best: Pair, w: nat)
    requires w + 1 < |t| && (t[w], t[w + 1]) == best
    ensures Replacements(t, best) >= 1
    decreases |t|
  {
    if !(|t| >= 2 && (t[0], t[1]) == best) {
      assert w >= 1;
      assert (t[1..][w - 1], t[1..][w]) == best;
      ReplacesOccurrence(t[1..], best, w - 1);
    }
  }

  /** The first token of a replacement: the id when the pair starts there,
      the first token otherwise. */
  lemma ReplacedHead(t: seq<int>, best: Pair, id: int)
    requires |t| > 0
    ensures |Replaced(t, best, id)| > 0
    ensures Replaced(t, best, id)[0] == if |t| >= 2 && (t[0], t[1]) == best then id else t[0]
  {
  }

  /** The pair `p` occurs nowhere in `t`. */
  predicate Absent(t: seq<int>, p: Pair) {
    forall k :: 0 <= k < |t| - 1 ==> (t[k], t[k + 1]) != p
  }

  /** No occurrence of `best` is left, provided the fresh id is neither of its tokens. */
  lemma {:induction false} ReplacedRemovesPair(t: seq<int>, best: Pair, id: int)
    requires id != best.0 && id != best.1
    ensures Absent(Replaced(t, best, id), best)
    decreases |t|
  {
    if |t| >= 2 && (t[0], t[1]) == best {
      var rest := Replaced(t[2..], best, id);
      ReplacedRemovesPair(t[2..], best, id);
      var r := [id] + rest;
      assert Replaced(t, best, id) == r;
      forall k | 0 <= k < |r| - 1
        ensures (r[k], r[k + 1]) != best
      {
        if k > 0 {
          assert 0 <= k - 1 < |rest| - 1;
          assert (rest[k - 1], rest[k]) != best;
          assert (r[k], r[k + 1]) == (rest[k - 1], rest[k]);
        } else {
          assert r[k] == id;
        }
      }
    } else if |t| > 0 {
      var rest := Replaced(t[1..], best, id);
      ReplacedRemovesPair(t[1..], best, id);
      var r := [t[0]] + rest;
      assert Replaced(t, best, id) == r;
      forall k | 0 <= k < |r| - 1
        ensures (r[k], r[k + 1]) != best
      {
        if k > 0 {
          assert 0 <= k - 1 < |rest| - 1;
          assert (rest[k - 1], rest[k]) != best;
          assert (r[k], r[k + 1]) == (rest[k - 1], rest[k]);
        } else {
          ReplacedHead(t[1..], best, id);
          assert r[0] == t[0] && r[1] == rest[0];
        }
      }
    }
  }

  /** Replacement keeps tokens below `bound` when the id is below it. */
  lemma {:induction false} ReplacedInRange(t: seq<int>, best: Pair, id: int, bound: int)
    requires InRange(t, bound) && 0 <= id < bound
    ensures InRange(Replaced(t, best, id), bound)
    decreases |t|
  {
    if |t| >= 2 && (t[0], t[1]) == best {
      ReplacedInRange(t[2..], best, id, bound);
    } else if |t| > 0 {
      ReplacedInRange(t[1..], best, id, bound);
    }
  }

  /** `rounds` more rounds of training from `t`, `learned` merges so far: the
      merges learned and the tokens left. A round stops the training when
      fewer than two tokens remain. */
  function Training(t: seq<int>, rounds: int, learned: nat): (r: (seq<Pair>, seq<int>))
    ensures |r.0| <= if rounds > 0 then rounds else 0
    ensures |r.0| < rounds ==> |r.1| < 2
    decreases if rounds > 0 then rounds else 0
  {
    if rounds <= 0 || |t| < 2 then ([], t)
    else
      var best := MostFrequent(t);
      var rest := Training(Replaced(t, best, 256 + learned), rounds - 1, learned + 1);
      ([best] + rest.0, rest.1)
  }

  /** The pairs learned so far followed by those still to be learned from
      `t` in `rounds` rounds are the pairs of the whole training. */
  ghost predicate OnTrack(merges: seq<Pair>, t: seq<int>, rounds: int, goal: seq<Pair>) {
    merges + Training(t, rounds, |merges|).0 == goal
  }

  /** One round of training moves the learned pair from what is still to be
      learned to what has been learned. */
  lemma TrainingRound(merges: seq<Pair>, t: seq<int>, rounds: int, best: Pair, next: seq<int>, goal: seq<Pair>)
    requires rounds > 0 && |t| >= 2
    requires best == MostFrequent(t) && next == Replaced(t, best, 256 + |merges|)
    requires OnTrack(merges, t, rounds, goal)
    ensures OnTrack(merges + [best], next, rounds - 1, goal)
  {
    var later := Training(next, rounds - 1, |merges| + 1).0;
    assert Training(t, rounds, |merges|).0 == [best] + later;
    assert |merges + [best]| == |merges| + 1;
    Text.AppendAssoc3(merges, [best], later);
  }

  /** Training stops when the rounds are used up or fewer than two tokens
      remain: what has been learned is the whole training. */
  lemma TrainingStops(merges: seq<Pair>, t: seq<int>, rounds: int, goal: seq<Pair>)
    requires rounds <= 0 || |t| < 2
    requires OnTrack(merges, t, rounds, goal)
    ensures merges == goal
  {
    assert Training(t, rounds, |merges|).0 == [];
    assert merges + [] == merges;
  }

  /** `build_vocab`: up to `num_merges` rounds of counting, picking the most
      frequent pair, and replacing it by id `256 + (its index)`. */
  method BuildVocab(text: string, numMerges: int) returns (merges: seq<Pair>)
    ensures merges == Training(Utf8(text), numMerges, 0).0
  {
    merges := Train(Utf8(text), numMerges);
  }

  /** The training loop of `build_vocab`, from the UTF-8 bytes on. */
  method Train(bytes: seq<int>, numMerges: int) returns (merges: seq<Pair>)
    ensures merges == Training(bytes, numMerges, 0).0
  {
    var tokens := bytes;
    merges := [];
    ghost var goal := Training(tokens, numMerges, 0).0;
    var left := if numMerges > 0 then numMerges else 0;
    assert OnTrack(merges, tokens, left, goal);
    while left > 0
      invariant OnTrack(merges, tokens, left, goal)
    {
      var stop, best, next := TrainRound(tokens, 256 + |merges|);
      if stop {
        TrainingStops(merges, tokens, left, goal);
        return;
      }
      TrainingRound(merges, tokens, left, best, next, goal);
      merges := merges + [best];
      tokens := next;
      left := left - 1;
    }
    TrainingStops(merges, tokens, left, goal);
  }

  /** One pass of the training loop's body: stop when no pair is counted,
      otherwise the most frequent pair and the tokens with it replaced by
      `newId`. */
  method TrainRound(tokens: seq<int>, newId: int) returns (stop: bool, best: Pair, next: seq<int>)
    ensures stop <==> |tokens| < 2
    ensures !stop ==> best == MostFrequent(tokens) && next == Replaced(tokens, best, newId)
  {
    var counts := CountPairs(tokens);
    CountsEmpty(tokens);
    if counts == map[] {
      return true, (0, 0), tokens;
    }
    stop := false;
    best := PickMostFrequent(tokens, counts);
    next := ReplacePair(tokens, best, newId);
  }

  /** Each round picks a pair of the current tokens, which are all below the
      fresh id, so the learned pair does not occur in the tokens left after its
      round, and the tokens stay below the next fresh id. */
  lemma RoundRemovesPair(t: seq<int>, learned: nat)
    requires |t| >= 2 && InRange(t, 256 + learned)
    ensures var best := MostFrequent(t);
      var next := Replaced(t, best, 256 + learned);
      |next| < |t| && InRange(next, 256 + learned + 1) && Absent(next, best)
  {
    var best := MostFrequent(t);
    MostFrequentIsEarliestMax(t);
    var w :| 0 <= w < Positions(t) && best == PairAt(t, w) && EarliestMax(t, PairCounts(t), w);
    assert (t[w], t[w + 1]) == best;
    ReplacesOccurrence(t, best, w);
    ReplacedLength(t, best, 256 + learned);
    ReplacedRemovesPair(t, best, 256 + learned);
    assert InRange(t, 256 + learned + 1);
    ReplacedInRange(t, best, 256 + learned, 256 + learned + 1);
  }
}
