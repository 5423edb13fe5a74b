/**
 * The data preparation of `training` (classifier_model_creator.py:80-100):
 * the 90% cut-off, the in-place shuffle, the split of the shuffled list into a
 * training prefix and a validation suffix, and the number of training steps
 * per epoch.
 */
module Partition {
  import opened Wrappers

  /** `int(total_length * 0.9)`: the largest c with 10c <= 9 * total. */
  function Cutoff(total: nat): (c: nat)
    ensures c <= total
    ensures 10 * c <= 9 * total < 10 * c + 10
  {
    (total * 9) / 10
  }

  /** `int(cutoff / batch)`; None stands for the ZeroDivisionError of a zero batch size. */
  function StepsPerEpoch(cutoff: nat, batch: nat): (steps: Option<nat>)
    ensures steps.None? <==> batch == 0
    ensures steps.Some? ==> steps.value * batch <= cutoff < (steps.value + 1) * batch
  {
    if batch == 0 then None else Some(cutoff / batch)
  }

  /** Records 0 .. cutoff-1 of the shuffled list: what the training generator may read. */
  function TrainPart<T>(data: seq<T>): (part: seq<T>)
    ensures |part| == Cutoff(|data|)
    ensures forall i :: 0 <= i < |part| ==> part[i] == data[i]
  {
    data[..Cutoff(|data|)]
  }

  /** Records cutoff .. total-1 of the shuffled list: what the validation generator starts on. */
  function ValidationPart<T>(data: seq<T>): (part: seq<T>)
    ensures |part| == |data| - Cutoff(|data|)
    ensures forall i :: 0 <= i < |part| ==> part[i] == data[Cutoff(|data|) + i]
  {
    data[Cutoff(|data|)..]
  }

  /**
   * The two parts lie side by side and together hold every record exactly once:
   * the training part is the first floor(0.9 * total) records and the rest is validation.
   */
  lemma SplitCovers<T>(data: seq<T>)
    ensures TrainPart(data) + ValidationPart(data) == data
    ensures |TrainPart(data)| + |ValidationPart(data)| == |data|
    ensures |TrainPart(data)| == Cutoff(|data|)
    ensures multiset(TrainPart(data)) + multiset(ValidationPart(data)) == multiset(data)
  {
  }

  /** `x[i], x[j] = x[j], x[i]` on a list value. */
  function SwapAt<T>(s: seq<T>, i: nat, j: nat): (r: seq<T>)
    requires i < |s| && j < |s|
    ensures |r| == |s|
    ensures r[i] == s[j] && r[j] == s[i]
    ensures forall k :: 0 <= k < |s| && k != i && k != j ==> r[k] == s[k]
  {
    s[i := s[j]][j := s[i]]
  }

  /** The random draws a shuffle of n elements may use: draw i is in 0..i, as `randbelow(i + 1)` promises. */
  predicate ValidDraws(draws: seq<nat>, n: nat) {
    |draws| == n && forall i :: 1 <= i < n ==> draws[i] <= i
  }

  /**
   * `random.shuffle` (Fisher-Yates) with its random numbers given as `draws`:
   * for i = k-1 down to 1, swap element i with element draws[i].
   */
  function Shuffled<T>(s: seq<T>, draws: seq<nat>, k: nat): (r: seq<T>)
    requires ValidDraws(draws, |s|) && k <= |s|
    ensures |r| == |s|
    ensures multiset(r) == multiset(s)
    decreases k
  {
    if k <= 1 then s
    else
      SwapPermutes(s, k - 1, draws[k - 1]);
      Shuffled(SwapAt(s, k - 1, draws[k - 1]), draws, k - 1)
  }

  /** A swap only reorders. */
  lemma SwapPermutes<T>(s: seq<T>, i: nat, j: nat)
    requires i < |s| && j < |s|
    ensures multiset(SwapAt(s, i, j)) == multiset(s)
  {
  }

  /** `random.shuffle(data)`: reorders the array in place. */
  method Shuffle<T>(data: array<T>, draws: seq<nat>)
    requires ValidDraws(draws, data.Length)
    modifies data
    ensures data[..] == Shuffled(old(data[..]), draws, data.Length)
    ensures multiset(data[..]) == multiset(old(data[..]))
  {
    var k := data.Length;
    while k > 1
      invariant 0 <= k <= data.Length
      invariant Shuffled(data[..], draws, k) == Shuffled(old(data[..]), draws, data.Length)
    {
      k := k - 1;
      var j := draws[k];
      var t := data[k];
      data[k] := data[j];
      data[j] := t;
    }
  }
}
