/**
 * One-hot label encoding (classifier_model_creator.py:121-122): a zeroed
 * vector of NumClasses entries in which the entry at `class_id - 1` is set to 1.
 * The subscript follows numpy's rules, so a negative index counts from the end
 * and an index past either end raises an IndexError.
 */
module LabelEncoding {
  import opened Wrappers

  const NumClasses := 196

  /** The slot that `label[classId - 1]` writes, or None when numpy raises IndexError. */
  function LabelSlot(classId: int): (slot: Option<nat>)
    ensures slot.Some? <==> -NumClasses <= classId - 1 < NumClasses
    ensures slot.Some? ==> slot.value < NumClasses
    ensures 1 <= classId <= NumClasses ==> slot == Some(classId - 1)
    ensures -NumClasses <= classId - 1 < 0 ==> slot == Some(classId - 1 + NumClasses)
  {
    var k := classId - 1;
    if k < -NumClasses || k >= NumClasses then None
    else if k < 0 then Some(k + NumClasses)
    else Some(k)
  }

  /** The class ids the dataset actually uses: 1 to NumClasses. */
  predicate ValidClass(classId: int) {
    1 <= classId <= NumClasses
  }

  /** The vector of NumClasses zeros with a single 1 at `slot`. */
  function OneHot(slot: nat): (v: seq<int>)
    requires slot < NumClasses
    ensures |v| == NumClasses && v[slot] == 1
    ensures forall j :: 0 <= j < NumClasses && j != slot ==> v[j] == 0
  {
    seq(NumClasses, k => if k == slot then 1 else 0)
  }

  /** Number of entries of `v` equal to 1. */
  function CountOnes(v: seq<int>): nat {
    if v == [] then 0 else (if v[0] == 1 then 1 else 0) + CountOnes(v[1..])
  }

  /** Index of the first entry equal to 1 (|v| when there is none): the decoder of a one-hot vector. */
  function IndexOfOne(v: seq<int>): (i: nat)
    ensures i <= |v|
    ensures i < |v| ==> v[i] == 1
    ensures forall j :: 0 <= j < i ==> v[j] != 1
  {
    if v == [] then 0 else if v[0] == 1 then 0 else 1 + IndexOfOne(v[1..])
  }

  /** A vector with a single 1 at `slot`, zeros elsewhere, counts exactly one 1. */
  lemma {:induction false} CountOnesSingle(v: seq<int>, slot: nat)
    requires slot < |v|
    requires v[slot] == 1
    requires forall j :: 0 <= j < |v| && j != slot ==> v[j] == 0
    ensures CountOnes(v) == 1
  {
    if slot == 0 {
      NoOnes(v[1..]);
    } else {
      CountOnesSingle(v[1..], slot - 1);
    }
  }

  /** A vector of zeros counts no 1. */
  lemma {:induction false} NoOnes(v: seq<int>)
    requires forall j :: 0 <= j < |v| ==> v[j] == 0
    ensures CountOnes(v) == 0
  {
    if v != [] {
      NoOnes(v[1..]);
    }
  }

  /**
   * For every class id of the dataset the label has NumClasses entries,
   * exactly one of them 1, at `classId - 1`, and every other entry 0.
   */
  lemma OneHotShape(classId: int, slot: nat)
    requires ValidClass(classId) && slot == classId - 1
    ensures LabelSlot(classId) == Some(slot)
    ensures |OneHot(slot)| == NumClasses
    ensures OneHot(slot)[slot] == 1
    ensures forall j :: 0 <= j < NumClasses && j != slot ==> OneHot(slot)[j] == 0
    ensures CountOnes(OneHot(slot)) == 1
  {
    CountOnesSingle(OneHot(slot), slot);
  }

  /** Decoding the position of the 1 gives the class id back, so distinct classes get distinct labels. */
  lemma OneHotRoundTrip(classId: int)
    requires ValidClass(classId)
    ensures IndexOfOne(OneHot(classId - 1)) + 1 == classId
  {
    assert OneHot(classId - 1)[classId - 1] == 1;
  }

  /** numpy's negative subscript makes class id 0 write the slot of class NumClasses. */
  lemma ClassZeroAliasesLast()
    ensures LabelSlot(0) == LabelSlot(NumClasses) == Some(NumClasses - 1)
    ensures LabelSlot(NumClasses + 1).None? && LabelSlot(-NumClasses).None?
  {
  }

  /**
   * Builds the label as the source does: a zeroed array of NumClasses entries,
   * then one subscript assignment. None stands for the IndexError.
   */
  method EncodeLabel(classId: int) returns (encoded: Option<seq<int>>)
    ensures encoded.None? <==> LabelSlot(classId).None?
    ensures encoded.Some? ==> encoded.value == OneHot(LabelSlot(classId).value)
    ensures ValidClass(classId) ==> encoded == Some(OneHot(classId - 1))
  {
    var zeros := new int[NumClasses](_ => 0);
    var slot := LabelSlot(classId);
    if slot.None? {
      return None;
    }
    zeros[slot.value] := 1;
    encoded := Some(zeros[..]);
  }
}
