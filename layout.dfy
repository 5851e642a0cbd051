/**
 * Text laid out by a format string whose verbs are all `%s`: a fixed caption
 * before each value. Where each value and each caption lands in the result.
 */
module Layout {
  /** Each caption followed by its value, as the format string lays them out. */
  function Interleave(captions: seq<string>, values: seq<string>): string
    requires |captions| == |values|
    decreases |captions|
  {
    if captions == [] then [] else captions[0] + values[0] + Interleave(captions[1..], values[1..])
  }

  /** Where `values[k]` starts in `Interleave(captions, values)`. */
  function ValueOffset(captions: seq<string>, values: seq<string>, k: nat): nat
    requires |captions| == |values| && k < |values|
    decreases k
  {
    |captions[0]| + if k == 0 then 0 else |values[0]| + ValueOffset(captions[1..], values[1..], k - 1)
  }

  /** A slice that lies past a prefix is a slice of what follows it. */
  lemma SliceAfterPrefix(a: string, b: string, i: nat, j: nat)
    requires i <= j <= |b|
    ensures (a + b)[|a| + i..|a| + j] == b[i..j]
  {
  }

  /** Each value stands in the text at its offset. */
  lemma {:induction false} ValueAtOffset(captions: seq<string>, values: seq<string>, k: nat)
    requires |captions| == |values| && k < |values|
    ensures ValueOffset(captions, values, k) + |values[k]| <= |Interleave(captions, values)|
    ensures Interleave(captions, values)[ValueOffset(captions, values, k)..ValueOffset(captions, values, k) + |values[k]|]
            == values[k]
    decreases k
  {
    var head := captions[0] + values[0];
    var rest := Interleave(captions[1..], values[1..]);
    assert Interleave(captions, values) == head + rest;
    if k == 0 {
      assert (head + rest)[|captions[0]|..|captions[0]| + |values[0]|] == values[0];
    } else {
      ValueAtOffset(captions[1..], values[1..], k - 1);
      var o := ValueOffset(captions[1..], values[1..], k - 1);
      SliceAfterPrefix(head, rest, o, o + |values[k]|);
    }
  }

  /** Each value is immediately preceded by its own caption. */
  lemma {:induction false} CaptionBeforeValue(captions: seq<string>, values: seq<string>, k: nat)
    requires |captions| == |values| && k < |values|
    ensures |captions[k]| <= ValueOffset(captions, values, k) <= |Interleave(captions, values)|
    ensures Interleave(captions, values)[ValueOffset(captions, values, k) - |captions[k]|..ValueOffset(captions, values, k)]
            == captions[k]
    decreases k
  {
    var head := captions[0] + values[0];
    var rest := Interleave(captions[1..], values[1..]);
    assert Interleave(captions, values) == head + rest;
    if k == 0 {
      assert (head + rest)[..|captions[0]|] == captions[0];
    } else {
      CaptionBeforeValue(captions[1..], values[1..], k - 1);
      var o := ValueOffset(captions[1..], values[1..], k - 1);
      assert captions[1..][k - 1] == captions[k];
      SliceAfterPrefix(head, rest, o - |captions[k]|, o);
    }
  }

  /** The text ends with the last value: nothing follows it. */
  lemma {:induction false} LastValueEnds(captions: seq<string>, values: seq<string>)
    requires |captions| == |values| > 0
    ensures |Interleave(captions, values)| == ValueOffset(captions, values, |values| - 1) + |values[|values| - 1]|
    decreases |values|
  {
    if |values| > 1 {
      LastValueEnds(captions[1..], values[1..]);
    }
  }

  /** Consecutive values are separated by exactly the next caption. */
  lemma {:induction false} OffsetsIncrease(captions: seq<string>, values: seq<string>, k: nat)
    requires |captions| == |values| && k + 1 < |values|
    ensures ValueOffset(captions, values, k) + |values[k]| + |captions[k + 1]|
            == ValueOffset(captions, values, k + 1)
    decreases k
  {
    if k > 0 {
      OffsetsIncrease(captions[1..], values[1..], k - 1);
    }
  }

  /**
   * `text` is the captions and values laid out in turn: each value stands at
   * its offset, right after its own caption; consecutive values are separated
   * by exactly the next caption; and the last value ends the text.
   */
  ghost predicate LaidOut(text: string, captions: seq<string>, values: seq<string>)
    requires |captions| == |values| > 0
  {
    && (forall k :: 0 <= k < |values| ==>
          && |captions[k]| <= ValueOffset(captions, values, k)
          && ValueOffset(captions, values, k) + |values[k]| <= |text|
          && text[ValueOffset(captions, values, k) - |captions[k]|..ValueOffset(captions, values, k)] == captions[k]
          && text[ValueOffset(captions, values, k)..ValueOffset(captions, values, k) + |values[k]|] == values[k])
    && (forall k :: 0 <= k < |values| - 1 ==>
          ValueOffset(captions, values, k) + |values[k]| + |captions[k + 1]| == ValueOffset(captions, values, k + 1))
    && |text| == ValueOffset(captions, values, |values| - 1) + |values[|values| - 1]|
  }

  /** The text opens with the first caption and lays out every value after its caption, in order. */
  lemma {:induction false} ValuesInOrder(captions: seq<string>, values: seq<string>)
    requires |captions| == |values| > 0
    ensures |captions[0]| <= |Interleave(captions, values)|
    ensures Interleave(captions, values)[..|captions[0]|] == captions[0]
    ensures LaidOut(Interleave(captions, values), captions, values)
  {
    var text := Interleave(captions, values);
    forall k | 0 <= k < |values|
      ensures |captions[k]| <= ValueOffset(captions, values, k)
      ensures ValueOffset(captions, values, k) + |values[k]| <= |text|
      ensures text[ValueOffset(captions, values, k) - |captions[k]|..ValueOffset(captions, values, k)] == captions[k]
      ensures text[ValueOffset(captions, values, k)..ValueOffset(captions, values, k) + |values[k]|] == values[k]
    {
      ValueAtOffset(captions, values, k);
      CaptionBeforeValue(captions, values, k);
    }
    forall k | 0 <= k < |values| - 1
      ensures ValueOffset(captions, values, k) + |values[k]| + |captions[k + 1]| == ValueOffset(captions, values, k + 1)
    {
      OffsetsIncrease(captions, values, k);
    }
    LastValueEnds(captions, values);
    assert ValueOffset(captions, values, 0) == |captions[0]|;
  }
}
