/**
 * Frame timing for multi-frame images: delays in hundredths of a second
 * (section 23 of the GIF89a specification, Graphic Control Extension), their
 * sums, and the per-frame delay table FlexDMD decodes from the GDI+ frame
 * delay property.
 */
module FrameTiming {
  import opened BinaryData

  /** The sum of a sequence of delays, accumulated left to right as the source's loops do. */
  function Sum(s: seq<int>): (total: int)
    ensures (forall i :: 0 <= i < |s| ==> s[i] == 0) ==> total == 0
  {
    if s == [] then 0 else Sum(s[..|s| - 1]) + s[|s| - 1]
  }

  /** Extending a prefix by one frame adds that frame's delay. */
  lemma PrefixSumStep(s: seq<int>, i: nat)
    requires i < |s|
    ensures Sum(s[..i + 1]) == Sum(s[..i]) + s[i]
  {
    assert s[..i + 1][..i] == s[..i];
  }

  predicate NonNegative(s: seq<int>) {
    forall i :: 0 <= i < |s| ==> s[i] >= 0
  }

  /** With no negative delay, the sum of any prefix is at most the sum of all delays. */
  lemma {:induction false} PrefixSumAtMostTotal(s: seq<int>, j: nat)
    requires NonNegative(s)
    requires j <= |s|
    ensures Sum(s[..j]) <= Sum(s)
  {
    if j < |s| {
      var init := s[..|s| - 1];
      assert init[..j] == s[..j];
      PrefixSumAtMostTotal(init, j);
    } else {
      assert s[..j] == s;
    }
  }

  /**
   * With no negative delay, the end time of frame i (the start time of frame
   * i plus its own delay) never exceeds the length of the animation.
   */
  lemma FrameEndWithinLength(s: seq<int>, i: nat)
    requires NonNegative(s)
    requires i < |s|
    ensures 0 <= Sum(s[..i]) && Sum(s[..i]) + s[i] <= Sum(s)
  {
    PrefixSumStep(s, i);
    PrefixSumAtMostTotal(s, i + 1);
    SumNonNegative(s[..i]);
  }

  lemma {:induction false} SumNonNegative(s: seq<int>)
    requires NonNegative(s)
    ensures Sum(s) >= 0
  {
    if s != [] {
      SumNonNegative(s[..|s| - 1]);
    }
  }

  /**
   * The bound of FrameEndWithinLength needs its hypothesis: the delays are read
   * as signed integers, and with delays 1, 5 and -3 the second frame ends at 6
   * while the animation is 3 long.
   */
  lemma NegativeDelayPassesLength()
    ensures var s := [1, 5, -3]; Sum(s[..1]) + s[1] > Sum(s)
  {
    var s := [1, 5, -3];
    assert s[..1] == [1];
    assert s[..2] == [1, 5];
  }

  /**
   * The delay table of `frames` frames: entry i is the signed little-endian
   * 32-bit integer at byte offset 4 * i of the property value.
   */
  function DelayTable(value: seq<byte>, frames: nat): (t: seq<int>)
    requires 4 * frames <= |value|
    ensures |t| == frames
    ensures forall i :: 0 <= i < frames ==> t[i] == ToInt32(value, 4 * i)
  {
    seq(frames, i requires 0 <= i < frames => ToInt32(value, 4 * i))
  }

  /** The property value GDI+ would hold for the given delays: four bytes per frame. */
  function DelayBytes(delays: seq<int>): (value: seq<byte>)
    requires forall i :: 0 <= i < |delays| ==> IsInt32(delays[i])
    ensures |value| == 4 * |delays|
  {
    if delays == [] then [] else DelayBytes(delays[..|delays| - 1]) + Int32Bytes(delays[|delays| - 1])
  }

  /** Decoding the bytes of a delay table gives back exactly that table. */
  lemma {:induction false} DecodeEncodedDelays(delays: seq<int>)
    requires forall i :: 0 <= i < |delays| ==> IsInt32(delays[i])
    ensures DelayTable(DelayBytes(delays), |delays|) == delays
  {
    var value := DelayBytes(delays);
    forall i | 0 <= i < |delays|
      ensures ToInt32(value, 4 * i) == delays[i]
    {
      DelayBytesAt(delays, i);
      ReadWritten(delays[i]);
    }
  }

  /** Bytes 4 * i to 4 * i + 4 of DelayBytes(delays) are the bytes of delays[i]. */
  lemma {:induction false} DelayBytesAt(delays: seq<int>, i: nat)
    requires forall k :: 0 <= k < |delays| ==> IsInt32(delays[k])
    requires i < |delays|
    ensures ToInt32(DelayBytes(delays), 4 * i) == ToInt32(Int32Bytes(delays[i]), 0)
  {
    var n := |delays|;
    var init := delays[..n - 1];
    var last := Int32Bytes(delays[n - 1]);
    var value := DelayBytes(delays);
    assert value == DelayBytes(init) + last;
    if i < n - 1 {
      DelayBytesAt(init, i);
      assert value[4 * i..4 * i + 4] == DelayBytes(init)[4 * i..4 * i + 4];
      SameBytesSameInt32(value, 4 * i, DelayBytes(init), 4 * i);
    } else {
      assert value[4 * i..4 * i + 4] == last;
      SameBytesSameInt32(value, 4 * i, last, 0);
    }
  }

  lemma SameBytesSameInt32(a: seq<byte>, i: nat, b: seq<byte>, j: nat)
    requires i + 4 <= |a| && j + 4 <= |b|
    requires a[i..i + 4] == b[j..j + 4]
    ensures ToInt32(a, i) == ToInt32(b, j)
  {
    assert a[i] == a[i..i + 4][0] && a[i + 1] == a[i..i + 4][1];
    assert a[i + 2] == a[i..i + 4][2] && a[i + 3] == a[i..i + 4][3];
    assert b[j] == b[j..j + 4][0] && b[j + 1] == b[j..j + 4][1];
    assert b[j + 2] == b[j..j + 4][2] && b[j + 3] == b[j..j + 4][3];
  }
}
