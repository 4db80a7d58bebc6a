/** `scrubbing` of conf_reg/utils.py: frames whose framewise displacement
    reaches the threshold are masked out together with their neighbours, by
    zeroing the slice `mask[i-1:i+2]` of an all-ones mask, and the image keeps
    the frames whose mask entry is still set. */
module Scrubbing {
  import opened Outcomes
  import opened Data

  /** A slice bound `k` of a Python slice over a sequence of length `n`
      (step 1): a negative bound counts from the end, then it is clamped
      into [0, n]. */
  function Clamp(k: int, n: nat): (c: nat)
    ensures c <= n
    ensures 0 <= k <= n ==> c == k
    ensures k > n ==> c == n
    ensures k < 0 ==> c == (if k + n < 0 then 0 else k + n)
  {
    if k < 0 then (if k + n < 0 then 0 else k + n)
    else if k > n then n
    else k
  }

  /** Index `j` lies in the slice `[lo:hi]` of a length-`n` sequence. */
  predicate InSlice(j: int, lo: int, hi: int, n: nat) {
    Clamp(lo, n) <= j < Clamp(hi, n)
  }

  /** `InSlice` is Python's rule for the positions `range(n)[lo:hi]` keeps:
      position `j` is kept when it lies at or after `lo` and before `hi`,
      where a negative bound is compared with the position's negative
      name `j - n`. */
  lemma InSliceIsPythonSlice(j: int, lo: int, hi: int, n: nat)
    ensures InSlice(j, lo, hi, n) <==>
      0 <= j < n && (if lo < 0 then lo <= j - n else lo <= j) && (if hi < 0 then j - n < hi else j < hi)
  {
  }

  /** Index `j` is zeroed by `mask[i-1:i+2] = 0` on a mask of length `n`. */
  predicate InWindow(j: int, i: int, n: nat) {
    InSlice(j, i - 1, i + 2, n)
  }

  /** Frame `j` is zeroed by one of the first `k` loop rounds. */
  predicate DroppedBefore(fd: seq<real>, thr: real, j: int, k: int) {
    exists i :: 0 <= i < k && i < |fd| && fd[i] >= thr && InWindow(j, i, |fd|)
  }

  /** Frame `j` is zeroed by the loop: it lies in the window of some frame
      whose displacement reaches the threshold. */
  predicate Dropped(fd: seq<real>, thr: real, j: int) {
    DroppedBefore(fd, thr, j, |fd|)
  }

  /** The mask the loop leaves: true exactly for the frames never zeroed. */
  function MaskOf(fd: seq<real>, thr: real): (m: seq<bool>)
    ensures |m| == |fd|
  {
    seq(|fd|, j requires 0 <= j < |fd| => !Dropped(fd, thr, j))
  }

  /** `a[lo:hi] = False` */
  method ZeroSlice(a: array<bool>, lo: int, hi: int)
    modifies a
    ensures forall j :: 0 <= j < a.Length ==> a[j] == (if InSlice(j, lo, hi, a.Length) then false else old(a[j]))
  {
    var start, stop := Clamp(lo, a.Length), Clamp(hi, a.Length);
    var j := start;
    while j < stop
      invariant start <= j && (j == start || j <= stop)
      invariant forall k :: 0 <= k < a.Length ==> a[k] == (if start <= k < j then false else old(a[k]))
    {
      a[j] := false;
      j := j + 1;
    }
  }

  lemma DroppedBeforeStep(fd: seq<real>, thr: real, j: int, k: nat)
    requires k < |fd|
    ensures DroppedBefore(fd, thr, j, k + 1) <==>
      DroppedBefore(fd, thr, j, k) || (fd[k] >= thr && InWindow(j, k, |fd|))
  {
    if DroppedBefore(fd, thr, j, k + 1) && !(fd[k] >= thr && InWindow(j, k, |fd|)) {
      var i :| 0 <= i < k + 1 && i < |fd| && fd[i] >= thr && InWindow(j, i, |fd|);
      assert i < k;
    }
  }

  /** The mask loop of `scrubbing`: an all-ones array of the series' length,
      with `mask[i-1:i+2]` zeroed wherever the displacement reaches the
      threshold; it computes exactly the declarative mask. */
  method ScrubMask(fd: seq<real>, thr: real) returns (m: seq<bool>)
    ensures m == MaskOf(fd, thr)
  {
    var cutoff := seq(|fd|, i requires 0 <= i < |fd| => fd[i] >= thr);
    var mask := new bool[|fd|](_ => true);
    for i := 0 to mask.Length
      invariant forall j :: 0 <= j < mask.Length ==> (mask[j] <==> !DroppedBefore(fd, thr, j, i))
    {
      forall j | 0 <= j < mask.Length {
        DroppedBeforeStep(fd, thr, j, i);
      }
      if cutoff[i] {
        ZeroSlice(mask, i - 1, i + 2);
      }
    }
    m := mask[..];
  }

  /** A frame's first window: `mask[-1:2]` is empty for three frames or more,
      is frame 1 alone for two frames and frame 0 alone for one frame. */
  lemma FirstFrameWindow(j: int, n: nat)
    ensures n >= 3 ==> !InWindow(j, 0, n)
    ensures n == 2 ==> (InWindow(j, 0, n) <==> j == 1)
    ensures n == 1 ==> (InWindow(j, 0, n) <==> j == 0)
  {
  }

  /** Any later frame drops itself and one frame on each side, cut off at the
      end of the series: not the two forward frames the documentation of
      `scrubbing` describes. */
  lemma LaterFrameWindow(j: int, i: int, n: nat)
    requires 1 <= i < n
    ensures InWindow(j, i, n) <==> i - 1 <= j <= i + 1 && j < n
  {
  }

  /** A raised threshold never masks more frames. */
  lemma ThresholdMonotone(fd: seq<real>, lo: real, hi: real)
    requires lo <= hi
    ensures forall j :: 0 <= j < |fd| && MaskOf(fd, lo)[j] ==> MaskOf(fd, hi)[j]
  {
    forall j | 0 <= j < |fd| && MaskOf(fd, lo)[j]
      ensures MaskOf(fd, hi)[j]
    {
      if Dropped(fd, hi, j) {
        var i :| 0 <= i < |fd| && fd[i] >= hi && InWindow(j, i, |fd|);
        assert fd[i] >= lo;
        assert Dropped(fd, lo, j);
      }
    }
  }

  /** A single exceedance at an inner frame `i` masks `i-1`, `i` and `i+1`
      and leaves `i+2` in place. */
  lemma SingleExceedance(fd: seq<real>, thr: real, i: int)
    requires 1 <= i && i + 2 < |fd| && fd[i] >= thr
    requires forall k :: 0 <= k < |fd| && k != i ==> fd[k] < thr
    ensures !MaskOf(fd, thr)[i - 1] && !MaskOf(fd, thr)[i] && !MaskOf(fd, thr)[i + 1]
    ensures MaskOf(fd, thr)[i + 2]
  {
    assert InWindow(i - 1, i, |fd|) && InWindow(i, i, |fd|) && InWindow(i + 1, i, |fd|);
    forall k | 0 <= k < |fd| && fd[k] >= thr ensures !InWindow(i + 2, k, |fd|) {
      assert k == i;
    }
  }

  /** With three frames or more, an exceedance at frame 0 alone masks nothing,
      frame 0 included. */
  lemma FirstFrameExceedanceMasksNothing(fd: seq<real>, thr: real)
    requires |fd| >= 3
    requires forall k :: 1 <= k < |fd| ==> fd[k] < thr
    ensures forall j :: 0 <= j < |fd| ==> MaskOf(fd, thr)[j]
  {
    forall j, k | 0 <= j < |fd| && 0 <= k < |fd| && fd[k] >= thr ensures !InWindow(j, k, |fd|) {
      assert k == 0;
      FirstFrameWindow(j, |fd|);
    }
  }

  /** Two exceedances three frames apart mask all six frames. */
  lemma SixFrameExampleAllMasked()
    ensures MaskOf([0.05, 0.2, 0.05, 0.05, 0.3, 0.05], 0.1) == [false, false, false, false, false, false]
  {
    var fd := [0.05, 0.2, 0.05, 0.05, 0.3, 0.05];
    forall j | 0 <= j < 6 ensures Dropped(fd, 0.1, j) {
      if j < 3 {
        assert InWindow(j, 1, 6);
      } else {
        assert InWindow(j, 4, 6);
      }
    }
  }

  /** The number of set entries of a mask. */
  function CountTrue(mask: seq<bool>): (c: nat)
    ensures c <= |mask|
  {
    if mask == [] then 0 else (if mask[0] then 1 else 0) + CountTrue(mask[1..])
  }

  /** `frames[mask]` along the time axis, for a mask of the same length. */
  function Select<T>(frames: seq<T>, mask: seq<bool>): seq<T>
    requires |frames| == |mask|
  {
    if frames == [] then []
    else (if mask[0] then [frames[0]] else []) + Select(frames[1..], mask[1..])
  }

  /** The indices of the set entries, in increasing order. */
  function KeptIndices(mask: seq<bool>): seq<nat>
  {
    if mask == [] then []
    else (if mask[0] then [0] else []) + Shift(KeptIndices(mask[1..]))
  }

  function Shift(ks: seq<nat>): (r: seq<nat>)
    ensures |r| == |ks| && forall k :: 0 <= k < |ks| ==> r[k] == ks[k] + 1
  {
    seq(|ks|, k requires 0 <= k < |ks| => ks[k] + 1)
  }

  /** One kept index per set entry. */
  lemma {:induction false} KeptIndicesCount(mask: seq<bool>)
    ensures |KeptIndices(mask)| == CountTrue(mask)
  {
    if mask != [] {
      KeptIndicesCount(mask[1..]);
    }
  }

  /** The indices of `ks` are below `n` and strictly increasing. */
  predicate IncreasingBelow(ks: seq<nat>, n: nat) {
    (forall k :: 0 <= k < |ks| ==> ks[k] < n) &&
    (forall k, l :: 0 <= k < l < |ks| ==> ks[k] < ks[l])
  }

  lemma ShiftIncreasing(ks: seq<nat>, n: nat)
    requires IncreasingBelow(ks, n)
    ensures IncreasingBelow(Shift(ks), n + 1)
    ensures forall k :: 0 <= k < |ks| ==> Shift(ks)[k] >= 1
  {
  }

  lemma PrependZeroIncreasing(ks: seq<nat>, n: nat)
    requires IncreasingBelow(ks, n) && n >= 1
    requires forall k :: 0 <= k < |ks| ==> ks[k] >= 1
    ensures IncreasingBelow([0] + ks, n)
  {
    var r := [0] + ks;
    assert forall k :: 1 <= k < |r| ==> r[k] == ks[k - 1];
  }

  lemma ShiftMembers(ks: seq<nat>, j: int)
    ensures j in Shift(ks) <==> j >= 1 && j - 1 in ks
  {
    if j in Shift(ks) {
      var k :| 0 <= k < |ks| && Shift(ks)[k] == j;
    }
    if j >= 1 && j - 1 in ks {
      var k :| 0 <= k < |ks| && ks[k] == j - 1;
      assert Shift(ks)[k] == j;
    }
  }

  /** The kept indices are in range and strictly increasing. */
  lemma {:induction false} KeptIndicesIncreasing(mask: seq<bool>)
    ensures IncreasingBelow(KeptIndices(mask), |mask|)
  {
    if mask != [] {
      KeptIndicesIncreasing(mask[1..]);
      var rest := Shift(KeptIndices(mask[1..]));
      ShiftIncreasing(KeptIndices(mask[1..]), |mask| - 1);
      if mask[0] {
        PrependZeroIncreasing(rest, |mask|);
        assert KeptIndices(mask) == [0] + rest;
      } else {
        assert KeptIndices(mask) == rest;
      }
    }
  }

  /** The kept indices are exactly the set entries. */
  lemma {:induction false} KeptIndicesMembers(mask: seq<bool>)
    ensures forall j :: 0 <= j < |mask| ==> (mask[j] <==> j in KeptIndices(mask))
  {
    if mask != [] {
      var rest := KeptIndices(mask[1..]);
      KeptIndicesMembers(mask[1..]);
      var head: seq<nat> := if mask[0] then [0] else [];
      assert KeptIndices(mask) == head + Shift(rest);
      forall j | 0 <= j < |mask| ensures mask[j] <==> j in head + Shift(rest) {
        ShiftMembers(rest, j);
        if j >= 1 {
          assert mask[j] == mask[1..][j - 1];
        }
      }
    }
  }

  /** The kept indices are in range. */
  lemma KeptIndicesBelow(mask: seq<bool>)
    ensures forall k :: 0 <= k < |KeptIndices(mask)| ==> KeptIndices(mask)[k] < |mask|
  {
    KeptIndicesIncreasing(mask);
  }

  /** The selected frames are the frames at the kept indices, in order. */
  lemma {:induction false} SelectIsKeptFrames<T>(frames: seq<T>, mask: seq<bool>)
    requires |frames| == |mask|
    ensures |Select(frames, mask)| == |KeptIndices(mask)|
    ensures forall k :: 0 <= k < |KeptIndices(mask)| ==>
      KeptIndices(mask)[k] < |frames| && Select(frames, mask)[k] == frames[KeptIndices(mask)[k]]
  {
    KeptIndicesBelow(mask);
    if frames != [] {
      SelectIsKeptFrames(frames[1..], mask[1..]);
      var ks := KeptIndices(mask[1..]);
      var sel := Select(frames[1..], mask[1..]);
      if mask[0] {
        SelectShifted(frames, ks, sel, [0], [frames[0]]);
      } else {
        SelectShifted(frames, ks, sel, [], []);
      }
    }
  }

  /** The inductive step of SelectIsKeptFrames: frames selected after the
      head sit one index further along. */
  lemma SelectShifted<T>(frames: seq<T>, ks: seq<nat>, sel: seq<T>, head: seq<nat>, first: seq<T>)
    requires frames != [] && |sel| == |ks| && |head| == |first|
    requires forall i :: 0 <= i < |ks| ==> ks[i] < |frames| - 1 && sel[i] == frames[1..][ks[i]]
    ensures var all := first + sel; var idx := head + Shift(ks);
      forall k :: |head| <= k < |idx| ==> idx[k] < |frames| && all[k] == frames[idx[k]]
  {
    var all := first + sel;
    var idx := head + Shift(ks);
    forall k | |head| <= k < |idx| ensures idx[k] < |frames| && all[k] == frames[idx[k]] {
      var i := k - |head|;
      assert all[k] == sel[i];
      assert idx[k] == ks[i] + 1;
    }
  }

  /** What `scrubbing` returns for the result `fdRead` of reading the
      displacement file: the image restricted to the kept frames. A missing
      `Mean` column makes the comparison with the threshold raise TypeError,
      and a mask whose length differs from the number of frames makes numpy
      raise IndexError. */
  function Scrubbed(img: Image, fdRead: Result<Table>, thr: real): Result<Image> {
    var t :- fdRead;
    match Get(t, "Mean")
    case None => Err(TypeError)
    case Some(fd) =>
      var mask := MaskOf(fd, thr);
      if |mask| != |img.frames| then Err(IndexError)
      else Ok(Image(Select(img.frames, mask), img.affine, img.header))
  }

  /** Scrubbing succeeds exactly when the table is read, has a `Mean` column
      and that column has one value per frame; the result then holds the
      frames whose mask entry is set, in their order, under the same affine
      and header. */
  lemma ScrubbedSpec(img: Image, fdRead: Result<Table>, thr: real)
    ensures Scrubbed(img, fdRead, thr).Ok? <==>
      fdRead.Ok? && Get(fdRead.value, "Mean").Some? && |Get(fdRead.value, "Mean").value| == |img.frames|
    ensures fdRead.Err? ==> Scrubbed(img, fdRead, thr) == Err(fdRead.error)
    ensures fdRead.Ok? && Get(fdRead.value, "Mean").None? ==> Scrubbed(img, fdRead, thr) == Err(TypeError)
    ensures Scrubbed(img, fdRead, thr).Ok? ==>
      var out := Scrubbed(img, fdRead, thr).value;
      var mask := MaskOf(Get(fdRead.value, "Mean").value, thr);
      out.affine == img.affine && out.header == img.header &&
      |out.frames| == CountTrue(mask) == |KeptIndices(mask)| <= |img.frames| &&
      forall k :: 0 <= k < |KeptIndices(mask)| ==>
        KeptIndices(mask)[k] < |mask| == |img.frames| && mask[KeptIndices(mask)[k]] &&
        out.frames[k] == img.frames[KeptIndices(mask)[k]]
  {
    if fdRead.Ok? && Get(fdRead.value, "Mean").Some? {
      var mask := MaskOf(Get(fdRead.value, "Mean").value, thr);
      if |mask| == |img.frames| {
        SelectIsKeptFrames(img.frames, mask);
        KeptIndicesCount(mask);
        KeptIndicesMembers(mask);
      }
    }
  }

  /** `scrubbing(img, FD_file, scrubbing_threshold)` */
  method Scrub(fs: FileSystem, img: Image, fdFile: string, thr: real) returns (r: Result<Image>)
    ensures r == Scrubbed(img, ReadCsv(fs, fdFile), thr)
  {
    var table := ReadCsv(fs, fdFile);
    if table.Err? {
      return Err(table.error);
    }
    var meanFD := Get(table.value, "Mean");
    if meanFD.None? {
      return Err(TypeError);
    }
    var mask := ScrubMask(meanFD.value, thr);
    if |mask| != |img.frames| {
      return Err(IndexError);
    }
    return Ok(Image(Select(img.frames, mask), img.affine, img.header));
  }
}
