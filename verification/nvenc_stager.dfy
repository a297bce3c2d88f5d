/** The NVENC frame stager (`copy_data`): the planes of a raw frame are
    copied row by row into the encoder's picture, honouring differing row
    strides, with the first plane at full height and every other plane at
    half height. Buffers are byte sequences; a plane's bytes are addressed
    as `row * stride + column`. */
module NvencStager {
  import opened Common

  /** `MAX_AV_PLANES`. */
  const MaxPlanes: nat := 8

  /** A raw frame: per plane an optional buffer (NULL for an absent plane)
      and its row stride. Its timestamp only goes to the device and is
      not part of this model. */
  datatype Frame = Frame(data: seq<Option<seq<byte>>>, linesize: seq<int>)

  /** The encoder-owned picture: per plane a buffer and its row stride. */
  datatype Picture = Picture(data: seq<seq<byte>>, linesize: seq<int>)

  /** The address of column `i` of row `y`. */
  function RowOffset(y: int, stride: int, i: int): int
  {
    y * stride + i
  }

  /** Byte `k` of a plane with row stride `stride` lies within the first
      `bytes` columns of one of the first `rows` rows. */
  predicate InCopiedRows(k: int, stride: int, bytes: int, rows: int)
  {
    0 <= k && 0 < stride && k / stride < rows && k % stride < bytes
  }

  /** The last of `rows` rows, `bytes` long, ends inside a buffer of
      length `len` (nothing to fit when there are no rows). */
  predicate RowsFit(len: int, stride: int, bytes: int, rows: int)
  {
    rows <= 0 || RowOffset(rows - 1, stride, bytes) <= len
  }

  /** `r` is `dst` after copying, for each of the first `rows` rows, the
      first `min(srcStride, dstStride)` bytes of that row of `src`; every
      other byte of `dst` is kept. */
  predicate PlaneStaged(r: seq<byte>, dst: seq<byte>, dstStride: int, src: seq<byte>, srcStride: int, rows: int)
  {
    var bytes := Min(srcStride, dstStride);
    && |r| == |dst|
    && (forall y, i :: 0 <= y < rows && 0 <= i < bytes ==>
          && 0 <= RowOffset(y, dstStride, i) < |r|
          && 0 <= RowOffset(y, srcStride, i) < |src|
          && r[RowOffset(y, dstStride, i)] == src[RowOffset(y, srcStride, i)])
    && (forall k :: 0 <= k < |r| && !InCopiedRows(k, dstStride, bytes, rows) ==> r[k] == dst[k])
  }

  /** How many rows of a plane are copied: the full height for plane 0,
      half of it (C's truncating `height/2`) for every other plane. */
  function PlaneRows(plane: int, height: int): (rows: int)
    ensures plane == 0 ==> rows == height
    ensures plane != 0 && 0 <= height ==> 0 <= 2 * rows <= height <= 2 * rows + 1
    ensures height <= 0 ==> rows <= 0
  {
    if plane == 0 then height else HalfTowardZero(height)
  }

  /** `memcpy(dst + at, src + from, n)`. */
  function Memcpy(dst: seq<byte>, at: int, src: seq<byte>, from: int, n: int): (r: seq<byte>)
    requires 0 <= n && 0 <= at && at + n <= |dst| && 0 <= from && from + n <= |src|
    ensures |r| == |dst|
    ensures forall k :: 0 <= k < |r| ==> r[k] == if at <= k < at + n then src[from + k - at] else dst[k]
  {
    dst[..at] + src[from..from + n] + dst[at + n..]
  }

  /** Euclidean division has one quotient and one remainder. */
  lemma DivUnique(k: int, d: int, q: int, m: int)
    requires 0 < d && 0 <= m < d && k == q * d + m
    ensures k / d == q && k % d == m
  {
    var q', m' := k / d, k % d;
    assert k == q' * d + m';
    if q' < q {
      MulMonotone(q' + 1, q, d);
      assert false;
    } else if q < q' {
      MulMonotone(q + 1, q', d);
      assert false;
    }
  }

  /** Row `y` of a plane lies inside the buffer when the last row does. */
  lemma RowInside(y: int, rows: int, stride: int, bytes: int, len: int)
    requires 0 <= y < rows && 0 <= stride && 0 <= bytes
    requires RowsFit(len, stride, bytes, rows)
    ensures 0 <= RowOffset(y, stride, 0) && RowOffset(y, stride, bytes) <= len
  {
    MulMonotone(y, rows - 1, stride);
    MulMonotone(0, y, stride);
  }

  /** Columns before `bytes <= stride` of an earlier row come before the
      start of row `y`. */
  lemma EarlierRowBefore(yy: int, y: int, stride: int, i: int, bytes: int)
    requires 0 <= yy < y && 0 <= i < bytes <= stride
    ensures RowOffset(yy, stride, i) < RowOffset(y, stride, 0)
  {
    MulMonotone(yy + 1, y, stride);
  }

  /** One more row: copying row `y` onto a plane whose first `y` rows are
      staged gives a plane whose first `y + 1` rows are staged. */
  lemma StageNextRow(r: seq<byte>, dst: seq<byte>, dstStride: int, src: seq<byte>, srcStride: int,
                     y: int, rows: int)
    requires 0 <= srcStride && 0 <= dstStride && 0 <= y < rows
    requires RowsFit(|src|, srcStride, Min(srcStride, dstStride), rows)
    requires RowsFit(|dst|, dstStride, Min(srcStride, dstStride), rows)
    requires PlaneStaged(r, dst, dstStride, src, srcStride, y)
    ensures 0 <= RowOffset(y, dstStride, 0) && RowOffset(y, dstStride, Min(srcStride, dstStride)) <= |r|
    ensures 0 <= RowOffset(y, srcStride, 0) && RowOffset(y, srcStride, Min(srcStride, dstStride)) <= |src|
    ensures PlaneStaged(Memcpy(r, RowOffset(y, dstStride, 0), src, RowOffset(y, srcStride, 0), Min(srcStride, dstStride)),
                        dst, dstStride, src, srcStride, y + 1)
  {
    var bytes := Min(srcStride, dstStride);
    RowInside(y, rows, dstStride, bytes, |dst|);
    RowInside(y, rows, srcStride, bytes, |src|);
    var at, from := RowOffset(y, dstStride, 0), RowOffset(y, srcStride, 0);
    var next := Memcpy(r, at, src, from, bytes);
    var y1 := y + 1;
    forall yy, i | 0 <= yy < y1 && 0 <= i < bytes
      ensures && 0 <= RowOffset(yy, dstStride, i) < |next|
              && 0 <= RowOffset(yy, srcStride, i) < |src|
              && next[RowOffset(yy, dstStride, i)] == src[RowOffset(yy, srcStride, i)]
    {
      if yy < y {
        EarlierRowBefore(yy, y, dstStride, i, bytes);
      } else {
        assert RowOffset(yy, dstStride, i) == at + i && RowOffset(yy, srcStride, i) == from + i;
      }
    }
    forall k | at <= k < at + bytes
      ensures InCopiedRows(k, dstStride, bytes, y1)
    {
      MulMonotone(0, y, dstStride);
      DivUnique(k, dstStride, y, k - at);
    }
  }

  method CopyPlane(dst: seq<byte>, dstStride: int, src: seq<byte>, srcStride: int, rows: int)
    returns (r: seq<byte>)
    requires 0 <= srcStride && 0 <= dstStride
    requires RowsFit(|src|, srcStride, Min(srcStride, dstStride), rows)
    requires RowsFit(|dst|, dstStride, Min(srcStride, dstStride), rows)
    ensures PlaneStaged(r, dst, dstStride, src, srcStride, rows)
  {
    var bytes := Min(srcStride, dstStride);
    var n := if rows < 0 then 0 else rows;
    r := dst;
    var y := 0;
    while y < n
      invariant 0 <= y <= n
      invariant PlaneStaged(r, dst, dstStride, src, srcStride, y)
    {
      StageNextRow(r, dst, dstStride, src, srcStride, y, rows);
      r := Memcpy(r, RowOffset(y, dstStride, 0), src, RowOffset(y, srcStride, 0), bytes);
      y := y + 1;
    }
    if rows < 0 {
      NoRowsStaged(r, dst, dstStride, src, srcStride, rows);
    }
  }

  /** Staging zero rows and staging a negative number of rows agree. */
  lemma NoRowsStaged(r: seq<byte>, dst: seq<byte>, dstStride: int, src: seq<byte>, srcStride: int, rows: int)
    requires rows < 0
    requires PlaneStaged(r, dst, dstStride, src, srcStride, 0)
    ensures PlaneStaged(r, dst, dstStride, src, srcStride, rows)
  {
  }

  /** The preconditions of copying plane `p`: strides are not negative and
      the copied rows lie inside both buffers. */
  predicate PlaneCopyFits(pic: Picture, frame: Frame, height: int, p: int)
    requires 0 <= p < |pic.data| == |pic.linesize| == |frame.data| == |frame.linesize|
  {
    frame.data[p].Some? ==>
      var bytes := Min(frame.linesize[p], pic.linesize[p]);
      && 0 <= frame.linesize[p] && 0 <= pic.linesize[p]
      && RowsFit(|frame.data[p].value|, frame.linesize[p], bytes, PlaneRows(p, height))
      && RowsFit(|pic.data[p]|, pic.linesize[p], bytes, PlaneRows(p, height))
  }

  /** `copy_data`: stages every plane the frame has; a plane the frame
      does not have is left as it is. */
  method CopyData(pic: Picture, frame: Frame, height: int) returns (r: Picture)
    requires |pic.data| == MaxPlanes && |pic.linesize| == MaxPlanes
    requires |frame.data| == MaxPlanes && |frame.linesize| == MaxPlanes
    requires forall p :: 0 <= p < MaxPlanes ==> PlaneCopyFits(pic, frame, height, p)
    ensures r.linesize == pic.linesize && |r.data| == MaxPlanes
    ensures forall p :: 0 <= p < MaxPlanes && frame.data[p].None? ==> r.data[p] == pic.data[p]
    ensures forall p :: 0 <= p < MaxPlanes && frame.data[p].Some? ==>
      PlaneStaged(r.data[p], pic.data[p], pic.linesize[p], frame.data[p].value, frame.linesize[p], PlaneRows(p, height))
  {
    var planes := pic.data;
    var p := 0;
    while p < MaxPlanes
      invariant 0 <= p <= MaxPlanes
      invariant |planes| == MaxPlanes
      invariant forall q :: p <= q < MaxPlanes ==> planes[q] == pic.data[q]
      invariant forall q :: 0 <= q < p && frame.data[q].None? ==> planes[q] == pic.data[q]
      invariant forall q :: 0 <= q < p && frame.data[q].Some? ==>
        PlaneStaged(planes[q], pic.data[q], pic.linesize[q], frame.data[q].value, frame.linesize[q], PlaneRows(q, height))
    {
      if frame.data[p].Some? {
        assert PlaneCopyFits(pic, frame, height, p);
        var staged := CopyPlane(planes[p], pic.linesize[p], frame.data[p].value, frame.linesize[p], PlaneRows(p, height));
        planes := planes[p := staged];
      }
      p := p + 1;
    }
    r := pic.(data := planes);
  }

  /** The staging contract pins the result down: two results of staging
      the same plane are equal. */
  lemma PlaneStagedUnique(r1: seq<byte>, r2: seq<byte>, dst: seq<byte>, dstStride: int,
                          src: seq<byte>, srcStride: int, rows: int)
    requires PlaneStaged(r1, dst, dstStride, src, srcStride, rows)
    requires PlaneStaged(r2, dst, dstStride, src, srcStride, rows)
    ensures r1 == r2
  {
    var bytes := Min(srcStride, dstStride);
    forall k | 0 <= k < |r1|
      ensures r1[k] == r2[k]
    {
      if InCopiedRows(k, dstStride, bytes, rows) {
        var y, i := k / dstStride, k % dstStride;
        assert RowOffset(y, dstStride, i) == k;
      }
    }
  }

  /** Staging the same frame twice is staging it once: the second copy
      writes every byte it touches with the value the first one left. */
  lemma StagingIdempotent(r1: seq<byte>, r2: seq<byte>, dst: seq<byte>, dstStride: int,
                          src: seq<byte>, srcStride: int, rows: int)
    requires PlaneStaged(r1, dst, dstStride, src, srcStride, rows)
    requires PlaneStaged(r2, r1, dstStride, src, srcStride, rows)
    ensures r2 == r1
  {
    var bytes := Min(srcStride, dstStride);
    forall k | 0 <= k < |r1|
      ensures r2[k] == r1[k]
    {
      if InCopiedRows(k, dstStride, bytes, rows) {
        var y, i := k / dstStride, k % dstStride;
        assert RowOffset(y, dstStride, i) == k;
      }
    }
  }

  /** With equal strides and a buffer exactly `rows` rows long, staging is
      lossless: the picture plane becomes the frame plane. */
  lemma EqualStridesLossless(r: seq<byte>, dst: seq<byte>, src: seq<byte>, stride: int, rows: int)
    requires 0 < stride && 0 <= rows
    requires |src| == |dst| == RowOffset(rows, stride, 0)
    requires PlaneStaged(r, dst, stride, src, stride, rows)
    ensures r == src
  {
    forall k | 0 <= k < |r|
      ensures r[k] == src[k]
    {
      var y, i := k / stride, k % stride;
      assert RowOffset(y, stride, i) == k;
      if rows <= y {
        MulMonotone(rows, y, stride);
        assert false;
      }
      assert InCopiedRows(k, stride, stride, rows);
    }
  }

  /** Rows at or below `rows` are never written. For a chroma plane of a
      full-height 4:4:4 frame this is its lower half. */
  lemma RowsBelowUntouched(r: seq<byte>, dst: seq<byte>, dstStride: int, src: seq<byte>, srcStride: int,
                           rows: int, y: int, i: int)
    requires PlaneStaged(r, dst, dstStride, src, srcStride, rows)
    requires 0 <= rows <= y && 0 <= i < dstStride
    requires RowOffset(y, dstStride, i) < |r|
    ensures r[RowOffset(y, dstStride, i)] == dst[RowOffset(y, dstStride, i)]
  {
    MulMonotone(0, y, dstStride);
    DivUnique(RowOffset(y, dstStride, i), dstStride, y, i);
  }
}
