/**
 * The rotation of the SH1107 display buffer. The buffer is page-addressed: byte `[page][x]`
 * holds the eight pixels of column `x` in rows `8 * page` to `8 * page + 7`, bit `b` being row
 * `8 * page + b`. `rotateBox` turns an 8-by-8 pixel block a quarter turn; `rotateMatrix`
 * rotates each block into place and then mirrors every page, which together turn the whole
 * image a quarter turn.
 */
module Sh1107Rotation {
  import ByteCodec

  /** The buffer's pages and columns: `uint8_t[16][128]`. */
  const PAGES: nat := 16
  const COLUMNS: nat := 128

  /** Bit `k` of a byte, `(b >> k) & 1`. */
  predicate Bit(b: bv8, k: nat)
    requires k < 8
  {
    (b >> k) & 1 == 1
  }

  /** Two bytes with the same eight bits are the same byte. */
  lemma ByteFromBits(a: bv8, b: bv8)
    requires forall k :: 0 <= k < 8 ==> Bit(a, k) == Bit(b, k)
    ensures a == b
  {
    assert Bit(a, 0) == Bit(b, 0) && Bit(a, 1) == Bit(b, 1) && Bit(a, 2) == Bit(b, 2) && Bit(a, 3) == Bit(b, 3);
    assert Bit(a, 4) == Bit(b, 4) && Bit(a, 5) == Bit(b, 5) && Bit(a, 6) == Bit(b, 6) && Bit(a, 7) == Bit(b, 7);
  }

  /** `p | (((v >> i) & 1) << s)`: `p` with bit `s` also set when bit `i` of `v` is. */
  function SetFrom(p: bv8, v: bv8, i: nat, s: nat): bv8
    requires i < 8 && s < 8
  {
    p | (((v >> i) & 1) << s)
  }

  /** The bits of `SetFrom(p, v, i, s)`: those of `p`, and bit `s` set when bit `i` of `v` is. */
  lemma BitOfOrShifted(p: bv8, v: bv8, i: nat, s: nat, c: nat)
    requires i < 8 && s < 8 && c < 8
    ensures Bit(SetFrom(p, v, i, s), c) <==> Bit(p, c) || (c == s && Bit(v, i))
  {
    var x := (v >> i) & 1;
    assert x == 1 <==> Bit(v, i);
    assert x == 0 || x == 1;
    BitOfOr(p, x << s, c);
    BitOfShiftedOne(x, s, c);
  }

  /** A bit of `a | b` is set when it is set in `a` or in `b`. */
  lemma BitOfOr(a: bv8, b: bv8, c: nat)
    requires c < 8
    ensures Bit(a | b, c) <==> Bit(a, c) || Bit(b, c)
  {
    match c
    case 0 => case 1 => case 2 => case 3 =>
    case 4 => case 5 => case 6 => case 7 =>
  }

  /** `x << s` for `x` 0 or 1 has at most bit `s` set, and that one when `x` is 1. */
  lemma BitOfShiftedOne(x: bv8, s: nat, c: nat)
    requires x == 0 || x == 1
    requires s < 8 && c < 8
    ensures Bit(x << s, c) <==> c == s && x == 1
  {
  }

  /**
   * `temp[i]` after the inner loop of `rotateBox` has run for `j < n`: bit `7 - j` set from bit
   * `i` of `box[j]`.
   */
  function ColumnPrefix(box: seq<bv8>, i: nat, n: nat): bv8
    requires |box| >= 8 && i < 8 && n <= 8
  {
    if n == 0 then 0 else SetFrom(ColumnPrefix(box, i, n - 1), box[n - 1], i, 8 - (n - 1) - 1)
  }

  lemma {:induction false} ColumnPrefixBit(box: seq<bv8>, i: nat, n: nat, c: nat)
    requires |box| >= 8 && i < 8 && n <= 8 && c < 8
    ensures Bit(ColumnPrefix(box, i, n), c) <==> 7 - c < n && Bit(box[7 - c], i)
  {
    if n > 0 {
      var s: nat := 8 - (n - 1) - 1;
      ColumnPrefixBit(box, i, n - 1, c);
      BitOfOrShifted(ColumnPrefix(box, i, n - 1), box[n - 1], i, s, c);
      assert c == s <==> 7 - c == n - 1;
    }
  }

  /** The eight bytes `rotateBox` leaves in the block. */
  function RotatedBox(box: seq<bv8>): (r: seq<bv8>)
    requires |box| >= 8
    ensures |r| == 8
  {
    seq(8, i requires 0 <= i < 8 => ColumnPrefix(box, i, 8))
  }

  /** Bit `7 - j` of the rotated byte `i` is bit `i` of the original byte `j`. */
  lemma RotatedBoxBit(box: seq<bv8>, i: nat, j: nat)
    requires |box| >= 8 && i < 8 && j < 8
    ensures Bit(RotatedBox(box)[i], 7 - j) == Bit(box[j], i)
  {
    ColumnPrefixBit(box, i, 8, 7 - j);
  }

  /** The rotation is a quarter turn: four of them give back the block. */
  lemma FourTurns(box: seq<bv8>)
    requires |box| == 8
    ensures RotatedBox(RotatedBox(RotatedBox(RotatedBox(box)))) == box
  {
    var r1 := RotatedBox(box);
    var r2 := RotatedBox(r1);
    var r3 := RotatedBox(r2);
    var r4 := RotatedBox(r3);
    forall i | 0 <= i < 8
      ensures r4[i] == box[i]
    {
      forall c | 0 <= c < 8
        ensures Bit(r4[i], c) == Bit(box[i], c)
      {
        RotatedBoxBit(r3, i, 7 - c);
        RotatedBoxBit(r2, 7 - c, 7 - i);
        RotatedBoxBit(r1, 7 - i, c);
        RotatedBoxBit(box, c, i);
      }
      ByteFromBits(r4[i], box[i]);
    }
  }

  /** `rotateBox`: the eight bytes at `box` are replaced by their quarter turn; nothing after them changes. */
  method RotateBox(box: array<bv8>)
    requires box.Length >= 8
    modifies box
    ensures box[..8] == RotatedBox(old(box[..]))
    ensures box[8..] == old(box[8..])
  {
    ghost var original := box[..];
    var temp := GatherColumns(box);
    for i := 0 to 8
      modifies box
      invariant forall k :: 0 <= k < i ==> box[k] == RotatedBox(original)[k]
      invariant forall k :: i <= k < box.Length ==> box[k] == original[k]
    {
      box[i] := temp[i];
    }
    assert forall k :: 0 <= k < 8 ==> box[..8][k] == RotatedBox(original)[k];
  }

  /** The double loop of `rotateBox` that fills `temp`: byte `i` collects bit `i` of each of the eight bytes. */
  method GatherColumns(box: array<bv8>) returns (temp: array<bv8>)
    requires box.Length >= 8
    ensures fresh(temp) && temp.Length == 8
    ensures temp[..] == RotatedBox(box[..])
  {
    ghost var original := box[..];
    temp := new bv8[8](_ => 0);
    for i := 0 to 8
      modifies temp
      invariant forall i' :: 0 <= i' < i ==> temp[i'] == ColumnPrefix(original, i', 8)
      invariant forall i' :: i <= i' < 8 ==> temp[i'] == 0
    {
      for j := 0 to 8
        modifies temp
        invariant temp[i] == ColumnPrefix(original, i, j)
        invariant forall i' :: 0 <= i' < i ==> temp[i'] == ColumnPrefix(original, i', 8)
        invariant forall i' :: i < i' < 8 ==> temp[i'] == 0
      {
        temp[i] := SetFrom(temp[i], box[j], i, 8 - j - 1);
      }
    }
    assert forall k :: 0 <= k < 8 ==> temp[..][k] == RotatedBox(original)[k];
  }

  /** The pixel in `row` and column `x` of a page-addressed buffer. */
  predicate Pixel(m: array2<bv8>, row: nat, x: nat)
    requires m.Length0 == PAGES && m.Length1 == COLUMNS && row < 8 * PAGES && x < COLUMNS
    reads m
  {
    Bit(m[row / 8, x], row % 8)
  }

  /** The contents of a buffer, row by row. */
  function Snapshot(m: array2<bv8>): (s: seq<seq<bv8>>)
    reads m
    ensures |s| == m.Length0 && forall r :: 0 <= r < |s| ==> |s[r]| == m.Length1
    ensures forall r, c :: 0 <= r < m.Length0 && 0 <= c < m.Length1 ==> s[r][c] == m[r, c]
  {
    seq(m.Length0, r requires 0 <= r < m.Length0 reads m => seq(m.Length1, c requires 0 <= c < m.Length1 reads m => m[r, c]))
  }

  /** The eight source bytes of block `(i, j)`, as `targetBytes` is filled: `matrix[j][8 * i + 7 - k]`. */
  function TargetBytes(matrix: array2<bv8>, i: nat, j: nat): (t: seq<bv8>)
    requires matrix.Length0 == PAGES && matrix.Length1 == COLUMNS && i < PAGES && j < PAGES
    reads matrix
    ensures |t| == 8
  {
    seq(8, k requires 0 <= k < 8 reads matrix => matrix[j, i * 8 + 7 - k])
  }

  /** The byte the first loop of `rotateMatrix` writes at `[i][x]`: byte `x % 8` of rotated block `(i, x / 8)`. */
  function Turned(matrix: array2<bv8>, i: nat, x: nat): bv8
    requires matrix.Length0 == PAGES && matrix.Length1 == COLUMNS && i < PAGES && x < COLUMNS
    reads matrix
  {
    RotatedBox(TargetBytes(matrix, i, x / 8))[x % 8]
  }

  /** A turned byte holds, in bit `row % 8`, the source pixel in row `x` and column `row`. */
  lemma TurnedPixel(matrix: array2<bv8>, row: nat, x: nat)
    requires matrix.Length0 == PAGES && matrix.Length1 == COLUMNS && row < 8 * PAGES && x < COLUMNS
    ensures Bit(Turned(matrix, row / 8, x), row % 8) == Pixel(matrix, x, row)
  {
    var t := TargetBytes(matrix, row / 8, x / 8);
    RotatedBoxBit(t, x % 8, 7 - row % 8);
    assert t[7 - row % 8] == matrix[x / 8, row];
  }

  /** The bounds on the buffer sizes under which every index of `rotateMatrix` is inside the `[16][128]` buffers. */
  predicate Sizes(height: int, width: int, matrix: array2<bv8>, rotatedMatrix: array2<bv8>)
  {
    matrix.Length0 == PAGES && matrix.Length1 == COLUMNS
    && rotatedMatrix.Length0 == PAGES && rotatedMatrix.Length1 == COLUMNS
    && matrix != rotatedMatrix
    && 0 <= height && height / 8 <= PAGES && 0 <= width <= COLUMNS
  }

  /**
   * The first loop nest of `rotateMatrix`: each 8-by-8 block `(i, j)`, `i < Height / 8` and
   * `j < Width / 8`, is read from the source, rotated and written to page `i`, columns
   * `8 * j` to `8 * j + 7`.
   */
  method CopyTurnedBlocks(height: int, width: int, matrix: array2<bv8>, rotatedMatrix: array2<bv8>)
    requires Sizes(height, width, matrix, rotatedMatrix)
    modifies rotatedMatrix
    ensures forall r, c :: 0 <= r < PAGES && 0 <= c < COLUMNS ==>
      rotatedMatrix[r, c] == if r < height / 8 && c < (width / 8) * 8 then Turned(matrix, r, c) else old(rotatedMatrix[r, c])
  {
    ghost var before := Snapshot(rotatedMatrix);
    var blocks := width / 8;
    for i := 0 to height / 8
      modifies rotatedMatrix
      invariant forall r, c :: 0 <= r < PAGES && 0 <= c < COLUMNS ==>
        rotatedMatrix[r, c] == if r < i && c < blocks * 8 then Turned(matrix, r, c) else before[r][c]
    {
      for j := 0 to blocks
        modifies rotatedMatrix
        invariant forall r, c :: 0 <= r < PAGES && 0 <= c < COLUMNS ==>
          rotatedMatrix[r, c] == if (r < i && c < blocks * 8) || (r == i && c < j * 8) then Turned(matrix, r, c) else before[r][c]
      {
        CopyTurnedBlock(i, j, matrix, rotatedMatrix);
      }
    }
  }

  /** One pass of the inner loop of that nest: block `(i, j)` is gathered, rotated and written back. */
  method CopyTurnedBlock(i: nat, j: nat, matrix: array2<bv8>, rotatedMatrix: array2<bv8>)
    requires matrix.Length0 == PAGES && matrix.Length1 == COLUMNS
    requires rotatedMatrix.Length0 == PAGES && rotatedMatrix.Length1 == COLUMNS && matrix != rotatedMatrix
    requires i < PAGES && j < PAGES
    modifies rotatedMatrix
    ensures forall r, c :: 0 <= r < PAGES && 0 <= c < COLUMNS ==>
      rotatedMatrix[r, c] == if r == i && j * 8 <= c < j * 8 + 8 then Turned(matrix, r, c) else old(rotatedMatrix[r, c])
  {
    var targetBytes := GatherTarget(i, j, matrix);
    RotateBox(targetBytes);
    ghost var block := RotatedBox(TargetBytes(matrix, i, j));
    assert targetBytes[..8] == block;
    for k := 0 to 8
      modifies rotatedMatrix
      invariant targetBytes[..8] == block
      invariant forall r, c :: 0 <= r < PAGES && 0 <= c < COLUMNS ==>
        rotatedMatrix[r, c] == if r == i && j * 8 <= c < j * 8 + k then Turned(matrix, r, c) else old(rotatedMatrix[r, c])
    {
      TurnedInBlock(matrix, i, j, k);
      rotatedMatrix[i, j * 8 + k] := targetBytes[k];
    }
  }

  /** The gathering loop of that pass: a new array holding the block's eight source bytes. */
  method GatherTarget(i: nat, j: nat, matrix: array2<bv8>) returns (targetBytes: array<bv8>)
    requires matrix.Length0 == PAGES && matrix.Length1 == COLUMNS && i < PAGES && j < PAGES
    ensures fresh(targetBytes) && targetBytes[..] == TargetBytes(matrix, i, j)
  {
    targetBytes := new bv8[8];
    for k := 0 to 8
      modifies targetBytes
      invariant forall k' :: 0 <= k' < k ==> targetBytes[k'] == matrix[j, i * 8 + 7 - k']
    {
      targetBytes[k] := matrix[j, i * 8 + 7 - k];
    }
    assert targetBytes[..] == TargetBytes(matrix, i, j);
  }

  /** Column `8 j + k` of page `i` lies in block `(i, j)`, at byte `k`. */
  lemma TurnedInBlock(matrix: array2<bv8>, i: nat, j: nat, k: nat)
    requires matrix.Length0 == PAGES && matrix.Length1 == COLUMNS && i < PAGES && j < PAGES && k < 8
    ensures Turned(matrix, i, j * 8 + k) == RotatedBox(TargetBytes(matrix, i, j))[k]
  {
    ByteCodec.DivModUnique(j * 8 + k, 8, j, k);
  }

  /** The second loop nest of `rotateMatrix`: the first `Width` columns of each page `i < Height / 8` are reversed in place. */
  method MirrorPages(height: int, width: int, rotatedMatrix: array2<bv8>)
    requires rotatedMatrix.Length0 == PAGES && rotatedMatrix.Length1 == COLUMNS
    requires 0 <= height && height / 8 <= PAGES && 0 <= width <= COLUMNS
    modifies rotatedMatrix
    ensures forall r, c {:trigger rotatedMatrix[r, c]} :: 0 <= r < PAGES && 0 <= c < COLUMNS ==>
      rotatedMatrix[r, c] == if r < height / 8 && c < width then old(rotatedMatrix[r, width - 1 - c]) else old(rotatedMatrix[r, c])
  {
    ghost var copied := Snapshot(rotatedMatrix);
    for i := 0 to height / 8
      modifies rotatedMatrix
      invariant forall r, c {:trigger rotatedMatrix[r, c]} :: 0 <= r < PAGES && 0 <= c < COLUMNS ==>
        rotatedMatrix[r, c] == if r < i && c < width then copied[r][width - 1 - c] else copied[r][c]
    {
      for j := 0 to width / 2
        modifies rotatedMatrix
        invariant forall r, c {:trigger rotatedMatrix[r, c]} :: 0 <= r < PAGES && 0 <= c < COLUMNS ==>
          rotatedMatrix[r, c] ==
            if (r < i && c < width) || (r == i && (c < j || width - 1 - j < c < width)) then copied[r][width - 1 - c] else copied[r][c]
      {
        var tmp := rotatedMatrix[i, j];
        rotatedMatrix[i, j] := rotatedMatrix[i, width - 1 - j];
        rotatedMatrix[i, width - 1 - j] := tmp;
      }
    }
  }

  /**
   * `rotateMatrix`: rotated page `i < Height / 8` holds, in column `c < Width`, what the block
   * copy wrote in column `Width - 1 - c`; everything else in `rotatedMatrix` is untouched and
   * `matrix` is only read. Width and height are the display's unsigned template parameters.
   * When the width is a multiple of 8 the result is the source image turned a quarter turn:
   * the rotated pixel in row `y` and column `c` is the source pixel in row `Width - 1 - c` and
   * column `y`.
   */
  method RotateMatrix(height: int, width: int, matrix: array2<bv8>, rotatedMatrix: array2<bv8>)
    requires Sizes(height, width, matrix, rotatedMatrix)
    modifies rotatedMatrix
    ensures forall r, c :: 0 <= r < PAGES && 0 <= c < COLUMNS ==>
      rotatedMatrix[r, c] ==
        if r < height / 8 && c < width then
          (if width - 1 - c < (width / 8) * 8 then Turned(matrix, r, width - 1 - c) else old(rotatedMatrix[r, width - 1 - c]))
        else old(rotatedMatrix[r, c])
    ensures width % 8 == 0 ==>
      forall row, c :: 0 <= row < (height / 8) * 8 && 0 <= c < width ==> Pixel(rotatedMatrix, row, c) == Pixel(matrix, width - 1 - c, row)
  {
    CopyTurnedBlocks(height, width, matrix, rotatedMatrix);
    ghost var copied := Snapshot(rotatedMatrix);
    MirrorPages(height, width, rotatedMatrix);
    forall r, c | 0 <= r < PAGES && 0 <= c < COLUMNS
      ensures rotatedMatrix[r, c] ==
        if r < height / 8 && c < width then
          (if width - 1 - c < (width / 8) * 8 then Turned(matrix, r, width - 1 - c) else old(rotatedMatrix[r, width - 1 - c]))
        else old(rotatedMatrix[r, c])
    {
      if r < height / 8 && c < width {
        assert rotatedMatrix[r, c] == copied[r][width - 1 - c];
      } else {
        assert rotatedMatrix[r, c] == copied[r][c];
      }
    }
    if width % 8 == 0 {
      forall row, c | 0 <= row < (height / 8) * 8 && 0 <= c < width
        ensures Pixel(rotatedMatrix, row, c) == Pixel(matrix, width - 1 - c, row)
      {
        TurnedPixel(matrix, row, width - 1 - c);
      }
    }
  }
}
