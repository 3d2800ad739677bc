/** Copying a card tilemap into a background tilemap buffer: the stored
    tilemaps are 30 columns by 20 rows, the buffers 32 columns wide, and the
    two columns past the picture are filled with the tilemap's first entry. */
module Tilemap {

  const MAP_ROWS: nat := 20
  const MAP_COLS: nat := 30
  const BUF_COLS: nat := 32
  /** Entries in a stored tilemap (`u16 [600]`). */
  const MAP_LEN: nat := 600
  /** Entries in a tilemap buffer (`u16 [0x1000]`). */
  const BUF_LEN: nat := 0x1000
  /** Buffer entries the copy writes: rows 0..19. */
  const DRAWN_LEN: nat := 640

  /** The entry the copy puts at buffer row i, column j. */
  function CellAt(src: seq<int>, i: nat, j: nat): int
    requires |src| == MAP_LEN && i < MAP_ROWS && j < BUF_COLS
  {
    if j < MAP_COLS then src[MAP_COLS * i + j] else src[0]
  }

  /** The buffer after the copy: rows 0..19 from the tilemap, everything
      after them as it was. */
  function Padded(dst: seq<int>, src: seq<int>): (r: seq<int>)
    requires |dst| == BUF_LEN && |src| == MAP_LEN
    ensures |r| == BUF_LEN
  {
    seq(BUF_LEN, k requires 0 <= k < BUF_LEN =>
      if k < DRAWN_LEN then CellAt(src, k / BUF_COLS, k % BUF_COLS) else dst[k])
  }

  /** Reading the 30 picture columns of each row back out of a buffer. */
  function Unpadded(buf: seq<int>): (r: seq<int>)
    requires |buf| == BUF_LEN
    ensures |r| == MAP_LEN
  {
    seq(MAP_LEN, k requires 0 <= k < MAP_LEN => buf[BUF_COLS * (k / MAP_COLS) + k % MAP_COLS])
  }

  /** Row and column of a buffer index. */
  lemma BufferCell(i: nat, j: nat)
    requires i < MAP_ROWS && j < BUF_COLS
    ensures BUF_COLS * i + j < DRAWN_LEN
    ensures (BUF_COLS * i + j) / BUF_COLS == i && (BUF_COLS * i + j) % BUF_COLS == j
  {
  }

  /** Row and column of a tilemap index. */
  lemma MapCell(k: nat)
    requires k < MAP_LEN
    ensures k / MAP_COLS < MAP_ROWS && k % MAP_COLS < MAP_COLS
    ensures MAP_COLS * (k / MAP_COLS) + k % MAP_COLS == k
  {
  }

  /** The copy keeps the picture: the 30 columns of each row read back out
      of the buffer are exactly the stored tilemap. */
  lemma UnpadPadded(dst: seq<int>, src: seq<int>)
    requires |dst| == BUF_LEN && |src| == MAP_LEN
    ensures Unpadded(Padded(dst, src)) == src
  {
    forall k | 0 <= k < MAP_LEN
      ensures Unpadded(Padded(dst, src))[k] == src[k]
    {
      var i, j := k / MAP_COLS, k % MAP_COLS;
      MapCell(k);
      BufferCell(i, j);
    }
  }

  /** Each row's two pad columns hold the tilemap's first entry, and nothing
      past row 19 changes. */
  lemma PaddingColumns(dst: seq<int>, src: seq<int>, i: nat)
    requires |dst| == BUF_LEN && |src| == MAP_LEN && i < MAP_ROWS
    ensures Padded(dst, src)[BUF_COLS * i + 30] == src[0]
    ensures Padded(dst, src)[BUF_COLS * i + 31] == src[0]
    ensures Padded(dst, src)[DRAWN_LEN..] == dst[DRAWN_LEN..]
  {
    BufferCell(i, 30);
    BufferCell(i, 31);
  }

  /** Copying twice is copying once. */
  lemma PaddedIdempotent(dst: seq<int>, src: seq<int>)
    requires |dst| == BUF_LEN && |src| == MAP_LEN
    ensures Padded(Padded(dst, src), src) == Padded(dst, src)
  {
  }

  /** The copy loop of `DrawCardScreenBackground` and `DrawCardFrontOrBack`:
      row by row, column by column. */
  method CopyTilemap(dst: array<int>, src: seq<int>)
    requires dst.Length == BUF_LEN && |src| == MAP_LEN
    modifies dst
    ensures dst[..] == Padded(old(dst[..]), src)
  {
    var i := 0;
    while i < MAP_ROWS
      invariant 0 <= i <= MAP_ROWS
      invariant forall k :: 0 <= k < BUF_COLS * i ==> dst[k] == CellAt(src, k / BUF_COLS, k % BUF_COLS)
      invariant forall k :: BUF_COLS * i <= k < BUF_LEN ==> dst[k] == old(dst[k])
    {
      var j := 0;
      while j < BUF_COLS
        invariant 0 <= j <= BUF_COLS
        invariant forall k :: 0 <= k < BUF_COLS * i ==> dst[k] == CellAt(src, k / BUF_COLS, k % BUF_COLS)
        invariant forall k :: BUF_COLS * i <= k < BUF_COLS * i + j ==>
                    dst[k] == CellAt(src, k / BUF_COLS, k % BUF_COLS)
        invariant forall k :: BUF_COLS * i + j <= k < BUF_LEN ==> dst[k] == old(dst[k])
      {
        BufferCell(i, j);
        if j < MAP_COLS {
          dst[BUF_COLS * i + j] := src[MAP_COLS * i + j];
        } else {
          dst[BUF_COLS * i + j] := src[0];
        }
        j := j + 1;
      }
      i := i + 1;
    }
  }
}
