/**
 * A writer of file system images, independent of the reader: blocks built by concatenation, little-endian words, and
 * files written chunk by chunk into whatever data blocks they are given. The reader gives every file back.
 */
module FileLayout {
  import opened FileSystem

  const WORDS := 0x1_0000_0000
  const MAX_BLOCKS := 1023

  /** Files with the data blocks assigned to each, the former contents of the data blocks, and the rest of the boot block. */
  datatype Volume = Volume(files: seq<seq<Byte>>, slots: seq<seq<nat>>, disk: seq<seq<Byte>>, entries: nat, rest: seq<Byte>)

  /** Every file has blocks enough, all on the disk, and no block is assigned twice. */
  ghost predicate Assignable(v: Volume) {
    && |v.slots| == |v.files| < WORDS && |v.disk| < WORDS && |v.rest| <= BLOCK - 12
    && (forall b | 0 <= b < |v.disk| :: |v.disk[b]| == BLOCK)
    && (forall i | 0 <= i < |v.files| :: |v.files[i]| <= |v.slots[i]| * BLOCK && |v.slots[i]| <= MAX_BLOCKS)
    && (forall i, j | 0 <= i < |v.files| && 0 <= j < |v.slots[i]| :: v.slots[i][j] < |v.disk|)
    && (forall i, j, h, k | 0 <= i < |v.files| && 0 <= j < |v.slots[i]| && 0 <= h < |v.files| && 0 <= k < |v.slots[h]| &&
          v.slots[i][j] == v.slots[h][k] :: i == h && j == k)
  }

  // ------------------------------------------------------------ the writer

  function LittleEndian(n: nat): seq<Byte> { [n % 256, n / 256 % 256, n / 65536 % 256, n / 16777216 % 256] }

  function Words(ws: seq<nat>): seq<Byte> { if ws == [] then [] else LittleEndian(ws[0]) + Words(ws[1..]) }

  /** Filled up with zeros to a whole block. */
  function Padded(s: seq<Byte>): (t: seq<Byte>)
    requires |s| <= BLOCK
    ensures |t| == BLOCK && t[..|s|] == s
  {
    s + seq(BLOCK - |s|, _ => 0)
  }

  /** The block with its first bytes overwritten. */
  function Overwritten(block: seq<Byte>, s: seq<Byte>): (t: seq<Byte>)
    requires |s| <= |block|
    ensures |t| == |block| && t[..|s|] == s
  {
    s + block[|s|..]
  }

  function Chunk(file: seq<Byte>, j: nat): (s: seq<Byte>)
    ensures |s| <= BLOCK
  {
    if |file| <= j * BLOCK then [] else if |file| <= (j + 1) * BLOCK then file[j * BLOCK..] else file[j * BLOCK..(j + 1) * BLOCK]
  }

  /** The disk after the chunks of a file from the j-th on have been written to their blocks. */
  function WriteChunks(disk: seq<seq<Byte>>, file: seq<Byte>, blocks: seq<nat>, j: nat): (d: seq<seq<Byte>>)
    requires j <= |blocks| && forall b | 0 <= b < |disk| :: |disk[b]| == BLOCK
    requires forall k | 0 <= k < |blocks| :: blocks[k] < |disk|
    ensures |d| == |disk| && forall b | 0 <= b < |d| :: |d[b]| == BLOCK
    decreases |blocks| - j
  {
    if j == |blocks| then disk
    else WriteChunks(disk[blocks[j] := Overwritten(disk[blocks[j]], Chunk(file, j))], file, blocks, j + 1)
  }

  /** The disk after the files from the i-th on have been written. */
  function WriteFiles(disk: seq<seq<Byte>>, files: seq<seq<Byte>>, slots: seq<seq<nat>>, i: nat): (d: seq<seq<Byte>>)
    requires i <= |files| == |slots| && forall b | 0 <= b < |disk| :: |disk[b]| == BLOCK
    requires forall h, k | 0 <= h < |files| && 0 <= k < |slots[h]| :: slots[h][k] < |disk|
    ensures |d| == |disk| && forall b | 0 <= b < |d| :: |d[b]| == BLOCK
    decreases |files| - i
  {
    if i == |files| then disk else WriteFiles(WriteChunks(disk, files[i], slots[i], 0), files, slots, i + 1)
  }

  function Concat(blocks: seq<seq<Byte>>): seq<Byte> { if blocks == [] then [] else blocks[0] + Concat(blocks[1..]) }

  lemma {:induction false} WordsSize(ws: seq<nat>)
    ensures |Words(ws)| == 4 * |ws|
  {
    if ws != [] {
      WordsSize(ws[1..]);
    }
  }

  function BootBlock(v: Volume): (t: seq<Byte>)
    requires Assignable(v)
    ensures |t| == BLOCK
  {
    Padded(LittleEndian(v.entries) + LittleEndian(|v.files|) + LittleEndian(|v.disk|) + v.rest)
  }

  function InodeBlock(v: Volume, i: nat): (t: seq<Byte>)
    requires Assignable(v) && i < |v.files|
    ensures |t| == BLOCK
  {
    WordsSize(v.slots[i]);
    Padded(LittleEndian(|v.files[i]|) + Words(v.slots[i]))
  }

  function InodeBlocks(v: Volume): (bs: seq<seq<Byte>>)
    requires Assignable(v)
    ensures |bs| == |v.files| && forall i | 0 <= i < |bs| :: bs[i] == InodeBlock(v, i)
  {
    seq(|v.files|, i requires 0 <= i < |v.files| => InodeBlock(v, i))
  }

  /** Boot block, inodes, data blocks. */
  function Blocks(v: Volume): (bs: seq<seq<Byte>>)
    requires Assignable(v)
    ensures forall b | 0 <= b < |bs| :: |bs[b]| == BLOCK
  {
    [BootBlock(v)] + InodeBlocks(v) + WriteFiles(v.disk, v.files, v.slots, 0)
  }

  /** The whole image. */
  function Layout(v: Volume): seq<Byte>
    requires Assignable(v)
  {
    Concat(Blocks(v))
  }

  // ------------------------------------------------------------ bytes of the parts

  lemma {:induction false} WordsAt(ws: seq<nat>, j: nat, k: nat)
    requires j < |ws| && k < 4
    ensures |Words(ws)| == 4 * |ws| && Words(ws)[4 * j + k] == LittleEndian(ws[j])[k]
  {
    WordsSize(ws);
    WordsSize(ws[1..]);
    if j > 0 {
      WordsAt(ws[1..], j - 1, k);
      assert Words(ws)[4 * j + k] == Words(ws[1..])[4 * (j - 1) + k];
    }
  }

  lemma {:induction false} ConcatAt(blocks: seq<seq<Byte>>, b: nat, k: nat)
    requires (forall i | 0 <= i < |blocks| :: |blocks[i]| == BLOCK) && b < |blocks| && k < BLOCK
    ensures |Concat(blocks)| == BLOCK * |blocks| && Concat(blocks)[BLOCK * b + k] == blocks[b][k]
  {
    ConcatSize(blocks);
    ConcatSize(blocks[1..]);
    if b > 0 {
      ConcatAt(blocks[1..], b - 1, k);
      assert Concat(blocks)[BLOCK * b + k] == Concat(blocks[1..])[BLOCK * (b - 1) + k];
    }
  }

  lemma {:induction false} ConcatSize(blocks: seq<seq<Byte>>)
    requires forall i | 0 <= i < |blocks| :: |blocks[i]| == BLOCK
    ensures |Concat(blocks)| == BLOCK * |blocks|
  {
    if blocks != [] {
      ConcatSize(blocks[1..]);
    }
  }

  /** Four little-endian bytes make the word again. */
  lemma WordBack(mem: nat -> Byte, a: nat, n: nat)
    requires n < WORDS && [mem(a), mem(a + 1), mem(a + 2), mem(a + 3)] == LittleEndian(n)
    ensures Word(mem, a) == n
  {
    var four := [mem(a), mem(a + 1), mem(a + 2), mem(a + 3)];
    assert four[0] == n % 256 && four[1] == n / 256 % 256 && four[2] == n / 65536 % 256 && four[3] == n / 16777216 % 256;
    Places(n);
  }

  lemma Places(n: nat)
    requires n < WORDS
    ensures n == n % 256 + 256 * (n / 256 % 256) + 65536 * (n / 65536 % 256) + 16777216 * (n / 16777216 % 256)
  {
    assert n / 65536 == n / 256 / 256 && n / 16777216 == n / 65536 / 256;
  }

  // ------------------------------------------------------------ the disk after writing

  lemma {:induction false} ChunksElsewhere(disk: seq<seq<Byte>>, file: seq<Byte>, blocks: seq<nat>, j: nat, b: nat)
    requires j <= |blocks| && (forall c | 0 <= c < |disk| :: |disk[c]| == BLOCK) && b < |disk|
    requires (forall k | 0 <= k < |blocks| :: blocks[k] < |disk|) && forall k | j <= k < |blocks| :: blocks[k] != b
    ensures WriteChunks(disk, file, blocks, j)[b] == disk[b]
    decreases |blocks| - j
  {
    if j < |blocks| {
      ChunksElsewhere(disk[blocks[j] := Overwritten(disk[blocks[j]], Chunk(file, j))], file, blocks, j + 1, b);
    }
  }

  lemma {:induction false} ChunksWritten(disk: seq<seq<Byte>>, file: seq<Byte>, blocks: seq<nat>, j: nat, k: nat)
    requires j <= k < |blocks| && forall c | 0 <= c < |disk| :: |disk[c]| == BLOCK
    requires forall h | 0 <= h < |blocks| :: blocks[h] < |disk|
    requires forall h, l | 0 <= h < l < |blocks| :: blocks[h] != blocks[l]
    ensures var c := Chunk(file, k); WriteChunks(disk, file, blocks, j)[blocks[k]][..|c|] == c
    decreases |blocks| - j
  {
    var d := disk[blocks[j] := Overwritten(disk[blocks[j]], Chunk(file, j))];
    if j == k {
      ChunksElsewhere(d, file, blocks, j + 1, blocks[j]);
    } else {
      ChunksWritten(d, file, blocks, j + 1, k);
    }
  }

  ghost predicate SlotsOk(slots: seq<seq<nat>>, n: nat) {
    && (forall i, j | 0 <= i < |slots| && 0 <= j < |slots[i]| :: slots[i][j] < n)
    && (forall i, j, h, k | 0 <= i < |slots| && 0 <= j < |slots[i]| && 0 <= h < |slots| && 0 <= k < |slots[h]| &&
          slots[i][j] == slots[h][k] :: i == h && j == k)
  }

  lemma {:induction false} FilesElsewhere(disk: seq<seq<Byte>>, files: seq<seq<Byte>>, slots: seq<seq<nat>>, i: nat, b: nat)
    requires i <= |files| == |slots| && (forall c | 0 <= c < |disk| :: |disk[c]| == BLOCK) && b < |disk| && SlotsOk(slots, |disk|)
    requires forall h, k | i <= h < |slots| && 0 <= k < |slots[h]| :: slots[h][k] != b
    ensures WriteFiles(disk, files, slots, i)[b] == disk[b]
    decreases |files| - i
  {
    if i < |files| {
      ChunksElsewhere(disk, files[i], slots[i], 0, b);
      FilesElsewhere(WriteChunks(disk, files[i], slots[i], 0), files, slots, i + 1, b);
    }
  }

  /** Every chunk of every file is in the block assigned to it. */
  lemma {:induction false} FilesWritten(disk: seq<seq<Byte>>, files: seq<seq<Byte>>, slots: seq<seq<nat>>, i: nat, h: nat, k: nat)
    requires i <= h < |files| == |slots| && (forall c | 0 <= c < |disk| :: |disk[c]| == BLOCK) && SlotsOk(slots, |disk|)
    requires k < |slots[h]|
    ensures var c := Chunk(files[h], k); WriteFiles(disk, files, slots, i)[slots[h][k]][..|c|] == c
    decreases |files| - i
  {
    var d := WriteChunks(disk, files[i], slots[i], 0);
    if i == h {
      ChunksWritten(disk, files[i], slots[i], 0, k);
      FilesElsewhere(d, files, slots, i + 1, slots[h][k]);
    } else {
      FilesWritten(d, files, slots, i + 1, h, k);
    }
  }

  // ------------------------------------------------------------ the image in memory

  /** The image is in memory from base on. */
  ghost predicate Mounted(img: Image, v: Volume)
    requires Assignable(v)
  {
    img.base % BLOCK == 0 && forall n | 0 <= n < |Layout(v)| :: img.mem(img.base + n) == Layout(v)[n]
  }

  lemma BlockInMemory(img: Image, v: Volume, b: nat, k: nat)
    requires Assignable(v) && Mounted(img, v) && b < |Blocks(v)| && k < BLOCK
    ensures img.mem(img.base + BLOCK * b + k) == Blocks(v)[b][k]
  {
    ConcatAt(Blocks(v), b, k);
    assert img.mem(img.base + (BLOCK * b + k)) == Layout(v)[BLOCK * b + k];
  }

  lemma FourBytes(s: seq<Byte>, k: nat, b0: Byte, b1: Byte, b2: Byte, b3: Byte)
    requires k + 4 <= |s| && b0 == s[k] && b1 == s[k + 1] && b2 == s[k + 2] && b3 == s[k + 3]
    ensures [b0, b1, b2, b3] == s[k..k + 4]
  {
  }

  /** A word written at place k of block b is read back. */
  lemma WordInBlock(img: Image, v: Volume, b: nat, k: nat, n: nat)
    requires Assignable(v) && Mounted(img, v) && b < |Blocks(v)| && k + 4 <= BLOCK && n < WORDS
    requires Blocks(v)[b][k..k + 4] == LittleEndian(n)
    ensures Word(img.mem, img.base + BLOCK * b + k) == n
  {
    var a := img.base + BLOCK * b + k;
    BlockInMemory(img, v, b, k);
    BlockInMemory(img, v, b, k + 1);
    BlockInMemory(img, v, b, k + 2);
    BlockInMemory(img, v, b, k + 3);
    FourBytes(Blocks(v)[b], k, img.mem(a), img.mem(a + 1), img.mem(a + 2), img.mem(a + 3));
    WordBack(img.mem, a, n);
  }

  lemma CountsBack(img: Image, v: Volume)
    requires Assignable(v) && Mounted(img, v)
    ensures NumInodes(img) == |v.files| && NumDataBlocks(img) == |v.disk|
  {
    var words := LittleEndian(v.entries) + LittleEndian(|v.files|) + LittleEndian(|v.disk|) + v.rest;
    assert BootBlock(v)[..|words|] == words;
    assert words[4..8] == LittleEndian(|v.files|) && words[8..12] == LittleEndian(|v.disk|);
    assert BootBlock(v)[4..8] == words[4..8] && BootBlock(v)[8..12] == words[8..12];
    WordInBlock(img, v, 0, 4, |v.files|);
    WordInBlock(img, v, 0, 8, |v.disk|);
  }

  /** The written part of an inode's block. */
  function InodeBytes(v: Volume, i: nat): seq<Byte>
    requires Assignable(v) && i < |v.files|
  {
    LittleEndian(|v.files[i]|) + Words(v.slots[i])
  }

  lemma InodePrefix(v: Volume, i: nat)
    requires Assignable(v) && i < |v.files|
    ensures |InodeBytes(v, i)| == 4 + 4 * |v.slots[i]| <= BLOCK && InodeBlock(v, i)[..|InodeBytes(v, i)|] == InodeBytes(v, i)
  {
    WordsSize(v.slots[i]);
  }

  lemma PrefixSlice(s: seq<Byte>, p: seq<Byte>, a: nat, b: nat)
    requires a <= b <= |p| <= |s| && s[..|p|] == p
    ensures s[a..b] == p[a..b]
  {
    assert s == p + s[|p|..];
  }

  lemma LengthWord(v: Volume, i: nat)
    requires Assignable(v) && i < |v.files|
    ensures InodeBlock(v, i)[0..4] == LittleEndian(|v.files[i]|)
  {
    InodePrefix(v, i);
    PrefixSlice(InodeBlock(v, i), InodeBytes(v, i), 0, 4);
    assert InodeBytes(v, i)[0..4] == LittleEndian(|v.files[i]|);
  }

  lemma WordSlice(ws: seq<nat>, j: nat)
    requires j < |ws|
    ensures |Words(ws)| == 4 * |ws| && Words(ws)[4 * j..4 * j + 4] == LittleEndian(ws[j])
  {
    WordsAt(ws, j, 0);
    WordsAt(ws, j, 1);
    WordsAt(ws, j, 2);
    WordsAt(ws, j, 3);
  }

  lemma SlotWord(v: Volume, i: nat, j: nat)
    requires Assignable(v) && i < |v.files| && j < |v.slots[i]|
    ensures 4 * j + 8 <= BLOCK && InodeBlock(v, i)[4 * j + 4..4 * j + 8] == LittleEndian(v.slots[i][j])
  {
    InodePrefix(v, i);
    PrefixSlice(InodeBlock(v, i), InodeBytes(v, i), 4 * j + 4, 4 * j + 8);
    WordSlice(v.slots[i], j);
    assert InodeBytes(v, i)[4 * j + 4..4 * j + 8] == Words(v.slots[i])[4 * j..4 * j + 4];
  }

  // ------------------------------------------------------------ files come back

  lemma InodeIndex(v: Volume, i: nat)
    requires Assignable(v) && i < |v.files|
    ensures 1 + i < |Blocks(v)| && Blocks(v)[1 + i] == InodeBlock(v, i)
  {
  }

  lemma LengthBack(img: Image, v: Volume, i: nat)
    requires Assignable(v) && Mounted(img, v) && i < |v.files|
    ensures InodeAt(img, i).length == |v.files[i]|
  {
    InodeIndex(v, i);
    LengthWord(v, i);
    WordInBlock(img, v, 1 + i, 0, |v.files[i]|);
  }

  lemma SlotBack(img: Image, v: Volume, i: nat, j: nat)
    requires Assignable(v) && Mounted(img, v) && i < |v.files| && j < |v.slots[i]|
    ensures InodeAt(img, i).blocks(j) == v.slots[i][j]
  {
    InodeIndex(v, i);
    SlotWord(v, i, j);
    WordInBlock(img, v, 1 + i, 4 * j + 4, v.slots[i][j]);
  }

  lemma DataIndex(v: Volume, b: nat)
    requires Assignable(v) && b < |v.disk|
    ensures 1 + |v.files| + b < |Blocks(v)|
    ensures Blocks(v)[1 + |v.files| + b] == WriteFiles(v.disk, v.files, v.slots, 0)[b]
  {
  }

  lemma DataInMemory(img: Image, v: Volume, i: nat, j: nat, k: nat)
    requires Assignable(v) && Mounted(img, v) && i < |v.files| && j < |v.slots[i]| && k < BLOCK
    ensures img.mem(DataBlock(InodeAt(img, i), j) + k) == WriteFiles(v.disk, v.files, v.slots, 0)[v.slots[i][j]][k]
  {
    var b := v.slots[i][j];
    CountsBack(img, v);
    SlotBack(img, v, i, j);
    DataIndex(v, b);
    BlockInMemory(img, v, 1 + |v.files| + b, k);
    assert DataBlock(InodeAt(img, i), j) == img.base + BLOCK * (1 + |v.files| + b);
  }

  lemma ChunkAt(file: seq<Byte>, pos: nat)
    requires pos < |file|
    ensures var c := Chunk(file, pos / BLOCK); pos % BLOCK < |c| && c[pos % BLOCK] == file[pos]
  {
    assert pos == BLOCK * (pos / BLOCK) + pos % BLOCK;
  }

  lemma PositionFits(pos: nat, size: nat, n: nat)
    requires pos < size <= n * BLOCK
    ensures pos / BLOCK < n
  {
  }

  /** The byte at a position of a file is on the disk, in the block assigned to that part of the file. */
  lemma ByteOnDisk(v: Volume, i: nat, pos: nat)
    requires Assignable(v) && i < |v.files| && pos < |v.files[i]|
    ensures pos / BLOCK < |v.slots[i]|
    ensures WriteFiles(v.disk, v.files, v.slots, 0)[v.slots[i][pos / BLOCK]][pos % BLOCK] == v.files[i][pos]
  {
    var j := pos / BLOCK;
    PositionFits(pos, |v.files[i]|, |v.slots[i]|);
    FilesWritten(v.disk, v.files, v.slots, 0, i, j);
    ChunkAt(v.files[i], pos);
    var d, c := WriteFiles(v.disk, v.files, v.slots, 0)[v.slots[i][j]], Chunk(v.files[i], j);
    assert d[..|c|][pos % BLOCK] == d[pos % BLOCK];
  }

  /** Every byte of every file is where the reader looks for it. */
  lemma ByteBack(img: Image, v: Volume, i: nat, pos: nat)
    requires Assignable(v) && Mounted(img, v) && i < |v.files| && pos < |v.files[i]|
    ensures pos / BLOCK < |v.slots[i]| && FileByte(InodeAt(img, i), pos) == v.files[i][pos]
  {
    ByteOnDisk(v, i, pos);
    DataInMemory(img, v, i, pos / BLOCK, pos % BLOCK);
  }

  /** An inode of a laid out volume is well-formed, and the bytes it stands for are the file. */
  lemma FileBack(img: Image, v: Volume, i: nat)
    requires Assignable(v) && Mounted(img, v) && i < |v.files|
    ensures var f := InodeAt(img, i);
            WellFormed(f) && f.length == |v.files[i]| && FileBytes(f, 0, f.length) == v.files[i]
  {
    var f := InodeAt(img, i);
    CountsBack(img, v);
    LengthBack(img, v, i);
    forall pos | 0 <= pos < f.length
      ensures f.blocks(pos / BLOCK) <= f.count && FileByte(f, 0 + pos) == v.files[i][pos]
    {
      ByteBack(img, v, i, pos);
      SlotBack(img, v, i, pos / BLOCK);
    }
  }

  lemma PartBack(img: Image, v: Volume, i: nat, o: nat, n: nat)
    requires Assignable(v) && Mounted(img, v) && i < |v.files| && o + n <= |v.files[i]|
    ensures FileBytes(InodeAt(img, i), o, n) == v.files[i][o..o + n]
  {
    forall k | 0 <= k < n
      ensures FileBytes(InodeAt(img, i), o, n)[k] == v.files[i][o..o + n][k]
    {
      ByteBack(img, v, i, o + k);
    }
  }

  /** Reading inside a file of a laid out volume gives exactly the part asked for, whatever blocks the file is in. */
  method ReadBack(img: Image, ghost v: Volume, i: nat, o: nat, n: nat, buf: array<Byte>) returns (count: nat)
    requires Assignable(v) && Mounted(img, v) && i < |v.files| && o + n <= |v.files[i]| && n <= buf.Length
    modifies buf
    ensures count == n && buf[..n] == v.files[i][o..o + n]
    ensures forall k :: n <= k < buf.Length ==> buf[k] == old(buf[k])
  {
    CountsBack(img, v);
    FileBack(img, v, i);
    InsideDelivers(InodeAt(img, i), o, n);
    PartBack(img, v, i, o, n);
    count := ReadData(img, i, o, buf, n);
    DeliversOnce(InodeAt(img, i), o, n, count, n);
  }

  /** Consecutive reads of an open file give the file back from where it stands, however they are cut. */
  method ReadAllBack(img: Image, ghost v: Volume, file: OpenFile, buf: array<Byte>, lengths: seq<nat>) returns (s: seq<Byte>)
    requires Assignable(v) && Mounted(img, v) && file.inode < |v.files|
    requires forall k | 0 <= k < |lengths| :: lengths[k] <= buf.Length
    requires file.pos + Sum(lengths) <= |v.files[file.inode]|
    modifies file, buf
    ensures s == v.files[file.inode][old(file.pos)..old(file.pos) + Sum(lengths)] && file.pos == old(file.pos) + Sum(lengths)
  {
    CountsBack(img, v);
    FileBack(img, v, file.inode);
    PartBack(img, v, file.inode, file.pos, Sum(lengths));
    s := file.ReadAll(img, buf, lengths);
  }
}
