/** Reading files from the read-only file system image: block addressing, read_data and file_read. */
module FileSystem {
  const BLOCK := 4096

  type Byte = b: nat | b < 256

  /** Memory, with the file system image from address base on. */
  datatype Image = Image(mem: nat -> Byte, base: nat)

  /** A little-endian word. */
  function Word(mem: nat -> Byte, a: nat): nat {
    mem(a) + 256 * mem(a + 1) + 65536 * mem(a + 2) + 16777216 * mem(a + 3)
  }

  function NumInodes(img: Image): nat { Word(img.mem, img.base + 4) }

  function NumDataBlocks(img: Image): nat { Word(img.mem, img.base + 8) }

  function InodeAddr(img: Image, inode: nat): nat { img.base + inode * BLOCK + BLOCK }

  /** An inode as the reader sees it: its length, its block numbers, and where the data blocks lie. */
  datatype Inode = Inode(length: nat, blocks: nat -> nat, count: nat, data: nat, mem: nat -> Byte)

  function InodeAt(img: Image, inode: nat): Inode {
    var a := InodeAddr(img, inode);
    Inode(Word(img.mem, a), index => Word(img.mem, a + 4 + 4 * index), NumDataBlocks(img),
          img.base + BLOCK + NumInodes(img) * BLOCK, img.mem)
  }

  function DataBlock(f: Inode, index: nat): nat { f.data + f.blocks(index) * BLOCK }

  /** The byte at a position of a file. */
  function FileByte(f: Inode, pos: nat): Byte { f.mem(DataBlock(f, pos / BLOCK) + pos % BLOCK) }

  function FileBytes(f: Inode, pos: nat, n: nat): (s: seq<Byte>)
    ensures |s| == n && forall i :: 0 <= i < n ==> s[i] == FileByte(f, pos + i)
  {
    seq<Byte>(n, i requires 0 <= i < n => FileByte(f, pos + i))
  }

  /** Whether a read from offset gives up after k bytes: past the length, or on an invalid block number. */
  predicate GivesUp(f: Inode, offset: nat, k: nat) {
    || offset + k > f.length
    || f.blocks((if k == 0 then offset else offset + k - 1) / BLOCK) > f.count
  }

  /** How many bytes a read delivers. */
  ghost predicate Delivers(f: Inode, offset: nat, length: nat, n: nat) {
    && n <= length
    && (forall k :: 0 <= k < n ==> !GivesUp(f, offset, k))
    && (n < length ==> GivesUp(f, offset, n))
  }

  lemma AtBlockEnd(f: Inode, index: nat, byte: nat)
    requires f.data % BLOCK == 0
    ensures (DataBlock(f, index) + byte) % BLOCK == byte % BLOCK
  {
    var c := f.data / BLOCK + f.blocks(index);
    assert DataBlock(f, index) == BLOCK * c;
    Multiple(c, byte);
  }

  lemma Multiple(c: nat, byte: nat)
    ensures (4096 * c + byte) % 4096 == byte % 4096
  {
  }

  /** The block index and byte after position pos. */
  lemma Advance(pos: nat, index: nat, byte: nat)
    requires index == pos / BLOCK && byte == pos % BLOCK + 1
    ensures byte % BLOCK == 0 ==> (pos + 1) / BLOCK == index + 1 && (pos + 1) % BLOCK == 0
    ensures byte % BLOCK != 0 ==> (pos + 1) / BLOCK == index && (pos + 1) % BLOCK == byte
  {
  }

  /** The reading loop: the running block index and byte offset are those of the file position. */
  method ReadInode(f: Inode, offset: nat, buf: array<Byte>, length: nat) returns (n: nat)
    requires f.data % BLOCK == 0 && length <= buf.Length
    modifies buf
    ensures Delivers(f, offset, length, n)
    ensures forall i :: 0 <= i < n ==> buf[i] == FileByte(f, offset + i)
    ensures forall i :: n <= i < buf.Length ==> buf[i] == old(buf[i])
  {
    var byte := offset % BLOCK;
    var index := offset / BLOCK;
    var started := false;
    n := 0;
    while n < length
      invariant 0 <= n <= length && (started <==> n > 0)
      invariant n == 0 ==> byte == offset % BLOCK
      invariant n > 0 ==> byte == (offset + n - 1) % BLOCK + 1
      invariant index == (if n == 0 then offset else offset + n - 1) / BLOCK
      invariant forall k :: 0 <= k < n ==> !GivesUp(f, offset, k)
      invariant forall i :: 0 <= i < n ==> buf[i] == FileByte(f, offset + i)
      invariant forall i :: n <= i < buf.Length ==> buf[i] == old(buf[i])
    {
      if n + offset > f.length || f.blocks(index) > f.count {
        return;
      }
      AtBlockEnd(f, index, byte);
      if started {
        Advance(offset + n - 1, index, byte);
      }
      if (DataBlock(f, index) + byte) % BLOCK == 0 && started {
        byte := 0;
        index := index + 1;
      }
      assert index == (offset + n) / BLOCK && byte == (offset + n) % BLOCK;
      buf[n] := f.mem(DataBlock(f, index) + byte);
      byte := byte + 1;
      n := n + 1;
      started := true;
    }
  }

  /** read_data: nothing for a bad inode number, else the reading loop. */
  method ReadData(img: Image, inode: nat, offset: nat, buf: array<Byte>, length: nat) returns (n: nat)
    requires img.base % BLOCK == 0 && length <= buf.Length
    modifies buf
    ensures if inode > NumInodes(img) then n == 0 else Delivers(InodeAt(img, inode), offset, length, n)
    ensures n <= length && buf[..n] == FileBytes(InodeAt(img, inode), offset, n)
    ensures forall i :: n <= i < buf.Length ==> buf[i] == old(buf[i])
  {
    n := 0;
    if inode <= NumInodes(img) {
      var f := InodeAt(img, inode);
      Multiple(img.base / BLOCK + 1 + NumInodes(img), 0);
      n := ReadInode(f, offset, buf, length);
    }
  }

  // ------------------------------------------------------------ what a read returns

  /** Every block holding bytes of the file is a valid one. */
  ghost predicate WellFormed(f: Inode) {
    forall pos :: 0 <= pos < f.length ==> f.blocks(pos / BLOCK) <= f.count
  }

  /** The count the interface promises: the requested length, cut off at the end of the file. */
  function Promised(f: Inode, offset: nat, length: nat): nat {
    if offset >= f.length then 0 else if length <= f.length - offset then length else f.length - offset
  }

  /** Whether a read starting at the very end of the file is stopped by an invalid next block number. */
  predicate StoppedAtEnd(f: Inode) { f.blocks(f.length / BLOCK) > f.count }

  lemma DeliversOnce(f: Inode, offset: nat, length: nat, n: nat, m: nat)
    requires Delivers(f, offset, length, n) && Delivers(f, offset, length, m)
    ensures n == m
  {
    assert n < m ==> !GivesUp(f, offset, n);
    assert m < n ==> !GivesUp(f, offset, m);
  }

  lemma WithinFile(f: Inode, offset: nat, k: nat)
    requires WellFormed(f) && offset + k <= f.length && offset < f.length
    ensures !GivesUp(f, offset, k)
  {
    var pos := if k == 0 then offset else offset + k - 1;
    assert f.blocks(pos / BLOCK) <= f.count;
  }

  /** A read inside the file delivers exactly what is asked. */
  lemma InsideDelivers(f: Inode, offset: nat, length: nat)
    requires WellFormed(f) && offset + length <= f.length
    ensures Delivers(f, offset, length, length)
  {
    forall k | 0 <= k < length
      ensures !GivesUp(f, offset, k)
    {
      WithinFile(f, offset, k);
    }
  }

  /** The exact count for every offset and length: the end test lets one byte past the end through. */
  lemma ExactCount(f: Inode, offset: nat, length: nat, n: nat)
    requires WellFormed(f) && Delivers(f, offset, length, n)
    ensures n == if offset > f.length || length == 0 then 0
                 else if offset == f.length then (if StoppedAtEnd(f) then 0 else 1)
                 else if length <= f.length - offset + 1 then length else f.length - offset + 1
  {
    if offset < f.length {
      var m := if length <= f.length - offset + 1 then length else f.length - offset + 1;
      forall k | 0 <= k < m
        ensures !GivesUp(f, offset, k)
      {
        WithinFile(f, offset, k);
      }
      assert m < length ==> GivesUp(f, offset, m);
      DeliversOnce(f, offset, length, n, m);
    } else {
      var m := if offset > f.length || length == 0 || StoppedAtEnd(f) then 0 else 1;
      assert m == 1 ==> !GivesUp(f, offset, 0) && GivesUp(f, offset, 1);
      DeliversOnce(f, offset, length, n, m);
    }
  }

  /** A read returns the promised count exactly when it does not try to go past the end of the file. */
  lemma PromiseKeptExactly(f: Inode, offset: nat, length: nat, n: nat)
    requires WellFormed(f) && Delivers(f, offset, length, n)
    ensures n == Promised(f, offset, length) <==>
            offset + length <= f.length || offset > f.length || length == 0 || (offset == f.length && StoppedAtEnd(f))
  {
    ExactCount(f, offset, length, n);
  }

  /** In an all-zero image the empty file 0 delivers one byte. */
  lemma ReadsPastEnd()
    ensures var f := InodeAt(Image(_ => 0, 0), 0);
            WellFormed(f) && f.length == 0 && Delivers(f, 0, 1, 1) && Promised(f, 0, 1) == 0
  {
    var f := InodeAt(Image(_ => 0, 0), 0);
    assert !GivesUp(f, 0, 0);
  }

  // ------------------------------------------------------------ consecutive reads

  lemma Joined(f: Inode, pos: nat, m: nat, n: nat, a: seq<Byte>, b: seq<Byte>)
    requires a == FileBytes(f, pos, m) && b == FileBytes(f, pos + m, n)
    ensures a + b == FileBytes(f, pos, m + n)
  {
  }

  function Sum(lengths: seq<nat>): nat { if lengths == [] then 0 else lengths[0] + Sum(lengths[1..]) }

  class OpenFile {
    const inode: nat
    var pos: nat

    constructor (inode: nat)
      ensures this.inode == inode && pos == 0
    {
      this.inode := inode;
      pos := 0;
    }

    /** file_read: the position moves by what was delivered. */
    method Read(img: Image, buf: array<Byte>, length: nat) returns (n: nat)
      requires img.base % BLOCK == 0 && length <= buf.Length
      modifies this, buf
      ensures if inode > NumInodes(img) then n == 0 else Delivers(InodeAt(img, inode), old(pos), length, n)
      ensures n <= length && pos == old(pos) + n
      ensures buf[..n] == FileBytes(InodeAt(img, inode), old(pos), n)
      ensures forall i :: n <= i < buf.Length ==> buf[i] == old(buf[i])
    {
      n := ReadData(img, inode, pos, buf, length);
      pos := pos + n;
    }

    /** A read inside the file: exactly the bytes asked for. */
    method ReadInside(img: Image, buf: array<Byte>, length: nat) returns (s: seq<Byte>)
      requires img.base % BLOCK == 0 && inode <= NumInodes(img) && WellFormed(InodeAt(img, inode))
      requires length <= buf.Length && pos + length <= InodeAt(img, inode).length
      modifies this, buf
      ensures s == FileBytes(InodeAt(img, inode), old(pos), length) && pos == old(pos) + length
    {
      InsideDelivers(InodeAt(img, inode), pos, length);
      ghost var start := pos;
      var n := Read(img, buf, length);
      DeliversOnce(InodeAt(img, inode), start, length, n, length);
      s := buf[..n];
    }

    /** Consecutive reads that stay within the file return its bytes in order, however they are cut up. */
    method ReadAll(img: Image, buf: array<Byte>, lengths: seq<nat>) returns (s: seq<Byte>)
      requires img.base % BLOCK == 0 && inode <= NumInodes(img) && WellFormed(InodeAt(img, inode))
      requires forall i :: 0 <= i < |lengths| ==> lengths[i] <= buf.Length
      requires pos + Sum(lengths) <= InodeAt(img, inode).length
      modifies this, buf
      ensures s == FileBytes(InodeAt(img, inode), old(pos), Sum(lengths)) && pos == old(pos) + Sum(lengths)
      decreases |lengths|
    {
      if lengths == [] {
        return [];
      }
      ghost var start, n := pos, Sum(lengths[1..]);
      assert Sum(lengths) == lengths[0] + n;
      var first := ReadInside(img, buf, lengths[0]);
      var rest := ReadAll(img, buf, lengths[1..]);
      Joined(InodeAt(img, inode), start, lengths[0], n, first, rest);
      s := first + rest;
    }
  }

  /** Loading a whole program file copies all of it: the length check of the loader succeeds. */
  method LoadFile(img: Image, inode: nat, addr: array<Byte>) returns (ok: bool)
    requires img.base % BLOCK == 0 && inode <= NumInodes(img) && WellFormed(InodeAt(img, inode))
    requires InodeAt(img, inode).length <= addr.Length
    modifies addr
    ensures var f := InodeAt(img, inode); ok && addr[..f.length] == FileBytes(f, 0, f.length)
  {
    var f := InodeAt(img, inode);
    var n := ReadData(img, inode, 0, addr, f.length);
    InsideDelivers(f, 0, f.length);
    DeliversOnce(f, 0, f.length, n, f.length);
    ok := n == f.length;
  }
}
