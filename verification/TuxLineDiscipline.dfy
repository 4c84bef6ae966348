/**
 * The Tux line discipline: a receive and a transmit ring of 64 slots, and the callback that drains the
 * receive ring through the packet framer, keeping up to two bytes between calls.
 */
module TuxLineDiscipline {
  import opened TuxFraming

  const BUFSIZE := 64
  const CAPACITY := 63

  function Min(a: int, b: int): int { if a <= b then a else b }
  function Max(a: int, b: int): int { if a >= b then a else b }

  /** The slot that is i places after start. */
  function Slot(start: int, i: int): int { if start + i < BUFSIZE then start + i else start + i - BUFSIZE }

  function Used(start: int, end: int): int { if start <= end then end - start else BUFSIZE + end - start }

  /** A circular buffer; one slot always stays free so that start == end means empty. */
  class Ring {
    const buf: array<Byte>
    var start: int
    var end: int
    ghost var contents: seq<Byte>

    ghost predicate Valid()
      reads this, buf
    {
      && buf.Length == BUFSIZE && 0 <= start < BUFSIZE && 0 <= end < BUFSIZE
      && |contents| == Used(start, end)
      && forall i :: 0 <= i < |contents| ==> contents[i] == buf[Slot(start, i)]
    }

    predicate Full()
      reads this
    {
      (end + 1) % BUFSIZE == start
    }

    predicate Empty()
      reads this
    {
      start == end
    }

    constructor ()
      ensures Valid() && contents == [] && fresh(buf)
    {
      buf := new Byte[BUFSIZE](_ => 0);
      start, end, contents := 0, 0, [];
    }

    /** Full and empty are what they should be of the queue. */
    lemma FullAtCapacity()
      requires Valid()
      ensures |contents| <= CAPACITY
      ensures Full() <==> |contents| == CAPACITY
      ensures Empty() <==> contents == []
    {
    }

    method Push(b: Byte)
      requires Valid() && !Full()
      modifies this`end, this`contents, buf
      ensures Valid() && contents == old(contents) + [b]
    {
      buf[end] := b;
      end := (end + 1) % BUFSIZE;
      contents := contents + [b];
    }

    method Pop() returns (b: Byte)
      requires Valid() && !Empty()
      modifies this`start, this`contents
      ensures Valid() && old(contents) == [b] + contents
    {
      b := buf[start];
      start := (start + 1) % BUFSIZE;
      contents := contents[1..];
    }

    /** Append from the front of src until src is exhausted or the ring is full. */
    method Accept(src: seq<Byte>) returns (taken: int)
      requires Valid()
      modifies this`end, this`contents, buf
      ensures Valid()
      ensures taken == Min(|src|, CAPACITY - |old(contents)|)
      ensures contents == old(contents) + src[..taken]
    {
      taken := 0;
      FullAtCapacity();
      while taken < |src| && !Full()
        invariant Valid() && 0 <= taken <= |src|
        invariant contents == old(contents) + src[..taken]
      {
        Push(src[taken]);
        taken := taken + 1;
      }
      FullAtCapacity();
    }

    /** Remove from the front until n bytes are out or the ring is empty. */
    method Take(n: int) returns (out: seq<Byte>)
      requires Valid()
      modifies this`start, this`contents
      ensures Valid()
      ensures |out| == Min(Max(n, 0), |old(contents)|)
      ensures old(contents) == out + contents
    {
      out := [];
      while |out| < n && !Empty()
        invariant Valid()
        invariant |out| <= Max(n, 0)
        invariant old(contents) == out + contents
        decreases n - |out|
      {
        var b := Pop();
        out := out + [b];
      }
      FullAtCapacity();
    }
  }

  class Ldisc {
    const rx: Ring
    const tx: Ring
    const saved: array<Byte>
    var nSaved: int
    var handled: seq<Packet>

    // The history of the discipline: what each ring was ever given and what was ever taken from it.
    ghost var received: seq<Byte>
    ghost var consumed: seq<Byte>
    ghost var queued: seq<Byte>
    ghost var sent: seq<Byte>
    ghost var tail: seq<Byte>

    ghost predicate Valid()
      reads this, rx, rx.buf, tx, tx.buf, saved
    {
      && rx != tx && rx.buf != tx.buf && rx.buf != saved && tx.buf != saved
      && rx.Valid() && tx.Valid()
      && received == consumed + rx.contents
      && queued == sent + tx.contents
      && FramerValid()
    }

    ghost predicate FramerValid()
      reads this, saved
    {
      && saved.Length == 2 && 0 <= nSaved <= 2 && |tail| == nSaved
      && (forall j :: 0 <= j < nSaved ==> saved[j] == tail[j])
      && Framed(consumed, tail, handled)
    }

    constructor ()
      ensures Valid() && handled == [] && received == [] && queued == []
      ensures fresh(rx) && fresh(rx.buf) && fresh(tx) && fresh(tx.buf) && fresh(saved)
    {
      rx := new Ring();
      tx := new Ring();
      saved := new Byte[2](_ => 0);
      nSaved, handled := 0, [];
      received, consumed, queued, sent, tail := [], [], [], [], [];
    }

    /**
     * However the stream was cut into receive calls, the packets handled so far are those of the consumed
     * stream read in one piece, and at most two bytes are held back.
     */
    lemma HandledIsOneShot()
      requires Valid()
      ensures handled == Packets(consumed) == Scan(consumed, 0)
      ensures nSaved <= 2
    {
      FramedIsOneShot(consumed, tail, handled);
    }

    /** The receive callback of the serial driver: queue what fits, then let the framer work. */
    method ReceiveBuf(cp: seq<Byte>)
      requires Valid()
      modifies this, rx, rx.buf, saved
      ensures Valid()
      ensures received == old(received) + cp[..Min(|cp|, CAPACITY - |old(rx.contents)|)]
      ensures var waiting := old(rx.contents) + cp[..Min(|cp|, CAPACITY - |old(rx.contents)|)];
              consumed == old(consumed) + waiting[..Min(12 - old(nSaved), |waiting|)]
      ensures queued == old(queued) && sent == old(sent)
    {
      var taken := rx.Accept(cp);
      received := received + cp[..taken];
      assert received == consumed + rx.contents;
      DataCallback();
    }

    /** Frame as many bytes as fit the 12-byte work buffer beside the tail kept from the previous call. */
    method DataCallback()
      requires Valid()
      modifies this`nSaved, this`handled, this`consumed, this`tail, rx`start, rx`contents, saved
      ensures Valid()
      ensures consumed == old(consumed) + old(rx.contents)[..Min(12 - old(nSaved), |old(rx.contents)|)]
    {
      var got := rx.Take(12 - nSaved);
      Absorb(got);
    }

    /** Frame the kept tail and the new bytes, keeping what the scan leaves over. */
    method Absorb(got: seq<Byte>)
      requires FramerValid()
      modifies this`nSaved, this`handled, this`consumed, this`tail, saved
      ensures FramerValid()
      ensures consumed == old(consumed) + got
      ensures Framer(tail, handled) == Feed(Framer(old(tail), old(handled)), got)
    {
      var packet := saved[..nSaved] + got;
      assert packet == tail + got;
      var i, found := FrameBuffer(packet);
      FramedStep(consumed, tail, handled, got, i);
      SaveTail(packet, i);
      tail := packet[i..];
      handled, consumed, nSaved := handled + found, consumed + got, |packet| - i;
    }

    /** The scan over the work buffer: it stops within two bytes of the end. */
    static method FrameBuffer(packet: seq<Byte>) returns (i: int, found: seq<Packet>)
      ensures 0 <= i <= |packet| <= i + 2 && i == ScanStop(packet, 0)
      ensures found == PacketsBefore(packet, i)
      ensures TailSafe(packet, |packet| - i)
    {
      i, found := 0, [];
      while i < |packet| - 2
        invariant 0 <= i <= |packet| && ScanStop(packet, i) == ScanStop(packet, 0)
        invariant found == PacketsBefore(packet, i)
        invariant forall j :: |packet| - 2 <= j < i && 0 <= j ==> High(packet[j])
      {
        if !High(packet[i]) && High(packet[i + 1]) && High(packet[i + 2]) {
          NoOverlap(packet, i);
          found := found + [Packet(packet[i], packet[i + 1], packet[i + 2])];
          i := i + 3;
        } else {
          i := i + 1;
        }
      }
    }

    method SaveTail(packet: seq<Byte>, i: int)
      requires saved.Length == 2 && 0 <= i <= |packet| <= i + 2
      modifies saved
      ensures forall j :: 0 <= j < |packet| - i ==> saved[j] == packet[i..][j]
    {
      var j := 0;
      while j < |packet| - i
        invariant 0 <= j <= |packet| - i
        invariant forall l :: 0 <= l < j ==> saved[l] == packet[i + l]
      {
        saved[j] := packet[i + j];
        j := j + 1;
      }
    }

    /** Write bytes out: queue what fits, wake the driver, and return the number of bytes not accepted. */
    method Put(src: seq<Byte>, room: int) returns (left: int, out: seq<Byte>)
      requires Valid()
      modifies this`queued, this`sent, tx, tx.buf
      ensures Valid()
      ensures left == |src| - Min(|src|, CAPACITY - |old(tx.contents)|)
      ensures queued == old(queued) + src[..|src| - left] && sent == old(sent) + out
    {
      var taken := tx.Accept(src);
      queued := queued + src[..taken];
      assert queued == sent + tx.contents;
      left := |src| - taken;
      out := WriteWakeup(room);
    }

    /** Hand queued bytes to the driver; the loop stops only after one byte more than the announced room. */
    method WriteWakeup(room: int) returns (out: seq<Byte>)
      requires Valid()
      modifies this`sent, tx`start, tx`contents
      ensures Valid()
      ensures sent == old(sent) + out
      ensures |out| == Min(Max(room + 1, 0), |old(tx.contents)|)
    {
      out := tx.Take(room + 1);
      sent := sent + out;
    }
  }
}
