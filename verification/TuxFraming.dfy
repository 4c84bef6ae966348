/**
 * Framing of the Tux controller's byte stream. A packet is three bytes whose high bits are 0, 1, 1; the
 * reference reading of a stream is the list of the packets at all of its positions, in order.
 */
module TuxFraming {
  type Byte = x: int | 0 <= x < 256

  datatype Packet = Packet(a: Byte, b: Byte, c: Byte)

  predicate High(x: Byte) { x >= 0x80 }

  /** A packet starts at position i. */
  predicate FrameAt(s: seq<Byte>, i: int) {
    0 <= i && i + 3 <= |s| && !High(s[i]) && High(s[i + 1]) && High(s[i + 2])
  }

  function PacketAt(s: seq<Byte>, i: int): Packet
    requires FrameAt(s, i)
  {
    Packet(s[i], s[i + 1], s[i + 2])
  }

  /** The packets that start before position k. */
  function PacketsBefore(s: seq<Byte>, k: nat): seq<Packet> {
    if k == 0 then []
    else PacketsBefore(s, k - 1) + if FrameAt(s, k - 1) then [PacketAt(s, k - 1)] else []
  }

  function Packets(s: seq<Byte>): seq<Packet> { PacketsBefore(s, |s|) }

  /** The start positions before k, in order. */
  function StartsBefore(s: seq<Byte>, k: nat): seq<nat> {
    if k == 0 then [] else StartsBefore(s, k - 1) + if FrameAt(s, k - 1) then [k - 1] else []
  }

  /** The starts are exactly the positions where a packet starts, each once, in increasing order. */
  lemma {:induction false} StartsAreExact(s: seq<Byte>, k: nat)
    ensures forall i :: i in StartsBefore(s, k) <==> 0 <= i < k && FrameAt(s, i)
    ensures forall j, l :: 0 <= j < l < |StartsBefore(s, k)| ==> StartsBefore(s, k)[j] < StartsBefore(s, k)[l]
  {
    if k > 0 {
      StartsAreExact(s, k - 1);
      var before := StartsBefore(s, k - 1);
      assert forall j :: 0 <= j < |before| ==> before[j] in before;
    }
  }

  /** The packet list holds exactly one entry for each start, in stream order. */
  lemma {:induction false} PacketsAreExact(s: seq<Byte>, k: nat)
    ensures |PacketsBefore(s, k)| == |StartsBefore(s, k)|
    ensures forall j :: 0 <= j < |StartsBefore(s, k)| ==>
              FrameAt(s, StartsBefore(s, k)[j]) && PacketsBefore(s, k)[j] == PacketAt(s, StartsBefore(s, k)[j])
  {
    if k > 0 {
      PacketsAreExact(s, k - 1);
    }
  }

  /** Positions whose three bytes are already there keep their verdict when more bytes arrive. */
  lemma {:induction false} PacketsStable(s: seq<Byte>, more: seq<Byte>, k: nat)
    requires forall i :: 0 <= i < k && i + 3 > |s| ==> !FrameAt(s + more, i)
    ensures PacketsBefore(s + more, k) == PacketsBefore(s, k)
  {
    if k > 0 {
      PacketsStable(s, more, k - 1);
      if k + 2 <= |s| {
        assert (s + more)[..|s|] == s;
        assert FrameAt(s + more, k - 1) == FrameAt(s, k - 1);
      } else {
        assert !FrameAt(s + more, k - 1);
      }
    }
  }

  /** Reading on from a position is reading the rest of the stream. */
  lemma {:induction false} PacketsOfRest(s: seq<Byte>, base: nat, k: nat)
    requires base <= |s|
    ensures PacketsBefore(s, base + k) == PacketsBefore(s, base) + PacketsBefore(s[base..], k)
  {
    if k > 0 {
      PacketsOfRest(s, base, k - 1);
      assert FrameAt(s[base..], k - 1) == FrameAt(s, base + k - 1);
    }
  }

  /** Nothing incomplete is a packet, so the last two positions never matter. */
  lemma {:induction false} NothingAtTheEnd(s: seq<Byte>, k: nat)
    requires |s| <= k + 2 && k <= |s|
    ensures PacketsBefore(s, k) == Packets(s)
    decreases |s| - k
  {
    if k < |s| {
      NothingAtTheEnd(s, k + 1);
      assert !FrameAt(s, k);
    }
  }

  /** The one-shot scan of a whole stream that skips three bytes after a packet and one otherwise. */
  function Scan(s: seq<Byte>, i: nat): seq<Packet>
    decreases |s| - i
  {
    if i + 3 > |s| then []
    else if FrameAt(s, i) then [PacketAt(s, i)] + Scan(s, i + 3)
    else Scan(s, i + 1)
  }

  /** Inside a packet no other packet starts. */
  lemma NoOverlap(s: seq<Byte>, i: nat)
    requires FrameAt(s, i)
    ensures !FrameAt(s, i + 1) && !FrameAt(s, i + 2)
    ensures PacketsBefore(s, i + 3) == PacketsBefore(s, i) + [PacketAt(s, i)]
  {
    assert PacketsBefore(s, i + 2) == PacketsBefore(s, i + 1);
  }

  lemma Regroup(a: seq<Packet>, x: Packet, b: seq<Packet>)
    ensures a + ([x] + b) == (a + [x]) + b
  {
  }

  /** Skipping after a match misses nothing: the scan finds the packets of all positions. */
  lemma {:induction false} ScanFindsAll(s: seq<Byte>, i: nat)
    requires i <= |s|
    ensures PacketsBefore(s, i) + Scan(s, i) == Packets(s)
    decreases |s| - i
  {
    if i + 3 > |s| {
      NothingAtTheEnd(s, i);
    } else if FrameAt(s, i) {
      NoOverlap(s, i);
      ScanFindsAll(s, i + 3);
      Regroup(PacketsBefore(s, i), PacketAt(s, i), Scan(s, i + 3));
    } else {
      ScanFindsAll(s, i + 1);
      assert PacketsBefore(s, i + 1) == PacketsBefore(s, i);
    }
  }

  /** Holding back at most two bytes loses nothing: the packets before the tail are those of the whole stream. */
  lemma HeldBackTail(s: seq<Byte>, kept: nat)
    requires kept <= 2 && kept <= |s|
    ensures PacketsBefore(s, |s| - kept) == Packets(s) == Scan(s, 0)
  {
    NothingAtTheEnd(s, |s| - kept);
    ScanFindsAll(s, 0);
    assert PacketsBefore(s, 0) == [];
  }

  /** The bytes before the kept tail that lie in the last two positions all have their high bit set. */
  predicate TailSafe(h: seq<Byte>, kept: int)
    requires 0 <= kept <= |h|
  {
    forall j :: |h| - 2 <= j < |h| - kept && 0 <= j ==> High(h[j])
  }

  /** History h has been framed into packets p except for a tail of at most two bytes. */
  predicate Framed(h: seq<Byte>, tail: seq<Byte>, p: seq<Packet>) {
    && |tail| <= 2 && |tail| <= |h|
    && tail == h[|h| - |tail|..]
    && TailSafe(h, |tail|)
    && p == PacketsBefore(h, |h| - |tail|)
  }

  /** Resuming at the kept tail: the bytes before it cannot begin a packet, however the stream goes on. */
  lemma ContinueAfterTail(h: seq<Byte>, got: seq<Byte>, kept: nat)
    requires kept <= 2 && kept <= |h| && TailSafe(h, kept)
    ensures PacketsBefore(h + got, |h| - kept) == PacketsBefore(h, |h| - kept)
  {
    PacketsStable(h, got, |h| - kept);
  }

  lemma TailStaysSafe(h: seq<Byte>, got: seq<Byte>, base: nat, i: nat)
    requires base <= |h| && |h| <= base + 2 && TailSafe(h, |h| - base)
    requires base + i <= |h + got| <= base + i + 2 && TailSafe((h + got)[base..], |h + got| - base - i)
    ensures TailSafe(h + got, |h + got| - base - i)
  {
    var h' := h + got;
    forall j | |h'| - 2 <= j < base + i && 0 <= j
      ensures High(h'[j])
    {
      if j >= base {
        assert h'[j] == h'[base..][j - base];
      } else {
        assert h'[j] == h[j];
      }
    }
  }

  /** Scanning the kept tail and the new bytes up to i continues the framing of the history. */
  lemma FramedStep(h: seq<Byte>, tail: seq<Byte>, p: seq<Packet>, got: seq<Byte>, i: nat)
    requires Framed(h, tail, p)
    requires i <= |tail + got| <= i + 2 && TailSafe(tail + got, |tail + got| - i)
    ensures Framed(h + got, (tail + got)[i..], p + PacketsBefore(tail + got, i))
  {
    var base := |h| - |tail|;
    assert (h + got)[base..] == tail + got;
    ContinueAfterTail(h, got, |tail|);
    PacketsOfRest(h + got, base, i);
    TailStaysSafe(h, got, base, i);
    assert (h + got)[base + i..] == (tail + got)[i..];
  }

  /** Whatever has been framed is what the one-shot scan of the whole history finds. */
  lemma FramedIsOneShot(h: seq<Byte>, tail: seq<Byte>, p: seq<Packet>)
    requires Framed(h, tail, p)
    ensures p == Packets(h) == Scan(h, 0)
  {
    HeldBackTail(h, |tail|);
  }

  // ------------------------------------------------------------ the framer over arbitrary chunks

  /** What the framer keeps between calls. */
  datatype Framer = Framer(tail: seq<Byte>, packets: seq<Packet>)

  /** Where the scan of a work buffer stops: three on after a packet, one on otherwise, until two bytes are left. */
  function ScanStop(packet: seq<Byte>, i: nat): (stop: nat)
    requires i <= |packet|
    ensures i <= stop <= |packet| <= stop + 2 || (stop == i && |packet| <= i + 2)
    decreases |packet| - i
  {
    if i + 2 >= |packet| then i
    else if FrameAt(packet, i) then ScanStop(packet, i + 3)
    else ScanStop(packet, i + 1)
  }

  function Feed(f: Framer, got: seq<Byte>): Framer {
    var packet := f.tail + got;
    var i := ScanStop(packet, 0);
    Framer(packet[i..], f.packets + PacketsBefore(packet, i))
  }

  /** A step folded over chunks. */
  function Fold<F>(step: (F, seq<Byte>) -> F, f: F, chunks: seq<seq<Byte>>): F
    decreases |chunks|
  {
    if chunks == [] then f else Fold(step, step(f, chunks[0]), chunks[1..])
  }

  function FeedAll(f: Framer, chunks: seq<seq<Byte>>): Framer { Fold(Feed, f, chunks) }

  function Flatten(chunks: seq<seq<Byte>>): seq<Byte> {
    if chunks == [] then [] else chunks[0] + Flatten(chunks[1..])
  }

  lemma {:induction false} ScanStopSafe(packet: seq<Byte>, i: nat)
    requires i <= |packet|
    requires forall j :: |packet| - 2 <= j < i && 0 <= j ==> High(packet[j])
    ensures TailSafe(packet, |packet| - ScanStop(packet, i))
    decreases |packet| - i
  {
    if i + 2 < |packet| {
      ScanStopSafe(packet, if FrameAt(packet, i) then i + 3 else i + 1);
    }
  }

  /** Feeding a chunk keeps the framing invariant of the history. */
  lemma FeedKeepsFraming(f: Framer, h: seq<Byte>, got: seq<Byte>)
    requires Framed(h, f.tail, f.packets)
    ensures Framed(h + got, Feed(f, got).tail, Feed(f, got).packets)
  {
    ScanStopSafe(f.tail + got, 0);
    FramedStep(h, f.tail, f.packets, got, ScanStop(f.tail + got, 0));
  }

  /** A relation between history and state that every chunk keeps is kept by every sequence of chunks. */
  lemma {:induction false} FoldKeeps<F(!new)>(
      step: (F, seq<Byte>) -> F, inv: (seq<Byte>, F) -> bool, f: F, h: seq<Byte>, chunks: seq<seq<Byte>>)
    requires inv(h, f)
    requires forall g: F, k: seq<Byte>, c: seq<Byte> | inv(k, g) :: inv(k + c, step(g, c))
    ensures inv(h + Flatten(chunks), Fold(step, f, chunks))
    decreases |chunks|
  {
    if chunks == [] {
      assert h + Flatten(chunks) == h;
    } else {
      FoldKeeps(step, inv, step(f, chunks[0]), h + chunks[0], chunks[1..]);
      assert h + Flatten(chunks) == (h + chunks[0]) + Flatten(chunks[1..]);
    }
  }

  predicate FramedBy(h: seq<Byte>, f: Framer) { Framed(h, f.tail, f.packets) }

  /**
   * However a stream is cut into chunks, the packets found are those of the stream read in one piece, and
   * at most two bytes are held back.
   */
  lemma ChunkingDoesNotMatter(chunks: seq<seq<Byte>>)
    ensures FeedAll(Framer([], []), chunks).packets == Packets(Flatten(chunks)) == Scan(Flatten(chunks), 0)
    ensures |FeedAll(Framer([], []), chunks).tail| <= 2
  {
    forall g: Framer, k: seq<Byte>, c: seq<Byte> | FramedBy(k, g)
      ensures FramedBy(k + c, Feed(g, c))
    {
      FeedKeepsFraming(g, k, c);
    }
    FoldKeeps(Feed, FramedBy, Framer([], []), [], chunks);
    assert [] + Flatten(chunks) == Flatten(chunks);
    var g := FeedAll(Framer([], []), chunks);
    FramedIsOneShot(Flatten(chunks), g.tail, g.packets);
  }
}
