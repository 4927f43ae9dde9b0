/**
 * Framing of packets on a TCP connection: every packet is preceded by its length in two bytes, and the
 * receiver cuts the byte stream, which arrives in arbitrary pieces, back into packets.
 */
module TcpLink {
  import opened Sequences
  import opened Bytes

  /** Length of an Ethernet header; shorter packets are discarded by the receiver. */
  const ETHERNET_HEADER_LENGTH := 14

  /** The length is stored in a 16-bit integer, so larger lengths wrap around. */
  function Delimiter(length: nat): (r: seq<byte>)
    ensures |r| == 2
  {
    var size := length % 65536;
    [size / 256, size % 256]
  }

  function Framed(packet: seq<byte>): (r: seq<byte>)
    ensures |r| == |packet| + 2
  {
    Delimiter(|packet|) + packet
  }

  /** What a sender writes for a list of packets. */
  function Stream(packets: seq<seq<byte>>): seq<byte> {
    if packets == [] then [] else Framed(packets[0]) + Stream(packets[1..])
  }

  function NextSize(store: seq<byte>): nat {
    if |store| >= 2 then Word(store[0], store[1]) else 0
  }

  function Word(high: int, low: int): int {
    high * 256 + low
  }

  /** Length of the first frame, its delimiter included. */
  function FrameLength(store: seq<byte>): (n: nat)
    ensures n >= 2
  {
    NextSize(store) + 2
  }

  /** The complete packets at the beginning of a byte sequence. */
  function Packets(store: seq<byte>): seq<seq<byte>> {
    var n := FrameLength(store);
    if |store| < n then [] else [store[2..n]] + Packets(store[n..])
  }

  /** What follows the complete packets. */
  function Rest(store: seq<byte>): seq<byte> {
    var n := FrameLength(store);
    if |store| < n then store else Rest(store[n..])
  }

  datatype Status = Undefined | Connected | Accepting | Error

  /** The packets that can contain an Ethernet header. */
  function LongEnough(packets: seq<seq<byte>>): seq<seq<byte>> {
    if packets == [] then []
    else
      var p := packets[|packets| - 1];
      LongEnough(packets[..|packets| - 1]) + if |p| < ETHERNET_HEADER_LENGTH then [] else [p]
  }

  lemma {:induction false} LongEnoughAppend(packets: seq<seq<byte>>, p: seq<byte>)
    ensures LongEnough(packets + [p]) == LongEnough(packets) + if |p| < ETHERNET_HEADER_LENGTH then [] else [p]
  {
    TakeInit(packets, p);
  }

  /** The delimiter is the length in network byte order. */
  lemma {:induction false} DelimiterIsLength(length: nat)
    ensures Delimiter(length) == Digits(length % 65536, 2, false)
  {
    var v := length % 65536;
    assert Digits(v / 256, 1, false) == [v / 256];
  }

  lemma {:induction false} LongEnoughConcat(a: seq<seq<byte>>, b: seq<seq<byte>>)
    ensures LongEnough(a + b) == LongEnough(a) + LongEnough(b)
    decreases |b|
  {
    if b == [] {
      AddNothing(a);
      AddNothing(LongEnough(a));
    } else {
      var (c, p) := (b[..|b| - 1], b[|b| - 1]);
      LongEnoughConcat(a, c);
      assert b == c + [p];
      Assoc(a, c, [p]);
      LongEnoughAppend(a + c, p);
      LongEnoughAppend(c, p);
      Assoc(LongEnough(a), LongEnough(c), if |p| < ETHERNET_HEADER_LENGTH then [] else [p]);
    }
  }

  /** Exactly the packets of at least 14 bytes are indicated. */
  lemma {:induction false} LongEnoughIs(packets: seq<seq<byte>>, p: seq<byte>)
    ensures multiset(LongEnough(packets))[p] == if |p| >= 14 then multiset(packets)[p] else 0
    decreases |packets|
  {
    if packets != [] {
      var n := |packets| - 1;
      LongEnoughIs(packets[..n], p);
      assert packets == packets[..n] + [packets[n]];
    }
  }

  // ---------------------------------------------------------------- independence of pieces

  /** Packets passed up while several pieces are received one after the other. */
  function Delivered(store: seq<byte>, pieces: seq<seq<byte>>): seq<seq<byte>>
    decreases |pieces|
  {
    if pieces == [] then []
    else Packets(store + pieces[0]) + Delivered(Rest(store + pieces[0]), pieces[1..])
  }

  /** Bytes stored after several pieces have been received. */
  function Kept(store: seq<byte>, pieces: seq<seq<byte>>): seq<byte>
    decreases |pieces|
  {
    if pieces == [] then store else Kept(Rest(store + pieces[0]), pieces[1..])
  }

  function Joined(pieces: seq<seq<byte>>): seq<byte> {
    if pieces == [] then [] else pieces[0] + Joined(pieces[1..])
  }

  lemma {:induction false} FirstFrame(a: seq<byte>, b: seq<byte>, n: nat)
    requires n == FrameLength(a) <= |a|
    ensures FrameLength(a + b) == n
    ensures (a + b)[2..n] == a[2..n] && (a + b)[n..] == a[n..] + b
  {
  }

  /** Cutting can be interrupted anywhere and resumed with what was left over. */
  lemma {:induction false} CutResumes(a: seq<byte>, b: seq<byte>)
    ensures Packets(a + b) == Packets(a) + Packets(Rest(a) + b)
    ensures Rest(a + b) == Rest(Rest(a) + b)
    decreases |a|
  {
    var n := FrameLength(a);
    if |a| < n {
      AddNothing(Packets(a + b));
    } else {
      FirstFrame(a, b, n);
      CutResumes(a[n..], b);
      Assoc([a[2..n]], Packets(a[n..]), Packets(Rest(a) + b));
    }
  }

  lemma {:induction false} RestIsCut(a: seq<byte>)
    ensures Packets(Rest(a)) == [] && Rest(Rest(a)) == Rest(a)
    decreases |a|
  {
    if |a| >= FrameLength(a) {
      RestIsCut(a[FrameLength(a)..]);
    }
  }

  /** Only the bytes matter, not the pieces in which they arrive. */
  lemma {:induction false} PiecesDoNotMatter(store: seq<byte>, pieces: seq<seq<byte>>)
    requires Packets(store) == [] && Rest(store) == store
    ensures Delivered(store, pieces) == Packets(store + Joined(pieces))
    ensures Kept(store, pieces) == Rest(store + Joined(pieces))
    decreases |pieces|
  {
    if pieces == [] {
      AddNothing(store);
    } else {
      var (s, more) := (store + pieces[0], Joined(pieces[1..]));
      RestIsCut(s);
      PiecesDoNotMatter(Rest(s), pieces[1..]);
      CutResumes(s, more);
      Assoc(store, pieces[0], more);
    }
  }

  // ---------------------------------------------------------------- round trip

  ghost predicate Fits(packet: seq<byte>) {
    |packet| <= 65535
  }

  ghost predicate AllFit(packets: seq<seq<byte>>) {
    forall i :: 0 <= i < |packets| ==> Fits(packets[i])
  }

  lemma {:induction false} FrameOf(packet: seq<byte>, tail: seq<byte>, s: seq<byte>)
    requires s == Framed(packet) + tail
    ensures FrameLength(s) == |packet| % 65536 + 2
    ensures s[2..|packet| + 2] == packet && s[|packet| + 2..] == tail
  {
  }

  lemma {:induction false} CutOne(s: seq<byte>, n: nat)
    requires n == FrameLength(s) <= |s|
    ensures Packets(s) == [s[2..n]] + Packets(s[n..]) && Rest(s) == Rest(s[n..])
  {
  }

  /** A packet that fits comes out as it went in, whatever follows it. */
  lemma {:induction false} CutFramed(packet: seq<byte>, tail: seq<byte>)
    requires Fits(packet)
    ensures Packets(Framed(packet) + tail) == [packet] + Packets(tail)
    ensures Rest(Framed(packet) + tail) == Rest(tail)
  {
    var s := Framed(packet) + tail;
    FrameOf(packet, tail, s);
    CutOne(s, |packet| + 2);
  }

  /** The packets complete within the first k bytes of a stream. */
  function Complete(packets: seq<seq<byte>>, k: nat): (j: nat)
    ensures j <= |packets|
  {
    if packets == [] || k < |packets[0]| + 2 then 0 else 1 + Complete(packets[1..], k - (|packets[0]| + 2))
  }

  lemma {:induction false} CompleteIsExact(packets: seq<seq<byte>>, k: nat)
    ensures var j := Complete(packets, k);
            && |Stream(packets[..j])| <= k
            && (j < |packets| ==> k < |Stream(packets[..j + 1])|)
    decreases |packets|
  {
    if packets != [] {
      var j := Complete(packets, k);
      if j > 0 {
        CompleteIsExact(packets[1..], k - (|packets[0]| + 2));
        PrefixLength(packets, j);
      }
      if j < |packets| {
        PrefixLength(packets, j + 1);
      }
    }
  }

  lemma {:induction false} PrefixLength(packets: seq<seq<byte>>, j: nat)
    requires 0 < j <= |packets|
    ensures |Stream(packets[..j])| == |packets[0]| + 2 + |Stream(packets[1..][..j - 1])|
  {
    assert packets[..j][1..] == packets[1..][..j - 1];
  }

  lemma {:induction false} PrefixCons(s: seq<byte>, t: seq<byte>, k: nat)
    requires |s| <= k <= |s + t|
    ensures (s + t)[..k] == s + t[..k - |s|]
  {
  }

  /** A stream cut behind its first packet. */
  lemma {:induction false} CutBehind(p: seq<byte>, more: seq<byte>, i: nat, k: nat)
    requires Fits(p) && k == |p| + 2 + i && i <= |more|
    ensures (Framed(p) + more)[..k] == Framed(p) + more[..i]
    ensures Packets((Framed(p) + more)[..k]) == [p] + Packets(more[..i])
    ensures Rest((Framed(p) + more)[..k]) == Rest(more[..i])
  {
    PrefixCons(Framed(p), more, k);
    CutFramed(p, more[..i]);
  }

  lemma {:induction false} CompleteCons(packets: seq<seq<byte>>, k: nat, i: nat)
    requires packets != [] && k == |packets[0]| + 2 + i
    ensures packets[..Complete(packets, k)] == [packets[0]] + packets[1..][..Complete(packets[1..], i)]
  {
  }

  lemma {:induction false} CutsPrefix(packets: seq<seq<byte>>, k: nat)
    requires AllFit(packets) && k <= |Stream(packets)|
    ensures Packets(Stream(packets)[..k]) == packets[..Complete(packets, k)]
    decreases |packets|
  {
    if packets == [] {
      assert Stream(packets)[..k] == [];
    } else {
      var (p, rest) := (packets[0], packets[1..]);
      if k < |p| + 2 {
        TooShort(p, Stream(rest), k);
      } else {
        var i := k - (|p| + 2);
        CutsPrefix(rest, i);
        CutBehind(p, Stream(rest), i, k);
        CompleteCons(packets, k, i);
      }
    }
  }

  /** The bytes of the complete packets. */
  function Taken(packets: seq<seq<byte>>, k: nat): (n: nat)
    ensures n <= k
  {
    if packets == [] || k < |packets[0]| + 2 then 0
    else |packets[0]| + 2 + Taken(packets[1..], k - (|packets[0]| + 2))
  }

  lemma {:induction false} TakenIs(packets: seq<seq<byte>>, k: nat)
    ensures Taken(packets, k) == |Stream(packets[..Complete(packets, k)])|
    decreases |packets|
  {
    if packets != [] && k >= |packets[0]| + 2 {
      TakenIs(packets[1..], k - (|packets[0]| + 2));
      PrefixLength(packets, Complete(packets, k));
    }
  }

  /** Whatever is cut off plus the rest is the input again, if the lengths are right. */
  lemma {:induction false} RestOfPrefix(packets: seq<seq<byte>>, k: nat)
    requires AllFit(packets) && k <= |Stream(packets)|
    ensures Rest(Stream(packets)[..k]) == Stream(packets)[..k][Taken(packets, k)..]
    decreases |packets|
  {
    if packets == [] {
      assert Stream(packets)[..k] == [];
    } else {
      var (p, more) := (packets[0], Stream(packets[1..]));
      if k < |p| + 2 {
        TooShort(p, more, k);
        assert (Framed(p) + more)[..k][0..] == (Framed(p) + more)[..k];
      } else {
        var i := k - (|p| + 2);
        RestOfPrefix(packets[1..], i);
        RestBehind(p, more, i, k, Taken(packets[1..], i));
      }
    }
  }

  lemma {:induction false} RestBehind(p: seq<byte>, more: seq<byte>, i: nat, k: nat, n: nat)
    requires Fits(p) && k == |p| + 2 + i && n <= i <= |more| && Rest(more[..i]) == more[..i][n..]
    ensures Rest((Framed(p) + more)[..k]) == (Framed(p) + more)[..k][|p| + 2 + n..]
  {
    CutBehind(p, more, i, k);
    DropBoth(Framed(p), more[..i], n);
  }

  lemma {:induction false} DropBoth(s: seq<byte>, t: seq<byte>, n: nat)
    requires n <= |t|
    ensures (s + t)[|s| + n..] == t[n..]
  {
  }

  lemma {:induction false} TooShort(p: seq<byte>, tail: seq<byte>, k: nat)
    requires Fits(p) && k < |p| + 2
    ensures Packets((Framed(p) + tail)[..k]) == [] && Rest((Framed(p) + tail)[..k]) == (Framed(p) + tail)[..k]
  {
    var s := (Framed(p) + tail)[..k];
    FrameOf(p, tail, Framed(p) + tail);
    if k >= 2 {
      assert s[0] == (Framed(p) + tail)[0] && s[1] == (Framed(p) + tail)[1];
    }
  }

  /**
   * When the first k bytes of a stream have arrived, in whatever pieces, exactly the packets that are
   * complete by then have been passed up, in order, and the undelivered bytes are stored.
   */
  lemma {:induction false} DeliversCompletePackets(packets: seq<seq<byte>>, k: nat, pieces: seq<seq<byte>>)
    requires AllFit(packets)
    requires k <= |Stream(packets)| && Joined(pieces) == Stream(packets)[..k]
    ensures var j := Complete(packets, k);
            && |Stream(packets[..j])| <= k
            && (j < |packets| ==> k < |Stream(packets[..j + 1])|)
            && Delivered([], pieces) == packets[..j]
            && Kept([], pieces) == Joined(pieces)[|Stream(packets[..j])|..]
  {
    PiecesDoNotMatter([], pieces);
    AddNothing(Joined(pieces));
    CompleteIsExact(packets, k);
    CutsPrefix(packets, k);
    RestOfPrefix(packets, k);
    TakenIs(packets, k);
  }

  /** The round trip works for exactly those lists in which every packet fits the 16-bit length. */
  lemma {:induction false} RoundTrip(packets: seq<seq<byte>>)
    ensures Packets(Stream(packets)) == packets && Rest(Stream(packets)) == [] <==> AllFit(packets)
    decreases |packets|
  {
    if packets != [] {
      var (p, rest) := (packets[0], packets[1..]);
      RoundTrip(rest);
      assert packets == [p] + rest;
      if Fits(p) {
        CutFramed(p, Stream(rest));
        assert AllFit(packets) <==> AllFit(rest);
        assert ([p] + Packets(Stream(rest)))[1..] == Packets(Stream(rest));
      } else {
        Overlong(p, Stream(rest));
      }
    }
  }

  lemma {:induction false} Overlong(p: seq<byte>, tail: seq<byte>)
    requires !Fits(p)
    ensures Packets(Framed(p) + tail) != [] && Packets(Framed(p) + tail)[0] != p
  {
    var s := Framed(p) + tail;
    FrameOf(p, tail, s);
    assert |s[2..FrameLength(s)]| == |p| % 65536;
  }

  class Socket {
    var status: Status
    var store: seq<byte>
    ghost var passed: seq<seq<byte>>
    var indicated: seq<seq<byte>>

    constructor ()
      ensures status == Undefined && store == [] && passed == [] && indicated == []
    {
      status, store, passed, indicated := Undefined, [], [], [];
    }

    /** A piece of the stream arrives, or the connection fails. */
    method ReceiveHandler(failed: bool, piece: seq<byte>)
      modifies this
      ensures failed ==> status == Error && store == old(store) && passed == old(passed) && indicated == old(indicated)
      ensures !failed ==> status == Connected
      ensures !failed ==> store == Rest(old(store) + piece)
      ensures !failed ==> passed == old(passed) + Packets(old(store) + piece)
      ensures !failed ==> indicated == old(indicated) + LongEnough(Packets(old(store) + piece))
    {
      if failed {
        status := Error;
        return;
      }
      status := Connected;
      store := store + piece;
      ghost var all := store;
      ghost var done := [];
      while |store| >= FrameLength(store)
        invariant Packets(all) == done + Packets(store) && Rest(all) == Rest(store)
        invariant passed == old(passed) + done
        invariant indicated == old(indicated) + LongEnough(done)
        invariant status == Connected
        decreases |store|
      {
        var n := FrameLength(store);
        PassUp(store[2..n]);
        LongEnoughAppend(done, store[2..n]);
        Assoc(done, [store[2..n]], Packets(store[n..]));
        done := done + [store[2..n]];
        store := store[n..];
      }
      AddNothing(done);
    }

    method PassUp(packet: seq<byte>)
      modifies this`passed, this`indicated
      ensures passed == old(passed) + [packet]
      ensures indicated == old(indicated) + if |packet| < ETHERNET_HEADER_LENGTH then [] else [packet]
    {
      passed := passed + [packet];
      if |packet| >= ETHERNET_HEADER_LENGTH {
        indicated := indicated + [packet];
      }
    }
  }
}
