/**
 Packing encoded SBC frames into RTP packets (`a2dp_write` and `avdtp_write` in
 `audio/liba2dp.c`). The encoder is outside: each call takes a block of PCM and leaves one frame.
 */
module A2dpPacketiser {
  import opened Bytes
  import opened Sequences
  import opened Arithmetic

  const BUFFER_SIZE: nat := 2048
  const RTP_HEADER: nat := 12
  const MAX_FRAMES: nat := 15

  type Frame = seq<byte>

  /** What `avdtp_write` puts before the frames: RTP header, protection octet when there is one, frame count. */
  function Header(seqNum: u16, timestamp: nat, cp: Option<byte>, frames: nat): (r: seq<byte>)
    requires frames <= MAX_FRAMES
    ensures |r| == HeaderSize(cp)
  {
    [0x80, 0x01] + BigEndian(seqNum, 2) + BigEndian(timestamp, 4) + BigEndian(1, 4)
    + (if cp.Some? then [cp.value] else []) + [frames]
  }

  function HeaderSize(cp: Option<byte>): nat {
    RTP_HEADER + (if cp.Some? then 1 else 0) + 1
  }

  /** The fields of section 5.1 of RFC 3550 as a receiver reads them. */
  lemma HeaderFields(seqNum: u16, timestamp: nat, cp: Option<byte>, frames: nat, payload: seq<byte>)
    requires frames <= MAX_FRAMES && timestamp < 0x1_0000_0000
    ensures var p := Header(seqNum, timestamp, cp, frames) + payload;
            && p[0] == 0x80 && p[1] == 0x01 && (cp.Some? ==> p[RTP_HEADER] == cp.value)
            && FromBigEndian(p[2..4]) == seqNum && FromBigEndian(p[4..8]) == timestamp && FromBigEndian(p[8..12]) == 1
            && p[HeaderSize(cp) - 1] == frames && p[HeaderSize(cp)..] == payload
  {
    var p := Header(seqNum, timestamp, cp, frames) + payload;
    assert p[2..4] == BigEndian(seqNum, 2) && p[4..8] == BigEndian(timestamp, 4) && p[8..12] == BigEndian(1, 4);
    assert Pow256(2) == 0x1_0000 && Pow256(4) == 0x1_0000_0000 by {
      assert Pow256(1) == 256 * Pow256(0) && Pow256(3) == 256 * Pow256(2);
    }
    BigEndianRoundTrip(seqNum, 2);
    BigEndianRoundTrip(timestamp, 4);
    BigEndianRoundTrip(1, 4);
  }

  /** A packet handed to the socket, with the frames it carries; `sent` says whether `send` took it. */
  datatype Packet = Packet(bytes: seq<byte>, frames: seq<Frame>, sent: bool)

  function AllFrames(log: seq<Packet>): seq<Frame> {
    if log == [] then [] else AllFrames(log[..|log| - 1]) + log[|log| - 1].frames
  }

  function Minimum(a: nat, b: nat): nat { if a < b then a else b }

  /** The 32-bit time stamp after `n` frames of `per` samples. */
  function Stamp(n: nat, per: nat): nat {
    n * per % 0x1_0000_0000
  }

  /** Packet number `i`: size, frame count, sequence number and time stamp. */
  ghost predicate PacketOk(log: seq<Packet>, i: nat, mtu: nat, cp: Option<byte>, perFrame: nat)
    requires i < |log|
  {
    var p := log[i];
    && 1 <= |p.frames| <= MAX_FRAMES
    && |p.bytes| <= Minimum(mtu, BUFFER_SIZE)
    && p.bytes == Header(i % 0x1_0000, Stamp(|AllFrames(log[..i + 1])|, perFrame), cp, |p.frames|) + Joined(p.frames)
  }

  ghost predicate LogOk(log: seq<Packet>, mtu: nat, cp: Option<byte>, perFrame: nat) {
    forall i | 0 <= i < |log| :: PacketOk(log, i, mtu, cp, perFrame)
  }

  lemma LogSnoc(log: seq<Packet>, p: Packet, mtu: nat, cp: Option<byte>, perFrame: nat)
    requires LogOk(log, mtu, cp, perFrame)
    requires PacketOk(log + [p], |log|, mtu, cp, perFrame)
    ensures LogOk(log + [p], mtu, cp, perFrame)
  {
    hide Header, Stamp, AllFrames, Joined;
    var l := log + [p];
    forall i | 0 <= i < |l| ensures PacketOk(l, i, mtu, cp, perFrame) {
      if i < |log| {
        assert PacketOk(log, i, mtu, cp, perFrame);
        assert l[..i + 1] == log[..i + 1];
      }
    }
  }

  /** A packet with everything encoded so far that was not packed before continues the log. */
  lemma NewPacket(log: seq<Packet>, p: Packet, encoded: seq<Frame>, mtu: nat, cp: Option<byte>, perFrame: nat)
    requires LogOk(log, mtu, cp, perFrame) && encoded == AllFrames(log) + p.frames
    requires 1 <= |p.frames| <= MAX_FRAMES && |p.bytes| <= Minimum(mtu, BUFFER_SIZE)
    requires p.bytes == Header(|log| % 0x1_0000, Stamp(|encoded|, perFrame), cp, |p.frames|) + Joined(p.frames)
    ensures LogOk(log + [p], mtu, cp, perFrame) && AllFrames(log + [p]) == encoded
  {
    hide LogOk, Header, Stamp;
    var l := log + [p];
    assert l[..|log| + 1] == l && l[..|log|] == log;
    LogSnoc(log, p, mtu, cp, perFrame);
  }

  lemma StampNext(n: nat, per: nat)
    ensures Stamp(0, per) == 0
    ensures (Stamp(n, per) + per) % 0x1_0000_0000 == Stamp(n + 1, per)
  {
    var m := 0x1_0000_0000;
    assert (n + 1) * per == n * per + per;
    var q, r := n * per / m, n * per % m;
    var q', r' := (r + per) / m, (r + per) % m;
    assert n * per == q * m + r && r + per == q' * m + r';
    assert n * per + per == (q + q') * m + r' by { assert (q + q') * m == q * m + q' * m; }
    DivModUnique(n * per + per, m, q + q', r');
  }

  /** The parts of `struct bluetooth_data` that pack frames. */
  class Packetiser {
    const buffer: array<byte>
    const linkMtu: nat
    const codesize: nat            // octets of PCM in a block
    const frameLength: nat         // octets of an encoded frame
    const cp: Option<byte>         // protection octet, when content protection is on
    var count: nat
    var frameCount: nat
    var nsamples: nat
    var seqNum: u16
    ghost var encoded: seq<Frame>  // every frame encoded since the start
    ghost var pending: seq<Frame>  // those still in the buffer
    ghost var log: seq<Packet>

    /** A packet with one frame fits in the link MTU and in the buffer. */
    predicate Fits()
      reads this
    {
      && HeaderSize(cp) + frameLength <= Minimum(linkMtu, BUFFER_SIZE)
      && frameLength > 0 && codesize > 0 && codesize % 4 == 0
    }

    ghost predicate BufferOk()
      reads this, buffer
    {
      && buffer.Length == BUFFER_SIZE && |pending| == frameCount <= MAX_FRAMES
      && count == HeaderSize(cp) + |Joined(pending)| <= BUFFER_SIZE && buffer[HeaderSize(cp)..count] == Joined(pending)
    }

    /**
     The counters tell what was encoded; packetised frames and then the pending ones are the encoded frames in
     order.
     */
    ghost predicate CountsOk()
      reads this
    {
      && nsamples == Stamp(|encoded|, codesize / 4) && seqNum == |log| % 0x1_0000
      && encoded == AllFrames(log) + pending
      && LogOk(log, linkMtu, cp, codesize / 4)
    }

    ghost predicate Valid()
      reads this, buffer
    {
      && Fits() && BufferOk() && CountsOk() && frameCount < MAX_FRAMES
      && count + frameLength <= Minimum(linkMtu, BUFFER_SIZE)
    }

    /** The counters as `bluetooth_start` sets them. */
    constructor (linkMtu: nat, codesize: nat, frameLength: nat, cp: Option<byte>)
      requires HeaderSize(cp) + frameLength <= Minimum(linkMtu, BUFFER_SIZE)
      requires frameLength > 0 && codesize > 0 && codesize % 4 == 0
      ensures Valid() && fresh(buffer) && encoded == [] && log == [] && pending == []
      ensures this.codesize == codesize && this.frameLength == frameLength && this.linkMtu == linkMtu && this.cp == cp
    {
      buffer := new byte[BUFFER_SIZE];
      this.linkMtu, this.codesize, this.frameLength, this.cp := linkMtu, codesize, frameLength, cp;
      count := HeaderSize(cp);
      frameCount, nsamples, seqNum := 0, 0, 0;
      encoded, pending, log := [], [], [];
    }

    /** `sbc_encode` leaves a frame behind those in the buffer. */
    method AddFrame(frame: Frame)
      requires Valid() && |frame| == frameLength
      modifies this, buffer
      ensures Fits() && BufferOk() && CountsOk() && frameCount >= 1
      ensures count <= Minimum(linkMtu, BUFFER_SIZE)
      ensures count == old(count) + frameLength && frameCount == old(frameCount) + 1
      ensures pending == old(pending) + [frame] && encoded == old(encoded) + [frame] && log == old(log)
    {
      hide LogOk, PacketOk, Stamp, AllFrames, HeaderSize, Joined;
      PlaceFrame(frame);
      CountFrame(frame);
    }

    /** The octets of the frame go behind those in the buffer. */
    method PlaceFrame(frame: Frame)
      requires BufferOk() && frameCount < MAX_FRAMES && count + |frame| <= BUFFER_SIZE
      modifies this`count, this`frameCount, this`pending, buffer
      ensures BufferOk() && pending == old(pending) + [frame] && count == old(count) + |frame|
      ensures frameCount == old(frameCount) + 1
    {
      JoinedSnoc(pending, frame);
      hide HeaderSize, Joined;
      ghost var h := HeaderSize(cp);
      CopyInto(buffer, count, frame);
      assert buffer[h..count + |frame|] == buffer[h..count] + frame;
      pending := pending + [frame];
      count := count + |frame|;
      frameCount := frameCount + 1;
    }

    /** The samples of the frame count; it is the last of `pending` already. */
    method CountFrame(ghost frame: Frame)
      requires nsamples == Stamp(|encoded|, codesize / 4) && pending != [] && pending[|pending| - 1] == frame
      requires encoded == AllFrames(log) + pending[..|pending| - 1]
      modifies this`nsamples, this`encoded
      ensures encoded == old(encoded) + [frame] && encoded == AllFrames(log) + pending
      ensures nsamples == Stamp(|encoded|, codesize / 4)
    {
      StampNext(|encoded|, codesize / 4);
      hide Stamp, AllFrames;
      assert pending == pending[..|pending| - 1] + [frame];
      encoded := encoded + [frame];
      nsamples := (nsamples + codesize / 4) % 0x1_0000_0000;
    }

    /** `avdtp_write`: the packet goes out or is lost; either way the next one starts empty, with the next number. */
    method AvdtpWrite(sent: bool)
      requires Fits() && BufferOk() && CountsOk() && frameCount >= 1 && count <= Minimum(linkMtu, BUFFER_SIZE)
      modifies this, buffer
      ensures Valid() && pending == [] && encoded == old(encoded)
      ensures |log| == |old(log)| + 1 && log[..|old(log)|] == old(log)
      ensures log[|old(log)|].frames == old(pending) && log[|old(log)|].sent == sent
    {
      hide LogOk, PacketOk, AllFrames, Stamp, HeaderSize;
      var header := Header(seqNum, nsamples, cp, frameCount);
      hide Header;
      WriteHeader(header);
      ghost var p := Packet(buffer[..count], pending, sent);
      assert |p.bytes| == count && p.bytes == header + Joined(p.frames);
      NewPacket(log, p, encoded, linkMtu, cp, codesize / 4);
      hide Joined;
      log := log + [p];
      StartPacket();
    }

    /** The next packet starts empty, with the next number. */
    method StartPacket()
      requires Fits() && buffer.Length == BUFFER_SIZE && seqNum == (|log| - 1) % 0x1_0000 && log != []
      requires encoded == AllFrames(log) && nsamples == Stamp(|encoded|, codesize / 4)
      requires LogOk(log, linkMtu, cp, codesize / 4)
      modifies this`pending, this`count, this`frameCount, this`seqNum
      ensures Valid() && pending == []
    {
      hide LogOk, AllFrames, Stamp;
      pending := [];
      assert encoded == AllFrames(log) + [];
      count := HeaderSize(cp);
      frameCount := 0;
      seqNum := (seqNum as int + 1) % 0x1_0000;
    }

    /** The header goes in front of the frames, which stay where they are. */
    method WriteHeader(header: seq<byte>)
      requires BufferOk() && |header| == HeaderSize(cp)
      modifies buffer
      ensures BufferOk() && buffer[..count] == header + Joined(pending)
    {
      ghost var h := HeaderSize(cp);
      ghost var frames := buffer[h..count];
      CopyInto(buffer, 0, header);
      assert buffer[h..count] == frames;
      assert buffer[..count] == buffer[..h] + buffer[h..count];
    }

    /** One turn of the loop of `a2dp_write`: a frame, and the packet when no other frame would fit. */
    method Encode(frame: Frame, sent: bool)
      requires Valid() && |frame| == frameLength
      modifies this, buffer
      ensures Valid() && encoded == old(encoded) + [frame] && old(log) <= log
      ensures |log| == |old(log)| ==> pending == old(pending) + [frame]
      ensures |log| == |old(log)| <==>
                old(frameCount) + 1 < MAX_FRAMES && old(count) + 2 * frameLength < Minimum(linkMtu, BUFFER_SIZE)
    {
      hide CountsOk, LogOk, PacketOk, Header;
      AddFrame(frame);
      if frameCount == MAX_FRAMES || count + frameLength >= linkMtu || count + frameLength >= BUFFER_SIZE {
        AvdtpWrite(sent);
      }
    }

    /**
     `a2dp_write` on `size` octets of PCM. `frames` are the results of the encoder calls; when they
     run out the encoder has failed. Returns the octets consumed.
     */
    method Write(size: nat, frames: seq<Frame>, sent: nat -> bool) returns (ret: nat)
      requires Valid() && forall i | 0 <= i < |frames| :: |frames[i]| == frameLength
      modifies this, buffer
      ensures Valid() && old(log) <= log
      ensures encoded == old(encoded) + frames[..Blocks(size, codesize, |frames|)]
      ensures ret == Blocks(size, codesize, |frames|) * codesize <= size
    {
      hide BufferOk, CountsOk, LogOk, PacketOk;
      ret := 0;
      var left: nat := size;
      var i := 0;
      while left >= codesize
        invariant Valid() && old(log) <= log && left + ret == size
        invariant 0 <= i <= |frames| && encoded == old(encoded) + frames[..i] && ret == i * codesize
        decreases left
      {
        if i == |frames| {
          BlocksAre(size, codesize, i, left);
          assert Blocks(size, codesize, |frames|) == i;
          return;
        }
        Encode(frames[i], sent(i));
        assert (i + 1) * codesize == i * codesize + codesize;
        ret := ret + codesize;
        left := left - codesize;
        i := i + 1;
      }
      BlocksAre(size, codesize, i, left);
      assert Blocks(size, codesize, |frames|) == i;
    }
  }

  /** The whole blocks of a call, as far as the encoder works. */
  function Blocks(size: nat, codesize: nat, n: nat): (r: nat)
    requires codesize > 0
    ensures r <= n
  {
    Minimum(size / codesize, n)
  }

  lemma BlocksAre(size: nat, codesize: nat, i: nat, left: nat)
    requires codesize > 0 && size == i * codesize + left
    ensures size / codesize >= i && (left < codesize ==> size / codesize == i)
  {
    DivModUnique(size, codesize, i + left / codesize, left % codesize) by {
      assert (i + left / codesize) * codesize == i * codesize + left / codesize * codesize;
    }
  }

  /** The frames that calls encode. */
  function Encoded(calls: seq<Call>, codesize: nat): seq<Frame>
    requires codesize > 0
  {
    if calls == [] then []
    else
      var c := calls[|calls| - 1];
      Encoded(calls[..|calls| - 1], codesize) + c.frames[..Blocks(c.size, codesize, |c.frames|)]
  }

  /** What a receiver reads from packet `i`: its number, the samples encoded up to its end, and its frames. */
  lemma ReceiverReads(log: seq<Packet>, i: nat, mtu: nat, cp: Option<byte>, perFrame: nat)
    requires LogOk(log, mtu, cp, perFrame) && i < |log|
    ensures var b, h := log[i].bytes, HeaderSize(cp);
            && h <= |b| <= Minimum(mtu, BUFFER_SIZE)
            && FromBigEndian(b[2..4]) == i % 0x1_0000
            && FromBigEndian(b[4..8]) == |AllFrames(log[..i + 1])| * perFrame % 0x1_0000_0000
            && b[0] == 0x80 && b[1] == 0x01 && (cp.Some? ==> b[RTP_HEADER] == cp.value)
            && b[h - 1] == |log[i].frames| >= 1 && b[h..] == Joined(log[i].frames)
  {
    assert PacketOk(log, i, mtu, cp, perFrame);
    var n := Stamp(|AllFrames(log[..i + 1])|, perFrame);
    HeaderFields(i % 0x1_0000, n, cp, |log[i].frames|, Joined(log[i].frames));
    hide LogOk, Header, FromBigEndian, AllFrames;
  }

  /** One call of `a2dp_write`. */
  datatype Call = Call(size: nat, frames: seq<Frame>, sent: nat -> bool)

  /**
   Any sequence of calls: every packet is in order and within bounds, and no frame is lost or repeated between them.
   */
  method Run(p: Packetiser, calls: seq<Call>)
    requires p.Valid() && forall i, j | 0 <= i < |calls| && 0 <= j < |calls[i].frames| ::
              |calls[i].frames[j]| == p.frameLength
    modifies p, p.buffer
    ensures p.Valid() && old(p.log) <= p.log && old(p.encoded) <= p.encoded
    ensures p.encoded == AllFrames(p.log) + p.pending && LogOk(p.log, p.linkMtu, p.cp, p.codesize / 4)
    ensures p.encoded == old(p.encoded) + Encoded(calls, p.codesize)
  {
    hide LogOk, AllFrames, Blocks;
    for k := 0 to |calls|
      invariant p.Valid() && old(p.log) <= p.log && old(p.encoded) <= p.encoded
      invariant p.encoded == old(p.encoded) + Encoded(calls[..k], p.codesize)
    {
      assert calls[..k + 1][..k] == calls[..k];
      assert forall j | 0 <= j < |calls[k].frames| :: |calls[k].frames[j]| == p.frameLength;
      var _ := p.Write(calls[k].size, calls[k].frames, calls[k].sent);
    }
    assert calls[..|calls|] == calls;
  }
}
