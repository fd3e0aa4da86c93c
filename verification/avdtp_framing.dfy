/**
 AVDTP signalling: splitting a message into packets that fit the outgoing MTU
 (`avdtp_send`) and putting it together again (`avdtp_parse_data`).
 */
module AvdtpFraming {
  import opened Bytes
  import opened Sequences
  import opened Arithmetic

  const PKT_SINGLE: nat := 0
  const PKT_START: nat := 1
  const PKT_CONTINUE: nat := 2
  const PKT_END: nat := 3

  const IN_BUF_SIZE: nat := 1024

  /** Label, message type and signal of one message, with the widths of the header bit fields. */
  datatype Header = Header(transaction: nat, messageType: nat, signalId: nat) {
    predicate Valid() {
      transaction < 16 && messageType < 4 && signalId < 64
    }
  }

  datatype ParseResult = ParseError | ParseFragment | ParseSuccess

  /** First octet of every packet: message type, packet type and transaction label. */
  function CommonByte(h: Header, packetType: nat): (b: byte)
    requires h.Valid() && packetType < 4
    ensures b % 4 == h.messageType && b / 4 % 4 == packetType && b / 16 == h.transaction
  {
    h.messageType + 4 * packetType + 16 * h.transaction
  }

  // ---------------------------------------------------------------- sending

  predicate FitsSingle(len: nat, omtu: nat) {
    2 + len <= omtu
  }

  /** Number of packets after the START packet, as the sender announces it. */
  function ContFragments(len: nat, omtu: nat): nat
    requires omtu >= 3 && !FitsSingle(len, omtu)
  {
    (len - (omtu - 3)) / (omtu - 1) + 1
  }

  /** The CONTINUE packets and the END packet that carry `data[sent..]`. */
  function TailPackets(h: Header, data: seq<byte>, sent: nat, omtu: nat): seq<seq<byte>>
    requires h.Valid() && omtu >= 3 && sent <= |data|
    decreases |data| - sent
  {
    if sent == |data| then []
    else if |data| - sent + 1 > omtu then
      [[CommonByte(h, PKT_CONTINUE)] + data[sent..sent + omtu - 1]] + TailPackets(h, data, sent + omtu - 1, omtu)
    else
      [[CommonByte(h, PKT_END)] + data[sent..]]
  }

  /** Everything `avdtp_send` puts on the channel for one message; nothing when it refuses. */
  function Packets(h: Header, data: seq<byte>, omtu: nat): seq<seq<byte>>
    requires h.Valid()
  {
    if FitsSingle(|data|, omtu) then [[CommonByte(h, PKT_SINGLE), h.signalId] + data]
    else if omtu < 3 then []
    else
      [[CommonByte(h, PKT_START), (ContFragments(|data|, omtu) + 1) % 256, h.signalId] + data[..omtu - 3]]
      + TailPackets(h, data, omtu - 3, omtu)
  }

  lemma TailStep(h: Header, data: seq<byte>, sent: nat, omtu: nat, packetType: nat, toCopy: nat)
    requires h.Valid() && omtu >= 3 && sent < |data|
    requires if |data| - sent + 1 > omtu then packetType == PKT_CONTINUE && toCopy == omtu - 1
             else packetType == PKT_END && toCopy == |data| - sent
    ensures TailPackets(h, data, sent, omtu)
         == [[CommonByte(h, packetType)] + data[sent..sent + toCopy]] + TailPackets(h, data, sent + toCopy, omtu)
  {
    if packetType == PKT_END {
      assert data[sent..] == data[sent..sent + toCopy];
    }
  }

  /** No packet exceeds the outgoing MTU. */
  lemma {:induction false} TailFits(h: Header, data: seq<byte>, sent: nat, omtu: nat)
    requires h.Valid() && omtu >= 3 && sent <= |data|
    ensures forall p | p in TailPackets(h, data, sent, omtu) :: 1 <= |p| <= omtu
    decreases |data| - sent
  {
    if sent < |data| && |data| - sent + 1 > omtu {
      TailFits(h, data, sent + omtu - 1, omtu);
    }
  }

  lemma PacketsFit(h: Header, data: seq<byte>, omtu: nat)
    requires h.Valid()
    ensures forall p | p in Packets(h, data, omtu) :: 1 <= |p| <= omtu
  {
    if !FitsSingle(|data|, omtu) && omtu >= 3 {
      TailFits(h, data, omtu - 3, omtu);
    }
  }

  /** `avdtp_send` on an open channel whose socket accepts every packet. */
  method Send(h: Header, data: seq<byte>, omtu: nat) returns (ok: bool, channel: seq<seq<byte>>)
    requires h.Valid()
    ensures ok <==> FitsSingle(|data|, omtu) || omtu >= 3
    ensures channel == Packets(h, data, omtu)
  {
    channel := [];
    if 2 + |data| <= omtu {
      return true, [[CommonByte(h, PKT_SINGLE), h.signalId] + data];
    }
    if omtu < 3 {
      return false, [];
    }
    var contFragments := (|data| - (omtu - 3)) / (omtu - 1) + 1;
    channel := [[CommonByte(h, PKT_START), (contFragments + 1) % 256, h.signalId] + data[..omtu - 3]];
    var sent := omtu - 3;
    while sent < |data|
      invariant omtu - 3 <= sent <= |data|
      invariant channel + TailPackets(h, data, sent, omtu) == Packets(h, data, omtu)
    {
      var left := |data| - sent;
      var packetType, toCopy;
      if left + 1 > omtu {
        packetType, toCopy := PKT_CONTINUE, omtu - 1;
      } else {
        packetType, toCopy := PKT_END, left;
      }
      var packet := [CommonByte(h, packetType)] + data[sent..sent + toCopy];
      TailStep(h, data, sent, omtu, packetType, toCopy);
      assert channel + ([packet] + TailPackets(h, data, sent + toCopy, omtu))
          == (channel + [packet]) + TailPackets(h, data, sent + toCopy, omtu);
      channel := channel + [packet];
      sent := sent + toCopy;
    }
    ok := true;
  }

  // -------------------------------------------------------------- receiving

  /** Value of the reassembly buffer `session->in`; `data_size` is an 8-bit field. */
  datatype Reassembly = Reassembly(
    active: bool, noOfPackets: int, transaction: nat, messageType: nat, signalId: nat,
    buf: seq<byte>, dataSize: byte)
  {
    ghost predicate Valid() {
      |buf| == IN_BUF_SIZE
    }

    function Label(): Header { Header(transaction, messageType, signalId) }

    function Payload(): seq<byte>
      requires dataSize <= |buf|
    {
      buf[..dataSize]
    }
  }

  /** `memcpy` of `payload` over `buf` from `at` on. */
  function Overlay(buf: seq<byte>, at: nat, payload: seq<byte>): (r: seq<byte>)
    requires at + |payload| <= |buf|
    ensures |r| == |buf|
  {
    buf[..at] + payload + buf[at + |payload|..]
  }

  /** The common end of all packet types: append the payload and count the packet. */
  function Absorb(s: Reassembly, payload: seq<byte>): (Reassembly, ParseResult)
    requires s.Valid()
  {
    if s.dataSize + |payload| > IN_BUF_SIZE then (s, ParseError)
    else
      var s' := s.(buf := Overlay(s.buf, s.dataSize, payload), dataSize := (s.dataSize + |payload|) % 256);
      if s'.noOfPackets > 1 then (s'.(noOfPackets := s'.noOfPackets - 1), ParseFragment)
      else (s'.(active := false), ParseSuccess)
  }

  /** What one received packet does to the reassembly state. */
  function Parse(s: Reassembly, p: seq<byte>): (Reassembly, ParseResult)
    requires s.Valid() && |p| >= 1
  {
    var messageType, packetType, transaction := p[0] % 4, p[0] / 4 % 4, p[0] / 16;
    if packetType == PKT_SINGLE then
      if |p| < 2 || s.active then (s, ParseError)
      else Absorb(Reassembly(true, 1, transaction, messageType, p[1] % 64, s.buf, 0), p[2..])
    else if packetType == PKT_START then
      if |p| < 3 || s.active then (s, ParseError)
      else Absorb(Reassembly(true, p[1], transaction, messageType, p[2] % 64, s.buf, 0), p[3..])
    else if !s.active || s.transaction != transaction then (s, ParseError)
    else if (packetType == PKT_CONTINUE) != (s.noOfPackets > 1) then (s, ParseError)
    else Absorb(s, p[1..])
  }

  /** The packet does not belong here: too short, a new message inside another, or a part that is not expected. */
  ghost predicate OutOfPlace(s: Reassembly, p: seq<byte>)
    requires |p| >= 1
  {
    var kind, tag := p[0] / 4 % 4, p[0] / 16;
    || (kind == PKT_SINGLE && (|p| < 2 || s.active))
    || (kind == PKT_START && (|p| < 3 || s.active))
    || (kind == PKT_CONTINUE && (!s.active || tag != s.transaction || s.noOfPackets <= 1))
    || (kind == PKT_END && (!s.active || tag != s.transaction || s.noOfPackets > 1))
  }

  /**
   A packet out of place is refused and changes nothing. Any other is refused exactly when the buffer has no room; else
   its payload goes behind what is there, a SINGLE or START packet sets the label, and the count decides the result.
   */
  lemma ParseIs(s: Reassembly, p: seq<byte>)
    requires s.Valid() && |p| >= 1
    ensures OutOfPlace(s, p) ==> Parse(s, p) == (s, ParseError)
    ensures !OutOfPlace(s, p) ==>
              var (s', r) := Parse(s, p);
              var kind := p[0] / 4 % 4;
              var first := kind == PKT_SINGLE || kind == PKT_START;
              var skip := if kind == PKT_SINGLE then 2 else if kind == PKT_START then 3 else 1;
              var at := if first then 0 else s.dataSize;
              var count := if kind == PKT_SINGLE then 1 else if kind == PKT_START then p[1] else s.noOfPackets;
              && (r == ParseError <==> at + |p| - skip > IN_BUF_SIZE)
              && s'.Label() == (if first then Header(p[0] / 16, p[0] % 4, p[skip - 1] % 64) else s.Label())
              && (r != ParseError ==>
                    && s'.buf == s.buf[..at] + p[skip..] + s.buf[at + |p| - skip..]
                    && s'.dataSize == (at + |p| - skip) % 256
                    && r == (if count > 1 then ParseFragment else ParseSuccess)
                    && s'.active == (count > 1) && s'.noOfPackets == (if count > 1 then count - 1 else count))
  {
  }

  /** `session->in` and `avdtp_parse_data`, the packet being what one read of the channel gave. */
  class InBuf {
    var active: bool
    var noOfPackets: int
    var transaction: nat
    var messageType: nat
    var signalId: nat
    const buf: array<byte>
    var dataSize: byte

    ghost predicate Valid() reads this, buf {
      buf.Length == IN_BUF_SIZE
    }

    ghost function View(): (r: Reassembly)
      reads this, buf
      requires Valid()
      ensures r.Valid()
    {
      Reassembly(active, noOfPackets, transaction, messageType, signalId, buf[..], dataSize)
    }

    constructor ()
      ensures Valid() && fresh(buf) && !View().active
    {
      buf := new byte[IN_BUF_SIZE](_ => 0);
      active, noOfPackets, dataSize := false, 0, 0;
      transaction, messageType, signalId := 0, 0, 0;
    }

    /** Appends `payload` at `dataSize`. */
    method Append(payload: seq<byte>) returns (r: ParseResult)
      requires Valid()
      modifies this, buf
      ensures Valid() && (View(), r) == Absorb(old(View()), payload)
    {
      if dataSize + |payload| > buf.Length {
        return ParseError;
      }
      CopyInto(buf, dataSize, payload);
      assert buf[..] == Overlay(old(buf[..]), dataSize, payload);
      hide Overlay;
      dataSize := (dataSize + |payload|) % 256;
      if noOfPackets > 1 {
        noOfPackets := noOfPackets - 1;
        return ParseFragment;
      }
      active := false;
      r := ParseSuccess;
    }

    method ParseData(p: seq<byte>) returns (r: ParseResult)
      requires Valid() && |p| >= 1
      modifies this, buf
      ensures Valid() && (View(), r) == Parse(old(View()), p)
    {
      var packetType := p[0] / 4 % 4;
      var headerLen;
      if packetType == PKT_SINGLE {
        if |p| < 2 || active { return ParseError; }
        active, dataSize, noOfPackets := true, 0, 1;
        transaction, messageType, signalId := p[0] / 16, p[0] % 4, p[1] % 64;
        headerLen := 2;
      } else if packetType == PKT_START {
        if |p| < 3 || active { return ParseError; }
        active, dataSize, noOfPackets := true, 0, p[1];
        transaction, messageType, signalId := p[0] / 16, p[0] % 4, p[2] % 64;
        headerLen := 3;
      } else if packetType == PKT_CONTINUE {
        if !active || transaction != p[0] / 16 || noOfPackets <= 1 { return ParseError; }
        headerLen := 1;
      } else {
        if !active || transaction != p[0] / 16 || noOfPackets > 1 { return ParseError; }
        headerLen := 1;
      }
      r := Append(p[headerLen..]);
    }
  }

  // -------------------------------------------------------------- round trip

  /** A packet has a first octet. */
  predicate NoneEmpty(ps: seq<seq<byte>>) {
    forall p | p in ps :: |p| >= 1
  }

  /** Feeds packets in order; the session is dropped at the first error. */
  function Receive(s: Reassembly, ps: seq<seq<byte>>): (Reassembly, seq<ParseResult>)
    requires s.Valid() && NoneEmpty(ps)
    decreases |ps|
  {
    if ps == [] then (s, [])
    else
      var (s', r) := Parse(s, ps[0]);
      if r == ParseError then (s', [r])
      else
        var (s'', rs) := Receive(s', ps[1..]);
        (s'', [r] + rs)
  }

  /** FRAGMENT for every packet but the last, SUCCESS for the last, and the message back. */
  ghost predicate Delivers(s: Reassembly, ps: seq<seq<byte>>, h: Header, data: seq<byte>)
    requires s.Valid() && NoneEmpty(ps)
  {
    var (s', rs) := Receive(s, ps);
    && |rs| == |ps| && FragmentsThen(rs, ParseSuccess) && Done(s', h, data)
  }

  /** Every packet is taken but the last one, which is refused with the message unfinished. */
  ghost predicate Refuses(s: Reassembly, ps: seq<seq<byte>>, h: Header)
    requires s.Valid() && NoneEmpty(ps)
  {
    var (s', rs) := Receive(s, ps);
    && |rs| == |ps| && FragmentsThen(rs, ParseError) && s'.active && s'.Label() == h
  }

  /** All results are FRAGMENT but the last one. */
  ghost predicate FragmentsThen(rs: seq<ParseResult>, last: ParseResult) {
    rs != [] && (forall i | 0 <= i < |rs| - 1 :: rs[i] == ParseFragment) && rs[|rs| - 1] == last
  }

  /** The message is complete in the buffer. */
  ghost predicate Done(s: Reassembly, h: Header, data: seq<byte>) {
    s.Valid() && !s.active && s.Label() == h && s.Payload() == data
  }

  /** The announced packet count is one too many. */
  predicate Miscounted(len: nat, omtu: nat)
    requires omtu >= 3 && !FitsSingle(len, omtu)
  {
    (len - (omtu - 3)) % (omtu - 1) == 0
  }

  /** What the length of a message must be for the receiver to get it back. */
  predicate Deliverable(len: nat, omtu: nat) {
    && len <= 255
    && (FitsSingle(len, omtu) || (omtu >= 3 && !Miscounted(len, omtu)))
  }

  /** How many packets of `full` octets it takes to carry `left` octets. */
  function TailCount(left: nat, full: nat): nat
    requires full > 0
  {
    if left <= full then 1 else 1 + TailCount(left - full, full)
  }

  /** The announced count is the true one, except that it is one too many for exact multiples. */
  lemma {:induction false} AnnouncedCount(left: nat, full: nat)
    requires full >= 2 && left > 0
    ensures left / full + 1 == if left % full == 0 then TailCount(left, full) + 1 else TailCount(left, full)
    ensures TailCount(left, full) * 2 <= left + 1
  {
    DivStep(left, full);
    if left > full {
      AnnouncedCount(left - full, full);
    } else if left == full {
      DivStep(0, full);
    }
  }

  /** Reassembly state in the middle of receiving `data`. */
  ghost predicate Midway(s: Reassembly, h: Header, data: seq<byte>, sent: nat) {
    && s.Valid() && s.active && s.Label() == h
    && sent <= |data| <= 255 && s.dataSize == sent
    && s.buf[..sent] == data[..sent]
  }

  lemma MidwayValid(s: Reassembly, h: Header, data: seq<byte>, sent: nat)
    requires Midway(s, h, data, sent)
    ensures s.Valid()
  {
  }

  lemma AbsorbMidway(s: Reassembly, h: Header, data: seq<byte>, sent: nat, chunk: seq<byte>)
    requires Midway(s, h, data, sent)
    requires sent + |chunk| <= |data| && data[sent..sent + |chunk|] == chunk
    ensures var (s', r) := Absorb(s, chunk);
            && (s.noOfPackets > 1 ==>
                  r == ParseFragment && Midway(s', h, data, sent + |chunk|) && s'.noOfPackets == s.noOfPackets - 1)
            && (s.noOfPackets <= 1 && sent + |chunk| == |data| ==> r == ParseSuccess && Done(s', h, data))
  {
    var (s', r) := Absorb(s, chunk);
    var next := sent + |chunk|;
    assert data[..next] == data[..sent] + chunk;
    assert s'.buf[..next] == s.buf[..sent] + chunk;
    assert data[..|data|] == data;
  }

  /** A CONTINUE or END packet of the right transaction goes to the common end when its time has come. */
  lemma ParseTailPacket(s: Reassembly, h: Header, packetType: nat, chunk: seq<byte>)
    requires s.Valid() && h.Valid() && s.active && s.transaction == h.transaction
    requires packetType == PKT_CONTINUE || packetType == PKT_END
    ensures Parse(s, [CommonByte(h, packetType)] + chunk)
         == if (packetType == PKT_CONTINUE) == (s.noOfPackets > 1) then Absorb(s, chunk) else (s, ParseError)
  {
    var p := [CommonByte(h, packetType)] + chunk;
    assert p[1..] == chunk;
  }

  lemma FragmentFirst(rs: seq<ParseResult>, last: ParseResult)
    requires rs != []
    ensures FragmentsThen([ParseFragment] + rs, last) <==> FragmentsThen(rs, last)
  {
    var all := [ParseFragment] + rs;
    assert all[|all| - 1] == rs[|rs| - 1] && forall i | 0 <= i < |rs| :: rs[i] == all[i + 1];
  }

  /** Receiving a fragment first does not change how the rest ends. */
  lemma FragmentCons(s: Reassembly, p: seq<byte>, ps: seq<seq<byte>>, h: Header, data: seq<byte>)
    requires s.Valid() && |p| >= 1 && NoneEmpty(ps)
    requires Parse(s, p).1 == ParseFragment && ps != []
    ensures NoneEmpty([p] + ps)
    ensures Delivers(s, [p] + ps, h, data) <==> Delivers(Parse(s, p).0, ps, h, data)
    ensures Refuses(s, [p] + ps, h) <==> Refuses(Parse(s, p).0, ps, h)
  {
    assert Parse(s, p).0.Valid();
    hide Parse, Done;
    var (s', rs) := Receive(Parse(s, p).0, ps);
    assert ([p] + ps)[1..] == ps;
    assert Receive(s, [p] + ps) == (s', [ParseFragment] + rs);
    if rs != [] {
      FragmentFirst(rs, ParseSuccess);
      FragmentFirst(rs, ParseError);
    }
    hide FragmentsThen, Receive;
  }

  lemma DeliversLast(s: Reassembly, p: seq<byte>, h: Header, data: seq<byte>)
    requires s.Valid() && |p| >= 1 && Parse(s, p).1 != ParseFragment
    ensures Delivers(s, [p], h, data) <==> Parse(s, p).1 == ParseSuccess && Done(Parse(s, p).0, h, data)
    ensures Refuses(s, [p], h) <==>
              Parse(s, p).1 == ParseError && Parse(s, p).0.active && Parse(s, p).0.Label() == h
  {
    assert Parse(s, p).0.Valid();
    hide Parse, Done;
    var (s', r) := Parse(s, p);
    assert [p][1..] == [];
    assert Receive(s', [p][1..]) == (s', []) && [r] + [] == [r];
    assert Receive(s, [p]) == (s', [r]);
  }

  /** The CONTINUE packet with the next `n` octets. */
  function ContinuePacket(h: Header, data: seq<byte>, sent: nat, n: nat): (p: seq<byte>)
    requires h.Valid() && sent + n <= |data|
    ensures |p| == 1 + n
  {
    [CommonByte(h, PKT_CONTINUE)] + data[sent..sent + n]
  }

  /** A full CONTINUE packet that is still expected moves the message on. */
  lemma ContinueReceived(s: Reassembly, h: Header, data: seq<byte>, sent: nat, n: nat)
    requires h.Valid() && Midway(s, h, data, sent) && sent + n <= |data| && s.noOfPackets > 1
    ensures var (s', r) := Parse(s, ContinuePacket(h, data, sent, n));
            r == ParseFragment && Midway(s', h, data, sent + n) && s'.noOfPackets == s.noOfPackets - 1
  {
    ParseTailPacket(s, h, PKT_CONTINUE, data[sent..sent + n]);
    AbsorbMidway(s, h, data, sent, data[sent..sent + n]);
  }

  /** The END packet completes the message exactly when no other packet was expected, and is refused otherwise. */
  lemma EndReceived(s: Reassembly, h: Header, data: seq<byte>, sent: nat)
    requires h.Valid() && Midway(s, h, data, sent) && 1 <= s.noOfPackets
    ensures Delivers(s, [[CommonByte(h, PKT_END)] + data[sent..]], h, data) <==> s.noOfPackets == 1
    ensures Refuses(s, [[CommonByte(h, PKT_END)] + data[sent..]], h) <==> s.noOfPackets > 1
  {
    ParseTailPacket(s, h, PKT_END, data[sent..]);
    if s.noOfPackets == 1 {
      assert data[sent..] == data[sent..sent + |data[sent..]|];
      AbsorbMidway(s, h, data, sent, data[sent..]);
    }
    DeliversLast(s, [CommonByte(h, PKT_END)] + data[sent..], h, data);
  }

  lemma TailNonEmpty(h: Header, data: seq<byte>, sent: nat, omtu: nat)
    requires h.Valid() && omtu >= 3 && sent < |data|
    ensures TailPackets(h, data, sent, omtu) != [] && NoneEmpty(TailPackets(h, data, sent, omtu))
  {
    TailFits(h, data, sent, omtu);
  }

  /** The tail is a CONTINUE packet and another tail, or an END packet. */
  lemma TailShape(h: Header, data: seq<byte>, sent: nat, omtu: nat)
    requires h.Valid() && omtu >= 3 && sent < |data|
    ensures var tail, full := TailPackets(h, data, sent, omtu), omtu - 1;
            if |data| - sent > full then
              tail == [ContinuePacket(h, data, sent, full)] + TailPackets(h, data, sent + full, omtu)
            else tail == [[CommonByte(h, PKT_END)] + data[sent..]]
  {
    hide CommonByte;
  }

  /** A CONTINUE packet that is still expected leaves it to the rest of the tail whether the message is delivered. */
  lemma TailContinues(s: Reassembly, h: Header, data: seq<byte>, sent: nat, omtu: nat) returns (s': Reassembly)
    requires h.Valid() && omtu >= 3 && Midway(s, h, data, sent) && |data| - sent > omtu - 1 && s.noOfPackets > 1
    ensures Midway(s', h, data, sent + omtu - 1) && s'.noOfPackets == s.noOfPackets - 1
    ensures NoneEmpty(TailPackets(h, data, sent, omtu))
    ensures NoneEmpty(TailPackets(h, data, sent + omtu - 1, omtu))
    ensures Delivers(s, TailPackets(h, data, sent, omtu), h, data)
       <==> Delivers(s', TailPackets(h, data, sent + omtu - 1, omtu), h, data)
    ensures Refuses(s, TailPackets(h, data, sent, omtu), h)
       <==> Refuses(s', TailPackets(h, data, sent + omtu - 1, omtu), h)
  {
    hide Parse, CommonByte, Delivers, Refuses, TailPackets, Midway, NoneEmpty, ContinuePacket;
    MidwayValid(s, h, data, sent);
    var full := omtu - 1;
    TailShape(h, data, sent, omtu);
    TailNonEmpty(h, data, sent, omtu);
    TailNonEmpty(h, data, sent + full, omtu);
    ContinueReceived(s, h, data, sent, full);
    var p := ContinuePacket(h, data, sent, full);
    s' := Parse(s, p).0;
    FragmentCons(s, p, TailPackets(h, data, sent + full, omtu), h, data);
  }

  /**
   The tail completes the message exactly when the packets still expected are those that come; when one more is
   expected all packets are taken but the END packet, which is refused.
   */
  lemma {:induction false} TailDelivers(s: Reassembly, h: Header, data: seq<byte>, sent: nat, omtu: nat)
    requires h.Valid() && omtu >= 3 && Midway(s, h, data, sent) && sent < |data|
    requires TailCount(|data| - sent, omtu - 1) <= s.noOfPackets <= TailCount(|data| - sent, omtu - 1) + 1
    ensures NoneEmpty(TailPackets(h, data, sent, omtu))
    ensures Delivers(s, TailPackets(h, data, sent, omtu), h, data)
       <==> s.noOfPackets == TailCount(|data| - sent, omtu - 1)
    ensures Refuses(s, TailPackets(h, data, sent, omtu), h)
       <==> s.noOfPackets == TailCount(|data| - sent, omtu - 1) + 1
    decreases |data| - sent
  {
    hide CommonByte, Delivers, Refuses, TailPackets, Midway, NoneEmpty;
    TailNonEmpty(h, data, sent, omtu);
    if |data| - sent > omtu - 1 {
      var s' := TailContinues(s, h, data, sent, omtu);
      TailDelivers(s', h, data, sent + omtu - 1, omtu);
    } else {
      TailShape(h, data, sent, omtu);
      EndReceived(s, h, data, sent);
    }
  }

  function StartPacket(h: Header, data: seq<byte>, n: byte, sent: nat): (p: seq<byte>)
    requires h.Valid() && sent <= |data|
    ensures |p| == 3 + sent
  {
    [CommonByte(h, PKT_START), n, h.signalId] + data[..sent]
  }

  /** The START packet leaves the receiver midway, with the announced count minus one to go. */
  lemma StartReceived(s: Reassembly, h: Header, n: nat, data: seq<byte>, sent: nat)
    requires s.Valid() && !s.active && h.Valid()
    requires sent <= |data| <= 255 && 1 < n < 256
    ensures var (s', r) := Parse(s, StartPacket(h, data, n, sent));
            r == ParseFragment && Midway(s', h, data, sent) && s'.noOfPackets == n - 1
  {
    var p := [CommonByte(h, PKT_START), n, h.signalId] + data[..sent];
    assert p[3..] == data[..sent] == data[0..0 + sent];
    var s0 := Reassembly(true, n, h.transaction, h.messageType, h.signalId, s.buf, 0);
    AbsorbMidway(s0, h, data, 0, data[..sent]);
  }

  lemma SingleReceived(s: Reassembly, h: Header, data: seq<byte>)
    requires s.Valid() && !s.active && h.Valid() && |data| <= 255
    ensures Delivers(s, [[CommonByte(h, PKT_SINGLE), h.signalId] + data], h, data)
  {
    var p := [CommonByte(h, PKT_SINGLE), h.signalId] + data;
    assert p[2..] == data == data[0..0 + |data|];
    var s0 := Reassembly(true, 1, h.transaction, h.messageType, h.signalId, s.buf, 0);
    AbsorbMidway(s0, h, data, 0, data);
    DeliversLast(s, p, h, data);
  }

  lemma FragmentedReceived(s: Reassembly, h: Header, data: seq<byte>, omtu: nat)
    requires s.Valid() && !s.active && h.Valid()
    requires |data| <= 255 && !FitsSingle(|data|, omtu) && omtu >= 3
    ensures NoneEmpty(Packets(h, data, omtu))
    ensures Delivers(s, Packets(h, data, omtu), h, data) <==> !Miscounted(|data|, omtu)
    ensures Refuses(s, Packets(h, data, omtu), h) <==> Miscounted(|data|, omtu)
  {
    hide Parse, CommonByte, Delivers, Refuses, TailPackets, Midway, NoneEmpty, Packets, StartPacket;
    var sent := omtu - 3;
    AnnouncedCount(|data| - sent, omtu - 1);
    var n := ContFragments(|data|, omtu) + 1;
    PacketsShape(h, data, omtu);
    var p, ps := StartPacket(h, data, n, sent), TailPackets(h, data, sent, omtu);
    StartReceived(s, h, n, data, sent);
    TailNonEmpty(h, data, sent, omtu);
    TailDelivers(Parse(s, p).0, h, data, sent, omtu);
    FragmentCons(s, p, ps, h, data);
  }

  /** A message that needs several packets starts with the count, which is small enough for its octet here. */
  lemma PacketsShape(h: Header, data: seq<byte>, omtu: nat)
    requires h.Valid() && omtu >= 3 && !FitsSingle(|data|, omtu) && ContFragments(|data|, omtu) + 1 < 256
    ensures Packets(h, data, omtu)
         == [StartPacket(h, data, ContFragments(|data|, omtu) + 1, omtu - 3)] + TailPackets(h, data, omtu - 3, omtu)
  {
    hide TailPackets, CommonByte;
  }

  /**
   Sending and then receiving a message gives it back, packet results included,
   exactly for the deliverable lengths; the initial contents of the buffer do not matter.
   */
  lemma RoundTrip(s: Reassembly, h: Header, data: seq<byte>, omtu: nat)
    requires s.Valid() && !s.active && h.Valid()
    ensures NoneEmpty(Packets(h, data, omtu))
    ensures Delivers(s, Packets(h, data, omtu), h, data) <==> Deliverable(|data|, omtu)
  {
    PacketsFit(h, data, omtu);
    if |data| <= 255 {
      if FitsSingle(|data|, omtu) {
        SingleReceived(s, h, data);
      } else if omtu >= 3 {
        FragmentedReceived(s, h, data, omtu);
      }
    }
  }

  /** A two-octet message over the smallest MTU is lost. */
  lemma MiscountedWitness(s: Reassembly, h: Header)
    requires s.Valid() && !s.active && h.Valid()
    ensures NoneEmpty(Packets(h, [0, 0], 3))
    ensures !Delivers(s, Packets(h, [0, 0], 3), h, [0, 0]) && Refuses(s, Packets(h, [0, 0], 3), h)
  {
    FragmentedReceived(s, h, [0, 0], 3);
  }
}
