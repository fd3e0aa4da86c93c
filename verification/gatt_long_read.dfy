/**
 Reading a characteristic value that may not fit in one PDU (`attrib/gatt.c`): a Read
 request and as many Read Blob requests as it takes.
 */
module GattLongRead {
  import opened Bytes
  import opened Arithmetic
  import opened AttReply

  const OP_READ_REQ: byte := 0x0A
  const OP_READ_RESP: byte := 0x0B
  const OP_READ_BLOB_REQ: byte := 0x0C
  const OP_READ_BLOB_RESP: byte := 0x0D
  const ECODE_INVALID_OFFSET: byte := 0x07

  /** `enc_read_req` and `enc_read_blob_req`; an empty PDU when the buffer is too small. */
  function EncReadReq(handle: u16, len: nat): seq<byte> {
    if len < 3 then [] else [OP_READ_REQ] + PutU16(handle)
  }

  function EncReadBlobReq(handle: u16, offset: u16, len: nat): seq<byte> {
    if len < 5 then [] else [OP_READ_BLOB_REQ] + PutU16(handle) + PutU16(offset)
  }

  /** `dec_read_req` and `dec_read_blob_req`. */
  function DecReadReq(pdu: seq<byte>): Option<u16> {
    if |pdu| < 3 || pdu[0] != OP_READ_REQ then None else Some(GetU16(pdu[1..]))
  }

  function DecReadBlobReq(pdu: seq<byte>): Option<(u16, u16)> {
    if |pdu| < 5 || pdu[0] != OP_READ_BLOB_REQ then None else Some((GetU16(pdu[1..]), GetU16(pdu[3..])))
  }

  lemma RequestsRoundTrip(handle: u16, offset: u16, len: nat)
    requires len >= 5
    ensures DecReadReq(EncReadReq(handle, len)) == Some(handle) && DecReadBlobReq(EncReadReq(handle, len)).None?
    ensures DecReadBlobReq(EncReadBlobReq(handle, offset, len)) == Some((handle, offset))
    ensures DecReadReq(EncReadBlobReq(handle, offset, len)).None?
  {
    var a, b := EncReadReq(handle, len), EncReadBlobReq(handle, offset, len);
    assert a[1..] == PutU16(handle);
    assert b[1..] == PutU16(handle) + PutU16(offset) && b[3..] == PutU16(offset);
  }

  /** `enc_read_resp`: the value, or as much of it as fits. */
  function EncReadResp(value: seq<byte>, len: nat): seq<byte>
    requires len >= 1
  {
    [OP_READ_RESP] + if |value| > len - 1 then value[..len - 1] else value
  }

  /** `enc_read_blob_resp`. */
  function EncReadBlobResp(value: seq<byte>, offset: nat, len: nat): seq<byte>
    requires len >= 1 && offset <= |value|
  {
    [OP_READ_BLOB_RESP] + if |value| - offset > len - 1 then value[offset..offset + len - 1] else value[offset..]
  }

  /** `dec_read_resp`. */
  function DecReadResp(pdu: seq<byte>): Option<seq<byte>> {
    if pdu == [] || pdu[0] != OP_READ_RESP then None else Some(pdu[1..])
  }

  /** A server that holds `value` at `handle`; request number `failAt` is refused with `ecode`. */
  datatype Server = Server(value: seq<byte>, mtu: nat, failAt: Option<nat>, ecode: byte) {
    predicate Valid() {
      mtu >= 5 && ecode != 0
    }

    function Answer(request: seq<byte>, number: nat): Reply
      requires Valid()
    {
      if failAt == Some(number) then Reply(ecode, [])
      else if DecReadReq(request).Some? then Reply(0, EncReadResp(value, mtu))
      else if DecReadBlobReq(request).Some? then
        var offset := DecReadBlobReq(request).value.1;
        if offset > |value| then Reply(ECODE_INVALID_OFFSET, []) else Reply(0, EncReadBlobResp(value, offset, mtu))
      else Reply(ecode, [])
    }

    /** Requests that a complete read takes. */
    function Needed(): nat
      requires Valid()
    {
      Quotient(|value|, mtu - 1) + 1
    }
  }

  /** What the user callback gets. */
  datatype Outcome = Pending | Called(status: byte, pdu: seq<byte>)

  /** `struct read_long_data`. */
  class LongRead {
    const handle: u16
    const buflen: nat
    var buffer: seq<byte>
    var size: u16
    var outcome: Outcome

    constructor (handle: u16, buflen: nat)
      ensures this.handle == handle && this.buflen == buflen && outcome == Pending
    {
      this.handle, this.buflen := handle, buflen;
      buffer, size, outcome := [], 0, Pending;
    }

    /** `read_char_helper`: a response that fills the buffer asks for more, anything else is the answer. */
    method ReadCharHelper(status: byte, rpdu: seq<byte>) returns (request: seq<byte>)
      requires outcome == Pending && buflen >= 5 && |rpdu| < 0x1_0000
      modifies this
      ensures if status != 0 || |rpdu| < buflen then request == [] && outcome == Called(status, rpdu)
              else
                && request == EncReadBlobReq(handle, |rpdu| - 1, buflen)
                && buffer == rpdu && size == |rpdu| && outcome == Pending
    {
      if status != 0 || |rpdu| < buflen {
        outcome := Called(status, rpdu);
        return [];
      }
      buffer := rpdu;
      size := |rpdu|;
      request := EncReadBlobReq(handle, |rpdu| - 1, buflen);
    }

    /** `read_blob_helper`: an error or an empty part ends the read with what there is, and status 0. */
    method ReadBlobHelper(status: byte, rpdu: seq<byte>) returns (request: seq<byte>)
      requires outcome == Pending && buflen >= 5 && size == |buffer| >= 1
      requires status == 0 ==> 1 <= |rpdu| && |buffer| + |rpdu| <= 0x1_0000
      modifies this
      ensures if status != 0 || |rpdu| == 1 then request == [] && buffer == old(buffer) && outcome == Called(0, buffer)
              else
                && buffer == old(buffer) + rpdu[1..] && size == |buffer|
                && (if |rpdu| < buflen then request == [] && outcome == Called(0, buffer)
                    else request == EncReadBlobReq(handle, size - 1, buflen) && outcome == Pending)
    {
      if status != 0 || |rpdu| == 1 {
        outcome := Called(0, buffer);
        return [];
      }
      buffer := buffer + rpdu[1..];
      size := size + |rpdu| - 1;
      if |rpdu| < buflen {
        outcome := Called(0, buffer);
        return [];
      }
      request := EncReadBlobReq(handle, size - 1, buflen);
    }
  }

  /** `count` full parts of `part` octets were read. */
  ghost predicate FullParts(got: nat, count: nat, part: nat) {
    got == count * part
  }

  lemma PartsStep(got: nat, count: nat, part: nat, total: nat)
    requires part > 0 && FullParts(got, count, part) && got <= total
    ensures FullParts(got + part, count + 1, part)
    ensures total - got < part ==> Quotient(total, part) == count
    ensures total - got >= part ==> Quotient(total, part) >= count + 1
  {
    assert (count + 1) * part == count * part + part;
    var left := total - got;
    DivStep(left, part);
    var q, r := left / part, left % part;
    assert total == (count + q) * part + r by { assert left == q * part + r; }
    DivModUnique(total, part, count + q, r);
  }

  /** No request before number `n` is refused. */
  predicate Unrefused(server: Server, n: nat) {
    server.failAt.None? || server.failAt.value >= n
  }

  /**
   Without a refusal the callback gets exactly the server's value after the expected number of
   requests. A refusal of the first request is reported; a later one leaves a shortened value
   that is reported with status 0.
   */
  ghost predicate Answers(server: Server, outcome: Outcome, requests: nat)
    requires server.Valid()
  {
    if Unrefused(server, server.Needed()) then
      requests == server.Needed() && outcome == Called(0, [OP_READ_RESP] + server.value)
    else
      && requests == server.failAt.value + 1
      && (if server.failAt.value == 0 then outcome == Called(server.ecode, [])
          else exists got: nat | got <= |server.value| ::
                 && FullParts(got, server.failAt.value, server.mtu - 1)
                 && outcome == Called(0, [OP_READ_RESP] + server.value[..got]))
  }

  /** In the middle of a read: `n` full parts are in the buffer and the next request asks for the one after them. */
  ghost predicate Midway(server: Server, handle: u16, buffer: seq<byte>, request: seq<byte>, n: nat, got: nat)
    requires server.Valid()
  {
    && got <= |server.value| <= 65534 && FullParts(got, n, server.mtu - 1) && n >= 1
    && buffer == [OP_READ_RESP] + server.value[..got]
    && request == EncReadBlobReq(handle, got, server.mtu)
    && Unrefused(server, n)
  }

  /** One Read Blob exchange. */
  method Exchange(server: Server, read: LongRead, request: seq<byte>, n: nat, ghost got: nat)
    returns (next: seq<byte>, ghost got': nat)
    requires server.Valid() && read.buflen == server.mtu && read.outcome == Pending && read.size == |read.buffer|
    requires Midway(server, read.handle, read.buffer, request, n, got)
    modifies read
    ensures read.outcome.Called? ==> Answers(server, read.outcome, n + 1)
    ensures read.outcome.Pending? ==>
              && got' > got && Midway(server, read.handle, read.buffer, next, n + 1, got')
              && read.size == |read.buffer|
  {
    PartsStep(got, n, server.mtu - 1, |server.value|);
    hide Quotient, FullParts;
    var reply := server.Answer(request, n);
    got' := got + server.mtu - 1;
    if server.failAt != Some(n) { NextPart(server, read.handle, read.buffer, request, n, got); }
    hide EncReadBlobReq, EncReadBlobResp;
    next := read.ReadBlobHelper(reply.status, reply.pdu);
  }

  /** What an accepted Read Blob request brings: a full part, or the rest of the value. */
  lemma NextPart(server: Server, handle: u16, buffer: seq<byte>, request: seq<byte>, n: nat, got: nat)
    requires server.Valid() && Midway(server, handle, buffer, request, n, got) && server.failAt != Some(n)
    ensures var v, part, reply := server.value, server.mtu - 1, server.Answer(request, n);
            && reply.status == 0 && |reply.pdu| >= 1
            && |reply.pdu| == 1 + (if |v| - got >= part then part else |v| - got)
            && buffer + reply.pdu[1..] == [OP_READ_RESP] + (if |v| - got >= part then v[..got + part] else v)
            && (got == |v| ==> buffer == [OP_READ_RESP] + v)
  {
    hide FullParts;
    var v, part := server.value, server.mtu - 1;
    RequestsRoundTrip(handle, got, server.mtu);
    assert v[..got] + v[got..] == v;
    if |v| - got >= part { assert v[..got] + v[got..got + part] == v[..got + part]; }
    assert server.Answer(request, n).pdu == EncReadBlobResp(v, got, server.mtu);
  }

  /** The first exchange. */
  method First(server: Server, read: LongRead) returns (next: seq<byte>, ghost got: nat)
    requires server.Valid() && read.buflen == server.mtu < 0x1_0000 && read.outcome == Pending
    requires |server.value| <= 65534
    modifies read
    ensures read.outcome.Called? ==> Answers(server, read.outcome, 1)
    ensures read.outcome.Pending? ==>
              && Midway(server, read.handle, read.buffer, next, 1, got)
              && read.size == |read.buffer|
  {
    var v := server.value;
    RequestsRoundTrip(read.handle, 0, server.mtu);
    PartsStep(0, 0, server.mtu - 1, |v|);
    hide Quotient, FullParts;
    var reply := server.Answer(EncReadReq(read.handle, server.mtu), 0);
    got := server.mtu - 1;
    next := read.ReadCharHelper(reply.status, reply.pdu);
  }

  /** The whole procedure against any server, any value of at most 65534 octets and any MTU. */
  method Read(server: Server, handle: u16) returns (outcome: Outcome, requests: nat)
    requires server.Valid() && |server.value| <= 65534 && server.mtu < 0x1_0000
    ensures Answers(server, outcome, requests)
  {
    hide Answers, Midway;
    var read := new LongRead(handle, server.mtu);
    ghost var got: nat;
    var request;
    request, got := First(server, read);
    requests := 1;
    while read.outcome == Pending
      invariant read.outcome.Called? ==> Answers(server, read.outcome, requests)
      invariant read.outcome.Pending? ==>
                  Midway(server, read.handle, read.buffer, request, requests, got) && read.size == |read.buffer|
      decreases if read.outcome.Pending? then 1 else 0, |server.value| - got
    {
      MidwayBound(server, read.handle, read.buffer, request, requests, got);
      request, got := Exchange(server, read, request, requests, got);
      requests := requests + 1;
      if read.outcome.Pending? { MidwayBound(server, read.handle, read.buffer, request, requests, got); }
    }
    outcome := read.outcome;
  }

  lemma MidwayBound(server: Server, handle: u16, buffer: seq<byte>, request: seq<byte>, n: nat, got: nat)
    requires server.Valid() && Midway(server, handle, buffer, request, n, got)
    ensures got <= |server.value|
  {
  }

  /** What an unrefused read hands to the user decodes to the server's value. */
  lemma ReadIsExact(server: Server, outcome: Outcome, requests: nat)
    requires server.Valid() && Answers(server, outcome, requests) && Unrefused(server, server.Needed())
    ensures outcome.Called? && outcome.status == 0 && DecReadResp(outcome.pdu) == Some(server.value)
    ensures requests == |server.value| / (server.mtu - 1) + 1
  {
    assert ([OP_READ_RESP] + server.value)[1..] == server.value;
  }

  /**
   A refusal after the first request is not reported: the status is 0 and part of the value is missing unless
   nothing was left.
   */
  lemma RefusalIsSilent(server: Server, outcome: Outcome, requests: nat)
    requires server.Valid() && Answers(server, outcome, requests)
    requires server.failAt.Some? && 0 < server.failAt.value < server.Needed()
    ensures outcome.Called? && outcome.status == 0
    ensures DecReadResp(outcome.pdu) == Some(server.value) <==> server.failAt.value * (server.mtu - 1) == |server.value|
  {
    var got: nat :| got <= |server.value| && FullParts(got, server.failAt.value, server.mtu - 1)
      && outcome == Called(0, [OP_READ_RESP] + server.value[..got]);
    assert ([OP_READ_RESP] + server.value[..got])[1..] == server.value[..got];
    assert |server.value[..got]| == got;
    if got == |server.value| { assert server.value[..got] == server.value; }
  }
}
