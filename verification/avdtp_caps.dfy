/**
 Service capabilities on the wire (`audio/avdtp.c`): the list sent with SET_CONFIGURATION,
 how `caps_to_list` reads it, and what GET_CONFIGURATION returns of it.
 */
module AvdtpCaps {
  import opened Bytes
  import opened Sequences

  const MEDIA_TRANSPORT: byte := 0x01
  const CONTENT_PROTECTION: byte := 0x04
  const MEDIA_CODEC: byte := 0x07
  const DELAY_REPORTING: byte := 0x08
  const CODEC_CAP_SIZE: nat := 2
  const PROTECTION_CAP_SIZE: nat := 2
  const CONF_BUF_SIZE: nat := 1024

  const SEP_IN_USE: byte := 0x13
  const UNSUPPORTED_CONFIGURATION: byte := 0x29
  const BAD_MEDIA_TRANSPORT_FORMAT: byte := 0x23

  /** `struct avdtp_service_capability`: a category and at most 255 octets. */
  datatype CapData = CapData(category: byte, data: seq<byte>)
  type Cap = c: CapData | |c.data| <= 255 witness CapData(0, [])

  /** One entry on the wire: category, length, octets. */
  function Entry(c: Cap): seq<byte> {
    [c.category, |c.data|] + c.data
  }

  function Serialised(caps: seq<Cap>): seq<byte> {
    if caps == [] then [] else Entry(caps[0]) + Serialised(caps[1..])
  }

  /** A complete entry stands at the front of `data`. */
  predicate HasEntry(data: seq<byte>) {
    |data| >= 2 && 2 + data[1] <= |data|
  }

  function FirstEntry(data: seq<byte>): Cap
    requires HasEntry(data)
  {
    CapData(data[0], data[2..2 + data[1]])
  }

  function AfterEntry(data: seq<byte>): seq<byte>
    requires HasEntry(data)
  {
    data[2 + data[1]..]
  }

  /** The entries of `data`, up to the first that is not complete. */
  function Parsed(data: seq<byte>): seq<Cap>
    decreases |data|
  {
    if !HasEntry(data) then [] else [FirstEntry(data)] + Parsed(AfterEntry(data))
  }

  // ------------------------------------------------------------------- round trip

  lemma EntryAtFront(c: Cap, rest: seq<byte>)
    ensures var d := Entry(c) + rest; HasEntry(d) && FirstEntry(d) == c && AfterEntry(d) == rest
  {
    var d := Entry(c) + rest;
    assert d[2..2 + |c.data|] == c.data;
  }

  lemma EntryOfData(data: seq<byte>)
    requires HasEntry(data)
    ensures Entry(FirstEntry(data)) + AfterEntry(data) == data
  {
  }

  /** Parsing undoes the serialisation of any list, whatever incomplete entry follows it. */
  lemma {:induction false} ParseUndoesSerialise(caps: seq<Cap>, rest: seq<byte>)
    requires !HasEntry(rest)
    ensures Parsed(Serialised(caps) + rest) == caps
  {
    if caps == [] {
      assert Serialised(caps) + rest == rest;
    } else {
      var tail := Serialised(caps[1..]);
      assert Serialised(caps) + rest == Entry(caps[0]) + (tail + rest);
      EntryAtFront(caps[0], tail + rest);
      ParseUndoesSerialise(caps[1..], rest);
    }
  }

  /** What is read is a prefix of the octets, followed by no complete entry. */
  lemma {:induction false} ParsedIsPrefix(data: seq<byte>) returns (rest: seq<byte>)
    ensures Serialised(Parsed(data)) + rest == data && !HasEntry(rest)
    decreases |data|
  {
    if HasEntry(data) {
      rest := ParsedIsPrefix(AfterEntry(data));
      EntryOfData(data);
      var caps := Parsed(data);
      assert caps[0] == FirstEntry(data) && caps[1..] == Parsed(AfterEntry(data));
      assert Serialised(caps) + rest == Entry(caps[0]) + (Serialised(caps[1..]) + rest);
    } else {
      rest := data;
      assert [] + rest == data;
    }
  }

  /** No list of capabilities at the front of the octets is longer. */
  lemma {:induction false} ParsedIsLongest(data: seq<byte>, caps: seq<Cap>)
    requires Serialised(caps) <= data
    ensures caps <= Parsed(data)
  {
    if caps != [] {
      var rest := data[|Entry(caps[0])|..];
      assert data == Entry(caps[0]) + rest by {
        assert Serialised(caps)[..|Entry(caps[0])|] == Entry(caps[0]);
      }
      EntryAtFront(caps[0], rest);
      assert Serialised(caps[1..]) <= rest by {
        assert Serialised(caps)[|Entry(caps[0])|..] == Serialised(caps[1..]);
      }
      ParsedIsLongest(rest, caps[1..]);
    }
  }

  /** The octets come back whole exactly when they are a list of complete entries. */
  lemma WellFormedIff(data: seq<byte>)
    ensures Serialised(Parsed(data)) == data <==> exists caps :: Serialised(caps) == data
  {
    forall caps: seq<Cap> | Serialised(caps) == data ensures Serialised(Parsed(data)) == data {
      assert !HasEntry([]);
      ParseUndoesSerialise(caps, []);
      assert Serialised(caps) + [] == data;
    }
  }

  // ----------------------------------------------------------------- caps_to_list

  /** What `caps_to_list` returns. */
  datatype Parse = Parse(caps: seq<Cap>, codec: Option<Cap>, delayReporting: bool, protection: Option<Cap>)

  predicate IsCodec(c: Cap) { c.category == MEDIA_CODEC && |c.data| >= CODEC_CAP_SIZE }
  predicate IsProtection(c: Cap) { c.category == CONTENT_PROTECTION && |c.data| >= PROTECTION_CAP_SIZE }

  /** `r` is the last capability of `caps` of one kind, if there is one. */
  ghost predicate LastOf(caps: seq<Cap>, kind: Cap -> bool, r: Option<Cap>) {
    match r
    case None => forall i | 0 <= i < |caps| :: !kind(caps[i])
    case Some(c) =>
      kind(c) && exists i | 0 <= i < |caps| :: caps[i] == c && forall j | i < j < |caps| :: !kind(caps[j])
  }

  lemma LastOfSnoc(caps: seq<Cap>, kind: Cap -> bool, r: Option<Cap>, c: Cap)
    requires LastOf(caps, kind, r)
    ensures LastOf(caps + [c], kind, if kind(c) then Some(c) else r)
  {
    var all := caps + [c];
    if kind(c) {
      assert all[|caps|] == c;
    } else if r.Some? {
      var i :| 0 <= i < |caps| && caps[i] == r.value && forall j | i < j < |caps| :: !kind(caps[j]);
      assert all[i] == r.value && forall j | i < j < |all| :: !kind(all[j]);
    }
  }

  ghost predicate ReportsDelay(caps: seq<Cap>) {
    exists i | 0 <= i < |caps| :: caps[i].category == DELAY_REPORTING
  }

  lemma ReportsDelaySnoc(caps: seq<Cap>, c: Cap)
    ensures ReportsDelay(caps + [c]) <==> ReportsDelay(caps) || c.category == DELAY_REPORTING
  {
    var all := caps + [c];
    assert all[|caps|] == c && forall i | 0 <= i < |caps| :: all[i] == caps[i];
  }

  /** The complete entry that starts at `at`. */
  function EntryAt(bytes: seq<byte>, at: nat): Cap
    requires at + 2 <= |bytes| && at + 2 + bytes[at + 1] <= |bytes|
  {
    CapData(bytes[at], bytes[at + 2..at + 2 + bytes[at + 1]])
  }

  /** The entry that starts at `at` is the next one read. */
  lemma ParsedStep(bytes: seq<byte>, at: nat, length: nat)
    requires at + 2 <= |bytes| && length == bytes[at + 1]
    ensures at + 2 + length > |bytes| ==> Parsed(bytes[at..]) == []
    ensures at + 2 + length <= |bytes| ==>
              Parsed(bytes[at..]) == [EntryAt(bytes, at)] + Parsed(bytes[at + 2 + length..])
  {
    var data := bytes[at..];
    if at + 2 + length <= |bytes| {
      assert data[2..2 + length] == bytes[at + 2..at + 2 + length] && AfterEntry(data) == bytes[at + 2 + length..];
    }
  }

  /** The last codec and protection entries that are long enough, and whether delay reporting occurs. */
  ghost predicate Summarises(p: Parse) {
    && LastOf(p.caps, IsCodec, p.codec) && LastOf(p.caps, IsProtection, p.protection)
    && (p.delayReporting <==> ReportsDelay(p.caps))
  }

  /** One more entry read. */
  method AddCap(p: Parse, cap: Cap) returns (r: Parse)
    requires Summarises(p)
    ensures Summarises(r) && r.caps == p.caps + [cap]
  {
    ReportsDelaySnoc(p.caps, cap);
    LastOfSnoc(p.caps, IsCodec, p.codec, cap);
    LastOfSnoc(p.caps, IsProtection, p.protection, cap);
    hide LastOf, ReportsDelay;
    r := p.(caps := p.caps + [cap]);
    if cap.category == MEDIA_CODEC && |cap.data| >= CODEC_CAP_SIZE {
      r := r.(codec := Some(cap));
    } else if cap.category == DELAY_REPORTING {
      r := r.(delayReporting := true);
    } else if cap.category == CONTENT_PROTECTION && |cap.data| >= PROTECTION_CAP_SIZE {
      r := r.(protection := Some(cap));
    }
  }

  /** `caps_to_list`: every complete entry, in order. */
  method CapsToList(bytes: seq<byte>) returns (p: Parse)
    ensures p.caps == Parsed(bytes) && Summarises(p)
  {
    p := Parse([], None, false, None);
    var processed := 0;
    assert bytes[0..] == bytes;
    assert Summarises(p) && ReadUpTo(bytes, 0, []);
    hide Summarises, Parsed, ReadUpTo;
    while processed + 2 <= |bytes|
      invariant 0 <= processed <= |bytes|
      invariant ReadUpTo(bytes, processed, p.caps) && Summarises(p)
    {
      var length: nat := bytes[processed + 1];
      ReadStep(bytes, processed, length, p.caps);
      if processed + 2 + length > |bytes| {
        return;
      }
      p := AddCap(p, CapData(bytes[processed], bytes[processed + 2..processed + 2 + length]));
      processed := processed + 2 + length;
    }
    ReadAll(bytes, processed, p.caps);
  }

  /** `caps` are the entries before `at`. */
  ghost predicate ReadUpTo(bytes: seq<byte>, at: nat, caps: seq<Cap>) {
    at <= |bytes| && caps + Parsed(bytes[at..]) == Parsed(bytes)
  }

  lemma ReadStep(bytes: seq<byte>, at: nat, length: nat, caps: seq<Cap>)
    requires ReadUpTo(bytes, at, caps) && at + 2 <= |bytes| && length == bytes[at + 1]
    ensures at + 2 + length > |bytes| ==> caps == Parsed(bytes)
    ensures at + 2 + length <= |bytes| ==>
              ReadUpTo(bytes, at + 2 + length, caps + [EntryAt(bytes, at)])
  {
    ParsedStep(bytes, at, length);
    hide Parsed, EntryAt;
    if at + 2 + length <= |bytes| {
      var c, rest := EntryAt(bytes, at), Parsed(bytes[at + 2 + length..]);
      ConcatAssociative(caps, [c], rest);
    }
  }

  lemma ReadAll(bytes: seq<byte>, at: nat, caps: seq<Cap>)
    requires ReadUpTo(bytes, at, caps) && at + 2 > |bytes|
    ensures caps == Parsed(bytes)
  {
  }

  /** The copy loop of `avdtp_set_configuration`. */
  method Serialise(caps: seq<Cap>) returns (bytes: seq<byte>)
    ensures bytes == Serialised(caps)
  {
    bytes := [];
    assert caps[0..] == caps;
    for i := 0 to |caps|
      invariant bytes + Serialised(caps[i..]) == Serialised(caps)
    {
      assert caps[i..][0] == caps[i] && caps[i..][1..] == caps[i + 1..];
      bytes := bytes + Entry(caps[i]);
    }
  }

  /** As many whole entries as a buffer of `room` octets takes. */
  function Fitting(caps: seq<Cap>, room: int): seq<Cap> {
    if caps == [] || |Entry(caps[0])| > room then [] else [caps[0]] + Fitting(caps[1..], room - |Entry(caps[0])|)
  }

  lemma {:induction false} AllFit(caps: seq<Cap>, room: int)
    ensures Fitting(caps, room) <= caps && (room >= 0 ==> |Serialised(Fitting(caps, room))| <= room)
    ensures |Serialised(caps)| <= room ==> Fitting(caps, room) == caps
  {
    if caps != [] && |Entry(caps[0])| <= room {
      AllFit(caps[1..], room - |Entry(caps[0])|);
      var f := Fitting(caps, room);
      assert f[1..] == Fitting(caps[1..], room - |Entry(caps[0])|);
    }
  }

  // ----------------------------------------------------------------- the commands

  /** Every media transport entry is empty. */
  ghost predicate TransportOk(caps: seq<Cap>) {
    forall i | 0 <= i < |caps| && caps[i].category == MEDIA_TRANSPORT :: caps[i].data == []
  }

  datatype Response = Accept(payload: seq<byte>) | Reject(error: byte)

  /** The configuration of one local stream end point. */
  class EndPoint {
    var stream: Option<Parse>

    constructor ()
      ensures stream.None?
    {
      stream := None;
    }

    /** `avdtp_setconf_cmd` from the capabilities on; `agreed` is the decision of the application. */
    method SetConfiguration(bytes: seq<byte>, agreed: bool) returns (r: Response)
      modifies this
      ensures old(stream).Some? ==> r == Reject(SEP_IN_USE) && stream == old(stream)
      ensures r.Accept? <==> old(stream).None? && TransportOk(Parsed(bytes)) && agreed
      ensures old(stream).None? && !TransportOk(Parsed(bytes)) ==> r == Reject(BAD_MEDIA_TRANSPORT_FORMAT)
      ensures old(stream).None? && TransportOk(Parsed(bytes)) && !agreed ==> r == Reject(UNSUPPORTED_CONFIGURATION)
      ensures r.Accept? ==> stream.Some? && stream.value.caps == Parsed(bytes)
      ensures r.Reject? ==> stream == old(stream)
    {
      if stream.Some? {
        return Reject(SEP_IN_USE);
      }
      var p := CapsToList(bytes);
      for i := 0 to |p.caps|
        invariant stream == old(stream)
        invariant forall j | 0 <= j < i :: p.caps[j].category == MEDIA_TRANSPORT ==> p.caps[j].data == []
      {
        if p.caps[i].category == MEDIA_TRANSPORT && |p.caps[i].data| != 0 {
          return Reject(BAD_MEDIA_TRANSPORT_FORMAT);
        }
      }
      if !agreed {
        return Reject(UNSUPPORTED_CONFIGURATION);
      }
      stream := Some(p);
      r := Accept([]);
    }

    /** `avdtp_getconf_cmd`: the stored entries that fit in the response buffer. */
    method GetConfiguration() returns (r: Response)
      ensures stream.None? || stream.value.caps == [] ==> r == Reject(UNSUPPORTED_CONFIGURATION)
      ensures stream.Some? && stream.value.caps != [] ==>
                r == Accept(Serialised(Fitting(stream.value.caps, CONF_BUF_SIZE)))
    {
      if stream.None? || stream.value.caps == [] {
        return Reject(UNSUPPORTED_CONFIGURATION);
      }
      var caps := stream.value.caps;
      var buf: seq<byte> := [];
      var i := 0;
      assert caps[0..] == caps && Filled(caps, 0, []);
      hide Filled, Serialised, Fitting;
      while i < |caps| && |buf| + |caps[i].data| + 2 <= CONF_BUF_SIZE
        invariant 0 <= i <= |caps| && |buf| <= CONF_BUF_SIZE && Filled(caps, i, buf)
      {
        FilledStep(caps, i, buf);
        buf := buf + Entry(caps[i]);
        i := i + 1;
      }
      FilledEnd(caps, i, buf);
      r := Accept(buf);
    }
  }

  /** The response buffer holds the entries before `i`. */
  ghost predicate Filled(caps: seq<Cap>, i: nat, buf: seq<byte>) {
    && i <= |caps|
    && buf + Serialised(Fitting(caps[i..], CONF_BUF_SIZE - |buf|)) == Serialised(Fitting(caps, CONF_BUF_SIZE))
  }

  lemma FilledStep(caps: seq<Cap>, i: nat, buf: seq<byte>)
    requires Filled(caps, i, buf) && i < |caps| && |buf| + |caps[i].data| + 2 <= CONF_BUF_SIZE
    ensures Filled(caps, i + 1, buf + Entry(caps[i]))
  {
    FittingStep(caps, i, CONF_BUF_SIZE - |buf|);
    hide Serialised, Fitting;
    var next := buf + Entry(caps[i]);
    assert CONF_BUF_SIZE - |next| == CONF_BUF_SIZE - |buf| - |caps[i].data| - 2;
  }

  lemma FilledEnd(caps: seq<Cap>, i: nat, buf: seq<byte>)
    requires Filled(caps, i, buf) && (i < |caps| ==> |buf| + |caps[i].data| + 2 > CONF_BUF_SIZE)
    ensures buf == Serialised(Fitting(caps, CONF_BUF_SIZE))
  {
    FittingEnd(caps, i, CONF_BUF_SIZE - |buf|);
  }

  lemma FittingStep(caps: seq<Cap>, i: nat, room: int)
    requires i < |caps| && |caps[i].data| + 2 <= room
    ensures Serialised(Fitting(caps[i..], room))
         == Entry(caps[i]) + Serialised(Fitting(caps[i + 1..], room - |caps[i].data| - 2))
  {
    var rest := caps[i..];
    assert rest[1..] == caps[i + 1..];
    assert Fitting(rest, room)[1..] == Fitting(rest[1..], room - |Entry(rest[0])|);
  }

  lemma FittingEnd(caps: seq<Cap>, i: nat, room: int)
    requires i <= |caps| && (i < |caps| ==> |caps[i].data| + 2 > room)
    ensures Serialised(Fitting(caps[i..], room)) == []
  {
  }

  /**
   GET_CONFIGURATION after an accepted SET_CONFIGURATION. A message holds at most 1022 octets of
   capabilities, so all that was read comes back; it is what was sent exactly when that was well formed.
   */
  method GetAfterSet(bytes: seq<byte>) returns (answer: Response, got: Response)
    requires |bytes| <= CONF_BUF_SIZE
    ensures answer.Accept? && Parsed(bytes) != [] ==> got == Accept(Serialised(Parsed(bytes)))
    ensures answer.Accept? && Parsed(bytes) != [] ==>
              (got == Accept(bytes) <==> exists caps :: Serialised(caps) == bytes)
    ensures answer.Accept? && Parsed(bytes) == [] ==> got == Reject(UNSUPPORTED_CONFIGURATION)
  {
    var e := new EndPoint();
    answer := e.SetConfiguration(bytes, true);
    got := e.GetConfiguration();
    var _ := ParsedIsPrefix(bytes);
    AllFit(Parsed(bytes), CONF_BUF_SIZE);
    WellFormedIff(bytes);
  }

  /** A codec entry that is cut short: one entry is read, and two of the five octets come back. */
  lemma MalformedIsCut()
    ensures Parsed([MEDIA_TRANSPORT, 0, MEDIA_CODEC, 5, 1]) == [CapData(MEDIA_TRANSPORT, [])]
    ensures Serialised(Parsed([MEDIA_TRANSPORT, 0, MEDIA_CODEC, 5, 1])) == [MEDIA_TRANSPORT, 0]
  {
    var data: seq<byte> := [MEDIA_TRANSPORT, 0, MEDIA_CODEC, 5, 1];
    var c := CapData(MEDIA_TRANSPORT, []);
    assert data == Serialised([c]) + [MEDIA_CODEC, 5, 1] by { assert [c][1..] == []; }
    ParseUndoesSerialise([c], [MEDIA_CODEC, 5, 1]);
    assert [c][1..] == [];
  }

  /** What `avdtp_set_configuration` sends, the other side reads back as the same list. */
  method ConfigureRemote(caps: seq<Cap>, delayReporting: bool) returns (sent: seq<Cap>, remote: Parse)
    ensures sent == caps + if delayReporting then [CapData(DELAY_REPORTING, [])] else []
    ensures remote.caps == sent && (delayReporting ==> remote.delayReporting)
  {
    sent := caps;
    if delayReporting {
      sent := sent + [CapData(DELAY_REPORTING, [])];
      ReportsDelaySnoc(caps, CapData(DELAY_REPORTING, []));
    }
    var bytes := Serialise(sent);
    ParseUndoesSerialise(sent, []);
    assert bytes + [] == bytes;
    remote := CapsToList(bytes);
  }
}
