/**
 The list responses of the attribute protocol (`attrib/att.c`): encoders that fill a PDU
 with as many elements as fit, and decoders that cut a PDU into elements.
 */
module AttLists {
  import opened Bytes
  import opened Sequences
  import opened Arithmetic

  const OP_FIND_INFO_RESP: byte := 0x05
  const OP_FIND_BY_TYPE_RESP: byte := 0x07
  const OP_READ_BY_TYPE_RESP: byte := 0x09
  const OP_READ_BY_GROUP_RESP: byte := 0x11

  type Element = seq<byte>

  /** `struct att_data_list`: elements of one length. */
  datatype DataList = DataList(elen: nat, data: seq<Element>) {
    ghost predicate Valid() {
      forall i | 0 <= i < |data| :: |data[i]| == elen
    }
  }

  /** The first `l` octets of each element. */
  function Cut(data: seq<Element>, l: nat): (r: seq<Element>)
    requires forall i | 0 <= i < |data| :: l <= |data[i]|
    ensures |r| == |data| && forall i | 0 <= i < |data| :: r[i] == data[i][..l]
  {
    seq(|data|, i requires 0 <= i < |data| => data[i][..l])
  }

  /** The first `k` elements fit in `room`, and no more of them do. */
  ghost predicate LongestPrefix(k: nat, data: seq<Element>, room: nat) {
    && k <= |data|
    && |Joined(data[..k])| <= room
    && (k < |data| ==> |Joined(data[..k + 1])| > room)
  }

  lemma JoinedNext(data: seq<Element>, i: nat)
    requires i < |data|
    ensures Joined(data[..i + 1]) == Joined(data[..i]) + data[i]
  {
    JoinedSnoc(data[..i], data[i]);
    assert data[..i] + [data[i]] == data[..i + 1];
  }

  // -------------------------------------------------------------------- encoding

  /** The copy loop of the encoders: elements cut to `l` octets while they fit in `len`. */
  method FillElements(list: DataList, l: nat, pdu: array<byte>, w0: nat, len: nat) returns (w: nat, ghost k: nat)
    requires list.Valid() && l <= list.elen && w0 <= len <= pdu.Length
    modifies pdu
    ensures LongestPrefix(k, Cut(list.data, l), len - w0) && w0 <= w <= len
    ensures pdu[..w] == old(pdu[..w0]) + Joined(Cut(list.data, l)[..k])
  {
    w := w0;
    var i: nat := 0;
    ghost var cut := Cut(list.data, l);
    ghost var head := pdu[..w0];
    while i < |list.data| && w + l <= len
      invariant i <= |list.data| && w == w0 + |Joined(cut[..i])| <= len
      invariant pdu[..w] == head + Joined(cut[..i])
    {
      CopyInto(pdu, w, list.data[i][..l]);
      assert pdu[..w + l] == pdu[..][..w + l];
      JoinedNext(cut, i);
      w := w + l;
      i := i + 1;
    }
    k := i;
    if k < |cut| { JoinedNext(cut, k); }
  }

  lemma CutWhole(data: seq<Element>, l: nat)
    requires forall i | 0 <= i < |data| :: |data[i]| == l
    ensures Cut(data, l) == data
  {
    assert forall i | 0 <= i < |data| :: data[i][..l] == data[i];
  }

  /** `enc_read_by_grp_resp`. */
  method EncReadByGroupResp(list: DataList, pdu: array<byte>, len: nat) returns (w: nat, ghost k: nat)
    requires list.Valid() && len <= pdu.Length && len < 0x1_0000
    modifies pdu
    ensures w == 0 <==> len < list.elen + 2
    ensures w == 0 ==> pdu[..] == old(pdu[..])
    ensures w > 0 ==> LongestPrefix(k, list.data, len - 2) && w <= len
                      && pdu[..w] == [OP_READ_BY_GROUP_RESP, list.elen % 256] + Joined(list.data[..k])
  {
    w, k := 0, 0;
    if len < list.elen + 2 { return; }
    pdu[0] := OP_READ_BY_GROUP_RESP;
    pdu[1] := list.elen % 256;
    w, k := FillElements(list, list.elen, pdu, 2, len);
    CutWhole(list.data, list.elen);
  }

  /** `enc_find_by_type_resp`. */
  method EncFindByTypeResp(list: DataList, pdu: array<byte>, len: nat) returns (w: nat, ghost k: nat)
    requires list.Valid() && len <= pdu.Length && len < 0x1_0000
    modifies pdu
    ensures w == 0 <==> len < list.elen + 1
    ensures w == 0 ==> pdu[..] == old(pdu[..])
    ensures w > 0 ==> LongestPrefix(k, list.data, len - 1) && w <= len
                      && pdu[..w] == [OP_FIND_BY_TYPE_RESP] + Joined(list.data[..k])
  {
    w, k := 0, 0;
    if len < list.elen + 1 { return; }
    pdu[0] := OP_FIND_BY_TYPE_RESP;
    w, k := FillElements(list, list.elen, pdu, 1, len);
    CutWhole(list.data, list.elen);
  }

  /** `enc_read_by_type_resp`: elements longer than the PDU allows are cut. */
  method EncReadByTypeResp(list: DataList, pdu: array<byte>, len: nat) returns (w: nat, ghost k: nat)
    requires list.Valid() && 2 <= len <= pdu.Length
    modifies pdu
    ensures var l := if len - 2 < list.elen then len - 2 else list.elen;
            && LongestPrefix(k, Cut(list.data, l), len - 2) && 2 <= w <= len
            && pdu[..w] == [OP_READ_BY_TYPE_RESP, l % 256] + Joined(Cut(list.data, l)[..k])
  {
    var l: nat := if len - 2 < list.elen then len - 2 else list.elen;
    pdu[0] := OP_READ_BY_TYPE_RESP;
    pdu[1] := l % 256;
    w, k := FillElements(list, l, pdu, 2, len);
  }

  /** `enc_find_info_resp`. */
  method EncFindInfoResp(format: byte, list: DataList, pdu: array<byte>, len: nat) returns (w: nat, ghost k: nat)
    requires list.Valid() && len <= pdu.Length
    modifies pdu
    ensures w == 0 <==> len < list.elen + 2
    ensures w == 0 ==> pdu[..] == old(pdu[..])
    ensures w > 0 ==> LongestPrefix(k, list.data, len - 2) && w <= len
                      && pdu[..w] == [OP_FIND_INFO_RESP, format] + Joined(list.data[..k])
  {
    w, k := 0, 0;
    if len < list.elen + 2 { return; }
    pdu[0] := OP_FIND_INFO_RESP;
    pdu[1] := format;
    w, k := FillElements(list, list.elen, pdu, 2, len);
    CutWhole(list.data, list.elen);
  }

  // -------------------------------------------------------------------- decoding

  /** As many elements of `elen` octets as `s` holds; what is left over is ignored. */
  function Elements(s: seq<byte>, elen: nat): (r: seq<Element>)
    requires elen > 0
    ensures forall i | 0 <= i < |r| :: |r[i]| == elen
  {
    if |s| < elen then [] else [s[..elen]] + Elements(s[elen..], elen)
  }

  /** The copy loop of the decoders. */
  method CutElements(pdu: seq<byte>, elen: nat) returns (list: DataList)
    requires |pdu| >= 2 && elen > 0
    ensures list == DataList(elen, Elements(pdu[2..], elen)) && list.Valid()
  {
    hide Quotient;
    var num := Quotient(|pdu| - 2, elen);
    var data: seq<Element> := [];
    var at := 2;
    for i := 0 to num
      invariant 2 <= at <= |pdu| && num - i == Quotient(|pdu| - at, elen)
      invariant data + Elements(pdu[at..], elen) == Elements(pdu[2..], elen)
    {
      QuotientStep(|pdu| - at, elen);
      assert pdu[at..][elen..] == pdu[at + elen..] && pdu[at..][..elen] == pdu[at..at + elen];
      assert Elements(pdu[at..], elen) == [pdu[at..at + elen]] + Elements(pdu[at + elen..], elen);
      data := data + [pdu[at..at + elen]];
      at := at + elen;
    }
    QuotientStep(|pdu| - at, elen);
    list := DataList(elen, data);
  }

  /** `dec_read_by_grp_resp` and `dec_read_by_type_resp`: the element length is the second octet. */
  function DecodedList(op: byte, pdu: seq<byte>): (r: Option<DataList>)
    requires |pdu| >= 2 && pdu[1] != 0
    ensures r.Some? ==> r.value.Valid()
  {
    if pdu[0] != op then None else Some(DataList(pdu[1], Elements(pdu[2..], pdu[1])))
  }

  method DecList(op: byte, pdu: seq<byte>) returns (list: Option<DataList>)
    requires |pdu| >= 2 && pdu[1] != 0
    ensures list == DecodedList(op, pdu)
  {
    if pdu[0] != op { return None; }
    var l := CutElements(pdu, pdu[1]);
    list := Some(l);
  }

  /** The element length of a Find Information format. */
  function InfoLength(format: byte): nat {
    if format == 1 then 4 else if format == 2 then 18 else 2
  }

  /** `dec_find_info_resp`. */
  method DecFindInfoResp(pdu: seq<byte>) returns (list: Option<DataList>, format: byte)
    requires |pdu| >= 2
    ensures list.Some? <==> pdu[0] == OP_FIND_INFO_RESP
    ensures list.Some? ==>
              && format == pdu[1]
              && list.value == DataList(InfoLength(format), Elements(pdu[2..], InfoLength(format)))
  {
    format := pdu[1];
    if pdu[0] != OP_FIND_INFO_RESP { return None, format; }
    var elen := 2;
    if format == 0x01 { elen := elen + 2; } else if format == 0x02 { elen := elen + 16; }
    var l := CutElements(pdu, elen);
    list := Some(l);
  }

  datatype Range = Range(start: u16, end: u16)

  function ToRange(e: Element): Range
    requires |e| == 4
  {
    Range(GetU16(e), GetU16(e[2..]))
  }

  function ToRanges(es: seq<Element>): (r: seq<Range>)
    requires forall i | 0 <= i < |es| :: |es[i]| == 4
    ensures |r| == |es| && forall i | 0 <= i < |es| :: r[i] == ToRange(es[i])
  {
    seq(|es|, i requires 0 <= i < |es| => ToRange(es[i]))
  }

  /** `dec_find_by_type_resp`: a PDU that is too short or of another kind gives no range. */
  method DecFindByTypeResp(pdu: seq<byte>) returns (matches: seq<Range>)
    ensures matches == if |pdu| < 5 || pdu[0] != OP_FIND_BY_TYPE_RESP then [] else ToRanges(Elements(pdu[1..], 4))
  {
    matches := [];
    if |pdu| < 5 || pdu[0] != OP_FIND_BY_TYPE_RESP { return; }
    var offset := 1;
    while |pdu| >= offset + 4
      invariant 1 <= offset <= |pdu|
      invariant matches + ToRanges(Elements(pdu[offset..], 4)) == ToRanges(Elements(pdu[1..], 4))
    {
      ghost var e := pdu[offset..][..4];
      assert pdu[offset..][4..] == pdu[offset + 4..];
      assert e[2..] == pdu[offset + 2..offset + 4] && e[..2] == pdu[offset..offset + 2];
      assert ToRanges(Elements(pdu[offset..], 4)) == [ToRange(e)] + ToRanges(Elements(pdu[offset + 4..], 4));
      matches := matches + [Range(GetU16(pdu[offset..offset + 2]), GetU16(pdu[offset + 2..offset + 4]))];
      offset := offset + 4;
    }
    assert Elements(pdu[offset..], 4) == [];
  }

  // ------------------------------------------------------------------- round trip

  /** Cutting up what was joined gives the elements back. */
  lemma {:induction false} ElementsOfJoined(data: seq<Element>, l: nat)
    requires l > 0 && forall i | 0 <= i < |data| :: |data[i]| == l
    ensures Elements(Joined(data), l) == data
  {
    if data != [] {
      ElementsOfJoined(data[1..], l);
      assert Joined(data)[..l] == data[0] && Joined(data)[l..] == Joined(data[1..]);
    }
  }

  /**
   A Read By Group response decodes to the longest prefix of the elements that fits if and only if its length octet
   can hold their length. (A length octet of 0 is a division by zero in the decoder.)
   */
  method GroupRoundTrip(list: DataList, len: nat) returns (back: Option<DataList>)
    requires list.Valid() && list.elen % 256 != 0 && list.elen + 2 <= len < 0x1_0000
    ensures (exists k: nat :: LongestPrefix(k, list.data, len - 2) && back == Some(DataList(list.elen, list.data[..k])))
            <==> list.elen <= 255
  {
    var pdu := new byte[len];
    var w;
    ghost var k;
    w, k := EncReadByGroupResp(list, pdu, len);
    ghost var prefix := list.data[..k];
    if list.elen <= 255 { ElementsOfJoined(prefix, list.elen); }
    hide LongestPrefix, Elements, Joined;
    assert pdu[..w][2..] == Joined(prefix);
    back := DecList(OP_READ_BY_GROUP_RESP, pdu[..w]);
    assert back.value.elen == list.elen % 256;
  }

  /** A Read By Type response does so too, with the elements cut to what one PDU carries. */
  method TypeRoundTrip(list: DataList, len: nat) returns (back: Option<DataList>)
    requires list.Valid() && 3 <= len && (if len - 2 < list.elen then len - 2 else list.elen) % 256 != 0
    ensures var l := if len - 2 < list.elen then len - 2 else list.elen;
            (exists k: nat ::
               && LongestPrefix(k, Cut(list.data, l), len - 2)
               && back == Some(DataList(l, Cut(list.data, l)[..k])))
            <==> l <= 255
  {
    var pdu := new byte[len];
    var w;
    ghost var k;
    w, k := EncReadByTypeResp(list, pdu, len);
    ghost var l := if len - 2 < list.elen then len - 2 else list.elen;
    ghost var prefix := Cut(list.data, l)[..k];
    if l <= 255 { ElementsOfJoined(prefix, l); }
    hide LongestPrefix, Elements, Joined;
    assert pdu[..w][2..] == Joined(prefix);
    back := DecList(OP_READ_BY_TYPE_RESP, pdu[..w]);
    assert back.value.elen == l % 256;
  }

  /** A Find Information response does so exactly when the element length is that of its format. */
  method InfoRoundTrip(format: byte, list: DataList, len: nat) returns (back: Option<DataList>, f: byte)
    requires list.Valid() && list.elen + 2 <= len
    ensures f == format && back.Some?
    ensures (exists k: nat :: LongestPrefix(k, list.data, len - 2) && back == Some(DataList(list.elen, list.data[..k])))
            <==> list.elen == InfoLength(format)
  {
    var pdu := new byte[len];
    var w;
    ghost var k;
    w, k := EncFindInfoResp(format, list, pdu, len);
    if list.elen == InfoLength(format) {
      ElementsOfJoined(list.data[..k], list.elen);
      assert pdu[..w][2..] == Joined(list.data[..k]);
    }
    back, f := DecFindInfoResp(pdu[..w]);
  }

  /** A handle range on the wire. */
  function RangeElement(r: Range): (e: Element)
    ensures |e| == 4 && ToRange(e) == r
  {
    var e := PutU16(r.start) + PutU16(r.end);
    assert e[2..] == PutU16(r.end);
    e
  }

  function ToElements(ranges: seq<Range>): (es: seq<Element>)
    ensures |es| == |ranges| && forall i | 0 <= i < |ranges| :: es[i] == RangeElement(ranges[i])
  {
    seq(|ranges|, i requires 0 <= i < |ranges| => RangeElement(ranges[i]))
  }

  /** A Find By Type response decodes to the handle ranges of the longest prefix that fits. */
  method RangesRoundTrip(ranges: seq<Range>, len: nat) returns (back: seq<Range>)
    requires 5 <= len < 0x1_0000
    ensures exists k: nat :: LongestPrefix(k, ToElements(ranges), len - 1) && back == ranges[..k]
  {
    var data := ToElements(ranges);
    var pdu := new byte[len];
    var w;
    ghost var k;
    w, k := EncFindByTypeResp(DataList(4, data), pdu, len);
    ElementsOfJoined(data[..k], 4);
    assert pdu[..w][1..] == Joined(data[..k]);
    back := DecFindByTypeResp(pdu[..w]);
    assert LongestPrefix(k, data, len - 1) && back == ranges[..k];
  }
}
