/**
 Service and characteristic discovery (`attrib/gatt.c`): requests repeated from the handle
 after the last answer, against any conforming server and however it groups its answers.
 */
module GattDiscovery {
  import opened Bytes
  import opened AttLists
  import opened AttReply

  const ECODE_INVALID_HANDLE: byte := 0x01
  const ECODE_ATTR_NOT_FOUND: byte := 0x0A
  const ECODE_IO: byte := 0xFF
  const OP_READ_BY_GROUP_REQ: byte := 0x10
  const OP_FIND_BY_TYPE_REQ: byte := 0x06
  const OP_READ_BY_TYPE_REQ: byte := 0x08
  const PRIM_SVC_UUID: u16 := 0x2800
  const CHARAC_UUID: u16 := 0x2803

  type Uuid = u: seq<byte> | |u| == 2 || |u| == 16 witness [0, 0]

  /** The 128-bit form of a UUID, as it goes on the wire. */
  function Full(u: Uuid): (r: seq<byte>)
    ensures |r| == 16
  {
    if |u| == 16 then u
    else [0xFB, 0x34, 0x9B, 0x5F, 0x80, 0x00, 0x00, 0x80, 0x00, 0x10, 0x00, 0x00] + u + [0, 0]
  }

  // -------------------------------------------------------------------- requests

  datatype Request =
    | ByGroup(start: u16, end: u16)
    | ByValue(start: u16, end: u16, value: seq<byte>)
    | ByType(start: u16, end: u16)

  /** `encode_discover_primary` and the request of `gatt_discover_char`; `len` is the MTU. */
  function Encode(r: Request, len: nat): seq<byte> {
    match r
    case ByGroup(s, e) => if len < 7 then [] else [OP_READ_BY_GROUP_REQ] + PutU16(s) + PutU16(e) + PutU16(PRIM_SVC_UUID)
    case ByType(s, e) => if len < 7 then [] else [OP_READ_BY_TYPE_REQ] + PutU16(s) + PutU16(e) + PutU16(CHARAC_UUID)
    case ByValue(s, e, value) =>
      if len < 7 then []
      else [OP_FIND_BY_TYPE_REQ] + PutU16(s) + PutU16(e) + PutU16(PRIM_SVC_UUID)
           + if |value| > len - 7 then value[..len - 7] else value
  }

  /** `dec_read_by_grp_req`, `dec_read_by_type_req` and `dec_find_by_type_req`. */
  function Decode(pdu: seq<byte>): Option<Request> {
    if |pdu| < 7 then None
    else if pdu[0] == OP_READ_BY_GROUP_REQ then Some(ByGroup(GetU16(pdu[1..]), GetU16(pdu[3..])))
    else if pdu[0] == OP_READ_BY_TYPE_REQ then Some(ByType(GetU16(pdu[1..]), GetU16(pdu[3..])))
    else if pdu[0] == OP_FIND_BY_TYPE_REQ then Some(ByValue(GetU16(pdu[1..]), GetU16(pdu[3..]), pdu[7..]))
    else None
  }

  /** A request comes through when the MTU leaves room for the value it carries. */
  lemma RequestRoundTrip(r: Request, len: nat)
    requires len >= 7
    ensures Decode(Encode(r, len)) == Some(r) <==> r.ByValue? ==> |r.value| <= len - 7
  {
    var pdu := Encode(r, len);
    assert pdu[1..][..2] == PutU16(r.start) && pdu[3..][..2] == PutU16(r.end);
    if r.ByValue? { assert pdu[7..] == if |r.value| > len - 7 then r.value[..len - 7] else r.value; }
  }

  // -------------------------------------------------------------------- services

  datatype Service = Service(start: u16, end: u16, uuid: Uuid)

  /** Services in handle order that do not overlap. */
  ghost predicate ServicesOk(db: seq<Service>) {
    && (forall i | 0 <= i < |db| :: 1 <= db[i].start <= db[i].end)
    && (forall i, j | 0 <= i < j < |db| :: db[i].end < db[j].start)
  }

  /** The services from handle `h` on. */
  function From(db: seq<Service>, h: int): seq<Service> {
    if db == [] || db[0].start >= h then db else From(db[1..], h)
  }

  /** The services of one UUID. */
  function Matching(db: seq<Service>, uuid: Uuid): seq<Service> {
    if db == [] then []
    else (if Full(db[0].uuid) == Full(uuid) then [db[0]] else []) + Matching(db[1..], uuid)
  }

  /** Number of first UUIDs of one length: the elements that one list response can carry. */
  function Uniform(us: seq<Uuid>): (n: nat)
    ensures n <= |us| && (us != [] ==> n >= 1)
    ensures forall i | 0 <= i < n :: |us[i]| == |us[0]|
  {
    if us == [] then 0
    else if |us| == 1 || |us[1]| != |us[0]| then 1
    else 1 + Uniform(us[1..])
  }

  /** The UUIDs of a list of services or characteristics. */
  function Uuids<T>(xs: seq<T>, uuid: T -> Uuid): (us: seq<Uuid>)
    ensures |us| == |xs| && forall i | 0 <= i < |xs| :: us[i] == uuid(xs[i])
  {
    seq(|xs|, i requires 0 <= i < |xs| => uuid(xs[i]))
  }

  function ServiceUuid(s: Service): Uuid { s.uuid }

  /** What the server does with its freedom: any non-empty number of the `most` elements possible. */
  function Batch(wish: nat, most: nat): (n: nat)
    requires most >= 1
    ensures 1 <= n <= most
    ensures 1 <= wish <= most ==> n == wish
  {
    if wish < 1 then 1 else if wish > most then most else wish
  }

  function ServiceElement(s: Service): (e: Element)
    ensures |e| == 4 + |s.uuid| && e[4..] == s.uuid
    ensures GetU16(e[0..2]) == s.start && GetU16(e[2..4]) == s.end
  {
    var e := PutU16(s.start) + PutU16(s.end) + s.uuid;
    assert e[0..2] == PutU16(s.start) && e[2..4] == PutU16(s.end) && e[4..] == s.uuid;
    e
  }

  function ServiceElements(batch: seq<Service>): (es: seq<Element>)
    ensures |es| == |batch| && forall i | 0 <= i < |batch| :: es[i] == ServiceElement(batch[i])
  {
    seq(|batch|, i requires 0 <= i < |batch| => ServiceElement(batch[i]))
  }

  function RangeElements(batch: seq<Service>): (es: seq<Element>)
    ensures |es| == |batch| && forall i | 0 <= i < |batch| :: es[i] == RangeElement(Range(batch[i].start, batch[i].end))
  {
    seq(|batch|, i requires 0 <= i < |batch| => RangeElement(Range(batch[i].start, batch[i].end)))
  }

  /** A conforming server of primary services. */
  function AnswerPrimary(db: seq<Service>, request: seq<byte>, wish: nat): Reply {
    match Decode(request)
    case Some(ByGroup(s, _)) => AnswerGroup(From(db, s), wish)
    case Some(ByValue(s, _, value)) =>
      AnswerValue(if |value| == 2 || |value| == 16 then From(Matching(db, value), s) else [], wish)
    case _ => Reply(ECODE_IO, [])
  }

  function AnswerGroup(rest: seq<Service>, wish: nat): Reply {
    if rest == [] then Reply(ECODE_ATTR_NOT_FOUND, [])
    else
      var batch := rest[..Batch(wish, Uniform(Uuids(rest, ServiceUuid)))];
      Reply(0, [OP_READ_BY_GROUP_RESP, 4 + |rest[0].uuid|] + Joined(ServiceElements(batch)))
  }

  function AnswerValue(rest: seq<Service>, wish: nat): Reply {
    if rest == [] then Reply(ECODE_ATTR_NOT_FOUND, [])
    else Reply(0, [OP_FIND_BY_TYPE_RESP] + Joined(RangeElements(rest[..Batch(wish, |rest|)])))
  }

  /** `struct att_primary`. */
  datatype Primary = Primary(start: u16, end: u16, uuid: seq<byte>)

  function Listed(batch: seq<Service>): (r: seq<Primary>)
    ensures |r| == |batch| && forall i | 0 <= i < |batch| ::
              r[i] == Primary(batch[i].start, batch[i].end, Full(batch[i].uuid))
  {
    seq(|batch|, i requires 0 <= i < |batch| => Primary(batch[i].start, batch[i].end, Full(batch[i].uuid)))
  }

  function Ranges(batch: seq<Service>): (r: seq<Range>)
    ensures |r| == |batch| && forall i | 0 <= i < |batch| :: r[i] == Range(batch[i].start, batch[i].end)
  {
    seq(|batch|, i requires 0 <= i < |batch| => Range(batch[i].start, batch[i].end))
  }

  datatype Outcome = Pending | Called(status: byte)

  function Err(status: byte): byte {
    if status == ECODE_ATTR_NOT_FOUND then 0 else status
  }

  /** The element of a group response as a service. */
  function Parsed(e: Element): Primary
    requires |e| == 6 || |e| == 20
  {
    Primary(GetU16(e[0..2]), GetU16(e[2..4]), Full(e[4..]))
  }

  function ParsedAll(es: seq<Element>): (r: seq<Primary>)
    requires forall i | 0 <= i < |es| :: |es[i]| == 6 || |es[i]| == 20
    ensures |r| == |es| && forall i | 0 <= i < |es| :: r[i] == Parsed(es[i])
  {
    seq(|es|, i requires 0 <= i < |es| => Parsed(es[i]))
  }

  /** The loop of `primary_all_cb` over a response; elements of another length are skipped. */
  method ParseServices(list: DataList) returns (found: seq<Primary>, end: u16)
    requires list.Valid() && list.elen >= 4
    ensures list.elen == 6 || list.elen == 20 ==> found == ParsedAll(list.data)
    ensures end == if list.data == [] then 0 else GetU16(list.data[|list.data| - 1][2..4])
  {
    hide Full;
    found, end := [], 0;
    for i := 0 to |list.data|
      invariant end == if i == 0 then 0 else GetU16(list.data[i - 1][2..4])
      invariant list.elen == 6 || list.elen == 20 ==> found == ParsedAll(list.data)[..i]
    {
      var e := list.data[i];
      var start := GetU16(e[0..2]);
      end := GetU16(e[2..4]);
      if list.elen == 6 || list.elen == 20 {
        found := found + [Primary(start, end, Full(e[4..]))];
      }
    }
  }

  /** `struct discover_primary`, for all services or for those of one UUID. */
  class PrimaryDiscovery {
    const len: nat
    var primaries: seq<Primary>
    var ranges: seq<Range>
    var outcome: Outcome

    constructor (len: nat)
      ensures this.len == len && primaries == [] && ranges == [] && outcome == Pending
    {
      this.len, primaries, ranges, outcome := len, [], [], Pending;
    }

    /** `primary_all_cb`. */
    method AllCb(status: byte, pdu: seq<byte>) returns (request: seq<byte>)
      requires outcome == Pending
      requires status == 0 ==> |pdu| >= 2 && pdu[1] != 0 && (pdu[0] == OP_READ_BY_GROUP_RESP ==> pdu[1] >= 4)
      modifies this
      ensures status != 0 ==> outcome == Called(Err(status)) && primaries == old(primaries)
      ensures status == 0 && pdu[0] != OP_READ_BY_GROUP_RESP ==>
                outcome == Called(ECODE_IO) && primaries == old(primaries)
      ensures status == 0 && pdu[0] == OP_READ_BY_GROUP_RESP && (pdu[1] == 6 || pdu[1] == 20) ==>
                var es := Elements(pdu[2..], pdu[1]);
                var end := if es == [] then 0 else GetU16(es[|es| - 1][2..4]);
                && primaries == old(primaries) + ParsedAll(es)
                && (if end != 0xFFFF then request == Encode(ByGroup(end + 1, 0xFFFF), len) && outcome == Pending
                    else outcome == Called(0))
    {
      hide Full, Elements, Encode, ParsedAll;
      request := [];
      if status != 0 {
        outcome := Called(if status == ECODE_ATTR_NOT_FOUND then 0 else status);
        return;
      }
      var list := DecList(OP_READ_BY_GROUP_RESP, pdu);
      if list.None? {
        outcome := Called(ECODE_IO);
        return;
      }
      var found, end := ParseServices(list.value);
      primaries := primaries + found;
      if end != 0xFFFF {
        request := Encode(ByGroup(end + 1, 0xFFFF), len);
      } else {
        outcome := Called(0);
      }
    }

    /** `primary_by_uuid_cb`. */
    method ByUuidCb(status: byte, pdu: seq<byte>, uuid: Uuid) returns (request: seq<byte>)
      requires outcome == Pending && len >= 7
      modifies this
      ensures status != 0 ==> outcome == Called(Err(status)) && ranges == old(ranges)
      ensures status == 0 ==>
                var rs := if |pdu| < 5 || pdu[0] != OP_FIND_BY_TYPE_RESP then [] else ToRanges(Elements(pdu[1..], 4));
                && ranges == old(ranges) + rs
                && (if rs == [] || rs[|rs| - 1].end == 0xFFFF then outcome == Called(0)
                    else request == Encode(ByValue(rs[|rs| - 1].end + 1, 0xFFFF, uuid), len) && outcome == Pending)
    {
      request := [];
      if status != 0 {
        outcome := Called(if status == ECODE_ATTR_NOT_FOUND then 0 else status);
        return;
      }
      var rs := DecFindByTypeResp(pdu);
      if rs == [] {
        outcome := Called(0);
        return;
      }
      ranges := ranges + rs;
      var last := rs[|rs| - 1];
      if last.end == 0xFFFF {
        outcome := Called(0);
        return;
      }
      request := Encode(ByValue(last.end + 1, 0xFFFF, uuid), len);
    }
  }

  // ---------------------------------------------------------- services: correctness

  /** Past the first `n` services, the server goes on with the others. */
  lemma {:induction false} FromPast(db: seq<Service>, h: int, n: nat)
    requires ServicesOk(db) && 1 <= n <= |db| && h == db[n - 1].end + 1
    ensures From(db, h) == db[n..]
    decreases n
  {
    assert ServicesOk(db[1..]);
    if n == 1 {
      assert db[1..] == [] || db[1].start >= h;
    } else {
      assert db[1..][n - 2] == db[n - 1] && db[1..][n - 1..] == db[n..];
      assert db[0].end < db[n - 1].start;
      FromPast(db[1..], h, n - 1);
    }
  }

  lemma {:induction false} MatchingIn(db: seq<Service>, uuid: Uuid, i: nat)
    requires i < |Matching(db, uuid)|
    ensures Matching(db, uuid)[i] in db
  {
    hide Full;
    var hit := Full(db[0].uuid) == Full(uuid);
    if !(hit && i == 0) { MatchingIn(db[1..], uuid, if hit then i - 1 else i); }
  }

  lemma {:induction false} MatchingOk(db: seq<Service>, uuid: Uuid)
    requires ServicesOk(db)
    ensures ServicesOk(Matching(db, uuid))
  {
    hide Full;
    if db != [] {
      assert ServicesOk(db[1..]);
      MatchingOk(db[1..], uuid);
      var m := Matching(db[1..], uuid);
      forall i | 0 <= i < |m| ensures db[0].end < m[i].start { MatchingIn(db[1..], uuid, i); }
      if Full(db[0].uuid) == Full(uuid) { ServicesCons(db[0], m); } else { assert [] + m == m; }
    }
  }

  lemma ServicesCons(s: Service, m: seq<Service>)
    requires ServicesOk(m) && 1 <= s.start <= s.end && forall i | 0 <= i < |m| :: s.end < m[i].start
    ensures ServicesOk([s] + m)
  {
    var t := [s] + m;
    assert forall i | 0 < i < |t| :: t[i] == m[i - 1];
  }

  /** What the client reads out of a group response. */
  lemma GroupDecodes(batch: seq<Service>, ulen: nat)
    requires (ulen == 2 || ulen == 16) && forall i | 0 <= i < |batch| :: |batch[i].uuid| == ulen
    ensures var pdu := [OP_READ_BY_GROUP_RESP, 4 + ulen] + Joined(ServiceElements(batch));
            Elements(pdu[2..], 4 + ulen) == ServiceElements(batch) && ParsedAll(ServiceElements(batch)) == Listed(batch)
  {
    var es := ServiceElements(batch);
    var pdu := [OP_READ_BY_GROUP_RESP, 4 + ulen] + Joined(es);
    assert pdu[2..] == Joined(es);
    ElementsOfJoined(es, 4 + ulen);
  }

  /** The client reads the services of `batch` from a response. */
  ghost predicate GroupPdu(pdu: seq<byte>, batch: seq<Service>) {
    && |pdu| >= 2 && pdu[0] == OP_READ_BY_GROUP_RESP && (pdu[1] == 6 || pdu[1] == 20)
    && var es := Elements(pdu[2..], pdu[1]);
    && 0 < |es| == |batch| && GetU16(es[|es| - 1][2..4]) == batch[|batch| - 1].end && ParsedAll(es) == Listed(batch)
  }

  lemma BatchDecodes(batch: seq<Service>, ulen: nat)
    requires batch != [] && (ulen == 2 || ulen == 16) && forall i | 0 <= i < |batch| :: |batch[i].uuid| == ulen
    ensures GroupPdu([OP_READ_BY_GROUP_RESP, 4 + ulen] + Joined(ServiceElements(batch)), batch)
  {
    GroupDecodes(batch, ulen);
    var es, n := ServiceElements(batch), |batch|;
    assert es[n - 1] == ServiceElement(batch[n - 1]);
    assert GetU16(es[n - 1][2..4]) == batch[n - 1].end;
    hide Joined, Elements, Listed, ParsedAll, ServiceElements, ServiceElement, GetU16;
  }

  lemma RangesDecode(batch: seq<Service>)
    requires batch != []
    ensures var pdu := [OP_FIND_BY_TYPE_RESP] + Joined(RangeElements(batch));
            |pdu| >= 5 && ToRanges(Elements(pdu[1..], 4)) == Ranges(batch)
  {
    var es := RangeElements(batch);
    var pdu := [OP_FIND_BY_TYPE_RESP] + Joined(es);
    assert pdu[1..] == Joined(es);
    ElementsOfJoined(es, 4);
  }

  /** The first `k` services were reported and the next request starts right after them. */
  ghost predicate Reported(db: seq<Service>, k: nat, next: int) {
    k <= |db| && 1 <= next <= 0x1_0000 && (if k == 0 then next == 1 else next == db[k - 1].end + 1)
  }

  lemma ReportedFrom(db: seq<Service>, k: nat, next: int)
    requires ServicesOk(db) && Reported(db, k, next)
    ensures From(db, next) == db[k..]
  {
    if k > 0 { FromPast(db, next, k); } else { assert db[0..] == db; }
  }

  /** A batch of `n` more services is reported. */
  lemma ReportedNext(db: seq<Service>, k: nat, next: int, n: nat)
    requires ServicesOk(db) && Reported(db, k, next) && n >= 1 && k + n <= |db|
    ensures Reported(db, k + n, db[k + n - 1].end + 1) && db[k + n - 1].end + 1 > next
    ensures db[k + n - 1].end == 0xFFFF ==> k + n == |db|
    ensures Listed(db[..k]) + Listed(db[k..][..n]) == Listed(db[..k + n])
    ensures Ranges(db[..k]) + Ranges(db[k..][..n]) == Ranges(db[..k + n])
    ensures db[k..][..n][n - 1] == db[k + n - 1]
  {
    if k + n < |db| { assert db[k + n - 1].end < db[k + n].start; }
  }

  lemma GroupRequest(db: seq<Service>, next: u16, wish: nat, len: nat)
    requires len >= 7
    ensures AnswerPrimary(db, Encode(ByGroup(next, 0xFFFF), len), wish) == AnswerGroup(From(db, next), wish)
  {
    RequestRoundTrip(ByGroup(next, 0xFFFF), len);
    hide AnswerGroup, Encode, Decode, From;
  }

  lemma ValueRequest(db: seq<Service>, uuid: Uuid, next: u16, wish: nat, len: nat)
    requires len >= 7 + |uuid|
    ensures AnswerPrimary(db, Encode(ByValue(next, 0xFFFF, uuid), len), wish)
              == AnswerValue(From(Matching(db, uuid), next), wish)
  {
    RequestRoundTrip(ByValue(next, 0xFFFF, uuid), len);
    hide AnswerValue, Encode, Decode, From, Matching;
  }

  /** The answer to a group request that starts right after the first `k` services. */
  lemma GroupAnswer(db: seq<Service>, k: nat, next: u16, wish: nat, len: nat) returns (n: nat)
    requires ServicesOk(db) && Reported(db, k, next) && len >= 7
    ensures var reply := AnswerPrimary(db, Encode(ByGroup(next, 0xFFFF), len), wish);
            if k == |db| then n == 0 && reply == Reply(ECODE_ATTR_NOT_FOUND, [])
            else
              && 1 <= n <= |db| - k && (forall i | 0 <= i < n :: |db[k..][..n][i].uuid| == |db[k].uuid|)
              && reply == Reply(0, [OP_READ_BY_GROUP_RESP, 4 + |db[k].uuid|] + Joined(ServiceElements(db[k..][..n])))
  {
    GroupRequest(db, next, wish, len);
    ReportedFrom(db, k, next);
    hide ServicesOk, From, Encode, AnswerPrimary, Joined;
    n := if k == |db| then 0 else Batch(wish, Uniform(Uuids(db[k..], ServiceUuid)));
  }

  /** What that answer adds to the services reported. */
  lemma GroupStep(db: seq<Service>, k: nat, next: u16, wish: nat, len: nat) returns (n: nat)
    requires ServicesOk(db) && Reported(db, k, next) && len >= 7
    ensures var reply := AnswerPrimary(db, Encode(ByGroup(next, 0xFFFF), len), wish);
            if k == |db| then n == 0 && reply.status == ECODE_ATTR_NOT_FOUND
            else
              && 1 <= n <= |db| - k && reply.status == 0 && GroupPdu(reply.pdu, db[k..][..n])
              && db[k..][..n][n - 1] == db[k + n - 1]
              && Listed(db[..k]) + Listed(db[k..][..n]) == Listed(db[..k + n])
    ensures n > 0 ==>
              && Reported(db, k + n, db[k + n - 1].end + 1) && db[k + n - 1].end + 1 > next
              && (db[k + n - 1].end == 0xFFFF ==> k + n == |db|)
  {
    assert k <= |db|;
    hide AnswerPrimary, Encode, Joined, ServicesOk, Reported, Listed, ServiceElements, GroupPdu;
    n := GroupAnswer(db, k, next, wish, len);
    if k < |db| {
      ReportedNext(db, k, next, n);
      BatchDecodes(db[k..][..n], |db[k].uuid|);
    }
  }

  /** One request and its answer, in the discovery of all services. */
  method AllExchange(db: seq<Service>, d: PrimaryDiscovery, request: seq<byte>, wish: nat, ghost k: nat,
      ghost next: u16)
    returns (request': seq<byte>, ghost k': nat, ghost next': int)
    requires ServicesOk(db) && d.outcome == Pending && d.len >= 7 && Reported(db, k, next)
    requires request == Encode(ByGroup(next, 0xFFFF), d.len) && d.primaries == Listed(db[..k])
    modifies d
    ensures d.outcome.Called? ==> d.outcome.status == 0 && d.primaries == Listed(db)
    ensures d.outcome.Pending? ==>
              && Reported(db, k', next') && next < next' < 0x1_0000 && k < k' && d.primaries == Listed(db[..k'])
              && request' == Encode(ByGroup(next', 0xFFFF), d.len)
  {
    hide ServicesOk, AnswerPrimary, Encode, Listed, ParsedAll, Elements, From;
    ghost var n := GroupStep(db, k, next, wish, d.len);
    k', next' := k + n, if n > 0 then db[k + n - 1].end + 1 else next;
    assert db[..|db|] == db;
    var reply := AnswerPrimary(db, request, wish);
    request' := d.AllCb(reply.status, reply.pdu);
  }

  /** `gatt_discover_primary` without a UUID: one callback with status 0 and every service in order. */
  method DiscoverAll(db: seq<Service>, len: nat, wishes: nat -> nat)
    returns (primaries: seq<Primary>, status: byte, requests: nat)
    requires ServicesOk(db) && len >= 7
    ensures status == 0 && primaries == Listed(db) && requests <= |db| + 1
  {
    hide Listed, Encode, ServicesOk;
    var d := new PrimaryDiscovery(len);
    var request := Encode(ByGroup(1, 0xFFFF), len);
    ghost var k: nat, next: int := 0, 1;
    requests := 0;
    assert Listed(db[..0]) == [];
    while d.outcome == Pending
      invariant d.len == len
      invariant d.outcome.Called? ==> d.outcome.status == 0 && d.primaries == Listed(db) && requests <= |db| + 1
      invariant d.outcome.Pending? ==>
                  && Reported(db, k, next) && next < 0x1_0000 && d.primaries == Listed(db[..k]) && requests <= k
                  && request == Encode(ByGroup(next, 0xFFFF), len)
      decreases if d.outcome.Pending? then 1 else 0, 0x1_0000 - next
    {
      request, k, next := AllExchange(db, d, request, wishes(requests), k, next);
      requests := requests + 1;
    }
    primaries, status := d.primaries, d.outcome.status;
  }

  /** The answer to a request by UUID that starts right after the first `k` services of that UUID. */
  lemma ValueAnswer(db: seq<Service>, uuid: Uuid, k: nat, next: u16, wish: nat, len: nat) returns (n: nat)
    requires ServicesOk(db) && Reported(Matching(db, uuid), k, next) && len >= 7 + |uuid|
    ensures var m, reply := Matching(db, uuid), AnswerPrimary(db, Encode(ByValue(next, 0xFFFF, uuid), len), wish);
            if k == |m| then n == 0 && reply == Reply(ECODE_ATTR_NOT_FOUND, [])
            else 1 <= n <= |m| - k && reply == Reply(0, [OP_FIND_BY_TYPE_RESP] + Joined(RangeElements(m[k..][..n])))
  {
    var m := Matching(db, uuid);
    MatchingOk(db, uuid);
    ValueRequest(db, uuid, next, wish, len);
    ReportedFrom(m, k, next);
    hide ServicesOk, From, Encode, AnswerPrimary, Joined, Matching, Reported;
    n := if k == |m| then 0 else Batch(wish, |m| - k);
  }

  /** The same for a request by UUID, where `m` are the services of that UUID. */
  lemma ValueStep(db: seq<Service>, uuid: Uuid, k: nat, next: u16, wish: nat, len: nat) returns (n: nat)
    requires ServicesOk(db) && Reported(Matching(db, uuid), k, next) && len >= 7 + |uuid|
    ensures var m, reply := Matching(db, uuid), AnswerPrimary(db, Encode(ByValue(next, 0xFFFF, uuid), len), wish);
            if k == |m| then n == 0 && reply.status == ECODE_ATTR_NOT_FOUND
            else
              && 1 <= n <= |m| - k && reply.status == 0 && |reply.pdu| >= 5 && reply.pdu[0] == OP_FIND_BY_TYPE_RESP
              && var rs := ToRanges(Elements(reply.pdu[1..], 4));
              && rs != [] && rs[|rs| - 1].end == m[k + n - 1].end
              && Ranges(m[..k]) + rs == Ranges(m[..k + n])
    ensures var m := Matching(db, uuid);
            n > 0 ==>
              && Reported(m, k + n, m[k + n - 1].end + 1) && m[k + n - 1].end + 1 > next
              && (m[k + n - 1].end == 0xFFFF ==> k + n == |m|)
  {
    n := ValueAnswer(db, uuid, k, next, wish, len);
    var m := Matching(db, uuid);
    MatchingOk(db, uuid);
    hide AnswerPrimary, Encode, Matching;
    if k < |m| {
      ReportedNext(m, k, next, n);
      RangesDecode(m[k..][..n]);
    }
  }

  /** One request and its answer, in the discovery by UUID. */
  method ByUuidExchange(db: seq<Service>, uuid: Uuid, d: PrimaryDiscovery, request: seq<byte>, wish: nat,
                        ghost k: nat, ghost next: u16)
    returns (request': seq<byte>, ghost k': nat, ghost next': int)
    requires ServicesOk(db) && d.outcome == Pending && d.len >= 7 + |uuid| && Reported(Matching(db, uuid), k, next)
    requires request == Encode(ByValue(next, 0xFFFF, uuid), d.len) && d.ranges == Ranges(Matching(db, uuid)[..k])
    modifies d
    ensures d.outcome.Called? ==> d.outcome.status == 0 && d.ranges == Ranges(Matching(db, uuid))
    ensures d.outcome.Pending? ==>
              && Reported(Matching(db, uuid), k', next') && next < next' < 0x1_0000 && k < k'
              && d.ranges == Ranges(Matching(db, uuid)[..k'])
              && request' == Encode(ByValue(next', 0xFFFF, uuid), d.len)
  {
    hide ServicesOk, AnswerPrimary, Encode, Ranges, Elements, From, Matching, ToRanges;
    ghost var m := Matching(db, uuid);
    ghost var n := ValueStep(db, uuid, k, next, wish, d.len);
    k', next' := k + n, if n > 0 then m[k + n - 1].end + 1 else next;
    assert m[..|m|] == m;
    var reply := AnswerPrimary(db, request, wish);
    request' := d.ByUuidCb(reply.status, reply.pdu, uuid);
  }

  /**
   `gatt_discover_primary` with a UUID: one callback with status 0 and exactly the services of that UUID, in order.
   */
  method DiscoverByUuid(db: seq<Service>, uuid: Uuid, len: nat, wishes: nat -> nat)
    returns (ranges: seq<Range>, status: byte, requests: nat)
    requires ServicesOk(db) && len >= 7 + |uuid|
    ensures status == 0 && ranges == Ranges(Matching(db, uuid)) && requests <= |Matching(db, uuid)| + 1
  {
    hide Ranges, Encode, ServicesOk, Matching;
    var d := new PrimaryDiscovery(len);
    var request := Encode(ByValue(1, 0xFFFF, uuid), len);
    ghost var m, k: nat, next: int := Matching(db, uuid), 0, 1;
    requests := 0;
    assert Ranges(m[..0]) == [];
    while d.outcome == Pending
      invariant d.len == len
      invariant d.outcome.Called? ==> d.outcome.status == 0 && d.ranges == Ranges(m) && requests <= |m| + 1
      invariant d.outcome.Pending? ==>
                  && Reported(m, k, next) && next < 0x1_0000 && d.ranges == Ranges(m[..k]) && requests <= k
                  && request == Encode(ByValue(next, 0xFFFF, uuid), len)
      decreases if d.outcome.Pending? then 1 else 0, 0x1_0000 - next
    {
      request, k, next := ByUuidExchange(db, uuid, d, request, wishes(requests), k, next);
      requests := requests + 1;
    }
    ranges, status := d.ranges, d.outcome.status;
  }

  // --------------------------------------------------------------- characteristics

  /** A characteristic declaration: its handle, and the properties, value handle and UUID in its value. */
  datatype Char = Char(handle: u16, properties: byte, valueHandle: u16, uuid: Uuid)

  ghost predicate CharsOk(db: seq<Char>) {
    && (forall i | 0 <= i < |db| :: 1 <= db[i].handle)
    && (forall i, j | 0 <= i < j < |db| :: db[i].handle < db[j].handle)
  }

  /** The declarations with a handle in a range. */
  function Within(db: seq<Char>, start: int, end: int): seq<Char> {
    if db == [] then []
    else if start <= db[0].handle <= end then [db[0]] + Within(db[1..], start, end)
    else Within(db[1..], start, end)
  }

  function CharUuid(c: Char): Uuid { c.uuid }

  function CharElement(c: Char): (e: Element)
    ensures |e| == 5 + |c.uuid| && e[5..] == c.uuid && e[2] == c.properties
    ensures GetU16(e[0..2]) == c.handle && GetU16(e[3..5]) == c.valueHandle
  {
    var e := PutU16(c.handle) + [c.properties] + PutU16(c.valueHandle) + c.uuid;
    assert e[0..2] == PutU16(c.handle) && e[3..5] == PutU16(c.valueHandle) && e[5..] == c.uuid;
    e
  }

  function CharElements(batch: seq<Char>): (es: seq<Element>)
    ensures |es| == |batch| && forall i | 0 <= i < |batch| :: es[i] == CharElement(batch[i])
  {
    seq(|batch|, i requires 0 <= i < |batch| => CharElement(batch[i]))
  }

  /** A conforming server of characteristic declarations. */
  function AnswerChars(db: seq<Char>, request: seq<byte>, wish: nat): Reply {
    match Decode(request)
    case Some(ByType(s, e)) => AnswerRange(Within(db, s, e), s, e, wish)
    case _ => Reply(ECODE_IO, [])
  }

  function AnswerRange(rest: seq<Char>, s: u16, e: u16, wish: nat): Reply {
    if s == 0 || s > e then Reply(ECODE_INVALID_HANDLE, [])
    else if rest == [] then Reply(ECODE_ATTR_NOT_FOUND, [])
    else
      var batch := rest[..Batch(wish, Uniform(Uuids(rest, CharUuid)))];
      Reply(0, [OP_READ_BY_TYPE_RESP, 5 + |rest[0].uuid|] + Joined(CharElements(batch)))
  }

  /** `struct att_char`. */
  datatype Found = Found(handle: u16, properties: byte, valueHandle: u16, uuid: seq<byte>)

  /** The characteristics the user asked for, in order. */
  function Selected(cs: seq<Char>, filter: Option<Uuid>): seq<Found> {
    if cs == [] then []
    else
      (if Selects(filter, cs[0].uuid)
       then [Found(cs[0].handle, cs[0].properties, cs[0].valueHandle, Full(cs[0].uuid))] else [])
      + Selected(cs[1..], filter)
  }

  predicate Selects(filter: Option<Uuid>, u: Uuid) {
    filter.Some? ==> Full(filter.value) == Full(u)
  }

  /** Number of declarations of a batch that are looked at: up to and with the first that is not selected. */
  function Looked(batch: seq<Char>, filter: Option<Uuid>): (n: nat)
    ensures n <= |batch| && (batch != [] ==> n >= 1)
  {
    if batch == [] then 0 else if Selects(filter, batch[0].uuid) then 1 + Looked(batch[1..], filter) else 1
  }

  lemma {:induction false} SelectedAppend(a: seq<Char>, b: seq<Char>, filter: Option<Uuid>)
    ensures Selected(a + b, filter) == Selected(a, filter) + Selected(b, filter)
  {
    hide Full;
    if a == [] {
      assert a + b == b;
    } else {
      assert (a + b)[0] == a[0] && (a + b)[1..] == a[1..] + b;
      SelectedAppend(a[1..], b, filter);
    }
  }

  lemma {:induction false} WithinPast(db: seq<Char>, start: int, end: int, n: nat)
    requires CharsOk(db) && 1 <= n <= |Within(db, start, end)|
    ensures var w := Within(db, start, end);
            start <= w[n - 1].handle <= end && Within(db, w[n - 1].handle + 1, end) == w[n..]
  {
    assert CharsOk(db[1..]);
    var w := Within(db, start, end);
    if start <= db[0].handle <= end {
      if n == 1 {
        WithinLater(db[1..], start, db[0].handle + 1, end);
      } else {
        WithinPast(db[1..], start, end, n - 1);
        assert w[1..][n - 2] == w[n - 1] && w[1..][n - 1..] == w[n..];
        WithinIn(db[1..], start, end, n - 2);
      }
    } else {
      WithinPast(db[1..], start, end, n);
      WithinIn(db[1..], start, end, n - 1);
    }
  }

  /** Every declaration has a handle from `later` on, so where the range starts before it does not matter. */
  lemma {:induction false} WithinLater(db: seq<Char>, start: int, later: int, end: int)
    requires CharsOk(db) && start <= later && forall i | 0 <= i < |db| :: later <= db[i].handle
    ensures Within(db, start, end) == Within(db, later, end)
  {
    if db != [] {
      assert CharsOk(db[1..]);
      WithinLater(db[1..], start, later, end);
    }
  }

  lemma {:induction false} WithinIn(db: seq<Char>, start: int, end: int, i: nat)
    requires i < |Within(db, start, end)|
    ensures Within(db, start, end)[i] in db && start <= Within(db, start, end)[i].handle <= end
  {
    if start <= db[0].handle <= end {
      if i > 0 { WithinIn(db[1..], start, end, i - 1); }
    } else {
      WithinIn(db[1..], start, end, i);
    }
  }

  /** An element of a characteristic response. */
  function DecodedChar(e: Element): Char
    requires |e| == 7 || |e| >= 21
  {
    Char(GetU16(e[0..2]), e[2], GetU16(e[3..5]), if |e| == 7 then e[5..7] else e[5..21])
  }

  function DecodedChars(es: seq<Element>): (r: seq<Char>)
    requires forall i | 0 <= i < |es| :: |es[i]| == 7 || |es[i]| >= 21
    ensures |r| == |es| && forall i | 0 <= i < |es| :: r[i] == DecodedChar(es[i])
  {
    seq(|es|, i requires 0 <= i < |es| => DecodedChar(es[i]))
  }

  lemma {:induction false} LookedIs(batch: seq<Char>, filter: Option<Uuid>, n: nat)
    requires n <= |batch| && forall i | 0 <= i < n :: Selects(filter, batch[i].uuid)
    ensures n < |batch| && !Selects(filter, batch[n].uuid) ==> Looked(batch, filter) == n + 1
    ensures n == |batch| ==> Looked(batch, filter) == n
  {
    if n > 0 { LookedIs(batch[1..], filter, n - 1); }
  }

  lemma SelectedNext(cs: seq<Char>, filter: Option<Uuid>, i: nat)
    requires i < |cs|
    ensures Selected(cs[..i + 1], filter) == Selected(cs[..i], filter) +
              if Selects(filter, cs[i].uuid)
              then [Found(cs[i].handle, cs[i].properties, cs[i].valueHandle, Full(cs[i].uuid))] else []
  {
    hide Full;
    SelectedAppend(cs[..i], [cs[i]], filter);
    assert cs[..i] + [cs[i]] == cs[..i + 1] && [cs[i]][1..] == [];
  }

  /** The loop of `char_discovered_cb`, which stops at the first characteristic of another UUID. */
  method ParseChars(list: DataList, filter: Option<Uuid>) returns (found: seq<Found>, last: u16)
    requires list.Valid() && (list.elen == 7 || list.elen >= 21)
    ensures var batch := DecodedChars(list.data);
            var n := Looked(batch, filter);
            found == Selected(batch[..n], filter) && last == if batch == [] then 0 else batch[n - 1].handle
  {
    hide Full, Selected, Looked, DecodedChar;
    found, last := [], 0;
    ghost var batch := DecodedChars(list.data);
    assert Selected(batch[..0], filter) == [] by { EmptySelection(filter); }
    var i := 0;
    while i < |list.data|
      invariant 0 <= i <= |list.data|
      invariant forall j | 0 <= j < i :: Selects(filter, batch[j].uuid)
      invariant found == Selected(batch[..i], filter)
      invariant last == if i == 0 then 0 else batch[i - 1].handle
    {
      var c := ReadChar(list.data[i]);
      last := c.handle;
      SelectedNext(batch, filter, i);
      LookedIs(batch, filter, i);
      if filter.Some? && Full(filter.value) != Full(c.uuid) {
        return;
      }
      found := found + [Found(c.handle, c.properties, c.valueHandle, Full(c.uuid))];
      i := i + 1;
    }
    LookedIs(batch, filter, i);
  }

  /** One element of a response. */
  method ReadChar(e: Element) returns (c: Char)
    requires |e| == 7 || |e| >= 21
    ensures c == DecodedChar(e)
  {
    var uuid: Uuid := if |e| == 7 then e[5..7] else e[5..21];
    c := Char(GetU16(e[0..2]), e[2], GetU16(e[3..5]), uuid);
  }

  lemma EmptySelection(filter: Option<Uuid>)
    ensures Selected([], filter) == []
  {
  }

  /** `struct discover_char`. */
  class CharDiscovery {
    const len: nat
    const end: u16
    const filter: Option<Uuid>
    var characteristics: seq<Found>
    var outcome: Outcome

    constructor (len: nat, end: u16, filter: Option<Uuid>)
      ensures this.len == len && this.end == end && this.filter == filter && characteristics == [] && outcome == Pending
    {
      this.len, this.end, this.filter, characteristics, outcome := len, end, filter, [], Pending;
    }

    /** `char_discovered_cb`: the next request starts right after the last declaration looked at. */
    method CharCb(status: byte, pdu: seq<byte>) returns (request: seq<byte>)
      requires outcome == Pending && len >= 7
      requires status == 0 ==> |pdu| >= 2 && (pdu[1] == 7 || pdu[1] >= 21)
      modifies this
      ensures status != 0 ==> outcome == Called(Err(status)) && characteristics == old(characteristics)
      ensures status == 0 && pdu[0] != OP_READ_BY_TYPE_RESP ==>
                outcome == Called(ECODE_IO) && characteristics == old(characteristics)
      ensures status == 0 && pdu[0] == OP_READ_BY_TYPE_RESP ==>
                var batch := DecodedChars(Elements(pdu[2..], pdu[1]));
                var n := Looked(batch, filter);
                && characteristics == old(characteristics) + Selected(batch[..n], filter)
                && (if batch == [] || batch[n - 1].handle == 0 then outcome == Called(0)
                    else
                      && request == Encode(ByType((batch[n - 1].handle as int + 1) % 0x1_0000, end), len)
                      && outcome == Pending)
    {
      hide Elements, Encode, Selected, DecodedChars;
      request := [];
      if status != 0 {
        outcome := Called(if status == ECODE_ATTR_NOT_FOUND then 0 else status);
        return;
      }
      var list := DecList(OP_READ_BY_TYPE_RESP, pdu);
      if list.None? {
        outcome := Called(ECODE_IO);
        return;
      }
      var found, last := ParseChars(list.value, filter);
      characteristics := characteristics + found;
      if last != 0 {
        var next: int := last;
        request := Encode(ByType((next + 1) % 0x1_0000, end), len);
      } else {
        outcome := Called(0);
      }
    }
  }

  // -------------------------------------------------- characteristics: correctness

  lemma CharsDecode(batch: seq<Char>, ulen: nat)
    requires (ulen == 2 || ulen == 16) && forall i | 0 <= i < |batch| :: |batch[i].uuid| == ulen
    ensures var pdu := [OP_READ_BY_TYPE_RESP, 5 + ulen] + Joined(CharElements(batch));
            var es := Elements(pdu[2..], 5 + ulen);
            (forall i | 0 <= i < |es| :: |es[i]| == 7 || |es[i]| >= 21) && DecodedChars(es) == batch
  {
    var es := CharElements(batch);
    var pdu := [OP_READ_BY_TYPE_RESP, 5 + ulen] + Joined(es);
    assert pdu[2..] == Joined(es);
    ElementsOfJoined(es, 5 + ulen);
    forall i | 0 <= i < |es| ensures DecodedChar(es[i]) == batch[i] {
      assert es[i][5..][..ulen] == es[i][5..];
    }
  }

  /** `k` of the declarations in the range were looked at and the next request starts right after them. */
  ghost predicate Searched(db: seq<Char>, all: seq<Char>, k: nat, next: int, end: int) {
    && k <= |all| && Within(db, next, end) == all[k..] && 1 <= next <= end + 1
    && (k > 0 ==> next == all[k - 1].handle + 1)
    && (forall i | 0 <= i < |all| :: 1 <= all[i].handle <= end)
    && (k == 0 ==> next <= end)
  }

  /** The answer to a request that starts after `k` declarations, and what the client takes from it. */
  lemma CharAnswer(db: seq<Char>, all: seq<Char>, k: nat, next: int, end: u16, wish: nat, len: nat) returns (b: nat)
    requires Searched(db, all, k, next, end) && len >= 7
    ensures var reply := AnswerChars(db, Encode(ByType(next % 0x1_0000, end), len), wish);
            if next > end then b == 0 && reply == Reply(ECODE_INVALID_HANDLE, [])
            else if k == |all| then b == 0 && reply == Reply(ECODE_ATTR_NOT_FOUND, [])
            else
              && 1 <= b <= |all| - k && (forall i | 0 <= i < b :: |all[k..][..b][i].uuid| == |all[k].uuid|)
              && reply == Reply(0, [OP_READ_BY_TYPE_RESP, 5 + |all[k].uuid|] + Joined(CharElements(all[k..][..b])))
  {
    var rest := all[k..];
    assert k <= |all| && Within(db, next, end) == rest && 1 <= next <= end + 1;
    assert k < |all| ==> rest[0] == all[k];
    hide Within, Encode, AnswerChars, Joined, Searched, CharElements, Uniform;
    CharRequest(db, next, end, wish, len);
    b := 0;
    if next <= end && k < |all| {
      b := RangeAnswer(rest, next, end, wish);
      hide AnswerRange;
    }
  }

  /** The declarations in an answer are of one UUID length. */
  lemma RangeAnswer(rest: seq<Char>, s: u16, e: u16, wish: nat) returns (b: nat)
    requires 1 <= s <= e && rest != []
    ensures 1 <= b <= |rest| && forall i | 0 <= i < b :: |rest[..b][i].uuid| == |rest[0].uuid|
    ensures AnswerRange(rest, s, e, wish)
         == Reply(0, [OP_READ_BY_TYPE_RESP, 5 + |rest[0].uuid|] + Joined(CharElements(rest[..b])))
  {
    hide Joined, CharElements;
    var us := Uuids(rest, CharUuid);
    b := Batch(wish, Uniform(us));
    forall i | 0 <= i < b ensures |rest[..b][i].uuid| == |rest[0].uuid| {
      assert us[i] == rest[i].uuid && us[0] == rest[0].uuid;
    }
  }

  /** How a server takes a request that starts at `next`, past the range or not. */
  lemma CharRequest(db: seq<Char>, next: int, end: u16, wish: nat, len: nat)
    requires 1 <= next <= end + 1 && len >= 7
    ensures AnswerChars(db, Encode(ByType(next % 0x1_0000, end), len), wish)
         == if next <= end then AnswerRange(Within(db, next, end), next, end, wish) else Reply(ECODE_INVALID_HANDLE, [])
  {
    var start: u16 := next % 0x1_0000;
    assert next <= end ==> start == next;
    assert next > end ==> start == 0 || start > end;
    TypeRequest(db, start, end, wish, len);
    hide Encode, AnswerChars, Within;
  }

  lemma TypeRequest(db: seq<Char>, start: u16, end: u16, wish: nat, len: nat)
    requires len >= 7
    ensures AnswerChars(db, Encode(ByType(start, end), len), wish)
              == AnswerRange(Within(db, start, end), start, end, wish)
  {
    RequestRoundTrip(ByType(start, end), len);
    hide Encode, Decode, Within, AnswerRange;
  }

  lemma SearchedNext(db: seq<Char>, all: seq<Char>, k: nat, next: int, end: int, n: nat)
    requires CharsOk(db) && Searched(db, all, k, next, end) && 1 <= n <= |all| - k
    ensures Searched(db, all, k + n, all[k + n - 1].handle + 1, end) && all[k + n - 1].handle != 0
  {
    WithinPast(db, next, end, n);
    hide Within, CharsOk;
    assert all[k..][n..] == all[k + n..];
  }

  lemma SelectedSlice(all: seq<Char>, k: nat, b: nat, n: nat, filter: Option<Uuid>)
    requires n <= b && k + b <= |all|
    ensures Selected(all[..k], filter) + Selected(all[k..][..b][..n], filter) == Selected(all[..k + n], filter)
    ensures n > 0 ==> all[k..][..b][n - 1] == all[k + n - 1]
  {
    hide Selected;
    assert all[..k] + all[k..][..b][..n] == all[..k + n];
    SelectedAppend(all[..k], all[k..][..b][..n], filter);
  }

  lemma SearchedBound(db: seq<Char>, all: seq<Char>, k: nat, next: int, end: int)
    requires Searched(db, all, k, next, end)
    ensures k <= |all|
  {
  }

  /** Past the end of the range nothing is left. */
  lemma SearchedPastEnd(db: seq<Char>, all: seq<Char>, k: nat, next: int, end: int)
    requires Searched(db, all, k, next, end) && next > end
    ensures k == |all|
  {
    if k < |all| { WithinIn(db, next, end, 0); }
  }

  /** What an answer adds to the declarations looked at. */
  lemma CharStep(db: seq<Char>, all: seq<Char>, k: nat, next: int, end: u16, wish: nat, len: nat, filter: Option<Uuid>)
    returns (n: nat)
    requires CharsOk(db) && Searched(db, all, k, next, end) && len >= 7
    ensures var reply := AnswerChars(db, Encode(ByType(next % 0x1_0000, end), len), wish);
            if next > end then n == 0 && reply.status == ECODE_INVALID_HANDLE
            else if k == |all| then n == 0 && reply.status == ECODE_ATTR_NOT_FOUND
            else
              && 1 <= n <= |all| - k && reply.status == 0 && |reply.pdu| >= 2
              && reply.pdu[0] == OP_READ_BY_TYPE_RESP && (reply.pdu[1] == 7 || reply.pdu[1] == 21)
              && var batch := DecodedChars(Elements(reply.pdu[2..], reply.pdu[1]));
              && batch != [] && n == Looked(batch, filter) && batch[n - 1].handle == all[k + n - 1].handle
              && Selected(all[..k], filter) + Selected(batch[..n], filter) == Selected(all[..k + n], filter)
    ensures n > 0 ==> Searched(db, all, k + n, all[k + n - 1].handle + 1, end) && all[k + n - 1].handle != 0
    ensures next > end ==> k == |all|
  {
    hide CharsOk, AnswerChars, Encode, Selected, Elements, Joined, CharElements, Looked, Searched, Within;
    n := 0;
    if next > end { SearchedPastEnd(db, all, k, next, end); }
    SearchedBound(db, all, k, next, end);
    var b := CharAnswer(db, all, k, next, end, wish, len);
    if b > 0 {
      var batch := all[k..][..b];
      CharsDecode(batch, |all[k].uuid|);
      n := Looked(batch, filter);
      SearchedNext(db, all, k, next, end, n);
      SelectedSlice(all, k, b, n, filter);
    }
  }

  /** One request and its answer. */
  method CharExchange(db: seq<Char>, ghost all: seq<Char>, d: CharDiscovery, request: seq<byte>, wish: nat,
      ghost k: nat, ghost next: int)
    returns (request': seq<byte>, ghost k': nat, ghost next': int)
    requires CharsOk(db) && d.outcome == Pending && d.len >= 7 && Searched(db, all, k, next, d.end)
    requires request == Encode(ByType(next % 0x1_0000, d.end), d.len)
    requires d.characteristics == Selected(all[..k], d.filter)
    modifies d
    ensures d.outcome.Called? ==>
              && d.characteristics == Selected(all, d.filter)
              && d.outcome.status == if next > d.end then ECODE_INVALID_HANDLE else 0
    ensures d.outcome.Called? ==> k' == |all| && next' == next && Searched(db, all, k', next', d.end)
    ensures d.outcome.Pending? ==>
              && Searched(db, all, k', next', d.end) && k < k' && d.characteristics == Selected(all[..k'], d.filter)
              && request' == Encode(ByType(next' % 0x1_0000, d.end), d.len)
  {
    hide CharsOk, AnswerChars, Encode, Selected, Elements, DecodedChars, Looked, Within;
    ghost var n := CharStep(db, all, k, next, d.end, wish, d.len, d.filter);
    k', next' := k + n, if n > 0 then all[k + n - 1].handle + 1 else next;
    assert all[..|all|] == all;
    hide Searched;
    var reply := AnswerChars(db, request, wish);
    request' := d.CharCb(reply.status, reply.pdu);
  }

  /**
   `gatt_discover_char`: the characteristics of the range that the filter selects, whatever the server's
   batches. The status is 0 exactly when no declaration sits on the last handle of the range; with one there, the
   last request starts past the range and is refused.
   */
  method DiscoverChars(db: seq<Char>, start: u16, end: u16, filter: Option<Uuid>, len: nat, wishes: nat -> nat)
    returns (found: seq<Found>, status: byte, requests: nat)
    requires CharsOk(db) && 1 <= start <= end && len >= 7
    ensures found == Selected(Within(db, start, end), filter)
    ensures status == 0 <==> forall i | 0 <= i < |db| :: db[i].handle != end
    ensures requests <= |Within(db, start, end)| + 1
  {
    hide CharsOk, Encode, Selected;
    var d := new CharDiscovery(len, end, filter);
    var request := Encode(ByType(start, end), len);
    ghost var all, k: nat, next: int := Within(db, start, end), 0, start;
    requests := 0;
    assert Selected(all[..0], filter) == [] by { EmptySelection(filter); }
    forall i | 0 <= i < |all| ensures 1 <= all[i].handle <= end { WithinIn(db, start, end, i); }
    assert all[0..] == all;
    hide Within;
    while d.outcome == Pending
      invariant d.len == len && d.end == end && d.filter == filter
      invariant Searched(db, all, k, next, end)
      invariant d.outcome.Called? ==>
                  && k == |all| && d.characteristics == Selected(all, filter) && requests <= |all| + 1
                  && d.outcome.status == if next > end then ECODE_INVALID_HANDLE else 0
      invariant d.outcome.Pending? ==>
                  && d.characteristics == Selected(all[..k], filter) && requests <= k
                  && request == Encode(ByType(next % 0x1_0000, end), len)
      decreases if d.outcome.Pending? then 1 else 0, |all| - k
    {
      request, k, next := CharExchange(db, all, d, request, wishes(requests), k, next);
      requests := requests + 1;
    }
    found, status := d.characteristics, d.outcome.status;
    LastHandle(db, all, start, next, end);
  }

  /** The last request starts past the range exactly when a declaration sits on its last handle. */
  lemma LastHandle(db: seq<Char>, all: seq<Char>, start: int, next: int, end: int)
    requires CharsOk(db) && all == Within(db, start, end) && Searched(db, all, |all|, next, end) && start <= end
    ensures next > end <==> exists i | 0 <= i < |db| :: db[i].handle == end
  {
    if all != [] {
      WithinIn(db, start, end, |all| - 1);
    }
    forall i | 0 <= i < |db| && db[i].handle == end ensures next > end {
      if next <= end { WithinHas(db, next, end, i); }
    }
  }

  lemma {:induction false} WithinHas(db: seq<Char>, start: int, end: int, i: nat)
    requires i < |db| && start <= db[i].handle <= end
    ensures Within(db, start, end) != []
  {
    if i > 0 { WithinHas(db[1..], start, end, i - 1); }
  }

  /** A declaration on the last handle of the range: it is found, and the discovery still ends with an error. */
  method DeclarationOnLastHandle() returns (found: seq<Found>, status: byte)
    ensures |found| == 1 && found[0].handle == 5 && status != 0
  {
    var c := Char(5, 2, 6, [0x00, 0x2A]);
    var requests;
    assert Within([c], 1, 5) == [c];
    assert [c][1..] == [];
    found, status, requests := DiscoverChars([c], 1, 5, None, 23, n => 1);
    assert Selected([c], None) == [Found(5, 2, 6, Full(c.uuid))];
    assert [c][0].handle == 5;
  }
}
