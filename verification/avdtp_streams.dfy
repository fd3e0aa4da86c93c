/**
 AVDTP stream life cycle: the references that a session, its local and remote
 stream end points and its request queues hold to streams, and how every
 operation keeps them away from freed streams.
 */
module AvdtpStreams {
  import opened Bytes
  import opened AvdtpSession

  datatype SepState = Idle | Configured | Opened | Streaming | Closing | Aborting
  {
    function Rank(): nat {
      match this
      case Idle => 0
      case Configured => 1
      case Opened => 2
      case Streaming => 3
      case Closing => 4
      case Aborting => 5
    }
  }

  datatype Signal =
    | Discover | GetCapabilities | GetAllCapabilities | SetConfiguration | Reconfigure
    | Open | Start | Close | Suspend | Abort | DelayReport

  /** The address of a stream; an address is never handed out twice. */
  type StreamId = nat

  datatype Stream = Stream(
    lsep: nat, rseid: nat,
    openAcp: bool, closeInt: bool, abortInt: bool, starting: bool, delayReporting: bool)

  datatype LocalSep = LocalSep(state: SepState, stream: Option<StreamId>, inUse: bool, sink: bool)

  datatype Request = Request(signal: Signal, stream: Option<StreamId>, seid: nat)

  /** Everything about a session that names streams. `heap` holds the allocated streams only. */
  datatype State = State(
    session: SessionState,
    heap: map<StreamId, Stream>, nextId: nat,
    lseps: map<nat, LocalSep>,
    rseps: map<nat, Option<StreamId>>,
    streams: seq<StreamId>,
    pendingOpen: Option<StreamId>,
    req: Option<Request>, prioQueue: seq<Request>, reqQueue: seq<Request>)

  // ------------------------------------------------------------ the invariant

  /** In the session's list, or taken off it and about to be freed. */
  predicate Owned(v: State, dying: Option<StreamId>, s: StreamId) {
    s in v.streams || dying == Some(s)
  }

  predicate OwnedRef(v: State, dying: Option<StreamId>, r: Option<StreamId>) {
    r.Some? ==> Owned(v, dying, r.value)
  }

  ghost predicate ListOk(v: State, dying: Option<StreamId>) {
    && (forall i, j | 0 <= i < j < |v.streams| :: v.streams[i] != v.streams[j])
    && (dying.Some? ==> dying.value !in v.streams)
    && (forall s | Owned(v, dying, s) ::
          && s in v.heap && v.heap[s].lsep in v.lseps
          && v.lseps[v.heap[s].lsep].stream == Some(s))
    && (forall s | s in v.heap :: s < v.nextId)
    && (v.streams != [] ==> v.session == Connected)
  }

  ghost predicate SepOk(v: State, dying: Option<StreamId>, l: nat)
    requires l in v.lseps
  {
    var sep := v.lseps[l];
    && (sep.inUse <==> sep.stream.Some?)
    && (sep.stream.Some? ==>
          && Owned(v, dying, sep.stream.value)
          && sep.stream.value in v.heap && v.heap[sep.stream.value].lsep == l)
    && (sep.state != Idle ==> sep.stream.Some? && sep.stream.value in v.streams)
  }

  ghost predicate RemoteOk(v: State, dying: Option<StreamId>, r: nat)
    requires r in v.rseps
  {
    v.rseps[r].Some? ==>
      && Owned(v, dying, v.rseps[r].value)
      && v.rseps[r].value in v.heap && v.heap[v.rseps[r].value].rseid == r
  }

  ghost predicate RefsOk(v: State, dying: Option<StreamId>) {
    && OwnedRef(v, dying, v.pendingOpen)
    && (v.req.Some? ==> OwnedRef(v, dying, v.req.value.stream))
    && (forall q | q in v.prioQueue :: OwnedRef(v, dying, q.stream))
    && (forall q | q in v.reqQueue :: OwnedRef(v, dying, q.stream))
  }

  /** The shape every operation keeps. `dying` is the stream being released, if any. */
  ghost predicate Shape(v: State, dying: Option<StreamId>) {
    && ListOk(v, dying)
    && (forall l | l in v.lseps :: SepOk(v, dying, l))
    && (forall r | r in v.rseps :: RemoteOk(v, dying, r))
    && RefsOk(v, dying)
  }

  /** Some field of the session, of an end point or of a queue names stream `s`. */
  ghost predicate RefersTo(v: State, s: StreamId) {
    || s in v.streams
    || (exists l | l in v.lseps :: v.lseps[l].stream == Some(s))
    || (exists r | r in v.rseps :: v.rseps[r] == Some(s))
    || Pends(v, s)
  }

  /** A pending open, the outstanding request or a queued request names stream `s`. */
  ghost predicate Pends(v: State, s: StreamId) {
    v.pendingOpen == Some(s) || Outstanding(v, s) || Queued(v, s)
  }

  predicate Outstanding(v: State, s: StreamId) {
    v.req.Some? && v.req.value.stream == Some(s)
  }

  ghost predicate Queued(v: State, s: StreamId) {
    || (exists q | q in v.prioQueue :: q.stream == Some(s))
    || (exists q | q in v.reqQueue :: q.stream == Some(s))
  }

  /** In the shape, a freed stream is named nowhere. */
  lemma ShapeHasNoDanglingReference(v: State, s: StreamId)
    requires Shape(v, None) && s !in v.heap
    ensures !RefersTo(v, s)
  {
    forall l | l in v.lseps ensures v.lseps[l].stream != Some(s) {
      assert SepOk(v, None, l);
    }
    forall r | r in v.rseps ensures v.rseps[r] != Some(s) {
      assert RemoteOk(v, None, r);
    }
    forall q | q in v.prioQueue || q in v.reqQueue ensures q.stream != Some(s) {
      assert OwnedRef(v, None, q.stream);
    }
  }

  /** In the shape, two streams of the list never share a local end point. */
  lemma ShapeSeparatesStreams(v: State, s: StreamId, t: StreamId)
    requires Shape(v, None) && s in v.streams && t in v.streams && s != t
    ensures v.heap[s].lsep != v.heap[t].lsep
  {
    assert Owned(v, None, s) && Owned(v, None, t);
  }

  // --------------------------------------------------------- elementary updates

  /** `send_req`: connect if needed, queue if another request is outstanding, else transmit. */
  function Sent(v: State, r: Request, priority: bool, sendOk: bool): (State, bool) {
    if v.session == Disconnected && !sendOk then (v, false)
    else
      var v1 := if v.session == Disconnected then v.(session := Connecting) else v;
      if v1.session != Connected || v1.req.Some? then
        (if priority then v1.(prioQueue := v1.prioQueue + [r]) else v1.(reqQueue := v1.reqQueue + [r]), true)
      else if !sendOk then (v1, false)
      else (v1.(req := Some(r)), true)
  }

  /** Sending looks at the session state, the request and the queues alone, and changes nothing else. */
  lemma SentFrame(v: State, w: State, r: Request, priority: bool, sendOk: bool)
    requires w.session == v.session && w.req == v.req && w.prioQueue == v.prioQueue && w.reqQueue == v.reqQueue
    ensures var (v', ok) := Sent(v, r, priority, sendOk);
            && v' == v.(session := v'.session, req := v'.req, prioQueue := v'.prioQueue, reqQueue := v'.reqQueue)
            && Sent(w, r, priority, sendOk) ==
               (w.(session := v'.session, req := v'.req, prioQueue := v'.prioQueue, reqQueue := v'.reqQueue), ok)
  {
  }

  /** Only the session state, the pending open, the request or the queues changed. */
  lemma SameLinksKeepShape(v: State, v': State, dying: Option<StreamId>)
    requires Shape(v, dying)
    requires v' == v.(session := v'.session, pendingOpen := v'.pendingOpen, req := v'.req,
                      prioQueue := v'.prioQueue, reqQueue := v'.reqQueue)
    requires v.streams != [] ==> v'.session == Connected
    requires RefsOk(v', dying)
    ensures Shape(v', dying)
  {
    assert forall s :: Owned(v', dying, s) == Owned(v, dying, s);
    forall l | l in v'.lseps ensures SepOk(v', dying, l) { assert SepOk(v, dying, l); }
    forall k | k in v'.rseps ensures RemoteOk(v', dying, k) { assert RemoteOk(v, dying, k); }
  }

  lemma SentKeepsShape(v: State, dying: Option<StreamId>, r: Request, priority: bool, sendOk: bool)
    requires Shape(v, dying)
    requires r.stream.Some? ==> r.stream.value in v.streams
    ensures Shape(Sent(v, r, priority, sendOk).0, dying)
  {
    var v' := Sent(v, r, priority, sendOk).0;
    hide SepOk, RemoteOk;
    assert OwnedRef(v, dying, r.stream);
    if v'.prioQueue == v.prioQueue + [r] {
      forall q | q in v'.prioQueue ensures OwnedRef(v', dying, q.stream) { assert OwnedRef(v, dying, q.stream); }
    }
    SameLinksKeepShape(v, v', dying);
  }

  /** A flag of stream `s` changes; its end points do not. */
  function Flagged(v: State, s: StreamId, st: Stream): State
    requires s in v.heap
  {
    v.(heap := v.heap[s := st])
  }

  lemma FlaggedKeepsShape(v: State, dying: Option<StreamId>, s: StreamId, st: Stream)
    requires Shape(v, dying) && s in v.heap
    requires st.lsep == v.heap[s].lsep && st.rseid == v.heap[s].rseid
    ensures Shape(Flagged(v, s, st), dying)
  {
    var v' := Flagged(v, s, st);
    assert forall t :: Owned(v', dying, t) == Owned(v, dying, t);
    forall l | l in v'.lseps ensures SepOk(v', dying, l) { assert SepOk(v, dying, l); }
    forall k | k in v'.rseps ensures RemoteOk(v', dying, k) { assert RemoteOk(v, dying, k); }
  }

  /** A new stream takes over a free local end point, and the remote one when `rlink`. */
  function Linked(v: State, st: Stream, rlink: bool): State
    requires st.lsep in v.lseps
  {
    var s := v.nextId;
    v.(heap := v.heap[s := st], nextId := s + 1,
       lseps := v.lseps[st.lsep := v.lseps[st.lsep].(stream := Some(s), inUse := true)],
       rseps := if rlink && st.rseid in v.rseps then v.rseps[st.rseid := Some(s)] else v.rseps,
       streams := v.streams + [s])
  }

  lemma LinkedKeepsShape(v: State, dying: Option<StreamId>, st: Stream, rlink: bool)
    requires Shape(v, dying) && v.session == Connected
    requires st.lsep in v.lseps && !v.lseps[st.lsep].inUse
    ensures Shape(Linked(v, st, rlink), dying)
  {
    var v', s := Linked(v, st, rlink), v.nextId;
    assert s !in v.heap;
    assert SepOk(v, dying, st.lsep);
    assert !Owned(v, dying, s);
    assert forall t :: Owned(v', dying, t) <==> t == s || Owned(v, dying, t);
    forall t | Owned(v, dying, t)
      ensures t in v'.heap && v'.heap[t] == v.heap[t] && v.heap[t].lsep != st.lsep && t != s
    {
    }
    forall l | l in v'.lseps ensures SepOk(v', dying, l) {
      if l != st.lsep { assert SepOk(v, dying, l); }
    }
    forall k | k in v'.rseps ensures RemoteOk(v', dying, k) {
      assert RemoteOk(v, dying, k);
    }
  }

  /** `g_slist_remove`: the list without the first occurrence of `s`. */
  function Without(q: seq<StreamId>, s: StreamId): (r: seq<StreamId>)
    ensures forall t | t in r :: t in q
    ensures forall t | t in q && t != s :: t in r
  {
    if q == [] then [] else if q[0] == s then q[1..] else [q[0]] + Without(q[1..], s)
  }

  lemma {:induction false} WithoutDistinct(q: seq<StreamId>, s: StreamId)
    requires forall i, j | 0 <= i < j < |q| :: q[i] != q[j]
    ensures var r := Without(q, s);
            s !in r && forall i, j | 0 <= i < j < |r| :: r[i] != r[j]
  {
    if q != [] {
      WithoutDistinct(q[1..], s);
      assert q[0] !in q[1..];
    }
  }

  lemma {:induction false} WithoutPrefix(q: seq<StreamId>, q': seq<StreamId>, s: StreamId)
    requires q <= q' && s in q
    ensures Without(q, s) <= Without(q', s) && |Without(q, s)| == |q| - 1
    ensures q' == q ==> Without(q', s) == Without(q, s)
  {
    if q[0] != s {
      WithoutPrefix(q[1..], q'[1..], s);
    }
  }

  /** Dropping the list of a disconnected session keeps the shape exactly when the list was empty. */
  lemma Dropped(v: State)
    requires Shape(v, None)
    ensures Shape(v.(streams := [], session := Disconnected), None) <==> v.streams == []
  {
    var v' := v.(streams := [], session := Disconnected);
    if v.streams == [] {
      assert v' == v.(session := Disconnected);
      SameLinksKeepShape(v, v', None);
    } else {
      var s := v.streams[0];
      ListedStream(v, None, s);
      assert !SepOk(v', None, v.heap[s].lsep);
    }
  }

  /** `cleanup_queue` on one queue. */
  function Unqueued(q: seq<Request>, s: StreamId): (r: seq<Request>)
    ensures forall x | x in r :: x in q && x.stream != Some(s)
    ensures forall x | x in q && x.stream != Some(s) :: x in r
  {
    if q == [] then []
    else if q[0].stream == Some(s) then Unqueued(q[1..], s)
    else [q[0]] + Unqueued(q[1..], s)
  }

  /** A local end point moves to a state other than IDLE. */
  function Moved(v: State, l: nat, st: SepState): State
    requires l in v.lseps && v.lseps[l].stream.Some?
  {
    var s := v.lseps[l].stream.value;
    v.(lseps := v.lseps[l := v.lseps[l].(state := st)],
       heap := if st == Opened && s in v.heap then v.heap[s := v.heap[s].(starting := false)] else v.heap)
  }

  lemma MovedKeepsShape(v: State, l: nat, st: SepState)
    requires Shape(v, None) && l in v.lseps && v.lseps[l].stream.Some?
    ensures Shape(Moved(v, l, st), None)
  {
    assert SepOk(v, None, l);
    var v' := Moved(v, l, st);
    assert forall t :: Owned(v', None, t) == Owned(v, None, t);
    forall k | k in v'.lseps ensures SepOk(v', None, k) { assert SepOk(v, None, k); }
    forall k | k in v'.rseps ensures RemoteOk(v', None, k) { assert RemoteOk(v, None, k); }
  }

  /** The stream of end point `l` leaves the list; the end point is IDLE. */
  function Detached(v: State, l: nat): State
    requires l in v.lseps && v.lseps[l].stream.Some?
  {
    v.(lseps := v.lseps[l := v.lseps[l].(state := Idle)],
       streams := Without(v.streams, v.lseps[l].stream.value))
  }

  lemma DetachedKeepsShape(v: State, l: nat)
    requires Shape(v, None) && l in v.lseps && v.lseps[l].stream.Some?
    ensures Shape(Detached(v, l), v.lseps[l].stream)
  {
    var s, v' := v.lseps[l].stream.value, Detached(v, l);
    assert SepOk(v, None, l);
    WithoutDistinct(v.streams, s);
    assert forall t :: Owned(v', Some(s), t) == Owned(v, None, t);
    forall k | k in v'.lseps ensures SepOk(v', Some(s), k) { assert SepOk(v, None, k); }
    forall k | k in v'.rseps ensures RemoteOk(v', Some(s), k) { assert RemoteOk(v, None, k); }
  }

  /** `stream_free`: both end points forget the stream and it is gone. */
  function Freed(v: State, s: StreamId): State
    requires s in v.heap && v.heap[s].lsep in v.lseps
  {
    var l, r := v.heap[s].lsep, v.heap[s].rseid;
    v.(lseps := v.lseps[l := v.lseps[l].(inUse := false, stream := None)],
       rseps := if r in v.rseps then v.rseps[r := None] else v.rseps,
       heap := v.heap - {s})
  }

  lemma FreedKeepsShape(v: State, s: StreamId)
    requires Shape(v, Some(s)) && !Pends(v, s)
    ensures s in v.heap && v.heap[s].lsep in v.lseps && Shape(Freed(v, s), None)
  {
    assert Owned(v, Some(s), s);
    var v' := Freed(v, s);
    assert forall t | t in v.streams :: Owned(v, Some(s), t) && t != s;
    assert forall t :: Owned(v', None, t) <==> t in v.streams;
    forall k | k in v'.lseps ensures SepOk(v', None, k) { assert SepOk(v, Some(s), k); }
    forall k | k in v'.rseps ensures RemoteOk(v', None, k) { assert RemoteOk(v, Some(s), k); }
    assert forall q | q in v.prioQueue || q in v.reqQueue :: OwnedRef(v, Some(s), q.stream) && q.stream != Some(s);
  }

  /** A stream that was allocated but never put in place. */
  lemma FreedUnlinkedKeepsShape(v: State, s: StreamId)
    requires Shape(v, None) && s in v.heap && s !in v.streams
    requires v.heap[s].lsep in v.lseps && !v.lseps[v.heap[s].lsep].inUse
    ensures Shape(Freed(v, s), None)
  {
    var v', l := Freed(v, s), v.heap[s].lsep;
    assert SepOk(v, None, l);
    assert forall t :: Owned(v', None, t) == Owned(v, None, t);
    forall k | k in v'.lseps ensures SepOk(v', None, k) { assert SepOk(v, None, k); }
    forall k | k in v'.rseps ensures RemoteOk(v', None, k) { assert RemoteOk(v, None, k); }
  }

  /** An allocated stream takes over its local end point. */
  function Adopted(v: State, s: StreamId): State
    requires s in v.heap && v.heap[s].lsep in v.lseps
  {
    var l := v.heap[s].lsep;
    v.(lseps := v.lseps[l := v.lseps[l].(stream := Some(s), inUse := true)], streams := v.streams + [s])
  }

  lemma AdoptedKeepsShape(v: State, s: StreamId)
    requires Shape(v, None) && v.session == Connected && s in v.heap && s !in v.streams
    requires v.heap[s].lsep in v.lseps && !v.lseps[v.heap[s].lsep].inUse
    ensures Shape(Adopted(v, s), None)
  {
    var v', l := Adopted(v, s), v.heap[s].lsep;
    assert SepOk(v, None, l);
    assert forall t :: Owned(v', None, t) <==> t == s || Owned(v, None, t);
    assert forall t | Owned(v, None, t) :: v.heap[t].lsep != l;
    forall k | k in v'.lseps ensures SepOk(v', None, k) { if k != l { assert SepOk(v, None, k); } }
    forall k | k in v'.rseps ensures RemoteOk(v', None, k) { assert RemoteOk(v, None, k); }
  }

  // ------------------------------------------------------------ public requests

  /** The conditions under which a public stream operation sends its request. */
  predicate Allowed(st: Stream, k: SepState, sig: Signal) {
    && (sig == Abort || !st.abortInt)
    && match sig
       case Reconfigure => k == Opened
       case Open => k.Rank() <= Configured.Rank()
       case Start => k == Opened && !st.closeInt && !st.starting
       case Close => k.Rank() >= Opened.Rank() && !st.closeInt
       case Suspend => k.Rank() > Opened.Rank() && !st.closeInt
       case Abort => k != Aborting
       case DelayReport => (k == Configured || k == Streaming) && st.delayReporting
       case _ => false
  }

  function FlagFor(sig: Signal, st: Stream): (r: Stream)
    ensures r.lsep == st.lsep && r.rseid == st.rseid && (st.abortInt ==> r.abortInt)
  {
    match sig
    case Start => st.(starting := true)
    case Close => st.(closeInt := true)
    case Abort => st.(abortInt := true)
    case _ => st
  }

  /** A public operation on stream `s`, when it does not cancel the outstanding request. */
  function Requested(v: State, sig: Signal, s: StreamId, sendOk: bool): (State, bool) {
    if || s !in v.streams || s !in v.heap || v.heap[s].lsep !in v.lseps
       || !Allowed(v.heap[s], v.lseps[v.heap[s].lsep].state, sig) then (v, false)
    else
      var r := Request(sig, Some(s), v.heap[s].rseid);
      var (v1, ok) := Sent(v, r, sig == Abort || sig == DelayReport, sendOk);
      if ok then (Flagged(v1, s, FlagFor(sig, v1.heap[s])), true) else (v1, false)
  }

  /** `avdtp_set_configuration` on a local end point that is not in use. */
  function SetUp(v: State, l: nat, rseid: nat, delay: bool, sendOk: bool): (State, bool)
    requires l in v.lseps
  {
    if v.session != Connected || rseid !in v.rseps then (v, false)
    else
      var st := Stream(l, rseid, false, false, false, false, delay);
      var (v1, ok) := Sent(v, Request(SetConfiguration, Some(v.nextId), rseid), false, sendOk);
      if ok then (Linked(v1, st, true), true)
      else (Freed(v1.(heap := v1.heap[v1.nextId := st], nextId := v1.nextId + 1), v1.nextId), false)
  }

  /**
   What a callback of the application may do: its own requests, new streams, and an ABORT for the outstanding
   request.
   */
  ghost predicate Grew(v: State, v': State, dying: Option<StreamId>) {
    && v.streams <= v'.streams
    && v.nextId <= v'.nextId
    && (forall s | s in v'.heap && s !in v.heap :: s >= v.nextId)
    && (forall s | s in v.heap ::
          && s in v'.heap && v'.heap[s].lsep == v.heap[s].lsep && v'.heap[s].rseid == v.heap[s].rseid
          && (v.heap[s].abortInt ==> v'.heap[s].abortInt))
    && v'.lseps.Keys == v.lseps.Keys && v'.rseps.Keys == v.rseps.Keys
    && (forall l | l in v.lseps ::
          && v'.lseps[l].state == v.lseps[l].state && v'.lseps[l].sink == v.lseps[l].sink
          && (v.lseps[l].stream.Some? ==> v'.lseps[l].stream == v.lseps[l].stream))
    && v'.pendingOpen == v.pendingOpen
    && (v'.session == v.session || (v.session == Disconnected && v'.session == Connecting))
    && (v.req.Some? ==> v'.req == v.req || (v'.req.Some? && v.req.value.signal != Abort))
    && (dying.Some? && Outstanding(v', dying.value) ==> Outstanding(v, dying.value))
    && (dying.Some? && Queued(v', dying.value) ==> Queued(v, dying.value))
  }

  lemma GrewReflexive(v: State, dying: Option<StreamId>)
    ensures Grew(v, v, dying)
  {
  }

  /** A callback leaves the pending open alone and names a dying stream nowhere anew. */
  lemma GrewNames(v: State, v': State, s: StreamId)
    requires Grew(v, v', Some(s))
    ensures v'.pendingOpen == v.pendingOpen
    ensures v.req.Some? ==> v'.req == v.req || (v'.req.Some? && v.req.value.signal != Abort)
    ensures Outstanding(v', s) ==> Outstanding(v, s)
    ensures Queued(v', s) ==> Queued(v, s)
  {
  }

  lemma GrewTransitive(u: State, v: State, w: State, dying: Option<StreamId>)
    requires Grew(u, v, dying) && Grew(v, w, dying)
    ensures Grew(u, w, dying)
  {
    hide Outstanding, Queued;
    forall s | s in u.heap
      ensures s in w.heap && w.heap[s].lsep == u.heap[s].lsep && w.heap[s].rseid == u.heap[s].rseid
      ensures u.heap[s].abortInt ==> w.heap[s].abortInt
    {
      assert s in v.heap;
    }
  }

  /** A public operation leaves the list as it is. */
  lemma RequestedLists(v: State, sig: Signal, s: StreamId, sendOk: bool)
    ensures Requested(v, sig, s, sendOk).0.streams == v.streams
  {
  }

  /** The list grows exactly when the stream was set up. */
  lemma SetUpLists(v: State, l: nat, rseid: nat, delay: bool, sendOk: bool)
    requires l in v.lseps
    ensures SetUp(v, l, rseid, delay, sendOk).0.streams == v.streams <==>
              !(v.session == Connected && rseid in v.rseps && (sendOk || v.req.Some?))
  {
  }

  /** A request that was cancelled and followed by another. */
  lemma GrewReplaced(v: State, v': State, dying: Option<StreamId>)
    requires Grew(v.(req := None), v', dying)
    requires v.req.Some? && v.req.value.signal != Abort && v'.req.Some?
    ensures Grew(v, v', dying)
  {
  }

  /** Callbacks that leave the list as it is leave every free end point free. */
  lemma GrewSameFree(v: State, v': State, dying: Option<StreamId>)
    requires Shape(v, dying) && Shape(v', dying) && Grew(v, v', dying) && v'.streams == v.streams
    ensures forall l | l in v.lseps :: v'.lseps[l].inUse == v.lseps[l].inUse
  {
    forall l | l in v.lseps ensures v'.lseps[l].inUse == v.lseps[l].inUse {
      assert SepOk(v, dying, l) && SepOk(v', dying, l);
      if v.lseps[l].stream.None? && v'.lseps[l].stream.Some? {
        var x := v'.lseps[l].stream.value;
        assert Owned(v', dying, x) && Owned(v, dying, x);
      }
    }
  }

  /** Callbacks change no state of an end point. */
  lemma GrewStates(v: State, v': State, dying: Option<StreamId>)
    requires Grew(v, v', dying)
    ensures SameStates(v, v') && v'.pendingOpen == v.pendingOpen
  {
  }

  lemma GrewRequest(v: State, v': State, dying: Option<StreamId>)
    requires Grew(v, v', dying)
    ensures v.req.Some? ==> v'.req.Some?
  {
  }

  lemma GrewStream(v: State, v': State, dying: Option<StreamId>, s: StreamId)
    requires Grew(v, v', dying) && s in v.heap
    ensures v.streams <= v'.streams && s in v'.heap && v'.heap[s].lsep == v.heap[s].lsep
    ensures v'.heap[s].rseid == v.heap[s].rseid
    ensures v.heap[s].abortInt ==> v'.heap[s].abortInt
  {
  }

  lemma GrewHeap(v: State, v': State, dying: Option<StreamId>)
    requires Grew(v, v', dying)
    ensures v.streams <= v'.streams && forall s | s in v.heap :: s in v'.heap
  {
  }

  lemma ForgottenKeepsShape(v: State, dying: Option<StreamId>)
    requires Shape(v, dying)
    ensures Shape(v.(req := None), dying)
  {
    SameLinksKeepShape(v, v.(req := None), dying);
  }

  lemma ListedStream(v: State, dying: Option<StreamId>, s: StreamId)
    requires Shape(v, dying) && s in v.streams
    ensures v.session == Connected && s in v.heap && dying != Some(s)
    ensures v.heap[s].lsep in v.lseps && v.lseps[v.heap[s].lsep].stream == Some(s)
  {
    assert Owned(v, dying, s);
  }

  lemma FlaggedGrows(v: State, dying: Option<StreamId>, s: StreamId, st: Stream)
    requires s in v.heap && st.lsep == v.heap[s].lsep && st.rseid == v.heap[s].rseid
    requires v.heap[s].abortInt ==> st.abortInt
    ensures Grew(v, Flagged(v, s, st), dying)
  {
  }

  lemma RequestedGrows(v: State, dying: Option<StreamId>, sig: Signal, s: StreamId, sendOk: bool)
    requires Shape(v, dying)
    ensures Shape(Requested(v, sig, s, sendOk).0, dying)
    ensures Grew(v, Requested(v, sig, s, sendOk).0, dying)
  {
    hide Shape, Grew, Sent, Flagged, Allowed, FlagFor;
    GrewReflexive(v, dying);
    if s in v.streams {
      ListedStream(v, dying, s);
      var r := Request(sig, Some(s), v.heap[s].rseid);
      var priority := sig == Abort || sig == DelayReport;
      var (v1, ok) := Sent(v, r, priority, sendOk);
      SentKeepsShape(v, dying, r, priority, sendOk);
      SentGrows(v, dying, r, priority, sendOk);
      if ok {
        FlaggedKeepsShape(v1, dying, s, FlagFor(sig, v1.heap[s]));
        FlaggedGrows(v1, dying, s, FlagFor(sig, v1.heap[s]));
        GrewTransitive(v, v1, Flagged(v1, s, FlagFor(sig, v1.heap[s])), dying);
      }
    }
  }

  lemma SentGrows(v: State, dying: Option<StreamId>, r: Request, priority: bool, sendOk: bool)
    requires Shape(v, dying) && (dying.Some? ==> r.stream != dying)
    ensures Grew(v, Sent(v, r, priority, sendOk).0, dying)
    ensures Sent(v, r, priority, sendOk).0.heap == v.heap
  {
    SentFrame(v, v, r, priority, sendOk);
    if dying.Some? { SentQueues(v, dying.value, r, priority, sendOk); }
    hide Shape, Queued, Grew;
    assert SentOver(v, Sent(v, r, priority, sendOk).0, dying);
    hide Sent;
    SentOverGrows(v, Sent(v, r, priority, sendOk).0, dying);
  }

  /** Only the session state, the request and the queues changed, as sending may change them. */
  ghost predicate SentOver(v: State, v': State, dying: Option<StreamId>) {
    && v' == v.(session := v'.session, req := v'.req, prioQueue := v'.prioQueue, reqQueue := v'.reqQueue)
    && (v'.session == v.session || (v.session == Disconnected && v'.session == Connecting))
    && (v.req.Some? ==> v'.req == v.req)
    && (dying.Some? && Outstanding(v', dying.value) ==> Outstanding(v, dying.value))
    && (dying.Some? && Queued(v', dying.value) ==> Queued(v, dying.value))
  }

  lemma SentOverGrows(v: State, v': State, dying: Option<StreamId>)
    requires SentOver(v, v', dying)
    ensures Grew(v, v', dying)
  {
    hide Outstanding, Queued;
  }

  /** A request of another stream does not queue anything for stream `s`. */
  lemma SentQueues(v: State, s: StreamId, r: Request, priority: bool, sendOk: bool)
    requires r.stream != Some(s)
    ensures Queued(Sent(v, r, priority, sendOk).0, s) ==> Queued(v, s)
  {
    var v' := Sent(v, r, priority, sendOk).0;
    assert forall q | q in v'.prioQueue :: q in v.prioQueue || q == r;
    assert forall q | q in v'.reqQueue :: q in v.reqQueue || q == r;
  }

  lemma LinkedGrows(v: State, dying: Option<StreamId>, st: Stream, rlink: bool)
    requires Shape(v, dying) && st.lsep in v.lseps && !v.lseps[st.lsep].inUse
    ensures dying != Some(v.nextId) && Grew(v, Linked(v, st, rlink), dying)
  {
    assert SepOk(v, dying, st.lsep);
    assert dying.Some? ==> Owned(v, dying, dying.value);
  }

  lemma SentLinkedCommute(v: State, st: Stream, r: Request, sendOk: bool)
    requires st.lsep in v.lseps
    ensures Linked(Sent(v, r, false, sendOk).0, st, true) == Sent(Linked(v, st, true), r, false, sendOk).0
  {
    SentFrame(v, Linked(v, st, true), r, false, sendOk);
    hide Sent;
  }

  /** The request of a new stream is sent before the stream is put in place; nothing can see it in between. */
  lemma SetUpDone(v: State, dying: Option<StreamId>, st: Stream, sendOk: bool)
    requires Shape(v, dying) && v.session == Connected && st.lsep in v.lseps && !v.lseps[st.lsep].inUse
    ensures var v' := Linked(Sent(v, Request(SetConfiguration, Some(v.nextId), st.rseid), false, sendOk).0, st, true);
            Shape(v', dying) && Grew(v, v', dying)
  {
    hide Shape, Grew, Sent;
    var r := Request(SetConfiguration, Some(v.nextId), st.rseid);
    var v2 := Linked(v, st, true);
    LinkedKeepsShape(v, dying, st, true);
    LinkedGrows(v, dying, st, true);
    SentKeepsShape(v2, dying, r, false, sendOk);
    SentGrows(v2, dying, r, false, sendOk);
    SentLinkedCommute(v, st, r, sendOk);
    GrewTransitive(v, v2, Sent(v2, r, false, sendOk).0, dying);
  }

  lemma SetUpGrows(v: State, dying: Option<StreamId>, l: nat, rseid: nat, delay: bool, sendOk: bool)
    requires Shape(v, dying) && l in v.lseps && !v.lseps[l].inUse
    ensures Shape(SetUp(v, l, rseid, delay, sendOk).0, dying)
    ensures Grew(v, SetUp(v, l, rseid, delay, sendOk).0, dying)
  {
    hide Shape, Queued, Freed, Linked;
    if v.session == Connected && rseid in v.rseps {
      var st := Stream(l, rseid, false, false, false, false, delay);
      SetUpDone(v, dying, st, sendOk);
      SetUpFailed(v, dying, st);
    }
  }

  /** A stream allocated and freed again leaves the shape; at most a remote link is lost. */
  lemma SetUpFailed(v: State, dying: Option<StreamId>, st: Stream)
    requires Shape(v, dying) && st.lsep in v.lseps && !v.lseps[st.lsep].inUse
    ensures var v' := Freed(v.(heap := v.heap[v.nextId := st], nextId := v.nextId + 1), v.nextId);
            && Shape(v', dying) && Grew(v, v', dying)
            && v'.heap == v.heap && v'.streams == v.streams && v'.lseps == v.lseps
  {
    var v' := Freed(v.(heap := v.heap[v.nextId := st], nextId := v.nextId + 1), v.nextId);
    assert v.nextId !in v.heap;
    assert v'.heap == v.heap;
    assert SepOk(v, dying, st.lsep);
    assert v.lseps[st.lsep] == v.lseps[st.lsep].(inUse := false, stream := None);
    assert v'.lseps == v.lseps;
    assert forall t :: Owned(v', dying, t) == Owned(v, dying, t);
    forall k | k in v'.lseps ensures SepOk(v', dying, k) { assert SepOk(v, dying, k); }
    forall k | k in v'.rseps ensures RemoteOk(v', dying, k) { assert RemoteOk(v, dying, k); }
  }

  // ------------------------------------------------------------------ releasing

  /** The rest of the state while the stream of end point `l` of `v` is on its way out. */
  ghost predicate Leaving(v: State, v': State, l: nat)
    requires l in v.lseps && v.lseps[l].stream.Some?
  {
    var s := v.lseps[l].stream.value;
    && Without(v.streams, s) <= v'.streams
    && v.nextId <= v'.nextId
    && (forall t | t in v'.heap && t !in v.heap :: t >= v.nextId)
    && (forall t | t in v.heap ::
          t in v'.heap && v'.heap[t].lsep == v.heap[t].lsep && v'.heap[t].rseid == v.heap[t].rseid)
    && v'.lseps.Keys == v.lseps.Keys && v'.rseps.Keys == v.rseps.Keys
    && (forall k | k in v.lseps ::
          && v'.lseps[k].state == (if k == l then Idle else v.lseps[k].state)
          && v'.lseps[k].sink == v.lseps[k].sink
          && (v.lseps[k].stream.Some? ==> v'.lseps[k].stream == v.lseps[k].stream))
    && v'.session == v.session
  }

  /** End point `l` is idle and free, its stream is freed, and nothing else was lost. */
  ghost predicate Released(v: State, v': State, l: nat)
    requires l in v.lseps && v.lseps[l].stream.Some?
  {
    var s := v.lseps[l].stream.value;
    && s !in v'.heap
    && Without(v.streams, s) <= v'.streams
    && v.nextId <= v'.nextId
    && (forall t | t in v'.heap && t !in v.heap :: t >= v.nextId)
    && (forall t | t in v.heap && t != s ::
          t in v'.heap && v'.heap[t].lsep == v.heap[t].lsep && v'.heap[t].rseid == v.heap[t].rseid)
    && v'.lseps.Keys == v.lseps.Keys && v'.rseps.Keys == v.rseps.Keys
    && v'.lseps[l] == LocalSep(Idle, None, false, v.lseps[l].sink)
    && (forall k | k in v.lseps && k != l ::
          && v'.lseps[k].state == v.lseps[k].state && v'.lseps[k].sink == v.lseps[k].sink
          && (v.lseps[k].stream.Some? ==> v'.lseps[k].stream == v.lseps[k].stream))
    && v'.pendingOpen == (if v.pendingOpen == Some(s) then None else v.pendingOpen)
    && v'.session == v.session
  }

  lemma LeavingStarts(v: State, l: nat)
    requires Shape(v, None) && l in v.lseps && v.lseps[l].stream.Some?
    ensures Leaving(v, Detached(v, l), l)
  {
  }

  lemma LeavingGrows(v: State, u: State, v': State, l: nat)
    requires l in v.lseps && v.lseps[l].stream.Some?
    requires Leaving(v, u, l) && Grew(u, v', v.lseps[l].stream) && v.session == Connected
    ensures Leaving(v, v', l)
  {
    hide Outstanding, Queued, Without;
    forall t | t in v.heap
      ensures t in v'.heap && v'.heap[t].lsep == v.heap[t].lsep && v'.heap[t].rseid == v.heap[t].rseid
    {
      assert t in u.heap;
    }
  }

  lemma LeavingIgnoresPending(v: State, u: State, v': State, l: nat)
    requires l in v.lseps && v.lseps[l].stream.Some? && Leaving(v, u, l)
    requires v' == u.(pendingOpen := v'.pendingOpen, req := v'.req, prioQueue := v'.prioQueue, reqQueue := v'.reqQueue)
    ensures Leaving(v, v', l)
  {
  }

  /** Cleaning the queues keeps the shape and leaves no queued request of `s`. */
  lemma CleanedKeepsShape(v: State, s: StreamId)
    requires Shape(v, Some(s))
    ensures var v' := v.(prioQueue := Unqueued(v.prioQueue, s), reqQueue := Unqueued(v.reqQueue, s));
            Shape(v', Some(s)) && !Queued(v', s)
  {
    SameLinksKeepShape(v, v.(prioQueue := Unqueued(v.prioQueue, s), reqQueue := Unqueued(v.reqQueue, s)), Some(s));
  }

  lemma LeavingEnds(v: State, u: State, l: nat)
    requires Shape(v, None) && l in v.lseps && v.lseps[l].stream.Some?
    requires Leaving(v, u, l) && Shape(u, v.lseps[l].stream)
    requires u.pendingOpen == (if v.pendingOpen == v.lseps[l].stream then None else v.pendingOpen)
    ensures v.lseps[l].stream.value in u.heap && u.heap[v.lseps[l].stream.value].lsep in u.lseps
    ensures Released(v, Freed(u, v.lseps[l].stream.value), l)
  {
    hide RefsOk, RemoteOk, Without;
    assert SepOk(v, None, l);
    assert Owned(u, v.lseps[l].stream, v.lseps[l].stream.value);
  }

  /** A remote end point is (re)discovered and linked to the stream that uses it, if any. */
  lemma DiscoveredKeepsShape(v: State, seid: nat, stream: Option<StreamId>)
    requires Shape(v, None)
    requires stream.Some? ==> stream.value in v.streams && stream.value in v.heap && v.heap[stream.value].rseid == seid
    ensures Shape(v.(rseps := v.rseps[seid := stream]), None)
  {
    var v' := v.(rseps := v.rseps[seid := stream]);
    assert forall t :: Owned(v', None, t) == Owned(v, None, t);
    forall k | k in v'.lseps ensures SepOk(v', None, k) { assert SepOk(v, None, k); }
    forall k | k in v'.rseps ensures RemoteOk(v', None, k) { if k != seid { assert RemoteOk(v, None, k); } }
  }

  /** `process_queue`: with no request outstanding, the first queued one is sent, priority queue first. */
  function Dequeued(v: State, sendOk: bool): State {
    if v.req.Some? then v
    else if v.prioQueue != [] then Sent(v.(prioQueue := v.prioQueue[1..]), v.prioQueue[0], false, sendOk).0
    else if v.reqQueue != [] then Sent(v.(reqQueue := v.reqQueue[1..]), v.reqQueue[0], false, sendOk).0
    else v
  }

  lemma DequeuedKeepsLinks(v: State, sendOk: bool)
    ensures var v' := Dequeued(v, sendOk);
            && v'.lseps == v.lseps && v'.rseps == v.rseps && v'.pendingOpen == v.pendingOpen
            && v'.streams == v.streams && v'.heap == v.heap && (v.session == Connected ==> v'.session == Connected)
  {
  }

  lemma DequeuedKeepsShape(v: State, sendOk: bool)
    requires Shape(v, None)
    ensures Shape(Dequeued(v, sendOk), None)
  {
    if v.req.None? && (v.prioQueue != [] || v.reqQueue != []) {
      var q := if v.prioQueue != [] then v.prioQueue[0] else v.reqQueue[0];
      var v1 := if v.prioQueue != [] then v.(prioQueue := v.prioQueue[1..]) else v.(reqQueue := v.reqQueue[1..]);
      assert q in v.prioQueue || q in v.reqQueue;
      assert OwnedRef(v, None, q.stream);
      SameLinksKeepShape(v, v1, None);
      SentKeepsShape(v1, None, q, false, sendOk);
    }
  }

  /** A stream that is allocated and never put in place is only lost memory. */
  lemma AllocatedKeepsShape(v: State, st: Stream)
    requires Shape(v, None)
    ensures Shape(v.(heap := v.heap[v.nextId := st], nextId := v.nextId + 1), None)
  {
    var v' := v.(heap := v.heap[v.nextId := st], nextId := v.nextId + 1);
    assert v.nextId !in v.heap;
    assert forall t :: Owned(v', None, t) == Owned(v, None, t);
    forall k | k in v'.lseps ensures SepOk(v', None, k) { assert SepOk(v, None, k); }
    forall k | k in v'.rseps ensures RemoteOk(v', None, k) { assert RemoteOk(v, None, k); }
  }

  lemma SepStream(v: State, l: nat)
    requires Shape(v, None) && l in v.lseps
    ensures v.lseps[l].stream.Some? ==>
              && v.lseps[l].stream.value in v.streams && v.lseps[l].stream.value in v.heap
              && v.heap[v.lseps[l].stream.value].lsep == l
  {
    assert SepOk(v, None, l);
  }

  lemma MovedStates(v: State, l: nat, st: SepState, v': State)
    requires l in v.lseps && v.lseps[l].stream.Some? && Grew(Moved(v, l, st), v', None)
    ensures NewState(v, v', l, st) && v'.lseps[l].stream == v.lseps[l].stream && v.streams <= v'.streams
  {
  }

  lemma MovedHeap(v: State, l: nat, st: SepState, v': State, s: StreamId)
    requires l in v.lseps && v.lseps[l].stream.Some? && Grew(Moved(v, l, st), v', None) && s in v.heap
    ensures s in v'.heap && v'.heap[s].lsep == v.heap[s].lsep && v'.heap[s].rseid == v.heap[s].rseid
    ensures l in v'.lseps && v'.pendingOpen == v.pendingOpen
  {
  }

  lemma LinkedStates(v: State, st: Stream, rlink: bool)
    requires st.lsep in v.lseps
    ensures var v' := Linked(v, st, rlink);
            && SameStates(v, v') && v'.pendingOpen == v.pendingOpen
            && v.nextId in v'.heap && v'.heap[v.nextId] == st
            && v'.lseps[st.lsep].sink == v.lseps[st.lsep].sink
  {
  }

  lemma ReleasedStates(v: State, v': State, l: nat)
    requires l in v.lseps && v.lseps[l].stream.Some? && Released(v, v', l)
    ensures NewState(v, v', l, Idle)
  {
  }

  lemma FreedStates(v: State, s: StreamId)
    requires s in v.heap && v.heap[s].lsep in v.lseps
    ensures var v' := Freed(v, s); SameStates(v, v') && s !in v'.heap && v'.streams == v.streams
  {
  }

  lemma NewStateAfter(u: State, v: State, w: State, l: nat, st: SepState)
    requires SameStates(u, v) && NewState(v, w, l, st)
    ensures NewState(u, w, l, st)
  {
  }

  lemma NewStateLater(u: State, v: State, w: State, l: nat, st: SepState)
    requires NewState(u, v, l, st) && w.lseps == v.lseps
    ensures NewState(u, w, l, st)
  {
  }

  lemma SameStatesReflexive(v: State, v': State)
    requires v'.lseps == v.lseps
    ensures SameStates(v, v')
  {
  }

  lemma GrewSep(v: State, v': State, l: nat)
    requires Grew(v, v', None) && l in v.lseps && v.lseps[l].stream.Some?
    ensures l in v'.lseps && v'.lseps[l].stream == v.lseps[l].stream
  {
  }

  lemma PendingListed(v: State)
    requires Shape(v, None) && v.pendingOpen.Some?
    ensures var s := v.pendingOpen.value;
            s in v.streams && s in v.heap && v.heap[s].lsep in v.lseps && v.lseps[v.heap[s].lsep].stream == Some(s)
  {
    assert OwnedRef(v, None, v.pendingOpen);
    ListedStream(v, None, v.pendingOpen.value);
  }

  lemma RequestListed(v: State)
    requires Shape(v, None) && v.req.Some?
    ensures forall s | v.req.value.stream == Some(s) :: s in v.streams && s in v.heap && v.heap[s].lsep in v.lseps
  {
    forall s | v.req.value.stream == Some(s) ensures s in v.streams && s in v.heap && v.heap[s].lsep in v.lseps {
      assert OwnedRef(v, None, Some(s));
      ListedStream(v, None, s);
    }
  }

  lemma SepConnected(v: State, l: nat)
    requires Shape(v, None) && l in v.lseps && v.lseps[l].stream.Some?
    ensures v.session == Connected
  {
    SepStream(v, l);
  }

  lemma InUseSep(v: State, l: nat)
    requires Shape(v, None) && l in v.lseps
    ensures v.lseps[l].inUse <==> v.lseps[l].stream.Some?
  {
    assert SepOk(v, None, l);
  }

  lemma UnregisteredKeepsShape(v: State, l: nat)
    requires Shape(v, None) && l in v.lseps && v.lseps[l].stream.None?
    ensures Shape(v.(lseps := v.lseps - {l}), None)
  {
    var v' := v.(lseps := v.lseps - {l});
    assert forall t :: Owned(v', None, t) == Owned(v, None, t);
    forall k | k in v'.lseps ensures SepOk(v', None, k) { assert SepOk(v, None, k); }
    forall k | k in v'.rseps ensures RemoteOk(v', None, k) { assert RemoteOk(v, None, k); }
  }

  /** The states from which the peer may close, suspend or abort. */
  predicate MayMove(sep: LocalSep, to: SepState) {
    && sep.stream.Some?
    && (to == Closing ==> sep.state == Opened || sep.state == Streaming)
    && (to == Opened ==> sep.state == Streaming)
  }

  /** The application's answer to SET_CONFIGURATION: at once, or later through the callback it was given. */
  datatype Decision = Accepted | Refused | Deferred

  datatype AnswerKind = AcceptAnswer | RejectAnswer | GeneralRejectAnswer

  datatype PeerCommand =
    | SetConfigurationCommand(lsep: nat, rseid: nat, delay: bool, decision: Decision)
    | OpenCommand(lsep: nat, accept: bool)
    | StartCommand(lsep: nat, others: nat, accept: bool)
    | CloseCommand(lsep: nat, accept: bool)
    | SuspendCommand(lsep: nat, accept: bool)
    | AbortCommand(lsep: nat, accept: bool)

  /** A SET_CONFIGURATION for a free end point that is no sink, or an OPEN for a CONFIGURED one, is accepted at once. */
  predicate Plain(v: State, cmd: PeerCommand) {
    match cmd
    case SetConfigurationCommand(l, _, _, decision) =>
      decision == Accepted && l in v.lseps && v.lseps[l].stream.None? && !v.lseps[l].sink
    case OpenCommand(l, accept) =>
      && accept && l in v.lseps && v.lseps[l].state == Configured
      && v.lseps[l].stream.Some? && v.lseps[l].stream.value in v.heap
    case _ => false
  }

  /** The state after such a command when the callbacks make no calls. */
  function Stepped(v: State, cmd: PeerCommand): State
    requires Plain(v, cmd)
  {
    match cmd
    case SetConfigurationCommand(l, rseid, delay, _) =>
      Moved(Linked(v, Stream(l, rseid, false, false, false, false, delay), false), l, Configured)
    case OpenCommand(l, _) =>
      var s := v.lseps[l].stream.value;
      Flagged(v, s, v.heap[s].(openAcp := true)).(pendingOpen := Some(s))
  }

  /** A request for the capabilities of a remote end point is queued. */
  ghost predicate AsksFor(queue: seq<Request>, seid: nat) {
    exists q | q in queue :: q.seid == seid && (q.signal == GetCapabilities || q.signal == GetAllCapabilities)
  }

  lemma AsksStill(queue: seq<Request>, queue': seq<Request>)
    requires queue <= queue'
    ensures forall seid | AsksFor(queue, seid) :: AsksFor(queue', seid)
  {
    assert forall q | q in queue :: q in queue';
  }

  /** The answer accepts an outstanding DISCOVER. */
  predicate Discovers(v: State, answer: AnswerKind) {
    v.session == Connected && answer == AcceptAnswer && v.req.Some? && v.req.value.signal == Discover
  }

  /** The free remote end points reported are known, and nothing else changed but what is sent. */
  ghost predicate Learned(v: State, v': State, found: seq<(nat, bool)>) {
    && v'.session == Connected && v'.lseps == v.lseps && v'.streams == v.streams
    && forall i | 0 <= i < |found| && !found[i].1 :: found[i].0 in v'.rseps
  }

  /** End point `l` is in state `st`, and all others are in the state they were in. */
  ghost predicate NewState(v: State, v': State, l: nat, st: SepState) {
    && l in v.lseps && v'.lseps.Keys == v.lseps.Keys && v'.lseps[l].state == st
    && forall k | k in v.lseps && k != l :: v'.lseps[k].state == v.lseps[k].state
  }

  ghost predicate SameStates(v: State, v': State) {
    v'.lseps.Keys == v.lseps.Keys && forall k | k in v.lseps :: v'.lseps[k].state == v.lseps[k].state
  }

  /** What an accepted answer does to the stream of the request it answers; no other end point changes its state. */
  ghost predicate Carried(v: State, calm: bool, v': State) {
    v.req.Some? &&
    match v.req.value.stream
    case None => SameStates(v, v') && v'.pendingOpen == v.pendingOpen
    case Some(s) =>
      s in v.heap &&
      var l := v.heap[s].lsep;
      match v.req.value.signal
      case SetConfiguration =>
        && NewState(v, v', l, Configured) && v'.pendingOpen == v.pendingOpen
        && (calm && !v.lseps[l].sink ==> v'.heap == v.heap)
      case Open => SameStates(v, v') && v'.pendingOpen == Some(s)
      case Start =>
        NewState(v, v', l, Streaming) && v'.pendingOpen == v.pendingOpen && (calm ==> v'.heap == v.heap)
      case Suspend =>
        && NewState(v, v', l, Opened) && v'.pendingOpen == v.pendingOpen
        && (calm ==> v'.heap == v.heap[s := v.heap[s].(starting := false)])
      case Close =>
        NewState(v, v', l, Closing) && v'.pendingOpen == v.pendingOpen && (calm ==> v'.heap == v.heap)
      case Abort =>
        && NewState(v, v', l, Idle) && s !in v'.heap
        && v'.pendingOpen == if v.pendingOpen == Some(s) then None else v.pendingOpen
      case _ => SameStates(v, v') && v'.pendingOpen == v.pendingOpen
  }

  /** What a rejection does: a rejected START or CLOSE may be tried again, and no end point changes its state. */
  ghost predicate Declined(v: State, v': State) {
    && SameStates(v, v') && v'.pendingOpen == v.pendingOpen && v.req.Some?
    && (forall s | v.req.value.stream == Some(s) ::
          && s in v'.heap
          && (v.req.value.signal == Start ==> !v'.heap[s].starting)
          && (v.req.value.signal == Close ==> !v'.heap[s].closeInt))
  }

  /** The answer to the outstanding request ends the session. */
  predicate EndsSession(q: Request, answer: AnswerKind, ioOk: bool, valid: bool) {
    match answer
    case AcceptAnswer =>
      || (q.signal in {GetCapabilities, GetAllCapabilities} && !valid)
      || (q.signal == Open && q.stream.Some? && !ioOk)
    case RejectAnswer => !valid || q.signal == Abort
    case GeneralRejectAnswer => false
  }

  /** What an answer leads to when it does not end the session. */
  ghost predicate Replied(v: State, answer: AnswerKind, calm: bool, v': State) {
    match answer
    case AcceptAnswer => Carried(v, calm, v')
    case RejectAnswer => Declined(v, v')
    case GeneralRejectAnswer => SameStates(v, v') && v'.pendingOpen == v.pendingOpen && v'.heap == v.heap
  }

  /** What a command of the peer leads to when the answer to it can be sent. */
  ghost predicate Obeyed(v: State, cmd: PeerCommand, calm: bool, v': State) {
    match cmd
    case SetConfigurationCommand(l, rseid, delay, decision) =>
      && v'.pendingOpen == v.pendingOpen
      && (if l in v.lseps && v.lseps[l].stream.None? && decision == Accepted then
            && NewState(v, v', l, Configured) && v'.lseps[l].stream == Some(v.nextId) && v.nextId in v'.streams
            && v.nextId in v'.heap && v'.heap[v.nextId].lsep == l && v'.heap[v.nextId].rseid == rseid
          else v'.lseps == v.lseps && v'.streams == v.streams)
    case OpenCommand(l, accept) =>
      && SameStates(v, v')
      && v'.pendingOpen == (if l in v.lseps && v.lseps[l].state == Configured && accept then v.lseps[l].stream
                            else v.pendingOpen)
    case StartCommand(l, _, accept) =>
      && v'.pendingOpen == v.pendingOpen
      && (if CanStart(v, l) && accept then NewState(v, v', l, Streaming) else SameStates(v, v'))
      && (calm && CanStart(v, l) ==>
            var s := v.lseps[l].stream.value;
            v'.heap == v.heap[s := v.heap[s].(starting := true)])
    case CloseCommand(l, accept) =>
      && v'.pendingOpen == v.pendingOpen
      && (if (&& l in v.lseps && v.lseps[l].stream.Some? && accept
              && (v.lseps[l].state == Opened || v.lseps[l].state == Streaming))
          then NewState(v, v', l, Closing) else SameStates(v, v'))
      && (calm ==> v'.heap == v.heap)
    case SuspendCommand(l, accept) =>
      && v'.pendingOpen == v.pendingOpen
      && (if l in v.lseps && v.lseps[l].stream.Some? && accept && v.lseps[l].state == Streaming
          then NewState(v, v', l, Opened) else SameStates(v, v'))
    case AbortCommand(l, accept) =>
      && v'.pendingOpen == v.pendingOpen
      && (if l in v.lseps && v.lseps[l].stream.Some? && accept
          then NewState(v, v', l, Aborting) else SameStates(v, v'))
      && (calm ==> v'.heap == v.heap)
  }

  /** The session is given up: no stream is listed, and those that were are freed. */
  ghost predicate Over(v: State, v': State) {
    v'.session == Disconnected && v'.streams == [] && forall s | s in v.streams :: s !in v'.heap
  }

  /** What the main loop hands to the session; `sendOk` says whether the channel takes what is written. */
  datatype Event =
    | AppRequest(signal: Signal, stream: StreamId, sendOk: bool)
    | AppSetUp(lsep: nat, rseid: nat, delay: bool, sendOk: bool)
    | Timeout(sendOk: bool)
    | Answer(answer: AnswerKind, ioOk: bool, valid: bool, found: seq<(nat, bool)>, sendOk: bool)
    | Command(command: PeerCommand, sendOk: bool)
    | TransportConnect(up: bool, sendOk: bool)
    | TransportClosed(stream: StreamId, sendOk: bool)
    | OpenTimeout(stream: StreamId, sendOk: bool)
    | SignallingUp(sendOk: bool)
    | ChannelLost(sendOk: bool)
    | UnregisterSep(lsep: nat, sendOk: bool)
    | ConfigurationDecided(stream: StreamId, accepted: bool, sendOk: bool)
    | AppDiscover(sendOk: bool)
    | DiscoveryIdle(sendOk: bool)
    | IncomingChannel(sendOk: bool)

  /** Events that can end with the session being given up. */
  predicate MayGiveUp(e: Event) {
    match e
    case AppRequest(signal, _, _) => signal == Abort
    case Timeout(_) => true
    case Answer(_, _, _, _, _) => true
    case Command(_, sendOk) => !sendOk
    case TransportConnect(up, _) => !up
    case OpenTimeout(_, _) => true
    case ChannelLost(_) => true
    case _ => false
  }

  // ---------------------------------------------------------------- the session

  /** One call of the public interface from inside a callback. */
  datatype Call =
    | StreamCall(signal: Signal, stream: StreamId, sendOk: bool)
    | SetUpCall(lsep: nat, rseid: nat, delay: bool, sendOk: bool)
    | DiscoverCall(sendOk: bool)

  /**
   What is recorded of a run: a call the application made, with the state before and after it; the release of the
   stream of an end point; the giving up of the session; the report that a transport failed.
   */
  datatype Entry = Made(call: Call, before: State, after: State) | Releasing(lsep: nat) | GivingUp | Reported

  type Log = seq<Entry>

  /** The call sets up a stream when it is made in `v`. */
  predicate SetsUp(v: State, m: Entry) {
    && m.Made? && m.call.SetUpCall? && m.call.lsep in v.lseps && !v.lseps[m.call.lsep].inUse
    && v.session == Connected && m.call.rseid in v.rseps && (m.call.sendOk || m.before.req.Some?)
  }

  /** Since `a` nothing but calls was recorded. */
  ghost predicate OnlyCalls(a: Log, b: Log) {
    a <= b && forall i | |a| <= i < |b| :: b[i].Made?
  }

  /** One of the calls made since `a` sets up a stream. */
  ghost predicate SetUpSince(v: State, a: Log, b: Log) {
    exists i | |a| <= i < |b| :: SetsUp(v, b[i])
  }

  /** Callbacks record only calls, and the list grew exactly when one of them set up a stream. */
  ghost predicate Told(v: State, a: Log, v': State, b: Log) {
    OnlyCalls(a, b) && (v'.streams == v.streams <==> !SetUpSince(v, a, b))
  }

  /** No call made since `a`, up to the next other entry, left a request out. */
  ghost predicate Quiet(a: Log, b: Log) {
    forall i | |a| <= i < |b| && (forall k | |a| <= k <= i :: b[k].Made?) :: b[i].after.req.None?
  }

  /** No request is outstanding exactly when none was and no call made on the way left one. */
  ghost predicate Asked(v: State, a: Log, v': State, b: Log) {
    OnlyCalls(a, b) && (v'.req.None? <==> v.req.None? && Quiet(a, b))
  }

  /** The state after the calls made since `a`, which began in `v`. */
  ghost function Reached(v: State, a: Log, b: Log): State {
    if |b| > |a| && b[|b| - 1].Made? then b[|b| - 1].after else v
  }

  /** Entries behind a marker do not matter to the calls before it. */
  lemma QuietBefore(a: Log, b: Log, e: Entry, c: Log)
    requires OnlyCalls(a, b) && !e.Made? && b + [e] <= c
    ensures Quiet(a, c) <==> Quiet(a, b)
  {
    assert c[|b|] == e && forall i | 0 <= i < |b| :: c[i] == b[i];
  }

  lemma ReportedFirst(a: Log, b: Log, c: Log)
    requires b != [] && b[|b| - 1] == Reported && OnlyCalls(a, b[..|b| - 1]) && b <= c
    ensures a <= c && IsReport(a, c, |b| - 1) && c[..|b| - 1] == b[..|b| - 1] && c[..|b|] == b
  {
  }

  /** The calls made since `a`, which began in `v`, have led to `w`. */
  ghost predicate Going(v: State, a: Log, w: State, b: Log, dying: Option<StreamId>) {
    |a| <= |b| && Grew(v, w, dying) && Told(v, a, w, b) && Asked(v, a, w, b) && w == Reached(v, a, b)
  }

  lemma GoingStarts(v: State, a: Log, dying: Option<StreamId>)
    ensures Going(v, a, v, a, dying)
  {
    GrewReflexive(v, dying);
    NothingSince(v, a);
  }

  lemma GoingMeans(v: State, a: Log, w: State, b: Log, dying: Option<StreamId>)
    requires Going(v, a, w, b, dying)
    ensures Grew(v, w, dying) && Told(v, a, w, b) && Asked(v, a, w, b) && w == Reached(v, a, b)
  {
  }

  lemma GoingNext(v: State, a: Log, w: State, b: Log, x: State, c: Log, call: Call, dying: Option<StreamId>)
    requires Going(v, a, w, b, dying) && Shape(v, dying) && Shape(w, dying) && Grew(w, x, dying)
    requires Told(w, b, x, c) && Asked(w, b, x, c) && |b| < |c| && c[|c| - 1] == Made(call, w, x)
    requires Performed(w, call, x)
    ensures Going(v, a, x, c, dying)
    ensures MadeSince(call, a, c) && forall y | MadeSince(y, a, b) :: MadeSince(y, a, c)
  {
    hide Shape, Grew, Told, Asked, MadeSince, Performed;
    JustMade(call, w, x, a, b, c);
    ToldTransitive(v, a, w, b, x, c, dying);
    AskedTransitive(v, a, w, b, x, c);
    GrewTransitive(v, w, x, dying);
  }

  lemma PoppedScript(sc: seq<seq<Call>>)
    requires sc != []
    ensures NoSetUp(sc) ==> NoSetUp(sc[1..]) && forall c | c in sc[0] :: !c.SetUpCall?
  {
    assert sc[0] in sc && forall x | x in sc[1..] :: x in sc;
  }

  lemma JustMade(x: Call, v: State, w: State, a: Log, b: Log, c: Log)
    requires |a| <= |b| < |c| && Told(v, b, w, c) && c[|c| - 1] == Made(x, v, w) && Performed(v, x, w)
    ensures MadeSince(x, a, c) && forall y | MadeSince(y, a, b) :: MadeSince(y, a, c)
  {
    hide Performed, SetUpSince;
    assert c[|c| - 1].call == x;
    MadeLater(a, b, c);
  }

  lemma MadeLater(a: Log, b: Log, c: Log)
    requires |a| <= |b| && b <= c
    ensures forall x | MadeSince(x, a, b) :: MadeSince(x, a, c)
  {
    hide Performed;
    forall x | MadeSince(x, a, b) ensures MadeSince(x, a, c) {
      var i :| |a| <= i < |b| && b[i].Made? && b[i].call == x && Performed(b[i].before, x, b[i].after);
      assert c[i] == b[i];
    }
  }

  lemma ToldTransitive(u: State, a: Log, v: State, b: Log, w: State, c: Log, dying: Option<StreamId>)
    requires Shape(u, dying) && Shape(v, dying) && Grew(u, v, dying) && Grew(v, w, dying)
    requires Told(u, a, v, b) && Told(v, b, w, c)
    ensures Told(u, a, w, c)
  {
    GrewList(u, v, dying);
    GrewList(v, w, dying);
    if v.streams == u.streams { SameSetsUp(u, v, dying); }
    hide Shape, Grew, SetsUp, SetUpSince;
    if v.streams == u.streams { SinceMoves(u, v, a, b, c); } else { SinceStays(u, a, b, c); }
  }

  lemma SameSetsUp(u: State, v: State, dying: Option<StreamId>)
    requires Shape(u, dying) && Shape(v, dying) && Grew(u, v, dying) && v.streams == u.streams
    ensures forall m :: SetsUp(u, m) <==> SetsUp(v, m)
  {
    GrewSameFree(u, v, dying);
    hide Shape;
  }

  /**
   Where no call since `a` sets up a stream, it does not matter from which of two like states the rest is looked at.
   */
  lemma SinceMoves(u: State, v: State, a: Log, b: Log, c: Log)
    requires a <= b <= c && !SetUpSince(u, a, b) && forall m :: SetsUp(u, m) <==> SetsUp(v, m)
    ensures SetUpSince(u, a, c) <==> SetUpSince(v, b, c)
  {
    hide SetsUp;
    assert forall i | |a| <= i < |b| :: c[i] == b[i];
  }

  lemma SinceStays(u: State, a: Log, b: Log, c: Log)
    requires a <= b <= c && SetUpSince(u, a, b)
    ensures SetUpSince(u, a, c)
  {
    hide SetsUp;
    var i :| |a| <= i < |b| && SetsUp(u, b[i]);
    assert c[i] == b[i];
  }

  lemma AskedTransitive(u: State, a: Log, v: State, b: Log, w: State, c: Log)
    requires Asked(u, a, v, b) && Asked(v, b, w, c)
    ensures Asked(u, a, w, c)
  {
    assert forall i | |a| <= i < |b| :: c[i] == b[i];
    QuietJoins(a, b, c);
    hide Quiet;
  }

  lemma QuietJoins(a: Log, b: Log, c: Log)
    requires OnlyCalls(a, b) && OnlyCalls(b, c)
    ensures OnlyCalls(a, c) && (Quiet(a, c) <==> Quiet(a, b) && Quiet(b, c))
  {
    assert forall i | 0 <= i < |b| :: c[i] == b[i];
  }

  lemma QuietCall(a: Log, b: Log, m: Entry)
    requires OnlyCalls(a, b) && m.Made?
    ensures OnlyCalls(a, b + [m]) && (Quiet(a, b + [m]) <==> Quiet(a, b) && m.after.req.None?)
  {
    var c := b + [m];
    assert c[|b|] == m && forall i | 0 <= i < |b| :: c[i] == b[i];
  }

  lemma ToldCall(v: State, a: Log, v': State, b: Log, m: Entry)
    requires Told(v, a, v', b) && m.Made? && !m.call.SetUpCall?
    ensures Told(v, a, v', b + [m])
  {
    var c := b + [m];
    assert c[|b|] == m && forall i | 0 <= i < |b| :: c[i] == b[i];
  }

  lemma ToldSetUp(v: State, a: Log, v': State, m: Entry)
    requires m.Made? && (v'.streams == v.streams <==> !SetsUp(v, m))
    ensures Told(v, a, v', a + [m])
  {
    assert (a + [m])[|a|] == m;
  }

  lemma AskedCall(v: State, a: Log, v': State, b: Log, m: Entry)
    requires OnlyCalls(a, b) && m.Made? && m.after.req == v'.req
    requires (v.req.Some? ==> v'.req.Some?) && (v.req.None? ==> b == a)
    ensures Asked(v, a, v', b + [m])
  {
    QuietCall(a, b, m);
  }

  /**
   While the stream of end point `l` leaves: the list is only shorter exactly when no call made since set up a
   stream.
   */
  ghost predicate LeftTold(v: State, l: nat, a: Log, u: State, b: Log)
    requires l in v.lseps && v.lseps[l].stream.Some?
  {
    OnlyCalls(a, b) && (u.streams == Without(v.streams, v.lseps[l].stream.value) <==> !SetUpSince(v, a, b))
  }

  lemma LeavingSameFree(v: State, u: State, l: nat)
    requires l in v.lseps && v.lseps[l].stream.Some?
    requires Shape(v, None) && Shape(u, v.lseps[l].stream) && Leaving(v, u, l)
    requires u.streams == Without(v.streams, v.lseps[l].stream.value)
    ensures forall m :: SetsUp(v, m) <==> SetsUp(u, m)
  {
    var s := v.lseps[l].stream;
    forall k | k in v.lseps ensures u.lseps[k].inUse == v.lseps[k].inUse {
      assert SepOk(v, None, k) && SepOk(u, s, k);
      if v.lseps[k].stream.None? && u.lseps[k].stream.Some? {
        var x := u.lseps[k].stream.value;
        assert SepOk(v, None, l);
        assert Owned(u, s, x) && Owned(v, None, x);
      }
    }
  }

  lemma LeftTransitive(v: State, l: nat, a: Log, u: State, b: Log, w: State, c: Log)
    requires l in v.lseps && v.lseps[l].stream.Some?
    requires Shape(v, None) && Shape(u, v.lseps[l].stream) && Leaving(v, u, l) && LeftTold(v, l, a, u, b)
    requires Told(u, b, w, c) && u.streams <= w.streams
    ensures LeftTold(v, l, a, w, c)
  {
    var left := Without(v.streams, v.lseps[l].stream.value);
    assert left <= u.streams;
    if u.streams == left { LeavingSameFree(v, u, l); }
    hide Shape, Leaving, SetsUp, Without, SetUpSince;
    if u.streams == left { SinceMoves(v, u, a, b, c); } else { SinceStays(v, a, b, c); }
  }

  /** A callback while the stream leaves; `u'` is `u` up to what is pending. */
  lemma LeftGrows(v: State, l: nat, s: StreamId, a: Log, u: State, b: Log, u': State, w: State, c: Log)
    requires l in v.lseps && v.lseps[l].stream == Some(s) && Shape(v, None)
    requires Shape(u, Some(s)) && Leaving(v, u, l) && LeftTold(v, l, a, u, b)
    requires u'.streams == u.streams && Leaving(v, u', l) && Grew(u', w, Some(s)) && Told(u, b, w, c)
    ensures Leaving(v, w, l) && LeftTold(v, l, a, w, c)
  {
    SepConnected(v, l);
    GrewList(u', w, Some(s));
    hide Shape, Leaving, LeftTold, Told, Grew;
    LeavingGrows(v, u', w, l);
    LeftTransitive(v, l, a, u, b, w, c);
  }

  /** Calls made before the stream leaves count as well. */
  lemma LeftAfter(v: State, a: Log, w: State, b: Log, l: nat, u: State, c: Log)
    requires Shape(v, None) && Shape(w, None) && Grew(v, w, None) && Told(v, a, w, b)
    requires l in v.lseps && v.lseps[l].stream.Some? && l in w.lseps && w.lseps[l].stream == v.lseps[l].stream
    requires LeftTold(w, l, b, u, c) && Without(w.streams, v.lseps[l].stream.value) <= u.streams
    requires v.lseps[l].stream.value in v.streams
    ensures LeftTold(v, l, a, u, c)
  {
    var s := v.lseps[l].stream.value;
    WithoutPrefix(v.streams, w.streams, s);
    WithoutPrefix(w.streams, w.streams, s);
    GrewList(v, w, None);
    if w.streams == v.streams { SameSetsUp(v, w, None); }
    hide Shape, Grew, SetsUp, Without, SetUpSince;
    if w.streams == v.streams { SinceMoves(v, w, a, b, c); } else { SinceStays(v, a, b, c); }
  }

  lemma LeftStarts(v: State, l: nat, a: Log)
    requires l in v.lseps && v.lseps[l].stream.Some?
    ensures LeftTold(v, l, a, Detached(v, l), a)
  {
  }

  lemma LeftSame(v: State, l: nat, a: Log, u: State, w: State, b: Log)
    requires l in v.lseps && v.lseps[l].stream.Some? && LeftTold(v, l, a, u, b) && w.streams == u.streams
    ensures LeftTold(v, l, a, w, b)
  {
  }

  lemma GrewList(v: State, v': State, dying: Option<StreamId>)
    requires Grew(v, v', dying)
    ensures v.streams <= v'.streams && v'.lseps.Keys == v.lseps.Keys && v'.rseps.Keys == v.rseps.Keys
  {
  }

  lemma NothingSince(v: State, a: Log)
    ensures OnlyCalls(a, a) && !SetUpSince(v, a, a) && Quiet(a, a)
  {
  }

  /** A call that leaves a stream behind when it is made while the last stream, that of end point `l`, is released. */
  predicate Leaks(v: State, l: nat, m: Entry) {
    && m.Made? && m.call.SetUpCall? && m.call.lsep in v.lseps && m.call.lsep != l
    && m.call.rseid in v.rseps && (m.call.sendOk || m.before.req.Some?)
  }

  /** Behind the last release recorded since `a` there is a call that leaves a stream behind. */
  ghost predicate LeakSince(v: State, a: Log, b: Log) {
    exists i, j | |a| <= i < j < |b| :: IsLastRelease(b, i) && Leaks(v, b[i].lsep, b[j])
  }

  /** Entry `i` is a release, and behind it there are only calls. */
  ghost predicate IsLastRelease(b: Log, i: nat) {
    i < |b| && b[i].Releasing? && forall k | i < k < |b| :: b[k].Made?
  }

  /** The last release began in state `last`, with one stream listed. */
  lemma LeaksInLastRelease(v: State, last: State, a: Log, b: Log, n: nat)
    requires Shape(last, None) && |last.streams| == 1 && last.streams[0] in last.heap
    requires last.lseps.Keys == v.lseps.Keys && last.rseps.Keys == v.rseps.Keys
    requires |a| <= n && IsLastRelease(b, n) && b[n].lsep == last.heap[last.streams[0]].lsep
    ensures LeakSince(v, a, b) <==> SetUpSince(last, b[..n + 1], b)
  {
    forall m ensures SetsUp(last, m) <==> Leaks(v, b[n].lsep, m) { LastSetsUp(last, m); }
    hide Shape, SetsUp, Leaks;
    if LeakSince(v, a, b) {
      var i, j :| |a| <= i < j < |b| && IsLastRelease(b, i) && Leaks(v, b[i].lsep, b[j]);
      assert i == n;
    }
    if SetUpSince(last, b[..n + 1], b) {
      var j :| n + 1 <= j < |b| && SetsUp(last, b[j]);
      assert IsLastRelease(b, n) && Leaks(v, b[n].lsep, b[j]);
    }
  }

  /** Dropping the list makes nothing name a stream anew. */
  lemma NoNewReference(v: State, s: StreamId)
    requires !RefersTo(v, s)
    ensures !RefersTo(v.(streams := [], session := Disconnected), s)
  {
  }

  /** The walk ends with the release of the one stream of `last`, recorded as entry `n`. */
  lemma LastWalked(v: State, last: State, a: Log, b: Log, n: nat)
    requires Shape(last, None) && |last.streams| == 1 && last.streams[0] in last.heap
    requires last.lseps.Keys == v.lseps.Keys && last.rseps.Keys == v.rseps.Keys
    requires |a| <= n < |b| && b[n] == Releasing(last.heap[last.streams[0]].lsep) && OnlyCalls(b[..n + 1], b)
    ensures LeakSince(v, a, b) <==> SetUpSince(last, b[..n + 1], b)
  {
    LeaksInLastRelease(v, last, a, b, n);
  }

  /** Without a release since `a` nothing is left behind; what is recorded before the first release does not matter. */
  lemma NoReleaseNoLeak(v: State, a: Log, b: Log)
    requires a <= b && forall i | |a| <= i < |b| :: !b[i].Releasing?
    ensures !LeakSince(v, a, b)
  {
  }

  lemma LeakSinceEarlier(v: State, w: State, a: Log, b: Log, c: Log)
    requires a <= b <= c && (forall i | |a| <= i < |b| :: !b[i].Releasing?)
    requires w.lseps.Keys == v.lseps.Keys && w.rseps.Keys == v.rseps.Keys
    ensures LeakSince(v, a, c) <==> LeakSince(w, b, c)
  {
    assert forall i | |a| <= i < |b| :: c[i] == b[i];
    assert forall l, m :: Leaks(v, l, m) <==> Leaks(w, l, m);
    hide Leaks;
    if LeakSince(v, a, c) {
      var i, j :| |a| <= i < j < |c| && IsLastRelease(c, i) && Leaks(v, c[i].lsep, c[j]);
      assert i >= |b|;
    }
    if LeakSince(w, b, c) {
      var i, j :| |b| <= i < j < |c| && IsLastRelease(c, i) && Leaks(w, c[i].lsep, c[j]);
    }
  }

  /** With one listed stream the free end points are all the others. */
  lemma LastSetsUp(v: State, m: Entry)
    requires Shape(v, None) && |v.streams| == 1
    ensures v.streams[0] in v.heap
    ensures SetsUp(v, m) <==>
              && m.Made? && m.call.SetUpCall? && m.call.lsep in v.lseps && m.call.lsep != v.heap[v.streams[0]].lsep
              && m.call.rseid in v.rseps && (m.call.sendOk || m.before.req.Some?)
  {
    ListedStream(v, None, v.streams[0]);
    if m.Made? && m.call.SetUpCall? && m.call.lsep in v.lseps { SepStream(v, m.call.lsep); InUseSep(v, m.call.lsep); }
  }

  /** Aborting stream `s` cancels the outstanding request. */
  predicate Cancels(v: State, s: StreamId) {
    && s in v.streams && Outstanding(v, s)
    && s in v.heap && v.heap[s].lsep in v.lseps && v.lseps[v.heap[s].lsep].state != Aborting
  }

  /**
   Cancelling the outstanding request ends with an ABORT, if that can be sent, and not with the loss of the session.
   */
  ghost predicate Abortable(v: State) {
    && v.req.Some? && v.req.value.signal !in {Discover, GetCapabilities, SetConfiguration, Abort}
    && v.req.value.seid != 0 && exists s | s in v.streams :: s in v.heap && v.heap[s].rseid == v.req.value.seid
  }

  /** No callback sets up a stream. */
  ghost predicate NoSetUp(script: seq<seq<Call>>) {
    forall calls | calls in script :: forall c | c in calls :: !c.SetUpCall?
  }

  /** Entry `i` is the first since `a` that is no call: the report that a transport failed. */
  ghost predicate IsReport(a: Log, b: Log, i: nat) {
    |a| <= i < |b| && b[i] == Reported && forall k | |a| <= k < i :: b[k].Made?
  }

  /** Aborting stream `s` cancels the outstanding request, and an ABORT is to follow. */
  ghost predicate Severs(v: State, s: StreamId) {
    Cancels(v, s) && Abortable(v)
  }

  /**
   What cancelling the outstanding request leads to: an ABORT for a stream of its remote end point, or the end of the
   session; `calm` says that callbacks make no calls.
   */
  ghost predicate Cancelled(v: State, sendOk: bool, calm: bool, v': State) {
    && v.req.Some?
    && (Over(v, v') || exists s | s in v'.streams :: BeingAborted(v', s, v.req.value.seid))
    && (!Abortable(v) ==> Over(v, v'))
    && (Abortable(v) && sendOk ==> exists s | s in v'.streams :: BeingAborted(v', s, v.req.value.seid))
    && (Abortable(v) && !sendOk && calm ==> Over(v, v'))
  }

  /** The transport of stream `s` could not be opened: an ABORT is on its way for it, it is freed, or all is over. */
  ghost predicate OpenGivenUp(v: State, s: StreamId, v': State) {
    || v'.streams == [] || s !in v'.heap
    || exists t | t in v'.streams :: t in v'.heap && BeingAborted(v', t, v'.heap[t].rseid)
  }

  /** When a request is sent, queued or refused, and that nothing but the session state and its place changes. */
  lemma SentCases(v: State, r: Request, priority: bool, sendOk: bool)
    ensures var (v', ok) := Sent(v, r, priority, sendOk);
            && (ok <==> sendOk || v.session == Connecting || (v.session == Connected && v.req.Some?))
            && (!ok ==> v' == v)
            && (ok && v.session == Connected && v.req.None? ==> v' == v.(req := Some(r)))
            && (ok && !(v.session == Connected && v.req.None?) ==>
                  v' == v.(session := if v.session == Connected then Connected else Connecting,
                           prioQueue := v.prioQueue + if priority then [r] else [],
                           reqQueue := v.reqQueue + if priority then [] else [r]))
  {
  }

  /** The states of the end point in which an operation on an open stream of the session is not refused. */
  ghost predicate Ready(st: Stream, k: SepState, sig: Signal) {
    || (sig == Open && !st.abortInt && (k == Idle || k == Configured))
    || (sig == Reconfigure && !st.abortInt && k == Opened)
    || (sig == Start && !st.abortInt && !st.closeInt && !st.starting && k == Opened)
    || (sig == Close && !st.abortInt && !st.closeInt
        && (k == Opened || k == Streaming || k == Closing || k == Aborting))
    || (sig == Suspend && !st.abortInt && !st.closeInt && (k == Streaming || k == Closing || k == Aborting))
    || (sig == Abort && k != Aborting)
    || (sig == DelayReport && !st.abortInt && st.delayReporting && (k == Configured || k == Streaming))
  }

  /**
   Exactly when a public operation on a listed stream sends or queues its request; ABORT and DELAY_REPORT have
   priority, START, CLOSE and ABORT set their flag, and a refused operation changes nothing.
   */
  lemma RequestedIff(v: State, sig: Signal, s: StreamId, sendOk: bool)
    requires Shape(v, None) && s in v.streams
    ensures s in v.heap && v.heap[s].lsep in v.lseps
    ensures var (v', ok) := Requested(v, sig, s, sendOk);
            var q := Request(sig, Some(s), v.heap[s].rseid);
            && (ok <==> Ready(v.heap[s], v.lseps[v.heap[s].lsep].state, sig) && (sendOk || v.req.Some?))
            && (!ok ==> v' == v)
            && (ok ==>
                  && v'.heap == v.heap[s := v.heap[s].(starting := v.heap[s].starting || sig == Start,
                                                       closeInt := v.heap[s].closeInt || sig == Close,
                                                       abortInt := v.heap[s].abortInt || sig == Abort)]
                  && v' == v.(heap := v'.heap, req := v'.req, prioQueue := v'.prioQueue, reqQueue := v'.reqQueue)
                  && (if v.req.None? then v'.req == Some(q) && v'.prioQueue == v.prioQueue && v'.reqQueue == v.reqQueue
                      else if sig == Abort || sig == DelayReport then
                        v'.req == v.req && v'.prioQueue == v.prioQueue + [q] && v'.reqQueue == v.reqQueue
                      else v'.req == v.req && v'.prioQueue == v.prioQueue && v'.reqQueue == v.reqQueue + [q]))
  {
    ListedStream(v, None, s);
    hide Shape, Allowed, Ready, FlagFor, Sent;
    var q := Request(sig, Some(s), v.heap[s].rseid);
    AllowedIff(v.heap[s], v.lseps[v.heap[s].lsep].state, sig);
    SentCases(v, q, sig == Abort || sig == DelayReport, sendOk);
  }

  lemma AllowedIff(st: Stream, k: SepState, sig: Signal)
    ensures Allowed(st, k, sig) <==> Ready(st, k, sig)
    ensures FlagFor(sig, st) == st.(starting := st.starting || sig == Start, closeInt := st.closeInt || sig == Close,
                                    abortInt := st.abortInt || sig == Abort)
  {
  }

  /** What setting up a stream on a free end point leads to. */
  lemma SetUpIff(v: State, l: nat, rseid: nat, delay: bool, sendOk: bool)
    requires Shape(v, None) && l in v.lseps && !v.lseps[l].inUse
    ensures var (v', ok) := SetUp(v, l, rseid, delay, sendOk);
            var q := Request(SetConfiguration, Some(v.nextId), rseid);
            && (ok <==> v.session == Connected && rseid in v.rseps && (sendOk || v.req.Some?))
            && (!ok ==> v'.heap == v.heap && v'.lseps == v.lseps && v'.streams == v.streams && v'.req == v.req)
            && (ok ==>
                  && v'.streams == v.streams + [v.nextId]
                  && v'.heap == v.heap[v.nextId := Stream(l, rseid, false, false, false, false, delay)]
                  && v'.lseps == v.lseps[l := v.lseps[l].(stream := Some(v.nextId), inUse := true)]
                  && v'.rseps == v.rseps[rseid := Some(v.nextId)]
                  && (if v.req.None? then v'.req == Some(q) && v'.reqQueue == v.reqQueue
                      else v'.req == v.req && v'.reqQueue == v.reqQueue + [q]))
  {
    if v.session == Connected && rseid in v.rseps {
      var st := Stream(l, rseid, false, false, false, false, delay);
      SetUpFailed(v, None, st);
      SentCases(v, Request(SetConfiguration, Some(v.nextId), rseid), false, sendOk);
    }
    hide Shape, Sent, Grew;
  }

  /** The next request: the first of the priority queue, else of the other; one that cannot be sent is lost. */
  lemma DequeuedIs(v: State, sendOk: bool)
    requires v.session == Connected && v.req.None?
    ensures var v' := Dequeued(v, sendOk);
            && v' == v.(req := v'.req, prioQueue := v'.prioQueue, reqQueue := v'.reqQueue)
            && (if v.prioQueue != [] then
                  && v'.prioQueue == v.prioQueue[1..] && v'.reqQueue == v.reqQueue
                  && v'.req == if sendOk then Some(v.prioQueue[0]) else None
                else if v.reqQueue != [] then
                  && v'.prioQueue == [] && v'.reqQueue == v.reqQueue[1..]
                  && v'.req == if sendOk then Some(v.reqQueue[0]) else None
                else v' == v)
  {
  }

  lemma RequestedAborts(v: State, s: StreamId, sendOk: bool)
    requires s in v.heap && Requested(v, Abort, s, sendOk).1
    ensures var v' := Requested(v, Abort, s, sendOk).0;
            s in v'.streams && s in v'.heap && BeingAborted(v', s, v'.heap[s].rseid)
  {
  }

  lemma CancelledAborts(v: State, sendOk: bool, calm: bool, v': State, s: StreamId)
    requires Cancelled(v, sendOk, calm, v')
    ensures OpenGivenUp(v, s, v')
  {
    if t :| t in v'.streams && BeingAborted(v', t, v.req.value.seid) {
      assert BeingAborted(v', t, v'.heap[t].rseid);
    }
  }

  /** What an event leads to. */
  ghost predicate Handled(v: State, e: Event, calm: bool, v': State) {
    match e
    case AppRequest(sig, s, sendOk) =>
      if sig == Abort && Cancels(v, s) then Cancelled(v, sendOk, calm, v') else v' == Requested(v, sig, s, sendOk).0
    case AppSetUp(l, rseid, delay, sendOk) =>
      v' == if l in v.lseps && !v.lseps[l].inUse then SetUp(v, l, rseid, delay, sendOk).0 else v
    case Timeout(sendOk) => if v.req.Some? then Cancelled(v, sendOk, calm, v') else v' == v
    case Answer(answer, ioOk, valid, _, _) =>
      if v.req.None? then v' == v
      else if EndsSession(v.req.value, answer, ioOk, valid) then v'.session == Disconnected && v'.streams == []
      else Replied(v, answer, calm, v')
    case Command(cmd, sendOk) =>
      if v.session != Connected then v' == v
      else if sendOk then Obeyed(v, cmd, calm, v') else v'.session == Disconnected && v'.streams == []
    case TransportConnect(up, _) =>
      if v.pendingOpen.None? then v' == v
      else
        var s := v.pendingOpen.value;
        if up then s in v.heap && NewState(v, v', v.heap[s].lsep, Opened) && v'.pendingOpen.None?
        else OpenGivenUp(v, s, v')
    case TransportClosed(s, _) =>
      if s !in v.streams then v' == v
      else
        s in v.heap &&
        (if s in v'.heap then SameStates(v, v') && v'.heap[s].abortInt
         else !v.heap[s].abortInt && NewState(v, v', v.heap[s].lsep, Idle))
    case OpenTimeout(s, sendOk) =>
      if s !in v.streams then v' == v
      else
        var u := v.(pendingOpen := None);
        if Cancels(u, s) then Cancelled(u, sendOk, calm, v') else v' == Requested(u, Abort, s, sendOk).0
    case SignallingUp(sendOk) =>
      v' == if v.session == Connecting then Dequeued(v.(session := Connected), sendOk) else v
    case ChannelLost(_) => Over(v, v')
    case UnregisterSep(l, _) =>
      if l !in v.lseps then v' == v
      else
        && v'.lseps.Keys == v.lseps.Keys - {l}
        && (forall k | k in v'.lseps :: v'.lseps[k].state == v.lseps[k].state)
        && (v.lseps[l].stream.Some? ==> v.lseps[l].stream.value !in v'.heap)
    case ConfigurationDecided(s, accepted, sendOk) =>
      if (&& v.session == Connected && s in v.heap && s !in v.streams && accepted
          && v.heap[s].lsep in v.lseps && !v.lseps[v.heap[s].lsep].inUse) then
        var l := v.heap[s].lsep;
        if sendOk then NewState(v, v', l, Configured) && s in v'.streams && v'.lseps[l].stream == Some(s)
        else SameStates(v, v') && s !in v'.heap && v'.streams == v.streams
      else v' == v
    case AppDiscover(sendOk) => v' == v || v' == Sent(v, Request(Discover, None, 0), false, sendOk).0
    case DiscoveryIdle(_) => SameStates(v, v') && v.streams <= v'.streams && (calm ==> v' == v)
    case IncomingChannel(_) => v' == if v.session == Disconnected then v.(session := Connecting) else v
  }

  lemma RepliedAnyway(v: State, answer: AnswerKind, calm: bool, v': State)
    requires Replied(v, answer, calm, v')
    ensures Replied(v, answer, false, v')
  {
    hide NewState, SameStates;
  }

  lemma ObeyedAnyway(v: State, cmd: PeerCommand, calm: bool, v': State)
    requires Obeyed(v, cmd, calm, v')
    ensures Obeyed(v, cmd, false, v')
  {
    hide NewState, SameStates;
  }

  lemma HandledAnyway(v: State, e: Event, calm: bool, v': State)
    requires Handled(v, e, calm, v')
    ensures Handled(v, e, false, v')
  {
    if e.Answer? && v.req.Some? && !EndsSession(v.req.value, e.answer, e.ioOk, e.valid) {
      RepliedAnyway(v, e.answer, calm, v');
    }
    if e.Command? && v.session == Connected && e.sendOk { ObeyedAnyway(v, e.command, calm, v'); }
    hide Replied, Obeyed, NewState, SameStates, OpenGivenUp, Cancels, EndsSession, Abortable, BeingAborted, Requested,
         SetUp, Dequeued, Sent, Over;
  }

  /** Whether the session survived; `negative` is the sign of the code returned when it did not. */
  datatype Outcome = Fine | Lost(leaked: seq<StreamId>, negative: bool)

  /** Stream `s` refuses other requests and its ABORT is outstanding or queued first. */
  ghost predicate BeingAborted(v: State, s: StreamId, seid: nat) {
    && s in v.heap && v.heap[s].abortInt && v.heap[s].rseid == seid
    && (v.req == Some(Request(Abort, Some(s), seid)) || Request(Abort, Some(s), seid) in v.prioQueue)
  }

  /** START may move local end point `l`: its stream is open and not starting yet. */
  ghost predicate CanStart(v: State, l: nat) {
    && l in v.lseps && v.lseps[l].state == Opened && v.lseps[l].stream.Some?
    && v.lseps[l].stream.value in v.heap && !v.heap[v.lseps[l].stream.value].starting
  }

  /** What a call of the application leads to. */
  ghost predicate Performed(v: State, c: Call, v': State) {
    match c
    case StreamCall(sig, s, sendOk) =>
      if sig == Abort && Cancels(v, s) then
        if Abortable(v) then v.req.Some? && exists t | t in v'.streams :: BeingAborted(v', t, v.req.value.seid)
        else v' == v
      else v' == Requested(v, sig, s, sendOk).0
    case SetUpCall(l, rseid, delay, sendOk) =>
      v' == if l in v.lseps && !v.lseps[l].inUse then SetUp(v, l, rseid, delay, sendOk).0 else v
    case DiscoverCall(sendOk) => v' == v || v' == Sent(v, Request(Discover, None, 0), false, sendOk).0
  }

  /** The call was made since `a`. */
  ghost predicate MadeSince(c: Call, a: Log, b: Log) {
    exists i | |a| <= i < |b| :: b[i].Made? && b[i].call == c && Performed(b[i].before, c, b[i].after)
  }

  /** A callback ran if there was one to run. */
  predicate Heard(sc: seq<seq<Call>>, sc': seq<seq<Call>>) {
    |sc'| <= |sc| && (sc != [] ==> |sc'| < |sc|)
  }

  /** Callbacks use up the script; without one, or without new streams in it, the list stays. */
  ghost predicate Used(sc: seq<seq<Call>>, q: seq<StreamId>, sc': seq<seq<Call>>, q': seq<StreamId>) {
    && |sc'| <= |sc|
    && (|sc'| == |sc| ==> q' == q)
    && (NoSetUp(sc) ==> NoSetUp(sc') && q' == q)
  }

  /** A session that no channel was made for yet. */
  function Unused(seps: map<nat, LocalSep>): State {
    State(Disconnected, map[], 0, seps, map[], [], None, None, [], [])
  }

  class Session {
    var session: SessionState
    var heap: map<StreamId, Stream>
    var nextId: nat
    var lseps: map<nat, LocalSep>
    var rseps: map<nat, Option<StreamId>>
    var streams: seq<StreamId>
    var pendingOpen: Option<StreamId>
    var req: Option<Request>
    var prioQueue: seq<Request>
    var reqQueue: seq<Request>
    /** What the application will do at its next callbacks, one entry for each. */
    var script: seq<seq<Call>>
    /** The calls it has made. */
    ghost var made: Log
    /** A discovery of remote end points is under way. */
    var discovering: bool

    ghost function View(): State reads this {
      State(session, heap, nextId, lseps, rseps, streams, pendingOpen, req, prioQueue, reqQueue)
    }

    /** No callback ran. */
    twostate predicate Silent()
      reads this
    {
      script == old(script) && made == old(made)
    }

    constructor (seps: map<nat, LocalSep>, script: seq<seq<Call>>)
      requires forall l | l in seps :: seps[l].state == Idle && seps[l].stream == None && !seps[l].inUse
      ensures Shape(View(), None) && View() == Unused(seps) && this.script == script && made == [] && !discovering
    {
      made, discovering := [], false;
      session, heap, nextId, lseps, rseps := Disconnected, map[], 0, seps, map[];
      streams, pendingOpen, req, prioQueue, reqQueue := [], None, None, [], [];
      this.script := script;
    }

    method SendReq(r: Request, priority: bool, sendOk: bool) returns (ok: bool)
      modifies this
      ensures (View(), ok) == Sent(old(View()), r, priority, sendOk) && Silent()
    {
      if session == Disconnected {
        if !sendOk { return false; }
        session := Connecting;
      }
      if session != Connected || req.Some? {
        if priority { prioQueue := prioQueue + [r]; } else { reqQueue := reqQueue + [r]; }
        return true;
      }
      if !sendOk { return false; }
      req := Some(r);
      ok := true;
    }

    /** `avdtp_reconfigure`, `avdtp_open`, `avdtp_start`, `avdtp_close`, `avdtp_suspend`,
        `avdtp_delay_report` and `avdtp_abort` short of cancelling the outstanding request. */
    method StreamRequest(sig: Signal, s: StreamId, sendOk: bool) returns (ok: bool)
      modifies this
      ensures (View(), ok) == Requested(old(View()), sig, s, sendOk) && Silent()
    {
      if s !in streams || s !in heap || heap[s].lsep !in lseps { return false; }
      if !Allowed(heap[s], lseps[heap[s].lsep].state, sig) { return false; }
      ok := SendReq(Request(sig, Some(s), heap[s].rseid), sig == Abort || sig == DelayReport, sendOk);
      if ok {
        heap := heap[s := FlagFor(sig, heap[s])];
      }
    }

    /** `avdtp_set_configuration`. */
    method SetConfiguration(l: nat, rseid: nat, delay: bool, sendOk: bool) returns (ok: bool)
      requires l in lseps && !lseps[l].inUse
      modifies this
      ensures (View(), ok) == SetUp(old(View()), l, rseid, delay, sendOk) && Silent()
    {
      if session != Connected || rseid !in rseps { return false; }
      var s := nextId;
      heap, nextId := heap[s := Stream(l, rseid, false, false, false, false, delay)], s + 1;
      var r := Request(Signal.SetConfiguration, Some(s), rseid);
      SentFrame(old(View()), View(), r, false, sendOk);
      hide Sent, Freed;
      ok := SendReq(r, false, sendOk);
      if ok {
        lseps := lseps[l := lseps[l].(stream := Some(s), inUse := true)];
        rseps := rseps[rseid := Some(s)];
        streams := streams + [s];
      } else {
        StreamFree(s);
      }
    }

    method StreamFree(s: StreamId)
      requires s in heap && heap[s].lsep in lseps
      modifies this
      ensures View() == Freed(old(View()), s) && Silent()
    {
      var l, r := heap[s].lsep, heap[s].rseid;
      lseps := lseps[l := lseps[l].(inUse := false, stream := None)];
      if r in rseps { rseps := rseps[r := None]; }
      heap := heap - {s};
    }

    /** `avdtp_discover`: the end points are known already, or DISCOVER is sent, which connects if need be. */
    method Discover(sendOk: bool) returns (ok: bool)
      modifies this
      ensures Silent()
      ensures if old(discovering) then !ok && View() == old(View()) && discovering
              else if old(rseps) != map[] then ok && View() == old(View()) && discovering
              else
                && (View(), ok) == Sent(old(View()), Request(Signal.Discover, None, 0), false, sendOk)
                && discovering == ok
    {
      if discovering { return false; }
      if rseps != map[] {
        discovering := true;
        return true;
      }
      ok := SendReq(Request(Signal.Discover, None, 0), false, sendOk);
      discovering := ok;
    }

    /**
     One call made by the application. An abort may cancel the outstanding request, which tells the
     application and so calls it again; one that would give up the session is left out.
     */
    method Make(c: Call, ghost dying: Option<StreamId>)
      requires Shape(View(), dying)
      modifies this
      ensures Shape(View(), dying) && Grew(old(View()), View(), dying)
      ensures Told(old(View()), old(made), View(), made) && Asked(old(View()), old(made), View(), made)
      ensures made != [] && made[|made| - 1] == Made(c, old(View()), View()) && |made| > |old(made)|
      ensures Performed(old(View()), c, View())
      ensures |script| <= |old(script)|
      ensures NoSetUp(old(script)) && !c.SetUpCall? ==> NoSetUp(script) && streams == old(streams)
      decreases |script|, 4
    {
      hide Shape, Grew, NoSetUp, Told, Asked;
      match c {
        case StreamCall(sig, s, sendOk) => MakeRequest(sig, s, sendOk, dying);
        case SetUpCall(l, rseid, delay, sendOk) => MakeSetUp(l, rseid, delay, sendOk, dying);
        case DiscoverCall(sendOk) => MakeDiscover(sendOk, dying);
      }
    }

    method MakeDiscover(sendOk: bool, ghost dying: Option<StreamId>)
      requires Shape(View(), dying)
      modifies this
      ensures Shape(View(), dying) && Grew(old(View()), View(), dying)
      ensures script == old(script) && streams == old(streams)
      ensures made == old(made) + [Made(DiscoverCall(sendOk), old(View()), View())]
      ensures Performed(old(View()), DiscoverCall(sendOk), View())
      ensures Told(old(View()), old(made), View(), made) && Asked(old(View()), old(made), View(), made)
    {
      ghost var v, a := View(), made;
      GrewReflexive(v, dying);
      var q := Request(Signal.Discover, None, 0);
      SentKeepsShape(v, dying, q, false, sendOk);
      SentGrows(v, dying, q, false, sendOk);
      hide Shape, Grew;
      var ok := Discover(sendOk);
      assert streams == v.streams;
      Record(DiscoverCall(sendOk), v, a, dying);
    }

    /** A call other than a set-up is recorded. */
    ghost method Record(c: Call, v: State, a: Log, dying: Option<StreamId>)
      requires !c.SetUpCall? && Grew(v, View(), dying) && (v.req.None? ==> made == a) && Told(v, a, View(), made)
      modifies this`made
      ensures made == old(made) + [Made(c, v, View())]
      ensures Told(v, a, View(), made) && Asked(v, a, View(), made)
    {
      GrewRequest(v, View(), dying);
      var m := Made(c, v, View());
      ToldCall(v, a, View(), made, m);
      AskedCall(v, a, View(), made, m);
      hide Grew, Told, Asked;
      made := made + [m];
    }

    method MakeSetUp(l: nat, rseid: nat, delay: bool, sendOk: bool, ghost dying: Option<StreamId>)
      requires Shape(View(), dying)
      modifies this
      ensures Shape(View(), dying) && Grew(old(View()), View(), dying) && script == old(script)
      ensures made == old(made) + [Made(SetUpCall(l, rseid, delay, sendOk), old(View()), View())]
      ensures Performed(old(View()), SetUpCall(l, rseid, delay, sendOk), View())
      ensures Told(old(View()), old(made), View(), made) && Asked(old(View()), old(made), View(), made)
    {
      ghost var v, a := View(), made;
      GrewReflexive(v, dying);
      hide Shape;
      if l in lseps && !lseps[l].inUse {
        SetUpGrows(v, dying, l, rseid, delay, sendOk);
        SetUpLists(v, l, rseid, delay, sendOk);
        hide SetUp, Grew;
        var done := SetConfiguration(l, rseid, delay, sendOk);
      }
      hide SetUp;
      GrewRequest(v, View(), dying);
      ghost var m := Made(SetUpCall(l, rseid, delay, sendOk), v, View());
      NothingSince(v, a);
      ToldSetUp(v, a, View(), m);
      AskedCall(v, a, View(), a, m);
      hide Grew, Told, Asked;
      made := made + [m];
    }

    method MakeRequest(sig: Signal, s: StreamId, sendOk: bool, ghost dying: Option<StreamId>)
      requires Shape(View(), dying)
      modifies this
      ensures Shape(View(), dying) && Grew(old(View()), View(), dying)
      ensures Told(old(View()), old(made), View(), made) && Asked(old(View()), old(made), View(), made)
      ensures |made| > |old(made)| && made[|made| - 1] == Made(StreamCall(sig, s, sendOk), old(View()), View())
      ensures Performed(old(View()), StreamCall(sig, s, sendOk), View())
      ensures |script| <= |old(script)|
      ensures NoSetUp(old(script)) ==> NoSetUp(script) && streams == old(streams)
      decreases |script|, 3
    {
      ghost var v, a := View(), made;
      hide Shape, Grew, NoSetUp;
      GrewReflexive(v, dying);
      NothingSince(v, a);
      if sig == Abort && req.Some? && req.value.stream == Some(s) && s in streams {
        ListedStream(v, dying, s);
        if lseps[heap[s].lsep].state != Aborting {
          AbortCall(dying);
        }
      } else {
        RequestedGrows(v, dying, sig, s, sendOk);
        RequestedLists(v, sig, s, sendOk);
        hide Requested;
        var done := StreamRequest(sig, s, sendOk);
      }
      assert Told(v, a, View(), made);
      hide Told, Asked;
      Record(StreamCall(sig, s, sendOk), v, a, dying);
    }

    /**
     `avdtp_abort` from a callback on the stream of the outstanding request, when `cancel_request` is to end with an
     ABORT. The ABORT is queued behind a request that the application left out when it was told, or taken by the
     channel.
     */
    method AbortCall(ghost dying: Option<StreamId>)
      requires Shape(View(), dying) && req.Some?
      modifies this
      ensures Shape(View(), dying) && Grew(old(View()), View(), dying)
      ensures Told(old(View()), old(made), View(), made) && req.Some?
      ensures |script| <= |old(script)|
      ensures NoSetUp(old(script)) ==> NoSetUp(script) && streams == old(streams)
      ensures Abortable(old(View())) ==> exists s | s in streams :: BeingAborted(View(), s, old(req).value.seid)
      ensures !Abortable(old(View())) ==> View() == old(View()) && Silent()
      decreases |script|, 2
    {
      ghost var v, a := View(), made;
      GrewReflexive(v, dying);
      NothingSince(v, a);
      hide Shape, Grew, NoSetUp;
      var cancelled := req.value;
      var found := FindByRseid(cancelled.seid, dying);
      if || cancelled.signal in {Signal.Discover, GetCapabilities, Signal.SetConfiguration, Abort}
         || cancelled.seid == 0 || found.None? {
        return;
      }
      var s := found.value;
      req := None;
      ForgottenKeepsShape(v, dying);
      ghost var v1 := View();
      TellCancelled(s, cancelled.signal, dying);
      ghost var v2 := View();
      ListedStream(v2, dying, s);
      var q := Request(Abort, Some(s), cancelled.seid);
      SentKeepsShape(v2, dying, q, true, true);
      SentGrows(v2, dying, q, true, true);
      var ok := SendReq(q, true, true);
      GrewTransitive(v1, v2, View(), dying);
      GrewReplaced(v, View(), dying);
      assert BeingAborted(View(), s, cancelled.seid);
    }

    /** A confirmation or state callback: the application makes the calls it chose. */
    method Callback(ghost dying: Option<StreamId>)
      requires Shape(View(), dying)
      modifies this
      ensures Shape(View(), dying) && Grew(old(View()), View(), dying)
      ensures Used(old(script), old(streams), script, streams)
      ensures Told(old(View()), old(made), View(), made) && Asked(old(View()), old(made), View(), made)
      ensures |script| == |old(script)| ==> View() == old(View()) && Silent()
      ensures View() == Reached(old(View()), old(made), made)
      ensures Heard(old(script), script)
      ensures old(script) != [] ==> forall c | c in old(script)[0] :: MadeSince(c, old(made), made)
      decreases |script|, 0
    {
      ghost var v, a := View(), made;
      GrewReflexive(v, dying);
      NothingSince(v, a);
      assert Told(v, a, v, a) && Asked(v, a, v, a);
      if script == [] { return; }
      var calls := script[0];
      script := script[1..];
      PoppedScript(old(script));
      hide Shape, Grew, NoSetUp, Told, Asked, MadeSince, Reached;
      MakeAll(calls, dying);
    }

    /** The calls of one callback, in order. */
    method MakeAll(calls: seq<Call>, ghost dying: Option<StreamId>)
      requires Shape(View(), dying)
      modifies this
      ensures Shape(View(), dying) && Grew(old(View()), View(), dying) && |script| <= |old(script)|
      ensures Told(old(View()), old(made), View(), made) && Asked(old(View()), old(made), View(), made)
      ensures View() == Reached(old(View()), old(made), made)
      ensures NoSetUp(old(script)) && (forall c | c in calls :: !c.SetUpCall?) ==>
                NoSetUp(script) && streams == old(streams)
      ensures forall c | c in calls :: MadeSince(c, old(made), made)
      decreases |script|, 5
    {
      ghost var v, a := View(), made;
      GoingStarts(v, a, dying);
      hide Shape, Grew, NoSetUp, Told, Asked, Performed, MadeSince, Going, Reached;
      for i := 0 to |calls|
        invariant forall j | 0 <= j < i :: MadeSince(calls[j], a, made)
        invariant Shape(View(), dying) && Going(v, a, View(), made, dying) && |script| <= |old(script)|
        invariant NoSetUp(old(script)) && (forall c | c in calls :: !c.SetUpCall?) ==>
                    NoSetUp(script) && streams == old(streams)
      {
        ghost var w, b := View(), made;
        Make(calls[i], dying);
        GoingNext(v, a, w, b, View(), made, calls[i], dying);
      }
      GoingMeans(v, a, View(), made, dying);
    }

    /** The application learns that its request for stream `s` was cancelled. */
    method TellCancelled(s: StreamId, signal: Signal, ghost dying: Option<StreamId>)
      requires Shape(View(), dying) && s in streams && s in heap
      modifies this
      ensures Shape(View(), dying) && s in streams && s in heap && Grew(old(View()), View(), dying)
      ensures heap[s].abortInt && heap[s].rseid == old(heap[s].rseid)
      ensures signal == Start ==> !heap[s].starting
      ensures signal == Close ==> !heap[s].closeInt
      ensures Used(old(script), old(streams), script, streams)
      ensures Told(old(View()), old(made), View(), made) && Asked(old(View()), old(made), View(), made)
      ensures |script| == |old(script)| ==> Silent()
      ensures signal in {Reconfigure, Open, Start, Suspend, Close, Signal.SetConfiguration} ==>
                Heard(old(script), script)
      decreases |script|, 1
    {
      ghost var v, a := View(), made;
      hide Shape, NoSetUp, Grew;
      SetFlags(s, heap[s].(abortInt := true), dying);
      ghost var v1 := View();
      FlaggedGrows(v, dying, s, v1.heap[s]);
      GrewReflexive(v1, dying);
      if signal in {Reconfigure, Open, Start, Suspend, Close, Signal.SetConfiguration} {
        Callback(dying);
      }
      ghost var v2 := View();
      GrewTransitive(v, v1, v2, dying);
      GrewStream(v, v2, dying, s);
      GrewStream(v1, v2, dying, s);
      var st := heap[s];
      st := st.(starting := st.starting && signal != Start, closeInt := st.closeInt && signal != Close);
      FlaggedGrows(v2, dying, s, st);
      SetFlags(s, st, dying);
      GrewTransitive(v, v2, View(), dying);
    }

    /** `handle_transport_connect` without a channel. */
    method OpenFailed(ghost dying: Option<StreamId>)
      requires Shape(View(), dying) && pendingOpen.Some?
      modifies this
      ensures Shape(View(), dying) && Grew(old(View()).(pendingOpen := None), View(), dying)
      ensures Used(old(script), old(streams), script, streams)
      ensures Told(old(View()), old(made), View(), made)
      ensures |script| == |old(script)| ==> View() == old(View()).(pendingOpen := None) && Silent()
      ensures View() == Reached(old(View()).(pendingOpen := None), old(made), made)
      ensures old(pendingOpen).value in old(heap) && !old(heap)[old(pendingOpen).value].openAcp ==>
                Heard(old(script), script)
    {
      assert pendingOpen.value in heap by { assert Owned(View(), dying, pendingOpen.value); }
      var openAcp := heap[pendingOpen.value].openAcp;
      pendingOpen := None;
      SameLinksKeepShape(old(View()), View(), dying);
      hide Shape, Grew;
      GrewReflexive(View(), dying);
      if !openAcp {
        Callback(dying);
      }
    }

    /** `handle_unanswered_req`: the outstanding request of a stream that goes away. */
    method HandleUnanswered(s: StreamId)
      requires Shape(View(), Some(s)) && Outstanding(View(), s)
      modifies this
      ensures Shape(View(), Some(s)) && !Outstanding(View(), s)
      ensures var left := if old(req).value.signal == Abort then Some(old(req).value.(stream := None)) else None;
              Grew(old(View()).(req := left), View(), Some(s))
      ensures Used(old(script), old(streams), script, streams)
      ensures Told(old(View()), old(made), View(), made)
      ensures old(req).value.signal in {Reconfigure, Open, Start, Suspend, Close, Signal.SetConfiguration} ==>
                Heard(old(script), script)
    {
      var signal := req.value.signal;
      if signal == Abort {
        req := Some(req.value.(stream := None));
        SameLinksKeepShape(old(View()), View(), Some(s));
        return;
      }
      req := None;
      SameLinksKeepShape(old(View()), View(), Some(s));
      hide Shape;
      if signal in {Reconfigure, Open, Start, Suspend, Close, Signal.SetConfiguration} {
        Callback(Some(s));
      }
    }

    /** `cleanup_queue` on one queue. */
    static method CleanupQueue(q: seq<Request>, s: StreamId) returns (r: seq<Request>)
      ensures r == Unqueued(q, s)
    {
      r := [];
      var i := |q|;
      while i > 0
        invariant 0 <= i <= |q| && r == Unqueued(q[i..], s)
      {
        i := i - 1;
        assert q[i..][1..] == q[i + 1..];
        if q[i].stream != Some(s) {
          r := [q[i]] + r;
        }
      }
      assert q[0..] == q;
    }

    /** The pending open, the outstanding request and the queues let go of a stream taken off the list. */
    method Unhook(ghost v: State, l: nat, s: StreamId, ghost a: Log)
      requires l in v.lseps && v.lseps[l].stream == Some(s) && Shape(v, None)
      requires Shape(View(), Some(s)) && Leaving(v, View(), l) && LeftTold(v, l, a, View(), made)
      modifies this
      ensures Shape(View(), Some(s)) && Leaving(v, View(), l) && LeftTold(v, l, a, View(), made) && !Pends(View(), s)
      ensures pendingOpen == if old(pendingOpen) == Some(s) then None else old(pendingOpen)
      ensures old(req).Some? && (old(req).value.stream == Some(s) ==> old(req).value.signal == Abort) ==> req.Some?
      ensures Used(old(script), old(streams), script, streams)
    {
      hide Shape, Leaving, LeftTold, Queued, NoSetUp, Without;
      UnhookOpen(v, l, s, a);
      UnhookRequest(v, l, s, a);
      ghost var v3 := View();
      prioQueue := CleanupQueue(prioQueue, s);
      reqQueue := CleanupQueue(reqQueue, s);
      CleanedKeepsShape(v3, s);
      LeavingIgnoresPending(v, v3, View(), l);
      LeftSame(v, l, a, v3, View(), made);
    }

    /** The pending open lets go of the stream. */
    method UnhookOpen(ghost v: State, l: nat, s: StreamId, ghost a: Log)
      requires l in v.lseps && v.lseps[l].stream == Some(s) && Shape(v, None)
      requires Shape(View(), Some(s)) && Leaving(v, View(), l) && LeftTold(v, l, a, View(), made)
      modifies this
      ensures Shape(View(), Some(s)) && Leaving(v, View(), l) && LeftTold(v, l, a, View(), made)
      ensures pendingOpen == if old(pendingOpen) == Some(s) then None else old(pendingOpen)
      ensures old(req).Some? ==> req == old(req) || (req.Some? && old(req).value.signal != Abort)
      ensures Outstanding(View(), s) ==> Outstanding(old(View()), s)
      ensures Used(old(script), old(streams), script, streams)
    {
      hide Shape, Leaving, LeftTold, Told, Queued, Grew, NoSetUp, Without, Reached;
      if pendingOpen == Some(s) {
        ghost var v1, m1 := View(), made;
        ghost var v2 := v1.(pendingOpen := None);
        OpenFailed(Some(s));
        GrewNames(v2, View(), s);
        LeavingIgnoresPending(v, v1, v2, l);
        LeftGrows(v, l, s, a, v1, m1, v2, View(), made);
      }
    }

    /** The outstanding request lets go of the stream. */
    method UnhookRequest(ghost v: State, l: nat, s: StreamId, ghost a: Log)
      requires l in v.lseps && v.lseps[l].stream == Some(s) && Shape(v, None)
      requires Shape(View(), Some(s)) && Leaving(v, View(), l) && LeftTold(v, l, a, View(), made)
      modifies this
      ensures Shape(View(), Some(s)) && Leaving(v, View(), l) && LeftTold(v, l, a, View(), made)
      ensures !Outstanding(View(), s)
      ensures pendingOpen == old(pendingOpen)
      ensures old(req).Some? && (old(req).value.stream == Some(s) ==> old(req).value.signal == Abort) ==> req.Some?
      ensures Used(old(script), old(streams), script, streams)
    {
      hide Shape, Leaving, LeftTold, Told, Queued, Grew, NoSetUp, Without;
      if req.Some? && req.value.stream == Some(s) {
        ghost var v2, m2 := View(), made;
        ghost var r := if req.value.signal == Abort then Some(req.value.(stream := None)) else None;
        HandleUnanswered(s);
        GrewNames(v2.(req := r), View(), s);
        LeavingIgnoresPending(v, v2, v2.(req := r), l);
        LeftGrows(v, l, s, a, v2, m2, v2.(req := r), View(), made);
      }
    }

    /** `avdtp_sep_set_state` to IDLE: unhook the stream everywhere, tell the application, free it. */
    method ToIdle(l: nat)
      requires Shape(View(), None) && l in lseps && lseps[l].stream.Some?
      modifies this
      ensures Shape(View(), None) && Released(old(View()), View(), l)
      ensures old(req).Some? && (old(req).value.stream == old(lseps[l].stream) ==> old(req).value.signal == Abort) ==>
                req.Some?
      ensures Used(old(script), Without(old(streams), old(lseps[l].stream.value)), script, streams)
      ensures LeftTold(old(View()), l, old(made), View(), made)
      ensures Heard(old(script), script)
    {
      hide Shape, Leaving, LeftTold, Told, Asked, Queued, Released, Grew, NoSetUp, Reached;
      var s := lseps[l].stream.value;
      ghost var v, a := View(), made;
      lseps := lseps[l := lseps[l].(state := Idle)];
      streams := RemoveStream(streams, s);
      DetachedKeepsShape(v, l);
      LeavingStarts(v, l);
      LeftStarts(v, l, a);
      Unhook(v, l, s, a);
      ghost var v1, m1 := View(), made;
      Callback(Some(s));
      GrewNames(v1, View(), s);
      LeftGrows(v, l, s, a, v1, m1, v1, View(), made);
      LeavingEnds(v, View(), l);
      FreedKeepsShape(View(), s);
      ghost var v2 := View();
      StreamFree(s);
      LeftSame(v, l, a, v2, View(), made);
    }

    /** `g_slist_remove` on the list of streams. */
    static method RemoveStream(q: seq<StreamId>, s: StreamId) returns (r: seq<StreamId>)
      ensures r == Without(q, s)
    {
      var i := 0;
      while i < |q| && q[i] != s
        invariant 0 <= i <= |q|
        invariant Without(q, s) == q[..i] + Without(q[i..], s)
      {
        assert q[i..][1..] == q[i + 1..];
        assert q[..i] + ([q[i]] + Without(q[i + 1..], s)) == q[..i + 1] + Without(q[i + 1..], s);
        i := i + 1;
      }
      if i < |q| {
        assert q[i..][1..] == q[i + 1..];
        r := q[..i] + q[i + 1..];
      } else {
        assert q[..i] == q && q[i..] == [];
        r := q;
      }
    }

    /** `avdtp_sep_set_state`. */
    method SetState(l: nat, st: SepState)
      requires Shape(View(), None) && l in lseps
      modifies this
      ensures Shape(View(), None) && old(made) <= made
      ensures old(lseps[l].stream).None? ==> View() == old(View()) && Silent()
      ensures old(lseps[l].stream).Some? ==> NewState(old(View()), View(), l, st)
      ensures old(lseps[l].stream).Some? && st != Idle ==>
                && lseps[l].stream == old(lseps[l].stream) && old(streams) <= streams
                && Grew(Moved(old(View()), l, st), View(), None)
                && Used(old(script), old(streams), script, streams)
      ensures old(lseps[l].stream).Some? && st == Idle ==>
                && Released(old(View()), View(), l)
                && (&& old(req).Some?
                    && (old(req).value.stream == old(lseps[l].stream) ==> old(req).value.signal == Abort) ==>
                      req.Some?)
                && Used(old(script), Without(old(streams), old(lseps[l].stream).value), script, streams)
      ensures (&& old(script) == [] && old(lseps[l].stream).Some? && st != Idle
               && !(st == Configured && old(lseps[l].sink))) ==>
                View() == Moved(old(View()), l, st) && Silent()
      ensures old(lseps[l].stream).Some? ==> Heard(old(script), script)
    {
      hide Shape, Grew, Released, Moved, NewState, NoSetUp;
      if lseps[l].stream.None? { return; }
      if st == Idle {
        ToIdle(l);
        ReleasedStates(old(View()), View(), l);
        return;
      }
      Move(l, st);
      ghost var v := View();
      var s := lseps[l].stream.value;
      GrewReflexive(v, None);
      if st == Configured && lseps[l].sink {
        var sendOk: bool := *;
        RequestedGrows(v, None, DelayReport, s, sendOk);
        RequestedLists(v, DelayReport, s, sendOk);
        hide Requested;
        var done := StreamRequest(DelayReport, s, sendOk);
      }
      ghost var v2 := View();
      Callback(None);
      GrewTransitive(v, v2, View(), None);
      MovedStates(old(View()), l, st, View());
    }

    /** The state of the end point itself. */
    method Move(l: nat, st: SepState)
      requires Shape(View(), None) && l in lseps && lseps[l].stream.Some?
      modifies this`lseps, this`heap
      ensures Shape(View(), None) && View() == Moved(old(View()), l, st)
      ensures l in lseps && lseps[l].stream == old(lseps[l].stream) && lseps[l].sink == old(lseps[l].sink)
    {
      MovedKeepsShape(View(), l, st);
      hide Shape;
      var s := lseps[l].stream.value;
      lseps := lseps[l := lseps[l].(state := st)];
      if st == Opened && s in heap {
        heap := heap[s := heap[s].(starting := false)];
      }
    }

    /** `release_stream`; the release is recorded, and behind it the calls made in its course. */
    method Release(s: StreamId)
      requires Shape(View(), None) && s in streams && s in heap
      modifies this
      ensures Shape(View(), None) && s !in heap && session == old(session)
      ensures old(heap[s].lsep) in lseps && lseps[old(heap[s].lsep)].stream.None?
      ensures Without(old(streams), s) <= streams
      ensures forall t | t in old(heap) && t != s :: t in heap
      ensures nextId >= old(nextId) && forall t | t in heap && t !in old(heap) :: t >= old(nextId)
      ensures lseps.Keys == old(lseps).Keys && rseps.Keys == old(rseps).Keys
      ensures NewState(old(View()), View(), old(heap[s].lsep), Idle)
      ensures Used(old(script), Without(old(streams), s), script, streams)
      ensures var a := old(made) + [Releasing(old(heap[s].lsep))];
              OnlyCalls(a, made) && (streams == Without(old(streams), s) <==> !SetUpSince(old(View()), a, made))
      ensures Heard(old(script), script)
    {
      hide Shape, NoSetUp, SetUpSince;
      ListedStream(View(), None, s);
      var l := heap[s].lsep;
      made := made + [Releasing(l)];
      ghost var v, a := View(), made;
      GrewReflexive(v, None);
      if lseps[l].state != Aborting || heap[s].abortInt {
        Callback(None);
        WithoutPrefix(v.streams, streams, s);
      } else {
        NothingSince(v, a);
      }
      ghost var w, b := View(), made;
      ToIdle(l);
      LeftAfter(v, a, w, b, l, View(), made);
    }

    /** The walk over the list in `connection_lost`: the next node is read before a stream is released. */
    method ReleaseAll()
      requires Shape(View(), None)
      modifies this
      ensures Shape(View(), None)
      ensures forall s | s in old(streams) :: s !in heap
      ensures NoSetUp(old(script)) ==> NoSetUp(script) && streams == []
      ensures old(made) <= made && (old(streams) == [] ==> made == old(made))
      ensures streams == [] <==> !LeakSince(old(View()), old(made), made)
    {
      hide NoSetUp, SepOk, RemoteOk, RefsOk, SetUpSince, LeakSince, NewState, SetsUp;
      var more := streams != [];
      NoReleaseNoLeak(View(), made, made);
      while more
        invariant Shape(View(), None) && (more ==> streams != [])
        invariant forall s | s in old(streams) :: s in streams || (s !in heap && s < nextId)
        invariant !more ==> forall s | s in old(streams) :: s !in heap
        invariant NoSetUp(old(script)) ==> NoSetUp(script) && (!more ==> streams == [])
        invariant lseps.Keys == old(lseps).Keys && rseps.Keys == old(rseps).Keys && old(made) <= made
        invariant old(streams) == [] ==> !more && made == old(made)
        invariant !more ==> (streams == [] <==> !LeakSince(old(View()), old(made), made))
        decreases |script|, |streams|
      {
        more := |streams| > 1;
        WithoutPrefix(streams, streams, streams[0]);
        ListedStream(View(), None, streams[0]);
        ghost var last, a := View(), made + [Releasing(heap[streams[0]].lsep)];
        Release(streams[0]);
        if !more {
          assert made[..|a|] == a && made[|a| - 1] == a[|a| - 1];
          LastWalked(old(View()), last, old(made), made, |a| - 1);
        }
      }
    }

    /**
     `connection_lost`: every stream of the list is released, then the list is dropped. A stream is left
     behind exactly when a call made behind the last release set it up; set-ups before that are released in
     turn. In any case nothing names a stream that was listed.
     */
    method ConnectionLost() returns (leaked: seq<StreamId>)
      requires Shape(View(), None)
      modifies this
      ensures streams == [] && session == Disconnected
      ensures Shape(View(), None) <==> leaked == []
      ensures old(made) + [GivingUp] <= made
      ensures leaked != [] <==> LeakSince(old(View()), old(made), made)
      ensures NoSetUp(old(script)) ==> leaked == [] && NoSetUp(script)
      ensures forall s | s in old(streams) :: s !in heap && !RefersTo(View(), s)
    {
      ghost var v, a := View(), made;
      hide Shape, NoSetUp, SetUpSince, LeakSince, RefersTo;
      made := made + [GivingUp];
      FinishDiscovery();
      ghost var w, b := View(), made;
      ReleaseAll();
      LeakSinceEarlier(v, w, a, b, made);
      leaked := streams;
      ghost var u := View();
      Dropped(u);
      streams, session := [], Disconnected;
      forall s | s in v.streams ensures !RefersTo(View(), s) {
        ShapeHasNoDanglingReference(u, s);
        NoNewReference(u, s);
      }
    }

    /** `finalize_discovery`. */
    method FinishDiscovery()
      requires Shape(View(), None)
      modifies this
      ensures Shape(View(), None) && Grew(old(View()), View(), None)
      ensures Told(old(View()), old(made), View(), made)
      ensures Silent() ==> View() == old(View())
      ensures |script| <= |old(script)| && (|script| == |old(script)| ==> Silent())
      ensures NoSetUp(old(script)) ==> NoSetUp(script) && streams == old(streams)
      ensures !discovering
      ensures old(discovering) ==> Heard(old(script), script)
    {
      ghost var v := View();
      GrewReflexive(v, None);
      NothingSince(v, made);
      hide Shape, NoSetUp, Grew;
      if discovering {
        Callback(None);
      }
      discovering := false;
    }

    /** `find_stream_by_rseid`. */
    method FindByRseid(rseid: nat, ghost dying: Option<StreamId>) returns (found: Option<StreamId>)
      requires Shape(View(), dying)
      ensures found.Some? ==> found.value in streams && found.value in heap && heap[found.value].rseid == rseid
      ensures found.None? ==> forall s | s in streams && s in heap :: heap[s].rseid != rseid
    {
      assert forall s | s in streams :: Owned(View(), dying, s);
      for i := 0 to |streams|
        invariant forall j | 0 <= j < i :: streams[j] in heap ==> heap[streams[j]].rseid != rseid
      {
        if heap[streams[i]].rseid == rseid {
          return Some(streams[i]);
        }
      }
      found := None;
    }

    /** Sets flags of a listed stream. */
    method SetFlags(s: StreamId, st: Stream, ghost dying: Option<StreamId>)
      requires Shape(View(), dying) && s in heap && st.lsep == heap[s].lsep && st.rseid == heap[s].rseid
      modifies this
      ensures View() == Flagged(old(View()), s, st) && Silent() && Shape(View(), dying)
    {
      FlaggedKeepsShape(View(), dying, s, st);
      heap := heap[s := st];
    }

    /**
     `cancel_request`: abort the stream of the outstanding request, or give the session up. The ABORT is out or
     queued exactly when the request can be aborted and the channel takes it or the application, told about it, left
     a request out.
     */
    method CancelRequest(sendOk: bool) returns (r: Outcome)
      requires Shape(View(), None) && req.Some?
      modifies this
      ensures old(made) <= made && (old(script) == [] ==> Quiet(old(made), made))
      ensures r.Lost? && r.negative <==> Abortable(old(View())) && !sendOk && Quiet(old(made), made)
      ensures r.Fine? <==> Abortable(old(View())) && (sendOk || !Quiet(old(made), made))
      ensures r.Lost? ==> Over(old(View()), View())
      ensures Cancelled(old(View()), sendOk, old(script) == [], View())
      ensures r.Lost? && r.leaked != [] <==> !Shape(View(), None)
      ensures r.Lost? && NoSetUp(old(script)) ==> r.leaked == []
      ensures r.Fine? ==> old(streams) <= streams && forall s | s in old(heap) :: s in heap
      ensures r.Fine? ==> exists s | s in streams :: BeingAborted(View(), s, old(req).value.seid)
      ensures NoSetUp(old(script)) ==> NoSetUp(script)
    {
      hide Shape, NoSetUp, Leaks, LeakSince, Abortable, BeingAborted, RefersTo, Quiet;
      ghost var a := made;
      NothingSince(View(), a);
      var seid, s, follow := BeginCancel();
      if follow {
        var ok := SendAbort(s, seid, sendOk);
        if ok {
          return Fine;
        }
      }
      ghost var b := made;
      var leaked := ConnectionLost();
      QuietBefore(a, b, GivingUp, made);
      r := Lost(leaked, follow);
    }

    /**
     The outstanding request is withdrawn and the application told; `follow` says that an ABORT for stream `s` is to
     follow.
     */
    method BeginCancel() returns (seid: nat, s: StreamId, follow: bool)
      requires Shape(View(), None) && req.Some?
      modifies this
      ensures Shape(View(), None) && seid == old(req).value.seid && (follow <==> Abortable(old(View())))
      ensures old(streams) <= streams && (forall t | t in old(heap) :: t in heap)
      ensures follow ==>
                && s in streams && s in heap && heap[s].abortInt && heap[s].rseid == seid
                && (req.None? <==> Quiet(old(made), made))
      ensures OnlyCalls(old(made), made)
      ensures old(script) == [] ==> Silent()
      ensures NoSetUp(old(script)) ==> NoSetUp(script)
    {
      ghost var v := View();
      hide Shape, NoSetUp, Told, Quiet;
      var cancelled := req.value;
      req := None;
      ForgottenKeepsShape(v, None);
      var stream := None;
      if cancelled.signal != Signal.Discover && cancelled.seid != 0 {
        stream := FindByRseid(cancelled.seid, None);
      }
      seid, s := cancelled.seid, 0;
      follow := stream.Some? && cancelled.signal !in {Signal.SetConfiguration, GetCapabilities, Abort};
      assert follow <==> Abortable(v);
      hide Abortable;
      if stream.Some? {
        s := stream.value;
        TellCancelled(s, cancelled.signal, None);
        GrewStream(v.(req := None), View(), None, s);
        GrewHeap(v.(req := None), View(), None);
        hide Grew;
      }
    }

    /** The ABORT for stream `s` is sent, or queued before all but other priority requests. */
    method SendAbort(s: StreamId, seid: nat, sendOk: bool) returns (ok: bool)
      requires Shape(View(), None) && s in streams && s in heap && heap[s].abortInt && heap[s].rseid == seid
      modifies this
      ensures Shape(View(), None) && Silent() && streams == old(streams) && heap == old(heap)
      ensures ok <==> sendOk || old(req).Some?
      ensures ok ==> BeingAborted(View(), s, seid)
    {
      var q := Request(Abort, Some(s), seid);
      SentKeepsShape(View(), None, q, true, sendOk);
      ListedStream(View(), None, s);
      hide Shape;
      ok := SendReq(q, true, sendOk);
    }

    // -------------------------------------------------------- accepted requests

    method SetConfigurationResp(s: StreamId)
      requires Shape(View(), None) && s in streams && s in heap && req.Some?
      modifies this
      ensures Shape(View(), None) && req.Some?
      ensures NewState(old(View()), View(), old(heap[s].lsep), Configured) && pendingOpen == old(pendingOpen)
      ensures NoSetUp(old(script)) ==> NoSetUp(script)
      ensures Heard(old(script), script)
      ensures old(script) == [] && old(heap)[s].lsep in old(lseps) && !old(lseps)[old(heap)[s].lsep].sink ==>
                heap == old(heap)
    {
      hide Shape, NoSetUp;
      var l := heap[s].lsep;
      ListedStream(View(), None, s);
      Callback(None);
      SetState(l, Configured);
    }

    method OpenResp(s: StreamId, ioOk: bool) returns (ok: bool)
      requires Shape(View(), None) && s in streams && s in heap && req.Some?
      modifies this
      ensures Shape(View(), None) && ok == ioOk
      ensures ok ==> req.Some? && pendingOpen == Some(s) && SameStates(old(View()), View())
      ensures !ok ==> s !in heap
      ensures NoSetUp(old(script)) ==> NoSetUp(script)
    {
      ListedStream(View(), None, s);
      if !ioOk {
        SetState(heap[s].lsep, Idle);
        return false;
      }
      pendingOpen := Some(s);
      SameLinksKeepShape(old(View()), View(), None);
      ok := true;
    }

    method StartResp(s: StreamId)
      requires Shape(View(), None) && s in streams && s in heap && req.Some?
      modifies this
      ensures Shape(View(), None) && req.Some?
      ensures NewState(old(View()), View(), old(heap[s].lsep), Streaming) && pendingOpen == old(pendingOpen)
      ensures NoSetUp(old(script)) ==> NoSetUp(script)
      ensures Heard(old(script), script)
      ensures old(script) == [] ==> heap == old(heap)
    {
      hide Shape, NoSetUp;
      var l := heap[s].lsep;
      ListedStream(View(), None, s);
      Callback(None);
      if lseps[l].state != Streaming {
        SetState(l, Streaming);
      }
    }

    method CloseResp(s: StreamId)
      requires Shape(View(), None) && s in streams && s in heap && req.Some?
      modifies this
      ensures Shape(View(), None) && req.Some?
      ensures NewState(old(View()), View(), old(heap[s].lsep), Closing) && pendingOpen == old(pendingOpen)
      ensures s in heap
      ensures NoSetUp(old(script)) ==> NoSetUp(script)
      ensures Heard(old(script), script)
      ensures old(script) == [] ==> heap == old(heap)
    {
      hide Shape, NoSetUp;
      ListedStream(View(), None, s);
      SetState(heap[s].lsep, Closing);
    }

    method SuspendResp(s: StreamId)
      requires Shape(View(), None) && s in streams && s in heap && req.Some?
      modifies this
      ensures Shape(View(), None) && req.Some?
      ensures NewState(old(View()), View(), old(heap[s].lsep), Opened) && pendingOpen == old(pendingOpen)
      ensures NoSetUp(old(script)) ==> NoSetUp(script)
      ensures Heard(old(script), script)
      ensures old(script) == [] ==> heap == old(heap)[s := old(heap)[s].(starting := false)]
    {
      hide Shape, NoSetUp;
      ListedStream(View(), None, s);
      SetState(heap[s].lsep, Opened);
      Callback(None);
    }

    method AbortResp(s: StreamId)
      requires Shape(View(), None) && s in streams && s in heap
      requires req.Some? && req.value.signal == Abort
      modifies this
      ensures Shape(View(), None) && req.Some?
      ensures s !in heap && NewState(old(View()), View(), old(heap[s].lsep), Idle)
      ensures pendingOpen == if old(pendingOpen) == Some(s) then None else old(pendingOpen)
      ensures NoSetUp(old(script)) ==> NoSetUp(script)
      ensures Heard(old(script), script)
    {
      hide Shape, NoSetUp;
      var l := heap[s].lsep;
      ListedStream(View(), None, s);
      SetState(l, Aborting);
      Callback(None);
      SetState(l, Idle);
    }

    /** End point `seid` is known, and linked to a stream if a listed one uses it. */
    ghost predicate Known(seid: nat)
      reads this
    {
      seid in rseps && (rseps[seid].None? ==> forall s | s in streams && s in heap :: heap[s].rseid != seid)
    }

    /** `avdtp_discover_resp`; each entry is a remote end point and whether it is in use. */
    method DiscoverResp(found: seq<(nat, bool)>)
      requires Shape(View(), None) && req.Some?
      modifies this
      ensures Shape(View(), None) && req.Some?
      ensures old(rseps).Keys <= rseps.Keys && forall i | 0 <= i < |found| && !found[i].1 :: found[i].0 in rseps
      ensures Silent() ==> forall i | 0 <= i < |found| && !found[i].1 :: Known(found[i].0)
      ensures old(script) == [] ==> Silent()
      ensures Silent() && old(session) == Connected ==> View() == old(View()).(rseps := rseps, prioQueue := prioQueue)
      ensures SameStates(old(View()), View()) && pendingOpen == old(pendingOpen)
      ensures Silent() && old(session) == Connected ==>
                forall i | 0 <= i < |found| && !found[i].1 :: AsksFor(prioQueue, found[i].0)
      ensures NoSetUp(old(script)) ==> NoSetUp(script)
    {
      hide Shape, NoSetUp, AsksFor;
      var streamFound := false;
      for i := 0 to |found|
        invariant Shape(View(), None) && req.Some? && Silent() && lseps == old(lseps) && pendingOpen == old(pendingOpen)
        invariant old(session) == Connected ==> View() == old(View()).(rseps := rseps, prioQueue := prioQueue)
        invariant old(rseps).Keys <= rseps.Keys && forall j | 0 <= j < i && !found[j].1 :: Known(found[j].0)
        invariant old(session) == Connected ==> forall j | 0 <= j < i && !found[j].1 :: AsksFor(prioQueue, found[j].0)
      {
        var (seid, inUse) := found[i];
        var stream := FindByRseid(seid, None);
        streamFound := streamFound || stream.Some?;
        if seid !in rseps && inUse && stream.None? {
          if i + 1 == |found| && !streamFound {
            ghost var v := View();
            FinishDiscovery();
            GrewList(v, View(), None);
            GrewRequest(v, View(), None);
            GrewStates(v, View(), None);
            return;
          }
        } else {
          ghost var queue := prioQueue;
          Learn(seid, stream);
          if old(session) == Connected { AsksStill(queue, prioQueue); }
        }
      }
    }

    /** The remote end point is linked to its stream, if any, and asked for its capabilities. */
    method Learn(seid: nat, stream: Option<StreamId>)
      requires Shape(View(), None) && req.Some?
      requires stream.Some? ==> stream.value in streams && stream.value in heap && heap[stream.value].rseid == seid
      modifies this
      ensures Shape(View(), None) && req == old(req) && Silent()
      ensures rseps == old(rseps)[seid := stream] && streams == old(streams) && heap == old(heap)
      ensures lseps == old(lseps) && pendingOpen == old(pendingOpen)
      ensures old(session) == Connected ==> View() == old(View()).(rseps := rseps, prioQueue := prioQueue)
      ensures old(session) == Connected ==> old(prioQueue) <= prioQueue && AsksFor(prioQueue, seid)
    {
      DiscoveredKeepsShape(View(), seid, stream);
      hide Shape;
      rseps := rseps[seid := stream];
      var all: bool := *;
      var q := Request(if all then GetAllCapabilities else GetCapabilities, None, seid);
      SentKeepsShape(View(), None, q, true, true);
      var queued := SendReq(q, true, true);
    }

    /** The request to be sent next asks for capabilities. */
    predicate CapabilitiesNext()
      reads this
    {
      var queue := if prioQueue != [] then prioQueue else reqQueue;
      queue != [] && queue[0].signal in {GetCapabilities, GetAllCapabilities}
    }

    /** `avdtp_parse_resp` on the answer to the outstanding request. */
    method ParseResp(ioOk: bool, wellFormed: bool, found: seq<(nat, bool)>) returns (ok: bool)
      requires Shape(View(), None) && req.Some?
      modifies this
      ensures Shape(View(), None) && (ok ==> req.Some?)
      ensures ok <==> !EndsSession(old(req).value, AcceptAnswer, ioOk, wellFormed)
      ensures ok ==> Carried(old(View()), old(script) == [], View())
      ensures NoSetUp(old(script)) ==> NoSetUp(script)
      ensures old(script) == [] && old(session) == Connected && old(req).value.signal == Signal.Discover ==>
                && ok && Silent() && View() == old(View()).(rseps := rseps, prioQueue := prioQueue)
                && forall i | 0 <= i < |found| && !found[i].1 :: found[i].0 in rseps
    {
      hide Shape, NoSetUp;
      var signal, stream := req.value.signal, req.value.stream;
      RequestListed(View());
      ok := true;
      if signal == Signal.Discover {
        DiscoverResp(found);
      } else if signal == GetCapabilities || signal == GetAllCapabilities {
        if !wellFormed { return false; }
        if !CapabilitiesNext() {
          ghost var v := View();
          FinishDiscovery();
          GrewStates(v, View(), None);
          GrewRequest(v, View(), None);
        }
      } else if stream.Some? {
        ok := StreamResp(signal, stream.value, ioOk);
      }
    }

    /** The part of `avdtp_parse_resp` for requests that are about a stream. */
    method StreamResp(signal: Signal, s: StreamId, ioOk: bool) returns (ok: bool)
      requires Shape(View(), None) && s in streams && s in heap
      requires req.Some? && req.value.signal == signal && req.value.stream == Some(s)
      requires signal !in {Signal.Discover, GetCapabilities, GetAllCapabilities}
      modifies this
      ensures Shape(View(), None) && (ok ==> req.Some?)
      ensures ok <==> (signal == Open ==> ioOk)
      ensures ok ==> Carried(old(View()), old(script) == [], View())
      ensures NoSetUp(old(script)) ==> NoSetUp(script)
    {
      hide Shape, NoSetUp, NewState, Grew;
      ListedStream(View(), None, s);
      ok := true;
      match signal {
        case SetConfiguration => SetConfigurationResp(s);
        case Open => ok := OpenResp(s, ioOk);
        case Start => StartResp(s);
        case Close => CloseResp(s);
        case Suspend => SuspendResp(s);
        case Abort => AbortResp(s);
        case DelayReport => DelayReportResp();
        case _ =>
      }
    }

    method DelayReportResp()
      requires Shape(View(), None) && req.Some?
      modifies this
      ensures Shape(View(), None) && req.Some? && SameStates(old(View()), View()) && pendingOpen == old(pendingOpen)
      ensures NoSetUp(old(script)) ==> NoSetUp(script)
      ensures Heard(old(script), script)
    {
      hide Shape, NoSetUp;
      Callback(None);
    }

    method ProcessQueue(sendOk: bool)
      requires Shape(View(), None)
      modifies this
      ensures View() == Dequeued(old(View()), sendOk) && Shape(View(), None) && Silent()
    {
      DequeuedKeepsShape(View(), sendOk);
      if req.Some? { return; }
      if prioQueue != [] {
        var q := prioQueue[0];
        prioQueue := prioQueue[1..];
        var sent := SendReq(q, false, sendOk);
      } else if reqQueue != [] {
        var q := reqQueue[0];
        reqQueue := reqQueue[1..];
        var sent := SendReq(q, false, sendOk);
      }
    }

    // -------------------------------------------------------- rejected requests

    /** `avdtp_parse_rej`: only a rejected ABORT or a malformed answer ends the session. */
    method ParseRej(valid: bool) returns (ok: bool)
      requires Shape(View(), None) && req.Some?
      modifies this
      ensures Shape(View(), None) && req.Some?
      ensures ok <==> !EndsSession(old(req).value, RejectAnswer, true, valid)
      ensures valid ==> Declined(old(View()), View())
      ensures NoSetUp(old(script)) ==> NoSetUp(script)
      ensures (&& valid && old(req).value.stream.Some?
               && old(req).value.signal !in {Signal.Discover, GetCapabilities, GetAllCapabilities}) ==>
                Heard(old(script), script)
    {
      hide Shape, NoSetUp;
      if !valid { return false; }
      var signal, stream := req.value.signal, req.value.stream;
      RequestListed(View());
      if stream.Some? && signal !in {Signal.Discover, GetCapabilities, GetAllCapabilities} {
        Callback(None);
        var s := stream.value;
        if signal == Start { SetFlags(s, heap[s].(starting := false), None); }
        if signal == Close { SetFlags(s, heap[s].(closeInt := false), None); }
      }
      ok := signal != Abort;
    }

    /** The end of `session_cb` for an answer that was processed: the request is done. */
    method RequestDone(sendOk: bool)
      requires Shape(View(), None) && req.Some?
      modifies this
      ensures Shape(View(), None) && View() == Dequeued(old(View()).(req := None), sendOk) && Silent()
    {
      req := None;
      SameLinksKeepShape(old(View()), View(), None);
      hide Shape;
      ProcessQueue(sendOk);
    }

    // -------------------------------------------------------- received commands

    /** `avdtp_setconf_cmd` with the application's decision. */
    method SetConfigurationCmd(l: nat, rseid: nat, delay: bool, decision: Decision, sendOk: bool) returns (ok: bool)
      requires Shape(View(), None) && session == Connected
      modifies this
      ensures Shape(View(), None)
      ensures ok && l in old(lseps) && old(lseps)[l].stream.None? && decision == Accepted ==>
                && l in lseps && lseps[l].state == Configured && lseps[l].inUse
                && lseps[l].stream == Some(old(nextId)) && old(nextId) in streams
      ensures decision != Accepted ==> streams == old(streams) && lseps == old(lseps)
      ensures ok == sendOk
      ensures ok ==> Obeyed(old(View()), SetConfigurationCommand(l, rseid, delay, decision), false, View())
      ensures NoSetUp(old(script)) ==> NoSetUp(script)
      ensures old(script) == [] && Plain(old(View()), SetConfigurationCommand(l, rseid, delay, decision)) && sendOk ==>
                View() == Stepped(old(View()), SetConfigurationCommand(l, rseid, delay, decision)) && Silent()
    {
      hide Shape, NoSetUp, Linked, Moved;
      if l !in lseps || lseps[l].stream.Some? {
        return sendOk;
      }
      InUseSep(View(), l);
      var st := Stream(l, rseid, false, false, false, false, delay);
      var s := nextId;
      if decision == Deferred {
        AllocatedKeepsShape(View(), st);
        heap, nextId := heap[s := st], s + 1;
        return sendOk;
      }
      if decision == Refused || !sendOk {
        RefuseConfiguration(st);
        return sendOk;
      }
      AcceptConfiguration(st);
      ok := true;
    }

    /**
     `setconf_cb`, called later for a stream whose configuration was not decided at once; a refused one is not
     freed.
     */
    method DecideConfiguration(s: StreamId, accepted: bool, sendOk: bool)
      requires Shape(View(), None) && session == Connected && s in heap && s !in streams
      requires heap[s].lsep in lseps && !lseps[heap[s].lsep].inUse
      modifies this
      ensures Shape(View(), None)
      ensures !accepted ==> View() == old(View())
      ensures accepted && !sendOk ==> s !in heap && streams == old(streams) && SameStates(old(View()), View())
      ensures accepted && sendOk ==>
                && NewState(old(View()), View(), old(heap)[s].lsep, Configured)
                && s in streams && lseps[old(heap)[s].lsep].stream == Some(s)
      ensures NoSetUp(old(script)) ==> NoSetUp(script)
    {
      hide Shape, NoSetUp, Grew, Adopted, Freed;
      if !accepted { return; }
      if !sendOk {
        FreedUnlinkedKeepsShape(View(), s);
        FreedStates(View(), s);
        StreamFree(s);
        return;
      }
      var l := heap[s].lsep;
      Adopt(s);
      ghost var v := View();
      SetState(l, Configured);
      NewStateAfter(old(View()), v, View(), l, Configured);
    }

    /** The stream takes over its end point. */
    method Adopt(s: StreamId)
      requires Shape(View(), None) && session == Connected && s in heap && s !in streams
      requires heap[s].lsep in lseps && !lseps[heap[s].lsep].inUse
      modifies this
      ensures Shape(View(), None) && SameStates(old(View()), View()) && Silent()
      ensures s in streams && heap == old(heap) && heap[s].lsep in lseps && lseps[heap[s].lsep].stream == Some(s)
    {
      AdoptedKeepsShape(View(), s);
      hide Shape;
      var l := heap[s].lsep;
      lseps := lseps[l := lseps[l].(stream := Some(s), inUse := true)];
      streams := streams + [s];
    }

    /** The refused stream is freed again. */
    method RefuseConfiguration(st: Stream)
      requires Shape(View(), None) && st.lsep in lseps && !lseps[st.lsep].inUse
      modifies this
      ensures Shape(View(), None) && heap == old(heap) && streams == old(streams) && lseps == old(lseps)
      ensures Silent() && pendingOpen == old(pendingOpen)
    {
      hide Shape, Grew, Freed;
      ghost var v := View();
      SetUpFailed(v, None, st);
      var s := nextId;
      heap, nextId := heap[s := st], s + 1;
      assert View() == v.(heap := v.heap[v.nextId := st], nextId := v.nextId + 1);
      StreamFree(s);
    }

    /** The accepted stream is put in place. */
    method AcceptConfiguration(st: Stream)
      requires Shape(View(), None) && session == Connected
      requires st.lsep in lseps && !lseps[st.lsep].inUse
      modifies this
      ensures Shape(View(), None)
      ensures st.lsep in lseps && lseps[st.lsep].state == Configured && lseps[st.lsep].stream == Some(old(nextId))
      ensures old(nextId) in streams && lseps[st.lsep].inUse
      ensures NewState(old(View()), View(), st.lsep, Configured) && pendingOpen == old(pendingOpen)
      ensures old(nextId) in heap && heap[old(nextId)].lsep == st.lsep && heap[old(nextId)].rseid == st.rseid
      ensures NoSetUp(old(script)) ==> NoSetUp(script)
      ensures old(script) == [] && !old(lseps[st.lsep].sink) ==>
                View() == Moved(Linked(old(View()), st, false), st.lsep, Configured) && Silent()
    {
      hide Shape, NoSetUp, Linked, NewState, Grew, Moved;
      var s, l := nextId, st.lsep;
      LinkedStates(View(), st, false);
      PutInPlace(st);
      ghost var v := View();
      SetState(l, Configured);
      MovedHeap(v, l, Configured, View(), s);
      NewStateAfter(old(View()), v, View(), l, Configured);
      InUseSep(View(), l);
    }

    /** The stream is linked to its local end point and to the list of streams. */
    method PutInPlace(st: Stream)
      requires Shape(View(), None) && session == Connected
      requires st.lsep in lseps && !lseps[st.lsep].inUse
      modifies this`heap, this`nextId, this`lseps, this`streams
      ensures Shape(View(), None) && View() == Linked(old(View()), st, false) && Silent()
      ensures st.lsep in lseps && lseps[st.lsep].stream == Some(old(nextId)) && old(nextId) in streams
    {
      hide Shape;
      LinkedKeepsShape(View(), None, st, false);
      var s, l := nextId, st.lsep;
      heap, nextId := heap[s := st], s + 1;
      lseps := lseps[l := lseps[l].(stream := Some(s), inUse := true)];
      streams := streams + [s];
    }

    /** `avdtp_open_cmd`; the open indication runs before the answer. */
    method OpenCmd(l: nat, accept: bool, sendOk: bool) returns (ok: bool)
      requires Shape(View(), None)
      modifies this
      ensures Shape(View(), None) && ok == sendOk
      ensures pendingOpen == if l in old(lseps) && old(lseps)[l].state == Configured && accept && sendOk
                             then old(lseps)[l].stream else old(pendingOpen)
      ensures SameStates(old(View()), View())
      ensures NoSetUp(old(script)) ==> NoSetUp(script)
      ensures old(script) == [] && Plain(old(View()), OpenCommand(l, accept)) && sendOk ==>
                View() == Stepped(old(View()), OpenCommand(l, accept)) && Silent()
      ensures l in old(lseps) && old(lseps)[l].state == Configured ==> Heard(old(script), script)
    {
      if l !in lseps || lseps[l].state != Configured {
        return sendOk;
      }
      assert SepOk(View(), None, l);
      var s := lseps[l].stream.value;
      hide Shape, NoSetUp;
      Callback(None);
      if !accept || !sendOk {
        return sendOk;
      }
      SetFlags(s, heap[s].(openAcp := true), None);
      PendOpen(s);
      ok := true;
    }

    method PendOpen(s: StreamId)
      requires Shape(View(), None) && s in streams
      modifies this
      ensures Shape(View(), None) && View() == old(View()).(pendingOpen := Some(s)) && Silent()
    {
      pendingOpen := Some(s);
      SameLinksKeepShape(old(View()), View(), None);
    }

    /** `avdtp_start_cmd`; every one of the `n` entries is looked up by the first identifier. */
    method StartCmd(l: nat, n: nat, accept: bool, sendOk: bool) returns (ok: bool)
      requires Shape(View(), None) && n >= 1
      modifies this
      ensures Shape(View(), None) && ok == sendOk
      ensures l in old(lseps) && old(lseps)[l].state == Streaming ==> View() == old(View())
      ensures Obeyed(old(View()), StartCommand(l, n - 1, accept), old(script) == [], View())
      ensures NoSetUp(old(script)) ==> NoSetUp(script)
      ensures CanStart(old(View()), l) ==> Heard(old(script), script)
      ensures old(script) == [] && CanStart(old(View()), l) ==>
                var s := old(lseps)[l].stream.value;
                heap == old(heap)[s := old(heap)[s].(starting := true)]
    {
      hide Shape, NoSetUp;
      for i := 0 to n
        invariant Shape(View(), None) && (NoSetUp(old(script)) ==> NoSetUp(script))
        invariant i == 0 ==> View() == old(View()) && script == old(script)
        invariant i > 0 ==> CanStart(old(View()), l) && accept && NewState(old(View()), View(), l, Streaming)
        invariant i > 0 ==> Heard(old(script), script)
        invariant i > 0 && old(script) == [] ==>
                    var s := old(lseps)[l].stream.value;
                    heap == old(heap)[s := old(heap)[s].(starting := true)]
        invariant pendingOpen == old(pendingOpen)
        invariant l in old(lseps) && old(lseps)[l].state == Streaming ==> View() == old(View())
      {
        if l !in lseps || lseps[l].stream.None? { return sendOk; }
        var s := lseps[l].stream.value;
        SepStream(View(), l);
        if lseps[l].state != Opened || heap[s].starting { return sendOk; }
        SetFlags(s, heap[s].(starting := true), None);
        ghost var v := View();
        Callback(None);
        assert lseps[l].state == v.lseps[l].state && lseps[l].stream == Some(s);
        if !accept { return sendOk; }
        SetState(l, Streaming);
      }
      ok := sendOk;
    }

    /**
     `avdtp_close_cmd` (to CLOSING), `avdtp_suspend_cmd` (to OPEN) and `avdtp_abort_cmd` (to ABORTING), each with its
     indication.
     */
    method MoveCmd(l: nat, to: SepState, accept: bool, sendOk: bool) returns (ok: bool)
      requires Shape(View(), None) && (to == Closing || to == Opened || to == Aborting)
      modifies this
      ensures Shape(View(), None) && ok == sendOk
      ensures if l in old(lseps) && MayMove(old(lseps)[l], to) && accept && (to == Aborting ==> sendOk)
              then NewState(old(View()), View(), l, to) else SameStates(old(View()), View())
      ensures pendingOpen == old(pendingOpen)
      ensures NoSetUp(old(script)) ==> NoSetUp(script)
      ensures l in old(lseps) && MayMove(old(lseps)[l], to) ==> Heard(old(script), script)
      ensures old(script) == [] && to != Opened ==> heap == old(heap)
      ensures old(script) == [] && to == Opened && l in old(lseps) && MayMove(old(lseps)[l], to) && accept ==>
                var s := old(lseps)[l].stream.value;
                s in old(heap) && heap == old(heap)[s := old(heap)[s].(starting := false)]
    {
      hide Shape, NoSetUp;
      if l !in lseps || !MayMove(lseps[l], to) { return sendOk; }
      SepStream(View(), l);
      ghost var v := View();
      Callback(None);
      assert lseps[l].state == v.lseps[l].state && lseps[l].stream == v.lseps[l].stream;
      if !accept { return sendOk; }
      if to == Aborting && !sendOk { return false; }
      SetState(l, to);
      ok := sendOk;
    }

    // ------------------------------------------------------- transport channel

    /** The transport channel of the stream being opened is up. */
    method TransportUp(sendOk: bool)
      requires Shape(View(), None) && pendingOpen.Some?
      modifies this
      ensures Shape(View(), None) && pendingOpen.None?
      ensures var s := old(pendingOpen).value;
              s in old(heap) && NewState(old(View()), View(), old(heap)[s].lsep, Opened)
      ensures NoSetUp(old(script)) ==> NoSetUp(script)
      ensures Heard(old(script), script)
    {
      hide Shape, NoSetUp, NewState, SameStates, Grew, Dequeued;
      var s := pendingOpen.value;
      PendingListed(View());
      var l, openAcp := heap[s].lsep, heap[s].openAcp;
      ghost var v := View().(pendingOpen := None);
      ForgetPendingOpen();
      SameStatesReflexive(old(View()), v);
      GrewReflexive(v, None);
      if !openAcp {
        Callback(None);
      }
      ghost var w := View();
      GrewStates(v, w, None);
      GrewSep(v, w, l);
      MoveOpened(l);
      NewStateAfter(v, w, View(), l, Opened);
      NewStateAfter(old(View()), v, View(), l, Opened);
      DequeuedKeepsLinks(View(), sendOk);
      NewStateLater(old(View()), View(), Dequeued(View(), sendOk), l, Opened);
      ProcessQueue(sendOk);
    }

    /** The end point of the opened stream becomes OPEN. */
    method MoveOpened(l: nat)
      requires Shape(View(), None) && l in lseps && lseps[l].stream.Some? && pendingOpen.None?
      modifies this
      ensures Shape(View(), None) && NewState(old(View()), View(), l, Opened) && pendingOpen.None?
      ensures NoSetUp(old(script)) ==> NoSetUp(script)
      ensures Heard(old(script), script)
    {
      hide Shape, NoSetUp;
      SetState(l, Opened);
    }

    /** `avdtp_abort`. */
    method AbortStream(s: StreamId, sendOk: bool) returns (ok: bool, r: Outcome)
      requires Shape(View(), None)
      modifies this
      ensures old(made) <= made && (old(script) == [] ==> Quiet(old(made), made))
      ensures r.Fine? ==> Shape(View(), None) && old(streams) <= streams && forall t | t in old(heap) :: t in heap
      ensures r.Lost? ==> Over(old(View()), View())
      ensures if Cancels(old(View()), s) then Cancelled(old(View()), sendOk, old(script) == [], View())
              else (View(), ok) == Requested(old(View()), Abort, s, sendOk) && Silent()
      ensures r.Lost? && r.leaked != [] <==> !Shape(View(), None)
      ensures r.Lost? && NoSetUp(old(script)) ==> r.leaked == []
      ensures r.Lost? ==> ok == !r.negative && Cancels(old(View()), s)
      ensures r.Fine? && Cancels(old(View()), s) ==> ok
      ensures r.Lost? && r.negative <==>
                Cancels(old(View()), s) && Abortable(old(View())) && !sendOk && Quiet(old(made), made)
      ensures NoSetUp(old(script)) ==> NoSetUp(script)
    {
      NothingSince(View(), made);
      hide Shape, NoSetUp, Abortable, Quiet;
      if s in streams && req.Some? && req.value.stream == Some(s) {
        ListedStream(View(), None, s);
        if lseps[heap[s].lsep].state == Aborting { return false, Fine; }
        r := CancelRequest(sendOk);
        ok := r.Fine? || !r.negative;
        return;
      }
      RequestedGrows(View(), None, Abort, s, sendOk);
      ok := StreamRequest(Abort, s, sendOk);
      r := Fine;
    }

    /**
     The transport channel of the stream being opened could not be connected; the application was told by the entry
     `Reported`. `stale` says that the stream was freed under the feet of the caller. That is so exactly when, in
     the state of the report, aborting the stream cancels a request that an ABORT should follow, the ABORT cannot be
     sent, and no call made after the report left a request out that it could have been queued behind.
     */
    method TransportFailed(sendOk: bool) returns (r: Outcome, stale: bool)
      requires Shape(View(), None) && pendingOpen.Some?
      modifies this
      ensures old(made) <= made && exists i: nat ::
                && IsReport(old(made), made, i)
                && (stale <==>
                      && Severs(Reached(old(View()).(pendingOpen := None), old(made), made[..i]),
                          old(pendingOpen).value)
                      && !sendOk && Quiet(made[..i + 1], made))
      ensures r.Fine? ==> Shape(View(), None)
      ensures stale ==> r.Lost? && old(pendingOpen).value !in heap
      ensures OpenGivenUp(old(View()), old(pendingOpen).value, View())
      ensures r.Lost? ==> streams == []
      ensures r.Lost? && r.leaked != [] <==> !Shape(View(), None)
      ensures r.Lost? && NoSetUp(old(script)) ==> r.leaked == []
      ensures NoSetUp(old(script)) ==> NoSetUp(script)
      ensures old(script) == [] ==>
                (stale <==> Severs(old(View()).(pendingOpen := None), old(pendingOpen).value) && !sendOk)
    {
      var s := pendingOpen.value;
      assert OwnedRef(View(), None, pendingOpen);
      hide Shape, NoSetUp, Abortable, Cancels, Quiet, Reached, Severs, OnlyCalls;
      ghost var a := made;
      Report();
      ghost var b := made;
      r, stale := GiveUpOpen(s, sendOk);
      ReportedFirst(a, b, made);
    }

    /** The application is told that the transport failed. */
    method Report()
      requires Shape(View(), None) && pendingOpen.Some?
      modifies this
      ensures Shape(View(), None) && old(streams) <= streams && (NoSetUp(old(script)) ==> NoSetUp(script))
      ensures made != [] && made[|made| - 1] == Reported
      ensures OnlyCalls(old(made), made[..|made| - 1])
      ensures View() == Reached(old(View()).(pendingOpen := None), old(made), made[..|made| - 1])
      ensures old(script) == [] ==>
                && View() == old(View()).(pendingOpen := None) && script == []
                && made == old(made) + [Reported]
    {
      hide Shape, NoSetUp, Reached, OnlyCalls;
      ghost var v := View().(pendingOpen := None);
      OpenFailed(None);
      GrewList(v, View(), None);
      hide Grew;
      ghost var b := made;
      made := made + [Reported];
      assert made[..|made| - 1] == b;
    }

    /** The stream that was being opened is aborted, or else released; `stale` says that it was freed already. */
    method GiveUpOpen(s: StreamId, sendOk: bool) returns (r: Outcome, stale: bool)
      requires Shape(View(), None) && s in streams
      modifies this
      ensures old(made) <= made
      ensures stale <==> Severs(old(View()), s) && !sendOk && Quiet(old(made), made)
      ensures old(script) == [] ==> (stale <==> Severs(old(View()), s) && !sendOk)
      ensures r.Fine? ==> Shape(View(), None)
      ensures stale ==> r.Lost? && s !in heap
      ensures OpenGivenUp(old(View()), s, View())
      ensures r.Lost? ==> streams == []
      ensures r.Lost? && r.leaked != [] <==> !Shape(View(), None)
      ensures r.Lost? && NoSetUp(old(script)) ==> r.leaked == []
      ensures NoSetUp(old(script)) ==> NoSetUp(script)
    {
      hide Shape, NoSetUp, Abortable, Cancels, Quiet, Requested, BeingAborted;
      ListedStream(View(), None, s);
      ghost var v := View();
      var ok;
      ok, r := AbortStream(s, sendOk);
      if Cancels(v, s) {
        CancelledAborts(v, sendOk, old(script) == [], View(), s);
      } else if ok {
        RequestedAborts(v, s, sendOk);
      }
      stale := !ok && s !in heap;
      if !ok && s in heap {
        ListedStream(View(), None, s);
        SetState(heap[s].lsep, Idle);
      }
    }

    /** `transport_cb`: the peer closed the transport channel of stream `s`. */
    method TransportHup(s: StreamId)
      requires Shape(View(), None) && s in streams
      modifies this
      ensures Shape(View(), None)
      ensures s in old(heap)
      ensures if s in heap then SameStates(old(View()), View()) && heap[s].abortInt
              else !old(heap[s].abortInt) && NewState(old(View()), View(), old(heap[s].lsep), Idle)
      ensures NoSetUp(old(script)) ==> NoSetUp(script)
    {
      hide Shape, NoSetUp;
      ListedStream(View(), None, s);
      var l := heap[s].lsep;
      if heap[s].closeInt {
        Callback(None);
      }
      if !heap[s].abortInt {
        SetState(l, Idle);
      }
    }

    /** `avdtp_unregister_sep`. */
    method Unregister(l: nat)
      requires Shape(View(), None) && l in lseps
      modifies this
      ensures Shape(View(), None) && lseps.Keys == old(lseps).Keys - {l}
      ensures forall k | k in lseps :: lseps[k].state == old(lseps)[k].state
      ensures old(lseps[l].stream).Some? ==> old(lseps[l].stream).value !in heap
      ensures NoSetUp(old(script)) ==> NoSetUp(script)
    {
      SepStream(View(), l);
      if lseps[l].stream.Some? {
        Release(lseps[l].stream.value);
      }
      UnregisteredKeepsShape(View(), l);
      lseps := lseps - {l};
    }

    // ------------------------------------------------------------------ whole runs

    /** The session is given up; `intact` says that the shape was kept. */
    method Lose() returns (intact: bool)
      requires Shape(View(), None)
      modifies this
      ensures intact <==> Shape(View(), None)
      ensures Over(old(View()), View())
      ensures NoSetUp(old(script)) ==> intact && NoSetUp(script)
    {
      hide Shape, NoSetUp, LeakSince, RefersTo;
      var leaked := ConnectionLost();
      intact := leaked == [];
    }

    /**
     One event of the main loop. Events that the current state rules out do nothing. The shape is lost only by
     giving up the session: with a stream left behind by a callback that sets one up, or with the stream of a failed
     transport freed too early.
     */
    method Dispatch(e: Event) returns (intact: bool)
      requires Shape(View(), None)
      modifies this
      ensures intact ==> Shape(View(), None)
      ensures !intact ==> streams == [] && MayGiveUp(e)
      ensures !intact ==> !Shape(View(), None) || (e.TransportConnect? && !e.up && !e.sendOk)
      ensures NoSetUp(old(script)) ==> NoSetUp(script)
      ensures NoSetUp(old(script)) && (e.TransportConnect? && !e.up ==> e.sendOk) ==> intact
      ensures Handled(old(View()), e, old(script) == [], View())
      ensures e.IncomingChannel? || e.SignallingUp? || e.AppSetUp? || e.AppDiscover? ==> Silent()
      ensures e.AppRequest? && e.signal != Abort ==> Silent()
      ensures (&& old(script) == [] && e.Command? && e.sendOk && old(session) == Connected
               && Plain(old(View()), e.command)) ==>
                View() == Stepped(old(View()), e.command) && Silent()
      ensures old(script) == [] && e.TransportConnect? && !e.up && old(pendingOpen).Some? ==>
                (!intact <==> Severs(old(View()).(pendingOpen := None), old(pendingOpen).value) && !e.sendOk)
      ensures e.AppDiscover? ==>
                View() == if !old(discovering) && old(rseps) == map[]
                          then Sent(old(View()), Request(Signal.Discover, None, 0), false, e.sendOk).0 else old(View())
      ensures old(script) == [] && e.Answer? && Discovers(old(View()), e.answer) ==>
                Learned(old(View()), View(), e.found) && script == []
    {
      hide Shape, NoSetUp, Severs, Quiet, Plain, Stepped, Requested, Dequeued, Grew, SetUp, Sent, Learned, Discovers;
      hide Cancelled, Replied, Obeyed, NewState, SameStates, OpenGivenUp, Cancels, EndsSession, Abortable, BeingAborted;
      var ok, r := true, Fine;
      intact := true;
      match e {
        case AppRequest(sig, s, sendOk) =>
          if sig == Abort {
            ok, r := AbortStream(s, sendOk);
            intact := r.Fine? || r.leaked == [];
          } else {
            RequestedGrows(View(), None, sig, s, sendOk);
            ok := StreamRequest(sig, s, sendOk);
          }
        case AppSetUp(l, rseid, delay, sendOk) =>
          if l in lseps && !lseps[l].inUse {
            SetUpGrows(View(), None, l, rseid, delay, sendOk);
            ok := SetConfiguration(l, rseid, delay, sendOk);
          }
        case Timeout(sendOk) =>
          if req.Some? {
            r := CancelRequest(sendOk);
            intact := r.Fine? || r.leaked == [];
          }
        case Answer(answer, ioOk, valid, found, sendOk) =>
          intact := Answered(answer, ioOk, valid, found, sendOk);
        case Command(cmd, sendOk) =>
          if session == Connected {
            ok := Commanded(cmd, sendOk);
            if !ok { intact := Lose(); }
          }
        case TransportConnect(up, sendOk) =>
          if pendingOpen.Some? {
            if up {
              TransportUp(sendOk);
            } else {
              intact := LoseTransport(sendOk);
            }
          }
        case TransportClosed(s, _) =>
          if s in streams { TransportHup(s); }
        case OpenTimeout(s, sendOk) =>
          if s in streams {
            ForgetPendingOpen();
            ok, r := AbortStream(s, sendOk);
            intact := r.Fine? || r.leaked == [];
          }
        case SignallingUp(sendOk) =>
          if session == Connecting {
            BecomeConnected();
            ProcessQueue(sendOk);
          }
        case ChannelLost(_) => intact := Lose();
        case UnregisterSep(l, _) =>
          if l in lseps { Unregister(l); }
        case ConfigurationDecided(s, accepted, sendOk) =>
          if session == Connected && s in heap && s !in streams && heap[s].lsep in lseps && !lseps[heap[s].lsep].inUse {
            DecideConfiguration(s, accepted, sendOk);
          }
        case AppDiscover(sendOk) =>
          SentKeepsShape(View(), None, Request(Signal.Discover, None, 0), false, sendOk);
          ok := Discover(sendOk);
        case DiscoveryIdle(_) =>
          ghost var v := View();
          FinishDiscovery();
          GrewStates(v, View(), None);
          GrewList(v, View(), None);
        case IncomingChannel(_) =>
          if session == Disconnected { AcceptChannel(); }
      }
    }

    /** The transport failed; `intact` says that the shape was kept and the stream not used after it was freed. */
    method LoseTransport(sendOk: bool) returns (intact: bool)
      requires Shape(View(), None) && pendingOpen.Some?
      modifies this
      ensures intact ==> Shape(View(), None)
      ensures !intact ==> streams == [] && (!Shape(View(), None) || !sendOk)
      ensures OpenGivenUp(old(View()), old(pendingOpen).value, View())
      ensures NoSetUp(old(script)) ==> NoSetUp(script) && (sendOk ==> intact)
      ensures old(script) == [] ==>
                (!intact <==> Severs(old(View()).(pendingOpen := None), old(pendingOpen).value) && !sendOk)
    {
      assert NoSetUp([]);
      hide Shape, NoSetUp, Severs, Quiet, IsReport;
      var r, stale := TransportFailed(sendOk);
      intact := !stale && (r.Fine? || r.leaked == []);
    }

    method ForgetPendingOpen()
      requires Shape(View(), None)
      modifies this
      ensures Shape(View(), None) && View() == old(View()).(pendingOpen := None) && Silent()
    {
      pendingOpen := None;
      SameLinksKeepShape(old(View()), View(), None);
    }

    /** `avdtp_confirm_cb` without a session channel: the incoming one is accepted once authorised. */
    method AcceptChannel()
      requires Shape(View(), None) && session == Disconnected
      modifies this
      ensures Shape(View(), None) && View() == old(View()).(session := Connecting) && Silent()
    {
      session := Connecting;
      SameLinksKeepShape(old(View()), View(), None);
    }

    method BecomeConnected()
      requires Shape(View(), None)
      modifies this
      ensures Shape(View(), None) && View() == old(View()).(session := Connected) && Silent()
    {
      session := Connected;
      SameLinksKeepShape(old(View()), View(), None);
    }

    /** `session_cb` on an answer whose label and signal match the outstanding request. */
    method Answered(answer: AnswerKind, ioOk: bool, valid: bool, found: seq<(nat, bool)>, sendOk: bool)
      returns (intact: bool)
      requires Shape(View(), None)
      modifies this
      ensures intact <==> Shape(View(), None)
      ensures !intact ==> streams == []
      ensures if old(req).None? then View() == old(View())
              else if EndsSession(old(req).value, answer, ioOk, valid) then session == Disconnected && streams == []
              else Replied(old(View()), answer, old(script) == [], View())
      ensures NoSetUp(old(script)) ==> intact && NoSetUp(script)
      ensures old(script) == [] && Discovers(old(View()), answer) ==>
                Learned(old(View()), View(), found) && script == []
    {
      hide Shape, NoSetUp;
      if req.None? { return true; }
      var ok := true;
      if answer == AcceptAnswer {
        ok := ParseResp(ioOk, valid, found);
      } else if answer == RejectAnswer {
        ok := ParseRej(valid);
      }
      if ok {
        DequeuedKeepsLinks(View().(req := None), sendOk);
        hide Dequeued;
        RequestDone(sendOk);
        intact := true;
      } else {
        intact := Lose();
      }
    }

    /** `avdtp_parse_cmd` for the commands that touch streams. */
    method Commanded(cmd: PeerCommand, sendOk: bool) returns (ok: bool)
      requires Shape(View(), None) && session == Connected
      modifies this
      ensures Shape(View(), None) && ok == sendOk && (ok ==> Obeyed(old(View()), cmd, old(script) == [], View()))
      ensures NoSetUp(old(script)) ==> NoSetUp(script)
      ensures old(script) == [] && Plain(old(View()), cmd) && sendOk ==> View() == Stepped(old(View()), cmd) && Silent()
    {
      hide Shape, NoSetUp, Stepped;
      match cmd {
        case SetConfigurationCommand(l, rseid, delay, decision) =>
          ok := SetConfigurationCmd(l, rseid, delay, decision, sendOk);
        case OpenCommand(l, accept) => ok := OpenCmd(l, accept, sendOk);
        case StartCommand(l, others, accept) => ok := StartCmd(l, 1 + others, accept, sendOk);
        case CloseCommand(l, accept) => ok := MoveCmd(l, Closing, accept, sendOk);
        case SuspendCommand(l, accept) => ok := MoveCmd(l, Opened, accept, sendOk);
        case AbortCommand(l, accept) => ok := MoveCmd(l, Aborting, accept, sendOk);
      }
    }

    /**
     Any run, with callbacks that make any calls: the shape holds after every event handled. A run ends early only
     at an event that gave the session up, so that no stream is listed; and never when callbacks set up no stream
     and a transport that fails finds the signalling channel working.
     */
    method Run(events: seq<Event>) returns (handled: nat, ghost states: seq<State>)
      requires Shape(View(), None)
      modifies this
      ensures handled <= |events| && |states| == handled + 1 && states[0] == old(View())
      ensures forall i {:trigger events[i]} | 0 <= i < handled :: Handled(states[i], events[i], false, states[i + 1])
      ensures handled == |events| ==> states[handled] == View()
      ensures handled < |events| ==> Handled(states[handled], events[handled], false, View())
      ensures handled == |events| ==> Shape(View(), None)
      ensures handled < |events| ==> streams == [] && MayGiveUp(events[handled])
      ensures handled < |events| ==>
                || !Shape(View(), None)
                || (events[handled].TransportConnect? && !events[handled].up && !events[handled].sendOk)
      ensures NoSetUp(old(script)) && (forall e | e in events :: e.TransportConnect? && !e.up ==> e.sendOk) ==>
                handled == |events|
    {
      hide Shape, NoSetUp, MayGiveUp, Handled, Severs, Plain, Stepped, Discovers, Learned;
      handled, states := 0, [View()];
      while handled < |events|
        invariant handled <= |events| && Shape(View(), None)
        invariant |states| == handled + 1 && states[0] == old(View()) && states[handled] == View()
        invariant forall i {:trigger events[i]} | 0 <= i < handled ::
                  Handled(states[i], events[i], false, states[i + 1])
        invariant NoSetUp(old(script)) ==> NoSetUp(script)
      {
        ghost var v, calm := View(), script == [];
        var intact := Dispatch(events[handled]);
        HandledAnyway(v, events[handled], calm, View());
        if !intact { return; }
        states := states + [View()];
        handled := handled + 1;
      }
    }
  }

  // ------------------------------------------------- what the restrictions are for

  /** A stream set up from the state callback of the last stream released is lost by `connection_lost`. */
  lemma SetUpInLastCallbackIsLeaked()
    ensures var v := OneStream();
            var v1 := SetUp(Detached(v, 1), 2, 5, false, true).0;
            && Shape(v, None)
            && 0 in v1.heap && v1.heap[0].lsep in v1.lseps && Shape(Freed(v1, 0), None)
            && !Shape(Freed(v1, 0).(streams := [], session := Disconnected), None)
  {
    var v := OneStream();
    assert Shape(v, None) by {
      assert forall s :: Owned(v, None, s) <==> s == 0;
    }
    hide Shape, Grew;
    DetachedKeepsShape(v, 1);
    var d := Detached(v, 1);
    assert d.lseps[2] == v.lseps[2];
    SetUpGrows(d, Some(0), 2, 5, false, true);
    var v1 := SetUp(d, 2, 5, false, true).0;
    assert v1.streams == [1] && !Pends(v1, 0) && 0 in v1.heap && v1.heap[0].lsep == 1;
    hide SetUp, Pends, Detached;
    FreedKeepsShape(v1, 0);
    Dropped(Freed(v1, 0));
  }

  /** One open stream between local end point 1 and remote end point 5; local end point 2 is free. */
  function OneStream(): State {
    State(Connected,
          map[0 := Stream(1, 5, false, false, false, false, false)], 1,
          map[1 := LocalSep(Opened, Some(0), true, false), 2 := LocalSep(Idle, None, false, false)],
          map[5 := Some(0)], [0], None, None, [], [])
  }

  /** The same session with a START outstanding. */
  function StartOutstanding(): State {
    OneStream().(heap := map[0 := Stream(1, 5, false, false, false, true, false)],
        req := Some(Request(Start, Some(0), 5)))
  }

  lemma StartOutstandingShape()
    ensures Shape(StartOutstanding(), None) && Cancels(StartOutstanding(), 0) && Abortable(StartOutstanding())
  {
    var v := StartOutstanding();
    assert forall s :: Owned(v, None, s) <==> s == 0;
    assert 0 in v.streams && v.heap[0].rseid == 5;
  }

  /** The START timed out, `cancel_request` withdrew it, and the application, told about it, aborted the stream. */
  function AbortedOnce(): State {
    var v := StartOutstanding();
    Requested(Flagged(v.(req := None), 0, v.heap[0].(abortInt := true)), Abort, 0, true).0
  }

  /** The same state written out. */
  lemma AbortedOnceIs()
    ensures AbortedOnce() == OneStream().(heap := map[0 := Stream(1, 5, false, false, true, true, false)],
                                          req := Some(Request(Abort, Some(0), 5)))
  {
    var v := StartOutstanding();
    var told := Flagged(v.(req := None), 0, v.heap[0].(abortInt := true));
    assert told.heap == map[0 := Stream(1, 5, false, false, true, true, false)];
    assert Sent(told, Request(Abort, Some(0), 5), true, true) == (told.(req := Some(Request(Abort, Some(0), 5))), true);
  }

  lemma AbortedOnceShape()
    ensures var v := AbortedOnce();
            && Shape(v, None) && Cancels(v, 0) && !Abortable(v)
            && v.req == Some(Request(Abort, Some(0), 5)) && v.prioQueue == [] && v.reqQueue == []
            && v.pendingOpen == None
            && v.streams == [0] && 1 in v.lseps && v.lseps[1].stream == Some(0) && 0 in v.heap && v.heap[0].lsep == 1
  {
    AbortedOnceIs();
    hide AbortedOnce;
    var v := AbortedOnce();
    assert forall s :: Owned(v, None, s) <==> s == 0;
  }

  /** Aborting it again cancels the ABORT, so the session is given up and the stream freed. */
  function AbortedTwice(): State {
    AbortedOnceShape();
    Freed(Detached(AbortedOnce().(req := None), 1), 0).(streams := [], session := Disconnected)
  }

  lemma AbortedTwiceShape()
    ensures Shape(AbortedTwice(), None) && 0 !in AbortedTwice().heap && AbortedTwice().streams == []
  {
    AbortedOnceShape();
    var v := AbortedOnce().(req := None);
    ForgottenKeepsShape(AbortedOnce(), None);
    hide AbortedOnce, Shape, Cancels, Abortable;
    DetachedKeepsShape(v, 1);
    var lost := Detached(v, 1);
    assert lost.streams == [] && !Pends(lost, 0);
    hide Detached, Pends;
    FreedKeepsShape(lost, 0);
    Dropped(Freed(lost, 0));
  }

  /**
   Why a callback may not abort what cannot be aborted: back in the first `cancel_request`, after the application
   aborted the stream twice, the ABORT that follows is queued for a freed stream and breaks the shape.
   */
  lemma AbortedTwiceDangles()
    ensures Shape(StartOutstanding(), None) && Cancels(StartOutstanding(), 0) && Abortable(StartOutstanding())
    ensures Shape(AbortedOnce(), None) && Cancels(AbortedOnce(), 0) && !Abortable(AbortedOnce())
    ensures Shape(AbortedTwice(), None) && 0 !in AbortedTwice().heap
    ensures var late := Sent(AbortedTwice(), Request(Abort, Some(0), 5), true, true);
            late.1 && !Shape(late.0, None)
  {
    StartOutstandingShape();
    AbortedOnceShape();
    AbortedTwiceShape();
    hide Shape, Cancels, Abortable;
    QueuedForFreed(AbortedTwice(), 0, 5, true);
  }

  /** An ABORT sent or queued for a freed stream breaks the shape. */
  lemma QueuedForFreed(v: State, s: StreamId, seid: nat, sendOk: bool)
    requires Shape(v, None) && s !in v.heap
    requires Sent(v, Request(Abort, Some(s), seid), true, sendOk).1
    ensures !Shape(Sent(v, Request(Abort, Some(s), seid), true, sendOk).0, None)
  {
    var q := Request(Abort, Some(s), seid);
    var v' := Sent(v, q, true, sendOk).0;
    assert v'.req == Some(q) || q in v'.prioQueue;
    if Shape(v', None) {
      assert OwnedRef(v', None, q.stream);
      ListedStream(v', None, s);
    }
  }

  /**
   What the peer does first: it connects, and configures a stream with delay reporting between its end point 5 and
   end point 1.
   */
  function PeerConfigures(): seq<Event> {
    [IncomingChannel(true), SignallingUp(true), Command(SetConfigurationCommand(1, 5, true, Accepted), true)]
  }

  /** The state it leads to. */
  function FirstConfigured(): State {
    State(Connected, map[0 := Stream(1, 5, false, false, false, false, true)], 1,
          map[1 := LocalSep(Configured, Some(0), true, false)], map[], [0], None, None, [], [])
  }

  lemma PeerConfiguresSteps()
    ensures var c := Unused(OneSep()).(session := Connecting);
            var v := Dequeued(c.(session := Connected), true);
            var cmd := SetConfigurationCommand(1, 5, true, Accepted);
            v.session == Connected && Plain(v, cmd) && Stepped(v, cmd) == FirstConfigured()
  {
  }

  function OneSep(): map<nat, LocalSep> { map[1 := LocalSep(Idle, None, false, false)] }

  /** From the constructor a run leads to a listed stream. */
  method FirstStream() returns (s: Session)
    ensures s.View() == FirstConfigured() && s.script == [] && Shape(s.View(), None) && fresh(s)
  {
    PeerConfiguresSteps();
    hide Shape, NoSetUp, Plain, Stepped, Dequeued, Severs;
    assert forall l | l in OneSep() :: OneSep()[l] == LocalSep(Idle, None, false, false);
    s := new Session(OneSep(), []);
    var intact := s.Dispatch(PeerConfigures()[0]);
    intact := s.Dispatch(PeerConfigures()[1]);
    intact := s.Dispatch(PeerConfigures()[2]);
  }

  lemma ReportThenOpenSteps()
    ensures var v := Requested(FirstConfigured(), DelayReport, 0, true).0;
            && v.session == Connected && Plain(v, OpenCommand(1, true))
            && var w := Stepped(v, OpenCommand(1, true));
               w.pendingOpen == Some(0) && Severs(w.(pendingOpen := None), 0)
  {
    var v := Requested(FirstConfigured(), DelayReport, 0, true).0;
    assert v.heap == FirstConfigured().heap && v.req == Some(Request(DelayReport, Some(0), 5));
    var w := Stepped(v, OpenCommand(1, true)).(pendingOpen := None);
    assert 0 in w.streams && w.heap[0].rseid == 5;
  }

  /**
   From there the application reports its delay and the peer asks to open the transport. When that fails while the
   signalling channel takes no ABORT either, the stream is freed while the caller still holds it.
   */
  method StaleTransport() returns (s: Session, stale: bool)
    ensures stale && 0 !in s.heap
  {
    ReportThenOpenSteps();
    hide Shape, NoSetUp, Plain, Stepped, Requested, Severs, FirstConfigured, Quiet, IsReport;
    s := FirstStream();
    var intact := s.Dispatch(AppRequest(DelayReport, 0, true));
    intact := s.Dispatch(Command(OpenCommand(1, true), true));
    var r;
    r, stale := s.TransportFailed(false);
  }

  lemma SetUpListed(v: State, l: nat, rseid: nat, delay: bool)
    requires v.session == Connected && rseid in v.rseps && l in v.lseps
    ensures var v' := SetUp(v, l, rseid, delay, true).0;
            v'.streams == v.streams + [v.nextId] && l in v'.lseps && v'.lseps[l].stream == Some(v.nextId)
  {
  }

  lemma DiscoverSteps()
    ensures var v := Sent(Unused(OneSep()), Request(Discover, None, 0), false, true).0;
            var w := Dequeued(v.(session := Connected), true);
            v.session == Connecting && Discovers(w, AcceptAnswer) && w.lseps == OneSep() && w.streams == []
  {
    var v := Sent(Unused(OneSep()), Request(Discover, None, 0), false, true).0;
    assert v.reqQueue == [Request(Discover, None, 0)];
  }

  /** The other way round: the application sends DISCOVER, which connects. */
  method DiscoverySent() returns (s: Session)
    ensures Shape(s.View(), None) && Discovers(s.View(), AcceptAnswer) && s.lseps == OneSep() && s.streams == []
    ensures s.script == [] && fresh(s)
  {
    hide Shape, NoSetUp, Sent, Dequeued, Discovers, Severs;
    DiscoverSteps();
    assert forall l | l in OneSep() :: OneSep()[l] == LocalSep(Idle, None, false, false);
    s := new Session(OneSep(), []);
    var intact := s.Dispatch(AppDiscover(true));
    intact := s.Dispatch(SignallingUp(true));
  }

  /** The answer makes the peer's end point 5 known. */
  method DiscoveredPeer() returns (s: Session)
    ensures Shape(s.View(), None) && s.session == Connected && s.lseps == OneSep() && s.streams == [] && 5 in s.rseps
    ensures fresh(s)
  {
    assert NoSetUp([]);
    hide Shape, NoSetUp, Discovers, Severs, Handled;
    s := DiscoverySent();
    var found := [(5, false)];
    var intact := s.Dispatch(Answer(AcceptAnswer, true, true, found, true));
    assert !found[0].1;
  }

  /** And sets up a stream. */
  method DiscoveredStream() returns (s: Session)
    ensures |s.streams| == 1 && 1 in s.lseps && s.lseps[1].stream == Some(s.streams[0]) && Shape(s.View(), None)
  {
    hide Shape, NoSetUp, SetUp, Severs;
    s := DiscoveredPeer();
    SetUpListed(s.View(), 1, 5, false);
    var intact := s.Dispatch(AppSetUp(1, 5, false, true));
  }
}
