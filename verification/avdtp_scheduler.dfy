/**
 Scheduling of AVDTP requests (`audio/avdtp.c`): one request out at a time, two queues
 behind it, and 4-bit transaction labels that tell its answer from older ones.
 */
module AvdtpScheduler {
  import opened Bytes
  import opened AvdtpSession

  const LABELS: nat := 16

  /** `struct pending_req`; `id` tells requests apart. */
  datatype Request = Request(id: nat, signal: byte, transaction: nat)

  /** A use of the label counter, which all sessions share; `id` is the request of ours it was for. */
  datatype Use = Ours(id: nat) | Foreign

  /** Where a request that is sent comes from. */
  datatype Origin = Direct | PriorityQueue | OtherQueue

  /** A request put on the channel, with what held at that moment. */
  datatype Send = Send(id: nat, origin: Origin, connected: bool, idle: bool, priorityWaits: bool)

  /** Sent only when connected with no request out, and from the second queue only when the priority queue is empty. */
  ghost predicate SendOk(s: Send) {
    s.connected && s.idle && (s.origin == OtherQueue ==> !s.priorityWaits)
  }

  /** Our uses of the counter, in order. */
  function Own(uses: seq<Use>): seq<nat> {
    if uses == [] then []
    else Own(uses[..|uses| - 1]) + match uses[|uses| - 1] case Ours(id) => [id] case Foreign => []
  }

  ghost predicate SendsOk(sends: seq<Send>, uses: seq<Use>) {
    && (forall i | 0 <= i < |sends| :: SendOk(sends[i]))
    && Own(uses) == seq(|sends|, i requires 0 <= i < |sends| => sends[i].id)
  }

  /** The requests put on the channel that come from one place, in order. */
  function From(sends: seq<Send>, origin: Origin): seq<nat> {
    if sends == [] then []
    else
      var s := sends[|sends| - 1];
      From(sends[..|sends| - 1], origin) + if s.origin == origin then [s.id] else []
  }

  lemma FromSnoc(sends: seq<Send>, s: Send, origin: Origin)
    ensures From(sends + [s], origin) == From(sends, origin) + if s.origin == origin then [s.id] else []
  {
    assert (sends + [s])[..|sends|] == sends;
  }

  lemma SendsSnoc(sends: seq<Send>, uses: seq<Use>, s: Send)
    requires SendsOk(sends, uses) && SendOk(s)
    ensures SendsOk(sends + [s], uses + [Ours(s.id)])
  {
    assert (uses + [Ours(s.id)])[..|uses|] == uses;
  }

  lemma SendsForeign(sends: seq<Send>, uses: seq<Use>)
    requires SendsOk(sends, uses)
    ensures SendsOk(sends, uses + [Foreign])
  {
    assert (uses + [Foreign])[..|uses|] == uses;
  }

  lemma {:induction false} OwnForeign(n: nat)
    ensures Own(seq(n, _ => Foreign)) == []
  {
    if n > 0 {
      OwnForeign(n - 1);
      assert seq(n, _ => Foreign)[..n - 1] == seq(n - 1, _ => Foreign);
    }
  }

  /** A call of `send_request`, with what the channel does if it is reached. */
  datatype Submission = Submission(id: nat, signal: byte, priority: bool, connectOk: bool, sendOk: bool)

  datatype Event =
    | Submit(s: Submission)
    | ConnectDone(ok: bool, sendOk: bool)
    | Reply(transaction: nat, signal: byte, parseOk: bool, during: seq<Submission>, sendOk: bool)
    | Timeout(during: seq<Submission>, abort: Option<Submission>)
    | Lost
    | OtherSession

  /** The requests that calls with a request out add to a queue. */
  function Queued(during: seq<Submission>, priority: bool): seq<Request> {
    if during == [] then []
    else
      var s := during[|during| - 1];
      Queued(during[..|during| - 1], priority) + if s.priority == priority then [Request(s.id, s.signal, 0)] else []
  }

  ghost predicate Fifo(entered: seq<nat>, left: seq<nat>, queue: seq<Request>) {
    && |entered| == |left| + |queue|
    && (forall i | 0 <= i < |left| :: left[i] == entered[i])
    && (forall i | 0 <= i < |queue| :: queue[i].id == entered[|left| + i])
  }

  lemma FifoEnter(entered: seq<nat>, left: seq<nat>, queue: seq<Request>, r: Request)
    requires Fifo(entered, left, queue)
    ensures Fifo(entered + [r.id], left, queue + [r])
  {
  }

  lemma FifoLeave(entered: seq<nat>, left: seq<nat>, queue: seq<Request>)
    requires Fifo(entered, left, queue) && queue != []
    ensures Fifo(entered, left + [queue[0].id], queue[1..])
  {
  }

  /** Request `id` was put on the channel. */
  ghost predicate Used(id: nat, sends: seq<Send>) {
    exists i | 0 <= i < |sends| :: sends[i].id == id
  }

  ghost predicate Waits(id: nat, queue: seq<Request>) {
    exists i | 0 <= i < |queue| :: queue[i].id == id
  }

  lemma {:induction false} FromUsed(sends: seq<Send>, origin: Origin, id: nat)
    requires id in From(sends, origin)
    ensures Used(id, sends)
  {
    var n := |sends| - 1;
    if id in From(sends[..n], origin) {
      FromUsed(sends[..n], origin, id);
      var i :| 0 <= i < n && sends[..n][i].id == id;
      assert sends[i].id == id;
    } else {
      assert sends[n].id == id;
    }
  }

  lemma EnteredGoes(entered: seq<nat>, left: seq<nat>, queue: seq<Request>, id: nat)
    requires Fifo(entered, left, queue) && id in entered
    ensures id in left || Waits(id, queue)
  {
    var i :| 0 <= i < |entered| && entered[i] == id;
    if i < |left| { assert left[i] == id; } else { assert queue[i - |left|].id == id; }
  }

  lemma FifoPrefix(entered: seq<nat>, left: seq<nat>, queue: seq<Request>)
    requires Fifo(entered, left, queue)
    ensures left <= entered
  {
  }

  /** Labels of two uses less than 16 apart differ. */
  lemma LabelsDiffer(i: nat, j: nat)
    requires i < j < i + LABELS
    ensures i % LABELS != j % LABELS
  {
  }

  /** A session at one moment. */
  datatype Moment = Moment(
    state: SessionState, req: Option<Request>, prioQueue: seq<Request>, reqQueue: seq<Request>,
    uses: seq<Use>, current: nat, accepted: seq<nat>, over: bool)

  /** The request that is sent next, if any. */
  function NextUse(v: Moment): seq<Use> {
    if v.prioQueue != [] then [Ours(v.prioQueue[0].id)] else if v.reqQueue != [] then [Ours(v.reqQueue[0].id)] else []
  }

  /** What an event leads to. */
  ghost predicate Handled(v: Moment, e: Event, w: Moment) {
    match e
    case Submit(s) =>
      && !w.over && (s.connectOk && s.sendOk ==> w.accepted == v.accepted + [s.id])
      && (v.state == Connected && v.req.None? && s.sendOk ==> w.req.Some? && w.req.value.id == s.id)
    case ConnectDone(ok, _) =>
      if v.state != Connecting then w == v
      else if ok then w.state == Connected && !w.over && w.uses == v.uses + NextUse(v)
      else w.over
    case Reply(transaction, signal, parseOk, during, _) =>
      if !(v.req.Some? && v.req.value.transaction == transaction && v.req.value.signal == signal) then w == v
      else if !parseOk then w.over
      else !w.over && (w.req.Some? ==> w.current >= |v.uses|) && (during == [] ==> w.uses == v.uses + NextUse(v))
    case Timeout(_, abort) =>
      if v.req.None? then w == v else w.over || (abort.Some? && abort.value.id in w.accepted)
    case Lost => w.over
    case OtherSession => w == v.(uses := v.uses + [Foreign])
  }

  lemma LabelNext(uses: seq<Use>, u: Use, transaction: nat)
    requires transaction == |uses| % LABELS
    ensures (transaction + 1) % LABELS == |uses + [u]| % LABELS
    ensures (uses + [u])[|uses|] == u && forall i | 0 <= i < |uses| :: (uses + [u])[i] == uses[i]
  {
  }

  class Session {
    var state: SessionState
    var req: Option<Request>
    var prioQueue: seq<Request>
    var reqQueue: seq<Request>
    var transaction: nat          // the counter shared by all sessions
    ghost var uses: seq<Use>      // its uses so far
    ghost var current: nat        // the use that labelled `req`
    ghost var sends: seq<Send>    // what was put on the channel
    ghost var prioIn: seq<nat>
    ghost var prioOut: seq<nat>
    ghost var reqIn: seq<nat>
    ghost var reqOut: seq<nat>
    ghost var accepted: seq<nat>  // requests that `send_request` took
    var over: bool                // the connection was lost and with it the session
    ghost var stalled: bool       // sending a queued request has failed

    ghost function View(): Moment
      reads this
    {
      Moment(state, req, prioQueue, reqQueue, uses, current, accepted, over)
    }

    /** The label of the request that is out is that of its own use of the counter. */
    ghost predicate LabelOk()
      reads this
    {
      && transaction == |uses| % LABELS
      && (req.Some? && !over ==>
            && state == Connected && current < |uses|
            && uses[current] == Ours(req.value.id) && req.value.transaction == current % LABELS)
    }

    ghost predicate QueuesOk()
      reads this
    {
      Fifo(prioIn, prioOut, prioQueue) && Fifo(reqIn, reqOut, reqQueue)
    }

    /** What was sent from a queue is what left it, in order. */
    ghost predicate OriginsOk()
      reads this
    {
      From(sends, PriorityQueue) == prioOut && From(sends, OtherQueue) == reqOut
    }

    /** Every request taken was put on the channel at once or entered a queue. */
    ghost predicate AcceptedOk()
      reads this
    {
      forall id | id in accepted :: id in From(sends, Direct) || id in prioIn || id in reqIn
    }

    /**
     Nothing waits in a queue of a connected session with no request out, unless a queued request could not be sent.
     */
    ghost predicate Working()
      reads this
    {
      state == Connected && req.None? && !stalled ==> prioQueue == [] && reqQueue == []
    }

    /** What holds even while callbacks run. */
    ghost predicate Base()
      reads this
    {
      && LabelOk() && QueuesOk() && SendsOk(sends, uses) && OriginsOk() && AcceptedOk()
      && (state == Disconnected && !over ==> prioQueue == [] && reqQueue == [])
    }

    ghost predicate Valid()
      reads this
    {
      Base() && Working()
    }

    /** The records only grow. */
    twostate predicate Grows()
      reads this
    {
      && old(uses) <= uses && old(sends) <= sends
      && old(prioIn) <= prioIn && old(prioOut) <= prioOut && old(reqIn) <= reqIn && old(reqOut) <= reqOut
      && old(accepted) <= accepted
    }

    constructor (used: nat)
      ensures Valid() && |uses| == used && req.None? && state == Disconnected && !over
    {
      state, req, prioQueue, reqQueue := Disconnected, None, [], [];
      transaction := used % LABELS;
      uses := seq(used, _ => Foreign);
      sends, accepted := [], [];
      OwnForeign(used);
      current, prioIn, prioOut, reqIn, reqOut, stalled, over := 0, [], [], [], [], false, false;
    }

    /** A request that was taken is on the channel or waits. */
    lemma AcceptedGoes(id: nat)
      requires Base() && id in accepted
      ensures Used(id, sends) || Waits(id, prioQueue) || Waits(id, reqQueue)
    {
      if id in From(sends, Direct) {
        FromUsed(sends, Direct, id);
      } else if id in prioIn {
        EnteredGoes(prioIn, prioOut, prioQueue, id);
        if id in prioOut { FromUsed(sends, PriorityQueue, id); }
      } else {
        EnteredGoes(reqIn, reqOut, reqQueue, id);
        if id in reqOut { FromUsed(sends, OtherQueue, id); }
      }
    }

    /** `queue_request`. */
    method QueueRequest(r: Request, priority: bool)
      requires Base() && !over && state != Disconnected && (state == Connected ==> req.Some?)
      modifies this`prioQueue, this`reqQueue, this`prioIn, this`reqIn
      ensures Valid() && Grows()
      ensures if priority then prioQueue == old(prioQueue) + [r] && reqQueue == old(reqQueue) && r.id in prioIn
              else reqQueue == old(reqQueue) + [r] && prioQueue == old(prioQueue) && r.id in reqIn
    {
      hide SendsOk, From, Fifo;
      if priority {
        FifoEnter(prioIn, prioOut, prioQueue, r);
        prioQueue, prioIn := prioQueue + [r], prioIn + [r.id];
      } else {
        FifoEnter(reqIn, reqOut, reqQueue, r);
        reqQueue, reqIn := reqQueue + [r], reqIn + [r.id];
      }
    }

    /** The part of `send_req` that puts a request on the channel of a connected session. */
    method Transmit(id: nat, signal: byte, sendOk: bool, ghost origin: Origin)
      requires LabelOk() && SendsOk(sends, uses)
      requires !over && state == Connected && req.None? && (origin == OtherQueue ==> prioQueue == [])
      modifies this`req, this`transaction, this`uses, this`current, this`sends
      ensures LabelOk() && SendsOk(sends, uses) && Grows()
      ensures From(sends, PriorityQueue)
                == old(From(sends, PriorityQueue)) + (if origin == PriorityQueue then [id] else [])
      ensures From(sends, OtherQueue) == old(From(sends, OtherQueue)) + (if origin == OtherQueue then [id] else [])
      ensures From(sends, Direct) == old(From(sends, Direct)) + (if origin == Direct then [id] else [])
      ensures uses == old(uses) + [Ours(id)]
      ensures sends == old(sends) + [Send(id, origin, state == Connected, old(req.None?), prioQueue != [])]
      ensures if sendOk then req == Some(Request(id, signal, old(transaction))) && current == |old(uses)| else req.None?
    {
      hide SendsOk, From;
      var tag := transaction;
      LabelNext(uses, Ours(id), transaction);
      transaction := (transaction + 1) % LABELS;
      Record(id, origin);
      if sendOk {
        req, current := Some(Request(id, signal, tag)), |uses| - 1;
      }
    }

    /** The use of the counter and what is put on the channel are recorded. */
    ghost method Record(id: nat, origin: Origin)
      requires SendsOk(sends, uses) && state == Connected && req.None? && (origin == OtherQueue ==> prioQueue == [])
      modifies this`uses, this`sends
      ensures SendsOk(sends, uses) && uses == old(uses) + [Ours(id)]
      ensures sends == old(sends) + [Send(id, origin, state == Connected, req.None?, prioQueue != [])]
      ensures From(sends, PriorityQueue)
                == old(From(sends, PriorityQueue)) + (if origin == PriorityQueue then [id] else [])
      ensures From(sends, OtherQueue) == old(From(sends, OtherQueue)) + (if origin == OtherQueue then [id] else [])
      ensures From(sends, Direct) == old(From(sends, Direct)) + (if origin == Direct then [id] else [])
    {
      hide SendsOk, From;
      var s := Send(id, origin, state == Connected, req.None?, prioQueue != []);
      SendsSnoc(sends, uses, s);
      FromSnoc(sends, s, PriorityQueue);
      FromSnoc(sends, s, OtherQueue);
      FromSnoc(sends, s, Direct);
      uses, sends := uses + [Ours(id)], sends + [s];
    }

    /** `send_req`: a request is sent at once only on a connected session with none out. */
    method SendReq(s: Submission) returns (ok: bool)
      requires Base() && !over
      modifies this
      ensures !over
      ensures Base() && Grows() && stalled == old(stalled) && prioOut == old(prioOut) && reqOut == old(reqOut)
      ensures old(Working()) || req.Some? ==> Working()
      ensures ok == if old(state) == Disconnected then s.connectOk
                    else if old(state) == Connected && old(req.None?) then s.sendOk else true
      ensures uses != old(uses) ==> old(state) == Connected && old(req.None?) && uses == old(uses) + [Ours(s.id)]
      ensures old(state) == Connected && old(req.Some?) ==>
                && state == Connected && req == old(req) && current == old(current)
                && prioQueue == old(prioQueue) + (if s.priority then [Request(s.id, s.signal, 0)] else [])
                && reqQueue == old(reqQueue) + (if s.priority then [] else [Request(s.id, s.signal, 0)])
      ensures old(state) == Connected ==> state == Connected
      ensures old(state) == Connected && old(req.None?) ==>
                && prioQueue == old(prioQueue) && reqQueue == old(reqQueue)
                && req == if s.sendOk then Some(Request(s.id, s.signal, old(transaction))) else None
      ensures old(state) != Connected ==>
                && req == old(req) && uses == old(uses) && state == (if ok then Connecting else Disconnected)
                && prioQueue == old(prioQueue) + (if ok && s.priority then [Request(s.id, s.signal, 0)] else [])
                && reqQueue == old(reqQueue) + (if ok && !s.priority then [Request(s.id, s.signal, 0)] else [])
      ensures accepted == old(accepted) + if ok then [s.id] else []
    {
      hide SendsOk, From, Fifo;
      if state == Disconnected {
        if !s.connectOk { return false; }
        state := Connecting;
      }
      if state != Connected || req.Some? {
        QueueRequest(Request(s.id, s.signal, 0), s.priority);
        accepted := accepted + [s.id];
        return true;
      }
      Transmit(s.id, s.signal, s.sendOk, Direct);
      ok := s.sendOk;
      if ok { accepted := accepted + [s.id]; }
    }

    /** `process_queue`: the first of the priority queue, or of the other when that is empty. */
    method ProcessQueue(sendOk: bool)
      requires Base() && !over && state == Connected
      modifies this
      ensures Valid() && Grows() && state == Connected && !over
      ensures old(req.None?) && req.Some? ==> current == |old(uses)|
      ensures old(req.Some?) || (old(prioQueue) == [] && old(reqQueue) == []) ==>
                req == old(req) && uses == old(uses) && prioQueue == old(prioQueue) && reqQueue == old(reqQueue)
                && prioOut == old(prioOut) && reqOut == old(reqOut)
      ensures old(req.None?) && old(prioQueue) != [] ==>
                && prioQueue == old(prioQueue)[1..] && reqQueue == old(reqQueue) && reqOut == old(reqOut)
                && uses == old(uses) + [Ours(old(prioQueue)[0].id)] && prioOut == old(prioOut) + [old(prioQueue)[0].id]
      ensures old(req.None?) && old(prioQueue) == [] && old(reqQueue) != [] ==>
                && reqQueue == old(reqQueue)[1..] && prioQueue == [] && prioOut == old(prioOut)
                && uses == old(uses) + [Ours(old(reqQueue)[0].id)] && reqOut == old(reqOut) + [old(reqQueue)[0].id]
      ensures stalled == (old(stalled) || (old(req.None?) && (old(prioQueue) != [] || old(reqQueue) != []) && !sendOk))
    {
      hide SendsOk, From, Fifo;
      if req.Some? || (prioQueue == [] && reqQueue == []) { return; }
      var priority := prioQueue != [];
      var r := TakeFirst(priority);
      if !sendOk { stalled := true; }
      Transmit(r.id, r.signal, sendOk, if priority then PriorityQueue else OtherQueue);
    }

    /** The first request of a queue leaves it. */
    method TakeFirst(priority: bool) returns (r: Request)
      requires QueuesOk() && (if priority then prioQueue != [] else reqQueue != [])
      modifies this`prioQueue, this`prioOut, this`reqQueue, this`reqOut
      ensures QueuesOk()
      ensures if priority then
                && r == old(prioQueue)[0] && prioQueue == old(prioQueue)[1..] && prioOut == old(prioOut) + [r.id]
                && reqQueue == old(reqQueue) && reqOut == old(reqOut)
              else
                && r == old(reqQueue)[0] && reqQueue == old(reqQueue)[1..] && reqOut == old(reqOut) + [r.id]
                && prioQueue == old(prioQueue) && prioOut == old(prioOut)
    {
      if priority {
        r := prioQueue[0];
        FifoLeave(prioIn, prioOut, prioQueue);
        hide Fifo;
        prioQueue, prioOut := prioQueue[1..], prioOut + [r.id];
      } else {
        r := reqQueue[0];
        FifoLeave(reqIn, reqOut, reqQueue);
        hide Fifo;
        reqQueue, reqOut := reqQueue[1..], reqOut + [r.id];
      }
    }

    /** Calls of `send_request` made by callbacks. */
    method SubmitAll(during: seq<Submission>)
      requires Base() && !over
      modifies this
      ensures !over
      ensures Base() && Grows() && stalled == old(stalled) && prioOut == old(prioOut) && reqOut == old(reqOut)
      ensures old(Working()) || req.Some? ==> Working()
      ensures old(state) == Connected ==> state == Connected
      ensures during == [] ==> unchanged(this)
      ensures old(state) == Connected && old(req.Some?) ==>
                && req == old(req) && current == old(current) && uses == old(uses)
                && prioQueue == old(prioQueue) + Queued(during, true)
                && reqQueue == old(reqQueue) + Queued(during, false)
    {
      ghost var p, q := prioQueue, reqQueue;
      assert during[..|during|] == during;
      for i := 0 to |during|
        invariant !over
        invariant Base() && Grows() && stalled == old(stalled) && prioOut == old(prioOut) && reqOut == old(reqOut)
        invariant old(Working()) || req.Some? ==> Working()
        invariant old(state) == Connected ==> state == Connected
        invariant i == 0 ==> unchanged(this)
        invariant old(state) == Connected && old(req.Some?) ==>
                    && req == old(req) && current == old(current) && uses == old(uses)
                    && prioQueue == p + Queued(during[..i], true) && reqQueue == q + Queued(during[..i], false)
      {
        assert during[..i + 1][..i] == during[..i];
        var _ := SendReq(during[i]);
      }
    }

    /** `connection_lost`: the session is over, with whatever still waits in its queues. */
    method ConnectionLost()
      requires Base()
      modifies this`state, this`over
      ensures Valid() && Grows() && state == Disconnected && over
    {
      state, over := Disconnected, true;
    }

    /** `avdtp_connect_cb` for the signalling channel. */
    method ConnectCb(ok: bool, sendOk: bool)
      requires Valid() && !over && state == Connecting
      modifies this
      ensures Valid() && Grows() && over == !ok && (ok ==> state == Connected)
      ensures ok ==> uses == old(uses) + (if old(prioQueue) != [] then [Ours(old(prioQueue)[0].id)]
                                          else if old(reqQueue) != [] then [Ours(old(reqQueue)[0].id)] else [])
    {
      if !ok {
        ConnectionLost();
        return;
      }
      state := Connected;
      ProcessQueue(sendOk);
    }

    /** A reply is for the request that is out: same label, same signal. */
    predicate Matches(transaction: nat, signal: byte)
      reads this
    {
      req.Some? && req.value.transaction == transaction && req.value.signal == signal
    }

    /**
     The answer part of `session_cb`: a reply that does not match is ignored, one that does frees the request and
     sends the next.
     */
    method HandleReply(e: Event)
      requires e.Reply? && Valid() && !over
      modifies this
      ensures Valid() && Grows()
      ensures !old(Matches(e.transaction, e.signal)) ==> View() == old(View())
      ensures old(Matches(e.transaction, e.signal)) && e.parseOk ==> !over
      ensures old(Matches(e.transaction, e.signal)) && e.parseOk ==>
                var p, q := old(prioQueue) + Queued(e.during, true), old(reqQueue) + Queued(e.during, false);
                uses == old(uses) + (if p != [] then [Ours(p[0].id)] else if q != [] then [Ours(q[0].id)] else [])
      ensures old(Matches(e.transaction, e.signal)) && !e.parseOk ==> over
      ensures old(Matches(e.transaction, e.signal)) && e.parseOk && req.Some? ==> current >= |old(uses)|
    {
      hide SendsOk, From, Fifo, Queued;
      if req.None? { return; }
      if e.transaction != req.value.transaction { return; }
      if e.signal != req.value.signal { return; }
      SubmitAll(e.during);
      if !e.parseOk {
        ConnectionLost();
        return;
      }
      req := None;
      ProcessQueue(e.sendOk);
    }

    /**
     `cancel_request` on a timeout: the request out is given up and an ABORT sent ahead of the queues, or the
     session is lost.
     */
    method CancelRequest(e: Event)
      requires e.Timeout? && Valid() && !over && req.Some?
      modifies this
      ensures Valid() && Grows() && (over || req.Some?)
      ensures e.abort.None? ==> over
      ensures !over ==> e.abort.Some? && e.abort.value.id in accepted
      ensures e.during == [] && e.abort.Some? ==>
                if e.abort.value.sendOk then
                  && req == Some(Request(e.abort.value.id, e.abort.value.signal, old(transaction)))
                  && prioQueue == old(prioQueue) && reqQueue == old(reqQueue)
                else over
    {
      req := None;
      SubmitAll(e.during);
      if e.abort.None? {
        ConnectionLost();
        return;
      }
      var ok := SendReq(e.abort.value);
      if !ok { ConnectionLost(); }
    }

    method Handle(e: Event)
      requires Valid() && !over
      modifies this
      ensures Valid() && Grows()
      ensures Handled(old(View()), e, View())
    {
      hide SendsOk, From, Fifo;
      match e
      case Submit(s) => var _ := SendReq(s);
      case ConnectDone(ok, sendOk) => if state == Connecting { ConnectCb(ok, sendOk); }
      case Reply(_, _, _, _, _) => HandleReply(e);
      case Timeout(_, _) => if req.Some? { CancelRequest(e); }
      case Lost => ConnectionLost();
      case OtherSession => OtherUse();
    }

    /** Another session uses the counter. */
    method OtherUse()
      requires Valid() && !over
      modifies this`uses, this`transaction
      ensures Valid() && Grows() && uses == old(uses) + [Foreign]
    {
      hide SendsOk, From, Fifo;
      SendsForeign(sends, uses);
      LabelNext(uses, Foreign, transaction);
      uses := uses + [Foreign];
      transaction := (transaction + 1) % LABELS;
    }

    /**
     Any run, up to the end of the session: requests are sent only when connected with none out, priority first,
     both queues are first in, first out, what is sent from a queue is what entered it, in that order, the request
     out carries its own label, and no queue waits for nothing.
     */
    method Run(events: seq<Event>) returns (done: nat, ghost moments: seq<Moment>)
      requires Valid() && !over
      modifies this
      ensures Valid() && Grows() && done <= |events| && (done < |events| ==> over)
      ensures forall i | 0 <= i < |sends| :: SendOk(sends[i])
      ensures From(sends, PriorityQueue) <= prioIn && From(sends, OtherQueue) <= reqIn
      ensures forall id | id in accepted :: Used(id, sends) || Waits(id, prioQueue) || Waits(id, reqQueue)
      ensures |moments| == done + 1 && moments[0] == old(View()) && moments[done] == View()
      ensures forall i {:trigger events[i]} | 0 <= i < done :: Handled(moments[i], events[i], moments[i + 1])
    {
      hide Handled;
      done, moments := 0, [View()];
      while done < |events| && !over
        invariant Valid() && Grows() && done <= |events|
        invariant |moments| == done + 1 && moments[0] == old(View()) && moments[done] == View()
        invariant forall i {:trigger events[i]} | 0 <= i < done :: Handled(moments[i], events[i], moments[i + 1])
      {
        Handle(events[done]);
        moments := moments + [View()];
        done := done + 1;
      }
      FifoPrefix(prioIn, prioOut, prioQueue);
      FifoPrefix(reqIn, reqOut, reqQueue);
      forall id | id in accepted ensures Used(id, sends) || Waits(id, prioQueue) || Waits(id, reqQueue) {
        AcceptedGoes(id);
      }
    }
  }

  /** A late reply to any of the 15 uses of the counter before the request that is out does not match it. */
  lemma LateReplyIgnored(s: Session, i: nat, signal: byte)
    requires s.Valid() && !s.over && s.req.Some? && i < s.current < i + LABELS
    ensures !s.Matches(i % LABELS, signal)
  {
    LabelsDiffer(i, s.current);
  }

  /** Sixteen uses later the label is the same again: only the signal then tells a reply apart. */
  lemma LabelsRepeat(s: Session, i: nat, signal: byte)
    requires s.Valid() && !s.over && s.req.Some? && s.current == i + LABELS
    ensures s.Matches(i % LABELS, signal) <==> s.req.value.signal == signal
  {
  }
}
