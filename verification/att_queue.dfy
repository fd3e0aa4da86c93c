/**
 The ATT command queue (`attrib/gattrib.c`) with the long reads that `attrib/gatt.c`
 chains through it: sequential request and response, wake-ups, order and disposal.
 */
module AttQueue {
  import opened Bytes

  const OP_ERROR: byte := 0x01
  const OP_READ_REQ: byte := 0x0A
  const OP_READ_BLOB_REQ: byte := 0x0C
  const ECODE_AUTHENTICATION: byte := 0x05
  const ECODE_INSUFF_ENC: byte := 0x0F
  const ECODE_IO: byte := 0xFF

  /** `opcode2expected`: the response opcode of a request, 0 for what is not answered. */
  function Expected(op: byte): byte {
    if op in {0x02, 0x04, 0x06, 0x08, 0x0A, 0x0C, 0x0E, 0x10, 0x12, 0x16, 0x18} then op + 1
    else if op == 0x1D then 0x1E
    else 0
  }

  /** `is_response`. */
  predicate IsResponse(op: byte) {
    op in {0x01, 0x03, 0x05, 0x07, 0x09, 0x0B, 0x0D, 0x0F, 0x11, 0x13, 0x17, 0x19, 0x1E}
  }

  /** The status a result callback gets for a response with opcode `op`. */
  function Status(op: byte, ecode: byte, expected: byte): byte {
    if op == OP_ERROR then ecode else if op != expected then ECODE_IO else 0
  }

  /** A queued command. `serial` is its allocation, `chain` the long read it belongs to. */
  datatype Command = Command(serial: nat, id: nat, expected: byte, sent: bool, func: bool, chain: Option<nat>)

  type Queue = seq<Command>

  /** A first transmission: the identifier of the command and the long read it is for. */
  datatype Sending = Sending(id: nat, chain: Option<nat>)

  datatype State = State(
    queue: Queue, writeWatch: bool, nextCmdId: nat,
    issued: nat,                    // commands allocated so far
    transmitted: seq<Sending>,      // first transmissions
    called: seq<nat>,               // serials whose result callback ran
    withdrawn: set<nat>,            // serials cancelled or torn down
    destroyed: seq<nat>,            // serials destroyed
    refs: map<nat, nat>,            // reference count of each long read not freed
    nextRead: nat,
    freed: seq<nat>,                // long reads freed
    finished: seq<nat>,             // long reads whose user callback ran
    interrupted: set<nat>,          // long reads with a command cancelled or torn down
    answered: set<nat>,             // serials that a response was for
    wanted: set<nat>)               // serials submitted with a callback

  const FRESH: State := State([], false, 0, 0, [], [], {}, [], map[], 0, [], [], {}, {}, {})

  // ------------------------------------------------------------- the invariant

  ghost predicate OnlyHeadSent(q: Queue) {
    forall i | 0 < i < |q| :: !q[i].sent
  }

  ghost predicate SortedIds(q: Queue) {
    forall i, j | 0 <= i < j < |q| :: q[i].id < q[j].id
  }

  ghost predicate DistinctSerials(q: Queue) {
    forall i, j | 0 <= i < j < |q| :: q[i].serial != q[j].serial
  }

  ghost predicate EntriesOk(q: Queue, nextCmdId: nat, issued: nat) {
    forall i | 0 <= i < |q| ::
      1 <= q[i].id <= nextCmdId && q[i].serial < issued && (q[i].chain.Some? ==> q[i].expected != 0)
  }

  /** Only the head of the queue may be marked sent; identifiers increase along it. */
  ghost predicate QueueOk(q: Queue, nextCmdId: nat, issued: nat) {
    OnlyHeadSent(q) && SortedIds(q) && DistinctSerials(q) && EntriesOk(q, nextCmdId, issued)
  }

  /** No lost wake-up: what waits at the head was sent, is about to be written, or will be woken (`pending`). */
  predicate Awake(q: Queue, writeWatch: bool, pending: bool) {
    q != [] ==> q[0].sent || writeWatch || pending
  }

  /** One transmission may follow another: later submission, or the same long read going on. */
  predicate Follows(a: Sending, b: Sending) {
    a.id < b.id || (a == b && a.chain.Some?)
  }

  /** Submission order, with the requests of a long read next to each other. */
  ghost predicate Ordered(s: seq<Sending>) {
    forall i, j | 0 <= i < j < |s| :: Follows(s[i], s[j])
  }

  ghost predicate AllBefore(s: seq<Sending>, c: Command) {
    forall i | 0 <= i < |s| :: Follows(s[i], Sending(c.id, c.chain)) || (c.sent && s[i] == Sending(c.id, c.chain))
  }

  ghost predicate AllAtMost(s: seq<Sending>, n: nat) {
    forall i | 0 <= i < |s| :: s[i].id <= n
  }

  ghost predicate OrderOk(transmitted: seq<Sending>, q: Queue, nextCmdId: nat) {
    && Ordered(transmitted)
    && AllAtMost(transmitted, nextCmdId)
    && (forall i | 0 <= i < |q| :: AllBefore(transmitted, q[i]))
  }

  ghost predicate Distinct(s: seq<nat>) {
    forall i, j | 0 <= i < j < |s| :: s[i] != s[j]
  }

  predicate IsHand(hand: Option<Command>, n: nat) {
    hand.Some? && hand.value.serial == n
  }

  /** The serials of a queue. */
  function Serials(q: Queue): (r: set<nat>)
    ensures forall i | 0 <= i < |q| :: q[i].serial in r
    ensures forall n | n in r :: exists i | 0 <= i < |q| :: q[i].serial == n
  {
    set i | 0 <= i < |q| :: q[i].serial
  }

  /** Every command is queued, in hand or destroyed, and never two of these. */
  ghost predicate DisposalOk(destroyed: seq<nat>, queued: set<nat>, issued: nat, hand: Option<Command>) {
    && Distinct(destroyed)
    && (forall n | n in destroyed :: n < issued && n !in queued && !IsHand(hand, n))
    && (forall n | 0 <= n < issued :: n in destroyed || n in queued || IsHand(hand, n))
    && (hand.Some? ==> hand.value.serial < issued && hand.value.serial !in queued)
  }

  /** A result callback runs at most once, and never for a withdrawn command. */
  ghost predicate CallsOk(called: seq<nat>, withdrawn: set<nat>, q: Queue, issued: nat) {
    && Distinct(called)
    && (forall n | n in called :: n < issued && n !in withdrawn)
    && (forall n | n in withdrawn :: n < issued)
    && (forall i | 0 <= i < |q| :: q[i].serial !in called && (q[i].serial in withdrawn ==> !q[i].func))
  }

  /**
   An answered command that was submitted with a callback was called back or withdrawn, and nothing else was; a queued
   command has its callback exactly when it was submitted with one and not withdrawn.
   */
  ghost predicate CallbacksOk(q: Queue, called: seq<nat>, withdrawn: set<nat>, answered: set<nat>, wanted: set<nat>,
                              issued: nat) {
    && (forall n | n in answered || n in wanted :: n < issued)
    && (forall n | n in called :: n in answered && n in wanted)
    && (forall n | n in answered && n in wanted :: n in called || n in withdrawn)
    && (forall i | 0 <= i < |q| ::
          q[i].serial !in answered && (q[i].func <==> q[i].serial in wanted && q[i].serial !in withdrawn))
  }

  /** Number of commands of long read `r` in a queue. */
  function Count(q: Queue, r: nat): nat {
    if q == [] then 0 else (if q[0].chain == Some(r) then 1 else 0) + Count(q[1..], r)
  }

  function InHand(hand: Option<Command>, r: nat): nat {
    if hand.Some? && hand.value.chain == Some(r) then 1 else 0
  }

  /** The reference count of a live long read is the number of commands of its chain. */
  ghost predicate RefsOk(refs: map<nat, nat>, q: Queue, hand: Option<Command>) {
    forall r | r in refs :: refs[r] == Count(q, r) + InHand(hand, r) >= 1 && Count(q, r) <= 1
  }

  /** Queued commands belong to live, unfinished long reads; one without its callback is interrupted. */
  ghost predicate ChainsOk(refs: map<nat, nat>, q: Queue, finished: seq<nat>, interrupted: set<nat>) {
    forall i | 0 <= i < |q| && q[i].chain.Some? ::
      && q[i].chain.value in refs
      && q[i].chain.value !in finished
      && (!q[i].func ==> q[i].chain.value in interrupted)
  }

  /** The long read of the command in hand went on, finished or was interrupted. */
  ghost predicate HandOk(hand: Option<Command>, refs: map<nat, nat>, finished: seq<nat>, interrupted: set<nat>) {
    hand.Some? && hand.value.chain.Some? ==>
      var r := hand.value.chain.value;
      r in refs && (refs[r] == 1 ==> r in finished || r in interrupted)
  }

  /** A long read is freed once; its user callback ran once, unless its chain was interrupted. */
  ghost predicate FreedOk(refs: map<nat, nat>, nextRead: nat, freed: seq<nat>, finished: seq<nat>,
      interrupted: set<nat>) {
    && Distinct(freed)
    && Distinct(finished)
    && (forall r | r in freed :: r < nextRead && r !in refs && (r in finished || r in interrupted))
    && (forall r | 0 <= r < nextRead :: r in refs || r in freed)
    && (forall r | r in refs :: r < nextRead)
    && (forall r | r in finished :: r < nextRead && r !in interrupted)
    && (forall r | r in interrupted :: r < nextRead)
  }

  /** `hand` is the command whose response is being processed. */
  ghost predicate Inv(v: State, hand: Option<Command>) {
    && QueueOk(v.queue, v.nextCmdId, v.issued)
    && OrderOk(v.transmitted, v.queue, v.nextCmdId)
    && DisposalOk(v.destroyed, Serials(v.queue), v.issued, hand)
    && CallsOk(v.called, v.withdrawn, v.queue, v.issued)
    && RefsOk(v.refs, v.queue, hand)
    && ChainsOk(v.refs, v.queue, v.finished, v.interrupted)
    && HandOk(hand, v.refs, v.finished, v.interrupted)
    && FreedOk(v.refs, v.nextRead, v.freed, v.finished, v.interrupted)
  }

  // ------------------------------------------------------------------- counting

  lemma {:induction false} CountAppend(a: Queue, b: Queue, r: nat)
    ensures Count(a + b, r) == Count(a, r) + Count(b, r)
  {
    if a == [] {
      assert a + b == b;
    } else {
      assert (a + b)[0] == a[0] && (a + b)[1..] == a[1..] + b;
      CountAppend(a[1..], b, r);
    }
  }

  lemma CountOne(c: Command, r: nat)
    ensures Count([c], r) == if c.chain == Some(r) then 1 else 0
  {
    assert [c][1..] == [];
  }

  lemma {:induction false} CountPositive(q: Queue, i: nat, r: nat)
    requires i < |q| && q[i].chain == Some(r)
    ensures Count(q, r) >= 1
  {
    if i > 0 { CountPositive(q[1..], i - 1, r); }
  }

  /** A long read that is not in the reference table has no command queued. */
  lemma {:induction false} CountZero(q: Queue, r: nat)
    requires forall i | 0 <= i < |q| :: q[i].chain != Some(r)
    ensures Count(q, r) == 0
  {
    if q != [] { CountZero(q[1..], r); }
  }

  /** The queue without its entry `i`. */
  function Without(q: Queue, i: nat): (r: Queue)
    requires i < |q|
    ensures |r| == |q| - 1
    ensures forall j | 0 <= j < |r| :: r[j] == if j < i then q[j] else q[j + 1]
  {
    q[..i] + q[i + 1..]
  }

  lemma CountWithout(q: Queue, i: nat, r: nat)
    requires i < |q|
    ensures Count(Without(q, i), r) == Count(q, r) - (if q[i].chain == Some(r) then 1 else 0)
  {
    assert q == q[..i] + ([q[i]] + q[i + 1..]);
    CountAppend(q[..i], [q[i]] + q[i + 1..], r);
    CountAppend([q[i]], q[i + 1..], r);
    CountOne(q[i], r);
    CountAppend(q[..i], q[i + 1..], r);
  }

  lemma SerialsWithout(q: Queue, i: nat)
    requires i < |q| && DistinctSerials(q)
    ensures Serials(Without(q, i)) == Serials(q) - {q[i].serial}
  {
    var q' := Without(q, i);
    forall n | n in Serials(q) && n != q[i].serial ensures n in Serials(q') {
      var j :| 0 <= j < |q| && q[j].serial == n;
      assert q'[if j < i then j else j - 1] == q[j];
    }
    forall n | n in Serials(q') ensures n in Serials(q) && n != q[i].serial {
      var j :| 0 <= j < |q'| && q'[j].serial == n;
    }
  }

  lemma QueueWithout(q: Queue, i: nat, nextCmdId: nat, issued: nat)
    requires i < |q| && QueueOk(q, nextCmdId, issued)
    ensures QueueOk(Without(q, i), nextCmdId, issued)
  {
    var q' := Without(q, i);
    assert SortedIds(q') by { hide DistinctSerials, EntriesOk, OnlyHeadSent; }
    assert DistinctSerials(q') by { hide SortedIds, EntriesOk, OnlyHeadSent; }
  }

  lemma OrderWithout(transmitted: seq<Sending>, q: Queue, i: nat, nextCmdId: nat)
    requires i < |q| && OrderOk(transmitted, q, nextCmdId)
    ensures OrderOk(transmitted, Without(q, i), nextCmdId)
  {
    hide AllBefore, AllAtMost, Ordered;
  }

  lemma CallsWithout(called: seq<nat>, withdrawn: set<nat>, q: Queue, issued: nat, i: nat)
    requires i < |q| && DistinctSerials(q) && q[i].serial < issued && CallsOk(called, withdrawn, q, issued)
    ensures CallsOk(called, withdrawn, Without(q, i), issued)
    ensures CallsOk(called, withdrawn + {q[i].serial}, Without(q, i), issued)
  {
    hide Distinct;
  }

  lemma DistinctAppend(s: seq<nat>, n: nat)
    requires Distinct(s) && n !in s
    ensures Distinct(s + [n])
  {
    assert forall i | 0 <= i < |s| :: s[i] in s;
  }

  // ------------------------------------------------------------------ disposing

  /** `read_long_destroy`: one reference less, and the data freed with the last one. */
  function Unref(refs: map<nat, nat>, freed: seq<nat>, chain: Option<nat>): (map<nat, nat>, seq<nat>) {
    if chain.None? || chain.value !in refs || refs[chain.value] == 0 then (refs, freed)
    else if refs[chain.value] == 1 then (refs - {chain.value}, freed + [chain.value])
    else (refs[chain.value := refs[chain.value] - 1], freed)
  }

  /** `command_destroy`. */
  function Disposed(v: State, c: Command): State {
    var (refs, freed) := Unref(v.refs, v.freed, c.chain);
    v.(destroyed := v.destroyed + [c.serial], refs := refs, freed := freed)
  }

  lemma UnrefFreed(refs: map<nat, nat>, nextRead: nat, freed: seq<nat>, finished: seq<nat>, interrupted: set<nat>,
      chain: Option<nat>)
    requires FreedOk(refs, nextRead, freed, finished, interrupted)
    requires chain.Some? && chain.value in refs && refs[chain.value] == 1 ==>
               chain.value in finished || chain.value in interrupted
    ensures var (refs', freed') := Unref(refs, freed, chain);
            FreedOk(refs', nextRead, freed', finished, interrupted)
  {
    if chain.Some? && chain.value in refs && refs[chain.value] == 1 {
      assert chain.value !in freed;
      DistinctAppend(freed, chain.value);
    }
  }

  lemma UnrefHand(refs: map<nat, nat>, freed: seq<nat>, q: Queue, finished: seq<nat>, interrupted: set<nat>, c: Command)
    requires RefsOk(refs, q, Some(c)) && ChainsOk(refs, q, finished, interrupted)
    ensures var (refs', freed') := Unref(refs, freed, c.chain);
            RefsOk(refs', q, None) && ChainsOk(refs', q, finished, interrupted)
  {
    if c.chain.Some? && c.chain.value in refs && refs[c.chain.value] == 1 {
      forall i | 0 <= i < |q| && q[i].chain.Some? ensures q[i].chain.value != c.chain.value {
        if q[i].chain.value == c.chain.value { CountPositive(q, i, c.chain.value); }
      }
    }
  }

  lemma UnrefWithout(refs: map<nat, nat>, freed: seq<nat>, q: Queue, finished: seq<nat>, interrupted: set<nat>,
                     hand: Option<Command>, i: nat)
    requires i < |q| && RefsOk(refs, q, hand) && ChainsOk(refs, q, finished, interrupted)
    ensures var (refs', freed') := Unref(refs, freed, q[i].chain);
            RefsOk(refs', Without(q, i), hand) && ChainsOk(refs', Without(q, i), finished, interrupted)
  {
    var q', c := Without(q, i), q[i];
    forall r | r in refs ensures Count(q', r) == Count(q, r) - (if c.chain == Some(r) then 1 else 0) {
      CountWithout(q, i, r);
    }
    if c.chain.Some? {
      CountPositive(q, i, c.chain.value);
      if refs[c.chain.value] == 1 {
        forall j | 0 <= j < |q'| && q'[j].chain.Some? ensures q'[j].chain.value != c.chain.value {
          if q'[j].chain.value == c.chain.value { CountPositive(q', j, c.chain.value); }
        }
      }
    }
  }

  lemma DisposedHand(destroyed: seq<nat>, queued: set<nat>, issued: nat, c: Command)
    requires DisposalOk(destroyed, queued, issued, Some(c))
    ensures DisposalOk(destroyed + [c.serial], queued, issued, None)
  {
    assert IsHand(Some(c), c.serial);
    DistinctAppend(destroyed, c.serial);
    assert forall n :: IsHand(Some(c), n) <==> n == c.serial;
  }

  /** The command in hand is destroyed. */
  lemma DisposedKeepsInv(v: State, c: Command)
    requires Inv(v, Some(c))
    ensures Inv(Disposed(v, c), None)
  {
    hide QueueOk, OrderOk, CallsOk, FreedOk, RefsOk, ChainsOk, Serials, Unref;
    UnrefFreed(v.refs, v.nextRead, v.freed, v.finished, v.interrupted, c.chain);
    UnrefHand(v.refs, v.freed, v.queue, v.finished, v.interrupted, c);
    DisposedHand(v.destroyed, Serials(v.queue), v.issued, c);
    hide DisposalOk;
  }

  /** Entry `i` leaves the queue and is destroyed. */
  function Removed(v: State, i: nat): State
    requires i < |v.queue|
  {
    Disposed(v.(queue := Without(v.queue, i)), v.queue[i])
  }

  lemma RemovedDisposal(destroyed: seq<nat>, queued: set<nat>, issued: nat, hand: Option<Command>, n: nat)
    requires DisposalOk(destroyed, queued, issued, hand) && n in queued && n < issued
    ensures DisposalOk(destroyed + [n], queued - {n}, issued, hand)
  {
    DistinctAppend(destroyed, n);
    assert !IsHand(hand, n);
  }

  lemma UnrefKeepsHand(hand: Option<Command>, refs: map<nat, nat>, q: Queue, finished: seq<nat>, interrupted: set<nat>,
                       freed: seq<nat>, i: nat)
    requires i < |q| && HandOk(hand, refs, finished, interrupted) && RefsOk(refs, q, hand)
    requires q[i].chain.Some? ==> q[i].chain.value in refs && q[i].chain.value in interrupted
    ensures HandOk(hand, Unref(refs, freed, q[i].chain).0, finished, interrupted)
  {
    if q[i].chain.Some? { CountPositive(q, i, q[i].chain.value); }
  }

  lemma RemovedKeepsInv(v: State, hand: Option<Command>, i: nat)
    requires i < |v.queue| && Inv(v, hand)
    requires v.queue[i].chain.Some? ==> v.queue[i].chain.value in v.interrupted
    ensures Inv(Removed(v, i), hand)
  {
    assert v.queue[i].serial in Serials(v.queue) && v.queue[i].serial < v.issued && DistinctSerials(v.queue);
    hide QueueOk, OrderOk, DisposalOk, CallsOk, FreedOk, RefsOk, HandOk, Serials, Unref;
    QueueWithout(v.queue, i, v.nextCmdId, v.issued);
    OrderWithout(v.transmitted, v.queue, i, v.nextCmdId);
    CallsWithout(v.called, v.withdrawn, v.queue, v.issued, i);
    SerialsWithout(v.queue, i);
    RemovedDisposal(v.destroyed, Serials(v.queue), v.issued, hand, v.queue[i].serial);
    UnrefFreed(v.refs, v.nextRead, v.freed, v.finished, v.interrupted, v.queue[i].chain);
    UnrefWithout(v.refs, v.freed, v.queue, v.finished, v.interrupted, hand, i);
    UnrefKeepsHand(hand, v.refs, v.queue, v.finished, v.interrupted, v.freed, i);
    hide ChainsOk, Without;
  }

  // ------------------------------------------------------------------ cancelling

  /** The long read of a withdrawn command will not reach its user callback. */
  function Interrupted(v: State, chain: Option<nat>): State {
    if chain.Some? then v.(interrupted := v.interrupted + {chain.value}) else v
  }

  /** Entry `i` is withdrawn and destroyed. */
  function Dropped(v: State, i: nat): State
    requires i < |v.queue|
  {
    var w := Removed(Interrupted(v, v.queue[i].chain), i);
    w.(withdrawn := w.withdrawn + {v.queue[i].serial})
  }

  /** A sent head that is cancelled stays in the queue without its callback. */
  function Muted(v: State): State
    requires v.queue != []
  {
    var c := v.queue[0];
    Interrupted(v, c.chain).(queue := v.queue[0 := c.(func := false)], withdrawn := v.withdrawn + {c.serial})
  }

  function CancelledAt(v: State, i: nat): State
    requires i < |v.queue|
  {
    if i == 0 && v.queue[0].sent then Muted(v) else Dropped(v, i)
  }

  lemma InterruptedKeepsInv(v: State, hand: Option<Command>, i: nat)
    requires Inv(v, hand) && i < |v.queue|
    ensures Inv(Interrupted(v, v.queue[i].chain), hand)
  {
    if v.queue[i].chain.Some? {
      var r := v.queue[i].chain.value;
      assert r in v.refs && r !in v.finished;
      hide QueueOk, OrderOk, DisposalOk, CallsOk, RefsOk;
    }
  }

  lemma DroppedKeepsInv(v: State, hand: Option<Command>, i: nat)
    requires Inv(v, hand) && i < |v.queue|
    ensures Inv(Dropped(v, i), hand)
  {
    assert v.queue[i].serial < v.issued && DistinctSerials(v.queue);
    hide QueueOk, OrderOk, DisposalOk, CallsOk, RefsOk, ChainsOk, HandOk, FreedOk, Serials, Unref;
    InterruptedKeepsInv(v, hand, i);
    RemovedKeepsInv(Interrupted(v, v.queue[i].chain), hand, i);
    CallsWithout(v.called, v.withdrawn, v.queue, v.issued, i);
    hide Without;
  }

  /** The head changes in `sent` and `func` only. */
  predicate SameHead(q: Queue, c: Command) {
    q != [] && c.serial == q[0].serial && c.id == q[0].id && c.chain == q[0].chain && c.expected == q[0].expected
  }

  lemma SameSerials(q: Queue, c: Command)
    requires SameHead(q, c)
    ensures Serials(q[0 := c]) == Serials(q)
  {
    var q' := q[0 := c];
    forall n | n in Serials(q) ensures n in Serials(q') {
      var i :| 0 <= i < |q| && q[i].serial == n;
      assert q'[i].serial == n;
    }
    forall n | n in Serials(q') ensures n in Serials(q) {
      var i :| 0 <= i < |q'| && q'[i].serial == n;
      assert q[i].serial == n;
    }
  }

  lemma SameRefs(refs: map<nat, nat>, q: Queue, hand: Option<Command>, c: Command)
    requires SameHead(q, c) && RefsOk(refs, q, hand)
    ensures RefsOk(refs, q[0 := c], hand)
  {
    assert q[0 := c][1..] == q[1..];
  }

  lemma SameQueue(q: Queue, c: Command, nextCmdId: nat, issued: nat)
    requires SameHead(q, c) && QueueOk(q, nextCmdId, issued)
    ensures QueueOk(q[0 := c], nextCmdId, issued)
  {
    var q' := q[0 := c];
    assert SortedIds(q') by { hide DistinctSerials, EntriesOk, OnlyHeadSent; }
    assert DistinctSerials(q') by { hide SortedIds, EntriesOk, OnlyHeadSent; }
  }

  /** Marking the head sent or taking its callback away disturbs neither queue, disposal nor references. */
  lemma SameHeadKeeps(v: State, hand: Option<Command>, c: Command)
    requires Inv(v, hand) && SameHead(v.queue, c)
    ensures QueueOk(v.queue[0 := c], v.nextCmdId, v.issued)
    ensures DisposalOk(v.destroyed, Serials(v.queue[0 := c]), v.issued, hand)
    ensures RefsOk(v.refs, v.queue[0 := c], hand)
  {
    hide QueueOk, OrderOk, DisposalOk, CallsOk, RefsOk, ChainsOk, HandOk, FreedOk, Serials;
    SameSerials(v.queue, c);
    SameRefs(v.refs, v.queue, hand, c);
    SameQueue(v.queue, c, v.nextCmdId, v.issued);
  }

  lemma MutedCalls(called: seq<nat>, withdrawn: set<nat>, q: Queue, issued: nat)
    requires q != [] && DistinctSerials(q) && q[0].serial < issued && CallsOk(called, withdrawn, q, issued)
    ensures CallsOk(called, withdrawn + {q[0].serial}, q[0 := q[0].(func := false)], issued)
  {
    hide Distinct;
  }

  lemma MutedKeepsInv(v: State, hand: Option<Command>)
    requires v.queue != [] && Inv(v, hand)
    ensures Inv(Muted(v), hand)
  {
    var c := v.queue[0].(func := false);
    assert c.serial < v.issued && DistinctSerials(v.queue);
    hide QueueOk, DisposalOk, CallsOk, RefsOk, FreedOk, Serials, HandOk, AllAtMost, Ordered;
    InterruptedKeepsInv(v, hand, 0);
    SameHeadKeeps(v, hand, c);
    MutedCalls(v.called, v.withdrawn, v.queue, v.issued);
  }

  lemma CancelledAtKeeps(v: State, hand: Option<Command>, i: nat, pending: bool)
    requires i < |v.queue| && Inv(v, hand)
    ensures Inv(CancelledAt(v, i), hand)
    ensures Awake(v.queue, v.writeWatch, pending) ==>
              Awake(CancelledAt(v, i).queue, CancelledAt(v, i).writeWatch, pending)
  {
    hide Inv;
    if i == 0 && v.queue[0].sent { MutedKeepsInv(v, hand); } else { DroppedKeepsInv(v, hand, i); }
  }

  /** The first entry with identifier `id`. */
  ghost predicate FoundAt(q: Queue, id: nat, i: nat) {
    i <= |q| && (i < |q| ==> q[i].id == id) && forall j | 0 <= j < i :: q[j].id != id
  }

  /** `attrib_destroy` and `g_attrib_cancel_all` after the head: everything from `k` on is withdrawn. */
  function DroppedFrom(v: State, k: nat): State
    requires k <= |v.queue|
    decreases |v.queue| - k
  {
    if k == |v.queue| then v else DroppedFrom(Dropped(v, k), k)
  }

  /** `g_attrib_cancel_all`. */
  function CancelledAll(v: State): State {
    if v.queue != [] && v.queue[0].sent then DroppedFrom(Muted(v), 1) else DroppedFrom(v, 0)
  }

  lemma {:induction false} DroppedFromKeepsInv(v: State, hand: Option<Command>, k: nat)
    requires k <= |v.queue| && Inv(v, hand)
    ensures Inv(DroppedFrom(v, k), hand)
    ensures DroppedFrom(v, k).queue == v.queue[..k] && DroppedFrom(v, k).writeWatch == v.writeWatch
    decreases |v.queue| - k
  {
    hide Inv;
    if k < |v.queue| {
      DroppedKeepsInv(v, hand, k);
      DroppedFromKeepsInv(Dropped(v, k), hand, k);
      assert Dropped(v, k).queue[..k] == v.queue[..k];
    } else {
      assert v.queue[..k] == v.queue;
    }
  }

  lemma CancelledAllKeeps(v: State, hand: Option<Command>, pending: bool)
    requires Inv(v, hand)
    ensures Inv(CancelledAll(v), hand)
    ensures Awake(CancelledAll(v).queue, CancelledAll(v).writeWatch, pending)
  {
    hide Inv, DroppedFrom;
    if v.queue != [] && v.queue[0].sent {
      MutedKeepsInv(v, hand);
      DroppedFromKeepsInv(Muted(v), hand, 1);
    } else {
      DroppedFromKeepsInv(v, hand, 0);
    }
  }

  // -------------------------------------------------------------------- sending

  /** `g_attrib_send` without an identifier: a new one, at the tail; a first command wakes the sender. */
  function Submitted(v: State, expected: byte, func: bool, chain: Option<nat>): State {
    v.(queue := v.queue + [Command(v.issued, v.nextCmdId + 1, expected, false, func, chain)],
       nextCmdId := v.nextCmdId + 1, issued := v.issued + 1, writeWatch := v.writeWatch || v.queue == [],
       wanted := if func then v.wanted + {v.issued} else v.wanted)
  }

  /** `gatt_read_char`: the first request of a new long read, which holds one reference. */
  function ReadStarted(v: State): State {
    Submitted(v, Expected(OP_READ_REQ), true, Some(v.nextRead))
      .(refs := v.refs[v.nextRead := 1], nextRead := v.nextRead + 1)
  }

  lemma SubmittedQueue(q: Queue, nextCmdId: nat, issued: nat, c: Command)
    requires QueueOk(q, nextCmdId, issued) && !c.sent && c.id == nextCmdId + 1 && c.serial == issued
    requires c.chain.Some? ==> c.expected != 0
    ensures QueueOk(q + [c], nextCmdId + 1, issued + 1)
  {
    var q' := q + [c];
    assert forall i | 0 <= i < |q| :: q'[i] == q[i];
    assert SortedIds(q') by { hide DistinctSerials, OnlyHeadSent; }
    assert DistinctSerials(q') by { hide SortedIds, OnlyHeadSent; }
  }

  lemma SubmittedOrder(transmitted: seq<Sending>, q: Queue, nextCmdId: nat, c: Command)
    requires OrderOk(transmitted, q, nextCmdId) && c.id == nextCmdId + 1
    ensures OrderOk(transmitted, q + [c], nextCmdId + 1)
  {
    var q' := q + [c];
    assert forall i | 0 <= i < |q| :: q'[i] == q[i];
    assert AllBefore(transmitted, c) by { hide Ordered; }
    assert AllAtMost(transmitted, nextCmdId + 1) by { hide Ordered; }
    hide Ordered, AllBefore, AllAtMost;
  }

  lemma SerialsAppend(a: Queue, b: Queue)
    ensures Serials(a + b) == Serials(a) + Serials(b)
  {
    var q := a + b;
    forall n | n in Serials(a) ensures n in Serials(q) {
      var i :| 0 <= i < |a| && a[i].serial == n;
      assert q[i].serial == n;
    }
    forall n | n in Serials(b) ensures n in Serials(q) {
      var i :| 0 <= i < |b| && b[i].serial == n;
      assert q[|a| + i].serial == n;
    }
    forall n | n in Serials(q) ensures n in Serials(a) + Serials(b) {
      var i :| 0 <= i < |q| && q[i].serial == n;
      assert q[i] == if i < |a| then a[i] else b[i - |a|];
    }
  }

  lemma AddedDisposal(destroyed: seq<nat>, queued: set<nat>, issued: nat, hand: Option<Command>)
    requires DisposalOk(destroyed, queued, issued, hand)
    ensures DisposalOk(destroyed, queued + {issued}, issued + 1, hand)
  {
    hide Distinct;
    assert !IsHand(hand, issued);
  }

  /** A command newly allocated is neither called nor withdrawn. */
  lemma AddedCalls(called: seq<nat>, withdrawn: set<nat>, q: Queue, q': Queue, c: Command, issued: nat)
    requires CallsOk(called, withdrawn, q, issued) && c.serial == issued
    requires forall i | 0 <= i < |q'| :: q'[i] == c || q'[i] in q
    ensures CallsOk(called, withdrawn, q', issued + 1)
  {
    hide Distinct;
  }

  /** A command of no long read changes no count. */
  lemma PlainChains(refs: map<nat, nat>, q: Queue, hand: Option<Command>, finished: seq<nat>, interrupted: set<nat>,
      c: Command)
    requires c.chain.None? && RefsOk(refs, q, hand) && ChainsOk(refs, q, finished, interrupted)
    ensures RefsOk(refs, q + [c], hand) && ChainsOk(refs, q + [c], finished, interrupted)
  {
    forall r | r in refs ensures Count(q + [c], r) == Count(q, r) {
      CountAppend(q, [c], r);
      CountOne(c, r);
    }
    assert forall i | 0 <= i < |q| :: (q + [c])[i] == q[i];
  }

  lemma StartedChains(refs: map<nat, nat>, q: Queue, hand: Option<Command>, finished: seq<nat>, interrupted: set<nat>,
      c: Command, n: nat)
    requires c.chain == Some(n) && c.func && RefsOk(refs, q, hand) && ChainsOk(refs, q, finished, interrupted)
    requires n !in refs && n !in finished && HandOk(hand, refs, finished, interrupted)
    ensures RefsOk(refs[n := 1], q + [c], hand) && ChainsOk(refs[n := 1], q + [c], finished, interrupted)
    ensures HandOk(hand, refs[n := 1], finished, interrupted)
  {
    forall r | r in refs || r == n
      ensures Count(q + [c], r) == if r == n then 1 else Count(q, r)
    {
      CountAppend(q, [c], r);
      CountOne(c, r);
      if r == n { CountZero(q, n); }
    }
    assert forall i | 0 <= i < |q| :: (q + [c])[i] == q[i];
    assert InHand(hand, n) == 0;
  }

  lemma SubmittedKeeps(v: State, hand: Option<Command>, expected: byte, func: bool, chain: Option<nat>)
    requires Inv(v, hand) && (chain.Some? ==> expected != 0)
    ensures var w := Submitted(v, expected, func, chain);
            && QueueOk(w.queue, w.nextCmdId, w.issued)
            && OrderOk(w.transmitted, w.queue, w.nextCmdId)
            && DisposalOk(w.destroyed, Serials(w.queue), w.issued, hand)
            && CallsOk(w.called, w.withdrawn, w.queue, w.issued)
  {
    hide QueueOk, OrderOk, DisposalOk, CallsOk, RefsOk, ChainsOk, HandOk, FreedOk, Serials;
    var c := Command(v.issued, v.nextCmdId + 1, expected, false, func, chain);
    SubmittedQueue(v.queue, v.nextCmdId, v.issued, c);
    SubmittedOrder(v.transmitted, v.queue, v.nextCmdId, c);
    SerialsAppend(v.queue, [c]);
    assert Serials([c]) == {v.issued} by { assert [c][0].serial in Serials([c]); }
    AddedDisposal(v.destroyed, Serials(v.queue), v.issued, hand);
    AddedCalls(v.called, v.withdrawn, v.queue, v.queue + [c], c, v.issued);
  }

  lemma SubmittedKeepsInv(v: State, hand: Option<Command>, expected: byte, func: bool)
    requires Inv(v, hand)
    ensures Inv(Submitted(v, expected, func, None), hand)
  {
    hide QueueOk, OrderOk, DisposalOk, CallsOk, RefsOk, ChainsOk, HandOk, FreedOk, Serials;
    SubmittedKeeps(v, hand, expected, func, None);
    PlainChains(v.refs, v.queue, hand, v.finished, v.interrupted,
                Command(v.issued, v.nextCmdId + 1, expected, false, func, None));
  }

  lemma StartedFreed(refs: map<nat, nat>, nextRead: nat, freed: seq<nat>, finished: seq<nat>, interrupted: set<nat>)
    requires FreedOk(refs, nextRead, freed, finished, interrupted)
    ensures FreedOk(refs[nextRead := 1], nextRead + 1, freed, finished, interrupted)
    ensures nextRead !in refs && nextRead !in finished
  {
    hide Distinct;
  }

  lemma ReadStartedKeepsInv(v: State, hand: Option<Command>)
    requires Inv(v, hand)
    ensures Inv(ReadStarted(v), hand)
  {
    hide QueueOk, OrderOk, DisposalOk, CallsOk, RefsOk, ChainsOk, HandOk, FreedOk, Serials;
    SubmittedKeeps(v, hand, Expected(OP_READ_REQ), true, Some(v.nextRead));
    StartedFreed(v.refs, v.nextRead, v.freed, v.finished, v.interrupted);
    StartedChains(v.refs, v.queue, hand, v.finished, v.interrupted,
                  Command(v.issued, v.nextCmdId + 1, Expected(OP_READ_REQ), false, true, Some(v.nextRead)), v.nextRead);
  }

  // -------------------------------------------------------------------- writing

  /** `can_write_data` when the write succeeds; the watch stays only after a command without answer. */
  function Written(v: State): State {
    if v.queue == [] then v.(writeWatch := false)
    else
      var c := v.queue[0];
      var t := if c.sent then v.transmitted else v.transmitted + [Sending(c.id, c.chain)];
      if c.expected == 0 then Removed(v.(transmitted := t), 0)
      else v.(transmitted := t, queue := v.queue[0 := c.(sent := true)], writeWatch := false)
  }

  lemma TransmittedOrder(transmitted: seq<Sending>, q: Queue, nextCmdId: nat, issued: nat)
    requires q != [] && !q[0].sent && OrderOk(transmitted, q, nextCmdId) && QueueOk(q, nextCmdId, issued)
    ensures OrderOk(transmitted + [Sending(q[0].id, q[0].chain)], q[0 := q[0].(sent := true)], nextCmdId)
  {
    var s := Sending(q[0].id, q[0].chain);
    var t, q' := transmitted + [s], q[0 := q[0].(sent := true)];
    assert AllBefore(transmitted, q[0]);
    forall i | 0 <= i < |q'| ensures AllBefore(t, q'[i]) {
      assert AllBefore(transmitted, q[i]);
    }
  }

  lemma SentHeadKeepsInv(v: State)
    requires Inv(v, None) && v.queue != []
    ensures var c := v.queue[0];
            var t := if c.sent then v.transmitted else v.transmitted + [Sending(c.id, c.chain)];
            Inv(v.(transmitted := t, queue := v.queue[0 := c.(sent := true)]), None)
  {
    var c := v.queue[0];
    hide QueueOk, OrderOk, DisposalOk, RefsOk, FreedOk, Serials, HandOk;
    SameHeadKeeps(v, None, c.(sent := true));
    if !c.sent {
      TransmittedOrder(v.transmitted, v.queue, v.nextCmdId, v.issued);
    } else {
      assert v.queue[0 := c.(sent := true)] == v.queue;
    }
    hide Distinct;
  }

  lemma WrittenKeepsInv(v: State)
    requires Inv(v, None)
    ensures Inv(Written(v), None)
    ensures Awake(Written(v).queue, Written(v).writeWatch, false) || !v.writeWatch
  {
    if v.queue != [] {
      var c := v.queue[0];
      assert c.chain.Some? ==> c.expected != 0;
      hide QueueOk, OrderOk, DisposalOk, CallsOk, RefsOk, ChainsOk, HandOk, FreedOk, Serials, Unref;
      SentHeadKeepsInv(v);
      if c.expected == 0 {
        var t := if c.sent then v.transmitted else v.transmitted + [Sending(c.id, c.chain)];
        var w := v.(transmitted := t, queue := v.queue[0 := c.(sent := true)]);
        RemovedKeepsInv(w, None, 0);
        assert Without(w.queue, 0) == Without(v.queue, 0);
      }
    } else {
      hide QueueOk, OrderOk, DisposalOk, CallsOk, RefsOk, ChainsOk, HandOk, FreedOk, Serials;
    }
  }

  // ------------------------------------------------------------------ answering

  /** A queued command that still has its callback belongs to a long read that was not interrupted. */
  ghost predicate LiveOk(q: Queue, interrupted: set<nat>) {
    forall i | 0 <= i < |q| && q[i].chain.Some? && q[i].func :: q[i].chain.value !in interrupted
  }

  /** What every operation keeps. */
  ghost predicate Good(v: State, hand: Option<Command>) {
    && Inv(v, hand) && LiveOk(v.queue, v.interrupted)
    && CallbacksOk(v.queue, v.called, v.withdrawn, v.answered, v.wanted, v.issued)
  }

  lemma BelowIssued(q: Queue, nextCmdId: nat, issued: nat, called: seq<nat>, withdrawn: set<nat>)
    requires QueueOk(q, nextCmdId, issued) && CallsOk(called, withdrawn, q, issued)
    ensures (forall i | 0 <= i < |q| :: q[i].serial < issued) && forall n | n in withdrawn :: n < issued
  {
    hide OnlyHeadSent, SortedIds, DistinctSerials, Distinct;
  }

  lemma NextReadLive(v: State, hand: Option<Command>)
    requires Inv(v, hand)
    ensures v.nextRead !in v.interrupted
  {
    hide QueueOk, OrderOk, DisposalOk, CallsOk, RefsOk, ChainsOk, HandOk;
  }

  lemma InvSerials(v: State, hand: Option<Command>)
    requires Inv(v, hand)
    ensures DistinctSerials(v.queue) && forall i | 0 <= i < |v.queue| :: v.queue[i].serial < v.issued
    ensures forall n | n in v.withdrawn :: n < v.issued
  {
    hide OrderOk, DisposalOk, RefsOk, ChainsOk, HandOk, FreedOk;
  }

  lemma CallbacksWithout(q: Queue, called: seq<nat>, withdrawn: set<nat>, answered: set<nat>, wanted: set<nat>,
                         issued: nat, i: nat)
    requires i < |q| && DistinctSerials(q) && CallbacksOk(q, called, withdrawn, answered, wanted, issued)
    ensures CallbacksOk(Without(q, i), called, withdrawn, answered, wanted, issued)
    ensures CallbacksOk(Without(q, i), called, withdrawn + {q[i].serial}, answered, wanted, issued)
  {
  }

  /** The head loses its callback, or is marked sent. */
  lemma CallbacksHead(q: Queue, called: seq<nat>, withdrawn: set<nat>, answered: set<nat>, wanted: set<nat>,
      issued: nat)
    requires q != [] && DistinctSerials(q) && CallbacksOk(q, called, withdrawn, answered, wanted, issued)
    ensures var q' := q[0 := q[0].(func := false)];
            CallbacksOk(q', called, withdrawn + {q[0].serial}, answered, wanted, issued)
    ensures CallbacksOk(q[0 := q[0].(sent := true)], called, withdrawn, answered, wanted, issued)
  {
  }

  /** A new command is neither answered nor withdrawn. */
  lemma CallbacksNew(q: Queue, q': Queue, called: seq<nat>, withdrawn: set<nat>, answered: set<nat>, wanted: set<nat>,
                     issued: nat, c: Command)
    requires CallbacksOk(q, called, withdrawn, answered, wanted, issued) && c.serial == issued
    requires (forall n | n in withdrawn :: n < issued) && forall i | 0 <= i < |q'| :: q'[i] == c || q'[i] in q
    requires forall i | 0 <= i < |q| :: q[i].serial < issued
    ensures CallbacksOk(q', called, withdrawn, answered, if c.func then wanted + {issued} else wanted, issued + 1)
  {
    forall i | 0 <= i < |q'| && q'[i] != c ensures exists j | 0 <= j < |q| :: q[j] == q'[i] { assert q'[i] in q; }
  }

  /** The head is answered. */
  lemma CallbacksTaken(q: Queue, called: seq<nat>, withdrawn: set<nat>, answered: set<nat>, wanted: set<nat>,
      issued: nat)
    requires q != [] && DistinctSerials(q) && q[0].serial < issued
    requires CallbacksOk(q, called, withdrawn, answered, wanted, issued)
    ensures CallbacksOk(q[1..], if q[0].func then called + [q[0].serial] else called, withdrawn,
                        answered + {q[0].serial}, wanted, issued)
  {
  }

  lemma UniqueInChain(q: Queue, i: nat, j: nat, r: nat)
    requires i < |q| && j < |q| && q[i].chain == Some(r) == q[j].chain && Count(q, r) <= 1
    ensures i == j
  {
    if i != j {
      CountWithout(q, i, r);
      var k := if j < i then j else j - 1;
      assert Without(q, i)[k] == q[j];
      CountPositive(Without(q, i), k, r);
    }
  }

  /** No other command of the queue is of the long read of entry `i`. */
  lemma AloneInChain(v: State, hand: Option<Command>, i: nat)
    requires Inv(v, hand) && i < |v.queue| && v.queue[i].chain.Some?
    ensures forall j | 0 <= j < |v.queue| && j != i :: v.queue[j].chain != v.queue[i].chain
    ensures forall j | 0 <= j < |v.queue| - 1 :: Without(v.queue, i)[j].chain != v.queue[i].chain
  {
    var r := v.queue[i].chain.value;
    assert Count(v.queue, r) <= 1 by { assert r in v.refs; }
    hide Inv;
    forall j | 0 <= j < |v.queue| && j != i ensures v.queue[j].chain != v.queue[i].chain {
      if v.queue[j].chain == v.queue[i].chain { UniqueInChain(v.queue, i, j, r); }
    }
  }

  lemma CancelledAtKeepsGood(v: State, hand: Option<Command>, i: nat)
    requires i < |v.queue| && Good(v, hand)
    ensures Good(CancelledAt(v, i), hand)
  {
    hide Good, Muted, Dropped;
    if i == 0 && v.queue[0].sent { MutedKeepsGood(v, hand); } else { DroppedKeepsGood(v, hand, i); }
  }

  lemma MutedKeepsGood(v: State, hand: Option<Command>)
    requires v.queue != [] && Good(v, hand)
    ensures Good(Muted(v), hand)
  {
    hide Inv, CallbacksOk;
    InvSerials(v, hand);
    MutedKeepsInv(v, hand);
    CallbacksHead(v.queue, v.called, v.withdrawn, v.answered, v.wanted, v.issued);
    if v.queue[0].chain.Some? { AloneInChain(v, hand, 0); }
  }

  lemma DroppedKeepsGood(v: State, hand: Option<Command>, i: nat)
    requires i < |v.queue| && Good(v, hand)
    ensures Good(Dropped(v, i), hand)
  {
    hide Inv, CallbacksOk;
    InvSerials(v, hand);
    DroppedKeepsInv(v, hand, i);
    DroppedIs(v, i);
    CallbacksWithout(v.queue, v.called, v.withdrawn, v.answered, v.wanted, v.issued, i);
    hide Dropped;
    if v.queue[i].chain.Some? { AloneInChain(v, hand, i); }
  }

  lemma DroppedIs(v: State, i: nat)
    requires i < |v.queue|
    ensures var w := Dropped(v, i);
            && w.queue == Without(v.queue, i) && w.withdrawn == v.withdrawn + {v.queue[i].serial}
            && w.called == v.called && w.answered == v.answered && w.wanted == v.wanted && w.issued == v.issued
            && w.interrupted == v.interrupted + (if v.queue[i].chain.Some? then {v.queue[i].chain.value} else {})
  {
    hide Unref;
  }

  lemma SubmittedKeepsGood(v: State, hand: Option<Command>, expected: byte, func: bool)
    requires Good(v, hand)
    ensures Good(Submitted(v, expected, func, None), hand)
  {
    hide Inv, CallbacksOk;
    InvSerials(v, hand);
    SubmittedKeepsInv(v, hand, expected, func);
    var c := Command(v.issued, v.nextCmdId + 1, expected, false, func, None);
    CallbacksNew(v.queue, v.queue + [c], v.called, v.withdrawn, v.answered, v.wanted, v.issued, c);
  }

  lemma ReadStartedKeepsGood(v: State, hand: Option<Command>)
    requires Good(v, hand)
    ensures Good(ReadStarted(v), hand)
  {
    hide Inv, CallbacksOk;
    NextReadLive(v, hand);
    InvSerials(v, hand);
    ReadStartedKeepsInv(v, hand);
    var c := Command(v.issued, v.nextCmdId + 1, Expected(OP_READ_REQ), false, true, Some(v.nextRead));
    CallbacksNew(v.queue, v.queue + [c], v.called, v.withdrawn, v.answered, v.wanted, v.issued, c);
  }

  lemma WrittenKeepsGood(v: State)
    requires Good(v, None)
    ensures Good(Written(v), None)
  {
    hide Inv, CallbacksOk;
    InvSerials(v, None);
    WrittenKeepsInv(v);
    if v.queue != [] {
      CallbacksWithout(v.queue, v.called, v.withdrawn, v.answered, v.wanted, v.issued, 0);
      CallbacksHead(v.queue, v.called, v.withdrawn, v.answered, v.wanted, v.issued);
    }
  }

  /** The request `read_blob_helper` or `read_char_helper` puts at the head to go on with the long read of `c`. */
  function Continuation(v: State, c: Command): Command {
    Command(v.issued, c.id, Expected(OP_READ_BLOB_REQ), false, true, c.chain)
  }

  /**
   The head is popped and its result callback called. A long read goes on with `more`: a new
   request with the same identifier takes the head and a reference; otherwise its user
   callback runs.
   */
  function Taken(v: State, more: bool): State
    requires v.queue != []
  {
    var c := v.queue[0];
    var u := v.(queue := v.queue[1..], answered := v.answered + {c.serial});
    if c.func then Resulted(u, c, more) else u
  }

  /** The result callback of `c`, which was popped. */
  function Resulted(u: State, c: Command, more: bool): State {
    var w := u.(called := u.called + [c.serial]);
    if c.chain.None? || c.chain.value !in u.refs then w
    else if !more then w.(finished := u.finished + [c.chain.value])
    else w.(queue := [Continuation(u, c)] + u.queue, issued := u.issued + 1,
            refs := u.refs[c.chain.value := u.refs[c.chain.value] + 1], writeWatch := u.writeWatch || u.queue == [],
            wanted := u.wanted + {u.issued})
  }

  lemma ResultedCalls(u: State, c: Command, more: bool)
    ensures var w := Resulted(u, c, more); c.serial in w.called && w.answered == u.answered
  {
    assert (u.called + [c.serial])[|u.called|] == c.serial;
  }

  lemma TakenCalls(called: seq<nat>, withdrawn: set<nat>, q: Queue, issued: nat)
    requires q != [] && DistinctSerials(q) && q[0].serial < issued && CallsOk(called, withdrawn, q, issued)
    ensures CallsOk(called, withdrawn, q[1..], issued)
    ensures q[0].func ==> CallsOk(called + [q[0].serial], withdrawn, q[1..], issued)
  {
    if q[0].func { DistinctAppend(called, q[0].serial); }
    hide Distinct;
  }

  lemma TakenDisposal(destroyed: seq<nat>, queued: set<nat>, issued: nat, c: Command)
    requires DisposalOk(destroyed, queued, issued, None) && c.serial in queued && c.serial < issued
    ensures DisposalOk(destroyed, queued - {c.serial}, issued, Some(c))
  {
    hide Distinct;
    assert forall n :: IsHand(Some(c), n) <==> n == c.serial;
  }

  lemma TakenRefs(refs: map<nat, nat>, q: Queue)
    requires q != [] && RefsOk(refs, q, None)
    ensures RefsOk(refs, q[1..], Some(q[0]))
    ensures q[0].chain.Some? && q[0].chain.value in refs ==>
              refs[q[0].chain.value] == 1 && Count(q[1..], q[0].chain.value) == 0
  {
  }

  /** Popping the head, before its callback is counted. */
  lemma PoppedKeeps(v: State)
    requires Good(v, None) && v.queue != []
    ensures var c, rest := v.queue[0], v.queue[1..];
            && QueueOk(rest, v.nextCmdId, v.issued)
            && OrderOk(v.transmitted, rest, v.nextCmdId)
            && DisposalOk(v.destroyed, Serials(rest), v.issued, Some(c))
            && RefsOk(v.refs, rest, Some(c))
            && ChainsOk(v.refs, rest, v.finished, v.interrupted)
            && LiveOk(rest, v.interrupted)
            && CallsOk(if c.func then v.called + [c.serial] else v.called, v.withdrawn, rest, v.issued)
            && CallbacksOk(rest, if c.func then v.called + [c.serial] else v.called, v.withdrawn,
                           v.answered + {c.serial}, v.wanted, v.issued)
  {
    CallbacksTaken(v.queue, v.called, v.withdrawn, v.answered, v.wanted, v.issued);
    hide CallbacksOk;
    var c := v.queue[0];
    assert c.serial < v.issued && DistinctSerials(v.queue) && c.serial in Serials(v.queue);
    hide QueueOk, OrderOk, DisposalOk, CallsOk, RefsOk, HandOk, FreedOk, Serials;
    assert Without(v.queue, 0) == v.queue[1..];
    QueueWithout(v.queue, 0, v.nextCmdId, v.issued);
    OrderWithout(v.transmitted, v.queue, 0, v.nextCmdId);
    SerialsWithout(v.queue, 0);
    TakenDisposal(v.destroyed, Serials(v.queue), v.issued, c);
    TakenRefs(v.refs, v.queue);
    TakenCalls(v.called, v.withdrawn, v.queue, v.issued);
  }

  lemma FinishedFreed(refs: map<nat, nat>, nextRead: nat, freed: seq<nat>, finished: seq<nat>, interrupted: set<nat>,
      r: nat)
    requires FreedOk(refs, nextRead, freed, finished, interrupted)
    requires r in refs && r !in finished && r !in interrupted
    ensures FreedOk(refs, nextRead, freed, finished + [r], interrupted)
  {
    DistinctAppend(finished, r);
    hide Distinct;
  }

  lemma FinishedChains(refs: map<nat, nat>, q: Queue, finished: seq<nat>, interrupted: set<nat>, r: nat)
    requires ChainsOk(refs, q, finished, interrupted) && forall i | 0 <= i < |q| :: q[i].chain != Some(r)
    ensures ChainsOk(refs, q, finished + [r], interrupted)
  {
  }

  lemma ContinuedQueue(q: Queue, c: Command, nextCmdId: nat, issued: nat)
    requires QueueOk(q, nextCmdId, issued) && c.serial == issued && 1 <= c.id <= nextCmdId && c.expected != 0
    requires forall i | 0 <= i < |q| :: c.id < q[i].id && !q[i].sent
    ensures QueueOk([c] + q, nextCmdId, issued + 1)
  {
    var q' := [c] + q;
    assert forall i | 0 < i < |q'| :: q'[i] == q[i - 1];
    assert SortedIds(q') by { hide DistinctSerials, OnlyHeadSent; }
    assert DistinctSerials(q') by { hide SortedIds, OnlyHeadSent; }
  }

  lemma ContinuedOrder(transmitted: seq<Sending>, q: Queue, c: Command, before: Command, nextCmdId: nat)
    requires OrderOk(transmitted, q, nextCmdId) && AllBefore(transmitted, before)
    requires c.id == before.id && c.chain == before.chain && c.chain.Some?
    ensures OrderOk(transmitted, [c] + q, nextCmdId)
  {
    var q' := [c] + q;
    assert forall i | 0 < i < |q'| :: q'[i] == q[i - 1];
    assert AllBefore(transmitted, c);
    hide AllBefore, Ordered, AllAtMost;
  }

  lemma ContinuedRefs(refs: map<nat, nat>, q: Queue, c: Command, hand: Command)
    requires c.chain.Some? && c.chain == hand.chain && RefsOk(refs, q, Some(hand))
    requires c.chain.value in refs && refs[c.chain.value] == 1
    ensures RefsOk(refs[c.chain.value := 2], [c] + q, Some(hand))
  {
    forall r | r in refs ensures Count([c] + q, r) == (if Some(r) == c.chain then 1 else 0) + Count(q, r) {
      CountAppend([c], q, r);
      CountOne(c, r);
    }
  }

  lemma ContinuedChains(refs: map<nat, nat>, q: Queue, finished: seq<nat>, interrupted: set<nat>, c: Command)
    requires ChainsOk(refs, q, finished, interrupted) && LiveOk(q, interrupted)
    requires c.func && c.chain.Some? && c.chain.value in refs && c.chain.value !in finished
    requires c.chain.value !in interrupted
    ensures ChainsOk(refs[c.chain.value := 2], [c] + q, finished, interrupted) && LiveOk([c] + q, interrupted)
  {
    var q' := [c] + q;
    assert forall i | 0 < i < |q'| :: q'[i] == q[i - 1];
  }

  lemma ContinuedFreed(refs: map<nat, nat>, nextRead: nat, freed: seq<nat>, finished: seq<nat>, interrupted: set<nat>,
      r: nat)
    requires FreedOk(refs, nextRead, freed, finished, interrupted) && r in refs
    ensures FreedOk(refs[r := 2], nextRead, freed, finished, interrupted)
  {
    hide Distinct;
  }

  lemma TakenOnceKeepsGood(v: State)
    requires Good(v, None) && v.queue != []
    ensures Good(Taken(v, false), Some(v.queue[0]))
  {
    var c := v.queue[0];
    if c.chain.Some? { AloneInChain(v, None, 0); }
    TakenRefs(v.refs, v.queue);
    assert c.chain.Some? ==>
        c.chain.value in v.refs && c.chain.value !in v.finished && (c.func <==> c.chain.value !in v.interrupted);
    hide QueueOk, OrderOk, DisposalOk, CallsOk, RefsOk, ChainsOk, FreedOk, Serials, LiveOk, CallbacksOk;
    PoppedKeeps(v);
    if c.func && c.chain.Some? {
      FinishedFreed(v.refs, v.nextRead, v.freed, v.finished, v.interrupted, c.chain.value);
      FinishedChains(v.refs, v.queue[1..], v.finished, v.interrupted, c.chain.value);
    }
  }

  /** What the head of a long read in progress is known to satisfy. */
  lemma HeadOfChain(v: State)
    requires Good(v, None) && v.queue != [] && v.queue[0].func && v.queue[0].chain.Some?
    ensures var c, r := v.queue[0], v.queue[0].chain.value;
            && r in v.refs && v.refs[r] == 1 && r !in v.finished && r !in v.interrupted
            && 1 <= c.id <= v.nextCmdId && AllBefore(v.transmitted, c)
            && forall i | 0 <= i < |v.queue| - 1 :: c.id < v.queue[1..][i].id && !v.queue[1..][i].sent
  {
    TakenRefs(v.refs, v.queue);
    hide DisposalOk, CallsOk, RefsOk, FreedOk, Serials, AllBefore;
  }

  lemma ContinuedDisposal(destroyed: seq<nat>, q: Queue, issued: nat, c: Command, hand: Command)
    requires DisposalOk(destroyed, Serials(q), issued, Some(hand)) && c.serial == issued
    ensures DisposalOk(destroyed, Serials([c] + q), issued + 1, Some(hand))
  {
    hide DisposalOk, Serials;
    SerialsAppend([c], q);
    assert Serials([c]) == {issued} by { assert [c][0].serial in Serials([c]); }
    AddedDisposal(destroyed, Serials(q), issued, Some(hand));
    assert Serials([c] + q) == Serials(q) + {issued};
  }

  lemma ContinuedCalls(called: seq<nat>, withdrawn: set<nat>, q: Queue, c: Command, issued: nat)
    requires CallsOk(called, withdrawn, q, issued) && c.serial == issued
    ensures CallsOk(called, withdrawn, [c] + q, issued + 1)
  {
    hide CallsOk;
    AddedCalls(called, withdrawn, q, [c] + q, c, issued);
  }

  /** `w` is `v`, whose head `c` was popped, with the continuation `d` in front of the `rest`. */
  lemma ContinuedKeeps(v: State, w: State, rest: Queue, c: Command, d: Command)
    requires QueueOk(rest, v.nextCmdId, v.issued)
    requires OrderOk(v.transmitted, rest, v.nextCmdId) && AllBefore(v.transmitted, c)
    requires DisposalOk(v.destroyed, Serials(rest), v.issued, Some(c))
    requires RefsOk(v.refs, rest, Some(c))
    requires ChainsOk(v.refs, rest, v.finished, v.interrupted) && LiveOk(rest, v.interrupted)
    requires CallsOk(v.called + [c.serial], v.withdrawn, rest, v.issued)
    requires CallbacksOk(rest, v.called + [c.serial], v.withdrawn, v.answered + {c.serial}, v.wanted, v.issued)
    requires FreedOk(v.refs, v.nextRead, v.freed, v.finished, v.interrupted)
    requires d == Continuation(v, c) && 1 <= c.id <= v.nextCmdId && c.chain.Some?
    requires forall i | 0 <= i < |rest| :: c.id < rest[i].id && !rest[i].sent
    requires c.chain.value in v.refs && v.refs[c.chain.value] == 1
    requires c.chain.value !in v.finished && c.chain.value !in v.interrupted
    requires w == v.(queue := [d] + rest, called := v.called + [c.serial], issued := v.issued + 1,
                     refs := v.refs[c.chain.value := 2], writeWatch := w.writeWatch,
                     answered := v.answered + {c.serial}, wanted := v.wanted + {v.issued})
    ensures Good(w, Some(c))
  {
    hide QueueOk, OrderOk, DisposalOk, CallsOk, RefsOk, ChainsOk, FreedOk, Serials, LiveOk, AllBefore, CallbacksOk;
    BelowIssued(rest, v.nextCmdId, v.issued, v.called + [c.serial], v.withdrawn);
    CallbacksNew(rest, [d] + rest, v.called + [c.serial], v.withdrawn, v.answered + {c.serial}, v.wanted, v.issued, d);
    ContinuedQueue(rest, d, v.nextCmdId, v.issued);
    ContinuedOrder(v.transmitted, rest, d, c, v.nextCmdId);
    ContinuedDisposal(v.destroyed, rest, v.issued, d, c);
    ContinuedCalls(v.called + [c.serial], v.withdrawn, rest, d, v.issued);
    ContinuedRefs(v.refs, rest, d, c);
    ContinuedChains(v.refs, rest, v.finished, v.interrupted, d);
    ContinuedFreed(v.refs, v.nextRead, v.freed, v.finished, v.interrupted, c.chain.value);
  }

  lemma ContinuedKeepsGood(v: State)
    requires Good(v, None) && v.queue != [] && v.queue[0].func && v.queue[0].chain.Some?
    ensures Good(Taken(v, true), Some(v.queue[0]))
  {
    assert FreedOk(v.refs, v.nextRead, v.freed, v.finished, v.interrupted);
    hide Good, QueueOk, OrderOk, DisposalOk, CallsOk, RefsOk, ChainsOk, FreedOk, Serials, LiveOk, AllBefore,
        CallbacksOk;
    HeadOfChain(v);
    PoppedKeeps(v);
    var c := v.queue[0];
    ContinuedKeeps(v, Taken(v, true), v.queue[1..], c, Continuation(v, c));
  }

  lemma TakenKeepsGood(v: State, more: bool)
    requires Good(v, None) && v.queue != []
    ensures Good(Taken(v, more), Some(v.queue[0]))
    ensures Awake(Taken(v, more).queue, Taken(v, more).writeWatch, v.queue[1..] != [])
  {
    hide Good;
    TakenOnceKeepsGood(v);
    if more && v.queue[0].func && v.queue[0].chain.Some? { ContinuedKeepsGood(v); }
  }

  // -------------------------------------------------------------------- the class

  /** What a callback or the application may call. */
  datatype Call = Send(op: byte, func: bool) | ReadChar | Cancel(id: nat) | CancelAll

  /**
   What the main loop delivers. `Received` is one PDU: `delivered` says whether a registered
   event took it, `onEvent` what such events call, `elevated` whether raising the security
   level succeeded, `full` whether the value filled the buffer, `onResult` what the
   result callback calls.
   */
  datatype Event =
    | Called(call: Call)
    | Writable(ok: bool)
    | Unreadable
    | Received(op: byte, ecode: byte, delivered: bool, onEvent: seq<Call>, elevated: bool, full: bool,
        onResult: seq<Call>)

  /** The peer asks for more security and raising it succeeds: the request is sent again. */
  predicate Retries(e: Event)
    requires e.Received?
  {
    e.op == OP_ERROR && (e.ecode == ECODE_INSUFF_ENC || e.ecode == ECODE_AUTHENTICATION) && e.elevated
  }

  /** What a call leads to. */
  ghost predicate Done(v: State, call: Call, w: State) {
    match call
    case Send(op, func) =>
      && w.queue == v.queue + [Command(v.issued, v.nextCmdId + 1, Expected(op), false, func, None)]
      && (v.queue == [] ==> w.writeWatch)
    case ReadChar =>
      && w.queue == v.queue + [Command(v.issued, v.nextCmdId + 1, Expected(OP_READ_REQ), false, true, Some(v.nextRead))]
      && (v.queue == [] ==> w.writeWatch) && w.nextRead == v.nextRead + 1
    case Cancel(id) =>
      exists i: nat :: FoundAt(v.queue, id, i) && (if i < |v.queue| then Cancelled(v, w, i) else w == v)
    case CancelAll =>
      && (forall i | 0 <= i < |v.queue| :: v.queue[i].serial in w.withdrawn)
      && w.queue == (if v.queue != [] && v.queue[0].sent then [v.queue[0].(func := false)] else [])
      && (forall i | 0 <= i < |v.queue| && (i > 0 || !v.queue[0].sent) :: v.queue[i].serial in w.destroyed)
  }

  /** What an event of the main loop leads to; what handlers call on an incoming PDU comes before the answer. */
  ghost predicate Turned(v: State, e: Event, w: State) {
    match e
    case Called(call) => Done(v, call, w)
    case Writable(ok) =>
      if !v.writeWatch then w == v
      else if !ok || v.queue == [] then w == v.(writeWatch := false)
      else HeadWritten(v, w)
    case Unreadable => w == v.(writeWatch := v.writeWatch || v.queue != [])
    case Received(_, _, _, onEvent, _, _, _) => onEvent == [] ==> PduTaken(v, e, w)
  }

  /** The head was written: it is sent, or gone when nothing answers it. */
  ghost predicate HeadWritten(v: State, w: State)
    requires v.queue != []
  {
    var c := v.queue[0];
    && w.transmitted == v.transmitted + (if c.sent then [] else [Sending(c.id, c.chain)])
    && (if c.expected == 0 then w.queue == v.queue[1..] && c.serial in w.destroyed
        else w.queue == [c.(sent := true)] + v.queue[1..] && w.destroyed == v.destroyed)
  }

  /** What a PDU does: nothing, a wake-up, an error response to a request nobody took, or the answer of the head. */
  ghost predicate PduTaken(v: State, e: Event, w: State)
    requires e.Received?
  {
    if !IsResponse(e.op) then
      w == (if e.delivered || Expected(e.op) == 0 then v else Submitted(v, 0, false, None))
    else if Retries(e) then w == v.(writeWatch := v.writeWatch || v.queue != [])
    else if v.queue == [] then w == v
    else HeadAnswered(v, e, w)
  }

  /** The head was answered, called back if it had a callback, and destroyed; a long read went on or finished. */
  ghost predicate HeadAnswered(v: State, e: Event, w: State)
    requires e.Received? && v.queue != []
  {
    var c := v.queue[0];
    && c.serial in w.answered && c.serial in w.destroyed && (c.func ==> c.serial in w.called)
    && (c.func && c.chain.Some? && c.chain.value in v.refs ==>
          if Status(e.op, e.ecode, c.expected) == 0 && e.full then v.issued < w.issued && v.issued in w.wanted
          else c.chain.value in w.finished)
  }

  lemma AnsweredWatch(v: State, e: Event, w: State, watch: bool)
    requires e.Received? && v.queue != [] && HeadAnswered(v, e, w)
    ensures HeadAnswered(v, e, w.(writeWatch := watch))
  {
  }

  lemma TakenAnswers(v: State, e: Event, w: State)
    requires e.Received? && v.queue != []
    requires Extends(Taken(v, Status(e.op, e.ecode, v.queue[0].expected) == 0 && e.full), w)
    requires v.queue[0].serial in w.destroyed && v.queue[0].serial in w.answered
    ensures HeadAnswered(v, e, w)
  {
    hide Status;
    var c := v.queue[0];
    var u := Taken(v, Status(e.op, e.ecode, c.expected) == 0 && e.full);
    if c.func {
      assert u.called[|v.called|] == c.serial;
      if c.chain.Some? && c.chain.value in v.refs && u.finished != v.finished {
        assert u.finished[|v.finished|] == c.chain.value;
      }
    }
  }

  /** Entry `i` is withdrawn: a sent head stays without its callback, any other is gone and destroyed. */
  ghost predicate Cancelled(v: State, w: State, i: nat)
    requires i < |v.queue|
  {
    && v.queue[i].serial in w.withdrawn
    && (if i == 0 && v.queue[0].sent then w.queue == v.queue[0 := v.queue[0].(func := false)]
        else w.queue == v.queue[..i] + v.queue[i + 1..] && v.queue[i].serial in w.destroyed)
  }

  lemma CancelledAtDone(v: State, i: nat)
    requires i < |v.queue|
    ensures Cancelled(v, CancelledAt(v, i), i)
  {
    assert forall s: seq<nat>, n: nat :: n in s + [n];
  }

  lemma {:induction false} DroppedFromDone(v: State, k: nat)
    requires k <= |v.queue|
    ensures var w := DroppedFrom(v, k);
            && w.queue == v.queue[..k] && v.withdrawn <= w.withdrawn && v.destroyed <= w.destroyed
            && forall i | k <= i < |v.queue| :: v.queue[i].serial in w.withdrawn && v.queue[i].serial in w.destroyed
    decreases |v.queue| - k
  {
    if k < |v.queue| {
      var u, w := Dropped(v, k), DroppedFrom(v, k);
      DroppedFromDone(u, k);
      assert u.queue == Without(v.queue, k) && u.queue[..k] == v.queue[..k];
      assert v.queue[k].serial in u.withdrawn && u.destroyed[|v.destroyed|] == v.queue[k].serial;
      forall i | k <= i < |v.queue| ensures v.queue[i].serial in w.withdrawn && v.queue[i].serial in w.destroyed {
        if i > k { assert u.queue[i - 1] == v.queue[i]; }
      }
    }
  }

  lemma CancelledAllDone(v: State)
    ensures Done(v, CancelAll, CancelledAll(v))
  {
    if v.queue != [] && v.queue[0].sent {
      var u := Muted(v);
      DroppedFromDone(u, 1);
      assert u.queue[..1] == [v.queue[0].(func := false)];
      assert forall i | 1 <= i < |v.queue| :: u.queue[i] == v.queue[i];
    } else {
      DroppedFromDone(v, 0);
    }
  }

  /** The records only grow. */
  ghost predicate Extends(v: State, w: State) {
    && v.transmitted <= w.transmitted && v.called <= w.called && v.destroyed <= w.destroyed
    && v.freed <= w.freed && v.finished <= w.finished
    && v.withdrawn <= w.withdrawn && v.interrupted <= w.interrupted
    && v.issued <= w.issued && v.nextRead <= w.nextRead
    && v.answered <= w.answered && v.wanted <= w.wanted
  }

  lemma ExtendsTransitive(u: State, v: State, w: State)
    requires Extends(u, v) && Extends(v, w)
    ensures Extends(u, w)
  {
  }

  lemma ExtendsReflexive(v: State)
    ensures Extends(v, v)
  {
  }

  lemma WatchExtends(v: State, w: State, watch: bool)
    requires Extends(v, w)
    ensures Extends(v, w.(writeWatch := watch))
  {
  }

  lemma {:induction false} DroppedFromExtends(v: State, k: nat)
    requires k <= |v.queue|
    ensures Extends(v, DroppedFrom(v, k))
    decreases |v.queue| - k
  {
    if k < |v.queue| {
      assert Extends(v, Dropped(v, k));
      DroppedFromExtends(Dropped(v, k), k);
      ExtendsTransitive(v, Dropped(v, k), DroppedFrom(v, k));
    }
  }

  /** A step from `v` to `w` that keeps the invariant, the records and, when `awake`, the wake-ups. */
  ghost predicate Kept(v: State, w: State, hand: Option<Command>, pending: bool) {
    && Good(w, hand)
    && Extends(v, w)
    && (Awake(v.queue, v.writeWatch, pending) ==> Awake(w.queue, w.writeWatch, pending))
  }

  lemma KeptTransitive(u: State, v: State, w: State, hand: Option<Command>, pending: bool)
    requires Kept(u, v, hand, pending) && Kept(v, w, hand, pending)
    ensures Kept(u, w, hand, pending)
  {
    hide Good;
    ExtendsTransitive(u, v, w);
  }

  lemma SubmittedKept(v: State, hand: Option<Command>, pending: bool, expected: byte, func: bool)
    requires Good(v, hand)
    ensures Kept(v, Submitted(v, expected, func, None), hand, pending)
  {
    SubmittedKeepsGood(v, hand, expected, func);
    hide Good;
  }

  lemma ReadStartedKept(v: State, hand: Option<Command>, pending: bool)
    requires Good(v, hand)
    ensures Kept(v, ReadStarted(v), hand, pending)
  {
    ReadStartedKeepsGood(v, hand);
    hide Good;
  }

  lemma CancelledAtExtends(v: State, i: nat)
    requires i < |v.queue|
    ensures Extends(v, CancelledAt(v, i))
  {
  }

  lemma CancelledAtKept(v: State, hand: Option<Command>, pending: bool, i: nat)
    requires Good(v, hand) && i < |v.queue|
    ensures Kept(v, CancelledAt(v, i), hand, pending)
  {
    CancelledAtKeepsGood(v, hand, i);
    CancelledAtKeeps(v, hand, i, pending);
    CancelledAtExtends(v, i);
    hide Good, CancelledAt, Extends;
  }

  lemma {:induction false} DroppedFromKept(v: State, hand: Option<Command>, k: nat)
    requires Good(v, hand) && k <= |v.queue|
    ensures Good(DroppedFrom(v, k), hand)
    decreases |v.queue| - k
  {
    if k < |v.queue| {
      DroppedKeepsGood(v, hand, k);
      DroppedFromKept(Dropped(v, k), hand, k);
    }
  }

  lemma CancelledAllKept(v: State, hand: Option<Command>, pending: bool)
    requires Good(v, hand)
    ensures Kept(v, CancelledAll(v), hand, pending)
  {
    CancelledAllKeeps(v, hand, pending);
    hide Inv, Good, DroppedFrom;
    if v.queue != [] && v.queue[0].sent {
      CancelledAtKeepsGood(v, hand, 0);
      DroppedFromKept(Muted(v), hand, 1);
      DroppedFromExtends(Muted(v), 1);
      ExtendsTransitive(v, Muted(v), CancelledAll(v));
    } else {
      DroppedFromKept(v, hand, 0);
      DroppedFromExtends(v, 0);
    }
  }

  lemma WrittenKept(v: State)
    requires Good(v, None) && v.writeWatch
    ensures Kept(v, Written(v), None, false) && Awake(Written(v).queue, Written(v).writeWatch, false)
  {
    WrittenKeepsGood(v);
    WrittenKeepsInv(v);
    hide Good;
  }

  lemma TakenKept(v: State, more: bool)
    requires Good(v, None) && v.queue != []
    ensures var w := Taken(v, more);
            Good(w, Some(v.queue[0])) && Extends(v, w) && Awake(w.queue, w.writeWatch, v.queue[1..] != [])
  {
    TakenKeepsGood(v, more);
    hide Good;
  }

  lemma DisposedKept(v: State, c: Command)
    requires Good(v, Some(c))
    ensures Good(Disposed(v, c), None) && Extends(v, Disposed(v, c))
  {
    DisposedKeepsInv(v, c);
    hide Inv, CallbacksOk;
  }

  lemma DisposedWhole(v: State, c: Command)
    ensures var w := Disposed(v, c);
            c.serial in w.destroyed && w.queue == v.queue && w.writeWatch == v.writeWatch
  {
    assert (v.destroyed + [c.serial])[|v.destroyed|] == c.serial;
  }

  lemma EmptyWritten(v: State)
    ensures v.queue == [] ==> Written(v) == v.(writeWatch := false)
  {
  }

  lemma WatchKeepsGood(v: State, hand: Option<Command>, watch: bool)
    requires Good(v, hand)
    ensures Good(v.(writeWatch := watch), hand)
  {
    hide QueueOk, OrderOk, DisposalOk, CallsOk, RefsOk, ChainsOk, HandOk, FreedOk, LiveOk, CallbacksOk;
  }

  lemma GoodOnlyHeadSent(v: State, hand: Option<Command>)
    requires Good(v, hand)
    ensures OnlyHeadSent(v.queue)
  {
    hide OrderOk, DisposalOk, CallsOk, RefsOk, ChainsOk, HandOk, FreedOk, LiveOk, CallbacksOk;
  }

  class GAttrib {
    var queue: Queue
    var writeWatch: bool
    var nextCmdId: nat
    var issued: nat
    var refs: map<nat, nat>
    var nextRead: nat
    ghost var transmitted: seq<Sending>
    ghost var called: seq<nat>
    ghost var withdrawn: set<nat>
    ghost var destroyed: seq<nat>
    ghost var freed: seq<nat>
    ghost var finished: seq<nat>
    ghost var interrupted: set<nat>
    ghost var answered: set<nat>
    ghost var wanted: set<nat>
    ghost var calls: seq<Call>      // what the application has called

    ghost function View(): State
      reads this
    {
      State(queue, writeWatch, nextCmdId, issued, transmitted, called, withdrawn, destroyed, refs, nextRead,
            freed, finished, interrupted, answered, wanted)
    }

    constructor ()
      ensures View() == FRESH && Good(View(), None) && Awake(queue, writeWatch, false) && calls == []
    {
      queue, writeWatch, nextCmdId, issued, refs, nextRead := [], false, 0, 0, map[], 0;
      transmitted, called, withdrawn, destroyed, freed, finished, interrupted := [], [], {}, [], [], [], {};
      answered, wanted, calls := {}, {}, [];
    }

    /** `wake_up_sender`. */
    method WakeUpSender()
      modifies this`writeWatch
      ensures View() == old(View()).(writeWatch := true)
    {
      if !writeWatch { writeWatch := true; }
    }

    /** `command_destroy`, with `read_long_destroy` as the notification of a long read. */
    method CommandDestroy(c: Command)
      modifies this`destroyed, this`refs, this`freed
      ensures View() == Disposed(old(View()), c)
    {
      destroyed := destroyed + [c.serial];
      if c.chain.Some? && c.chain.value in refs && refs[c.chain.value] > 0 {
        var r := c.chain.value;
        if refs[r] == 1 {
          refs := refs - {r};
          freed := freed + [r];
        } else {
          refs := refs[r := refs[r] - 1];
        }
      }
    }

    /** `g_attrib_send` with no identifier. */
    method SendNew(op: byte, func: bool, chain: Option<nat>) returns (id: nat)
      modifies this`queue, this`nextCmdId, this`issued, this`writeWatch, this`wanted
      ensures View() == Submitted(old(View()), Expected(op), func, chain)
      ensures id == nextCmdId > old(nextCmdId)
      ensures queue == old(queue) + [Command(old(issued), id, Expected(op), false, func, chain)]
      ensures if old(queue) == [] then writeWatch else writeWatch == old(writeWatch)
    {
      nextCmdId := nextCmdId + 1;
      id := nextCmdId;
      queue := queue + [Command(issued, id, Expected(op), false, func, chain)];
      if func { wanted := wanted + {issued}; }
      issued := issued + 1;
      if |queue| == 1 { WakeUpSender(); }
    }

    /** `gatt_read_char` from offset 0. */
    method StartRead() returns (id: nat)
      modifies this`queue, this`nextCmdId, this`issued, this`writeWatch, this`wanted, this`nextRead, this`refs
      ensures View() == ReadStarted(old(View()))
    {
      var r := nextRead;
      nextRead := nextRead + 1;
      id := SendNew(OP_READ_REQ, true, Some(r));
      refs := refs[r := 1];
    }

    /** `g_queue_find_custom` with `command_cmp_by_id`. */
    method Find(id: nat) returns (i: nat)
      ensures FoundAt(queue, id, i)
    {
      i := 0;
      while i < |queue| && queue[i].id != id
        invariant i <= |queue| && forall j | 0 <= j < i :: queue[j].id != id
      {
        i := i + 1;
      }
    }

    /** Ghost record of a command withdrawn. */
    ghost method Withdraw(c: Command)
      modifies this`withdrawn, this`interrupted
      ensures View() == Interrupted(old(View()), c.chain).(withdrawn := old(withdrawn) + {c.serial})
    {
      withdrawn := withdrawn + {c.serial};
      if c.chain.Some? { interrupted := interrupted + {c.chain.value}; }
    }

    /** `g_attrib_cancel`. */
    method CancelOne(id: nat) returns (found: bool)
      modifies this
      ensures exists i: nat :: FoundAt(old(queue), id, i) && found == (i < |old(queue)|)
                  && View() == if found then CancelledAt(old(View()), i) else old(View())
      ensures calls == old(calls)
    {
      var i := Find(id);
      found := i < |queue|;
      assert FoundAt(old(queue), id, i);
      if found {
        var c := queue[i];
        Withdraw(c);
        if i == 0 && c.sent {
          queue := queue[0 := c.(func := false)];
        } else {
          queue := Without(queue, i);
          CommandDestroy(c);
        }
      }
    }

    /** The head is popped and destroyed without being answered. */
    method DropHead()
      requires queue != []
      modifies this
      ensures View() == Dropped(old(View()), 0) && calls == old(calls)
    {
      var c := queue[0];
      assert Without(queue, 0) == queue[1..];
      queue := queue[1..];
      Withdraw(c);
      CommandDestroy(c);
    }

    /** `g_attrib_cancel_all`. */
    method CancelEvery()
      requires OnlyHeadSent(queue)
      modifies this
      ensures View() == CancelledAll(old(View())) && calls == old(calls)
    {
      ghost var v := View();
      var head: Option<Command> := None;
      var first := true;
      hide Dropped, DroppedFrom, Interrupted;
      while queue != []
        invariant calls == old(calls) && (first && head.None? ==> View() == v)
        invariant !first && head.None? ==> CancelledAll(v) == DroppedFrom(View(), 0)
        invariant head.Some? ==> CancelledAll(v) == DroppedFrom(Restored(View(), head.value), 1)
        invariant !first || head.Some? ==> forall i | 0 <= i < |queue| :: !queue[i].sent
        decreases |queue|
      {
        var c := queue[0];
        if first && c.sent {
          Withdraw(c);
          queue := queue[1..];
          head := Some(c.(func := false));
          assert Restored(View(), head.value).queue == v.queue[0 := head.value];
        } else {
          first := false;
          assert head.None? ==> CancelledAll(v) == DroppedFrom(View(), 0);
          DroppedStep(View(), 0);
          if head.Some? { RestoredStep(View(), head.value); }
          DropHead();
        }
      }
      DroppedStep(View(), 0);
      if head.Some? {
        queue := [head.value] + queue;
        DroppedStep(View(), 1);
      }
    }

    /** `attrib_destroy`. */
    method Destroy()
      modifies this
      ensures View() == DroppedFrom(old(View()), 0) && queue == [] && calls == old(calls)
    {
      hide Dropped, DroppedFrom, Interrupted;
      ghost var v := View();
      while queue != []
        invariant DroppedFrom(v, 0) == DroppedFrom(View(), 0) && calls == old(calls)
        decreases |queue|
      {
        DroppedStep(View(), 0);
        DropHead();
      }
      DroppedStep(View(), 0);
    }

    /** One call of the application, from the main loop or from inside a callback. */
    method Perform(call: Call, ghost hand: Option<Command>, ghost pending: bool)
      requires Good(View(), hand)
      modifies this
      ensures Kept(old(View()), View(), hand, pending) && calls == old(calls) + [call]
      ensures Done(old(View()), call, View())
    {
      calls := calls + [call];
      ghost var v := View();
      hide Good, Kept, CancelledAll, CancelledAt, Submitted, ReadStarted;
      match call
      case Send(op, func) =>
        SubmittedKept(v, hand, pending, Expected(op), func);
        var _ := SendNew(op, func, None);
      case ReadChar =>
        ReadStartedKept(v, hand, pending);
        var _ := StartRead();
      case Cancel(id) =>
        forall i: nat | i < |v.queue|
          ensures Kept(v, CancelledAt(v, i), hand, pending) && Cancelled(v, CancelledAt(v, i), i)
        {
          CancelledAtKept(v, hand, pending, i);
          CancelledAtDone(v, i);
        }
        Unchanged(v, hand, pending);
        var _ := CancelOne(id);
      case CancelAll =>
        CancelledAllKept(v, hand, pending);
        CancelledAllDone(v);
        GoodOnlyHeadSent(v, hand);
        CancelEvery();
    }

    method PerformAll(todo: seq<Call>, ghost hand: Option<Command>, ghost pending: bool)
      requires Good(View(), hand)
      modifies this
      ensures Kept(old(View()), View(), hand, pending) && calls == old(calls) + todo
      ensures todo == [] ==> View() == old(View())
    {
      ghost var v := View();
      hide Good, Kept;
      Unchanged(v, hand, pending);
      for i := 0 to |todo|
        invariant Kept(v, View(), hand, pending) && calls == old(calls) + todo[..i]
        invariant i == 0 ==> View() == v
      {
        ghost var w := View();
        KeptIsGood(v, w, hand, pending);
        assert todo[..i + 1] == todo[..i] + [todo[i]];
        Perform(todo[i], hand, pending);
        KeptTransitive(v, w, View(), hand, pending);
      }
      assert todo[..|todo|] == todo;
    }

    /** `can_write_data`: a write that fails drops the watch and leaves the head waiting. */
    method CanWrite(ok: bool)
      requires Good(View(), None) && writeWatch
      modifies this
      ensures Good(View(), None) && Extends(old(View()), View())
      ensures View() == if ok then Written(old(View())) else old(View()).(writeWatch := false)
      ensures calls == old(calls)
      ensures ok && old(queue) != [] ==> HeadWritten(old(View()), View())
      ensures ok ==> Awake(queue, writeWatch, false)
      ensures !ok ==> (Awake(queue, writeWatch, false) <==> old(queue) == [] || old(queue)[0].sent)
    {
      hide Good, Written;
      ghost var v := View();
      WrittenKept(v);
      WatchKeepsGood(v, None, false);
      if !ok || queue == [] {
        EmptyWritten(v);
        writeWatch := false;
      } else {
        WriteHead();
      }
    }

    /** The head is written, and gone if nothing answers it. */
    method WriteHead()
      requires queue != []
      modifies this`queue, this`transmitted, this`writeWatch, this`destroyed, this`refs, this`freed
      ensures View() == Written(old(View()))
      ensures HeadWritten(old(View()), View())
    {
      hide Unref;
      var c := queue[0];
      if !c.sent { transmitted := transmitted + [Sending(c.id, c.chain)]; }
      if c.expected == 0 {
        assert Without(queue, 0) == queue[1..];
        queue := queue[1..];
        DisposedWhole(View(), c);
        CommandDestroy(c);
      } else {
        queue := queue[0 := c.(sent := true)];
        writeWatch := false;
      }
    }

    /** `cmd->func`: `read_char_helper` and `read_blob_helper` for a long read, an opaque callback otherwise. */
    method Result(c: Command, more: bool)
      requires c.func && (c.chain.Some? ==> c.chain.value in refs)
      modifies this`called, this`queue, this`issued, this`writeWatch, this`refs, this`finished, this`wanted
      ensures View() == Resulted(old(View()), c, more)
    {
      called := called + [c.serial];
      if c.chain.Some? {
        if more {
          Continue(c);
        } else {
          finished := finished + [c.chain.value];
        }
      }
    }

    /** `read_char_helper` and `read_blob_helper` ask for the next part, with the same identifier and ahead of all. */
    method Continue(c: Command)
      requires c.chain.Some? && c.chain.value in refs
      modifies this`queue, this`issued, this`writeWatch, this`refs, this`wanted
      ensures queue == [Continuation(old(View()), c)] + old(queue) && issued == old(issued) + 1
      ensures refs == old(refs)[c.chain.value := old(refs)[c.chain.value] + 1]
      ensures writeWatch == (old(writeWatch) || old(queue) == []) && wanted == old(wanted) + {old(issued)}
    {
      queue := [Command(issued, c.id, Expected(OP_READ_BLOB_REQ), false, true, c.chain)] + queue;
      wanted := wanted + {issued};
      issued := issued + 1;
      if |queue| == 1 { WakeUpSender(); }
      refs := refs[c.chain.value := refs[c.chain.value] + 1];
    }

    /** The part of `received_data` that answers the head, up to its destruction. */
    method Answer(op: byte, ecode: byte, full: bool, onResult: seq<Call>)
      requires Good(View(), None) && queue != []
      modifies this
      ensures Good(View(), None) && Extends(old(View()), View())
      ensures Extends(Taken(old(View()), Status(op, ecode, old(queue)[0].expected) == 0 && full), View())
      ensures old(queue)[0].serial in destroyed && old(queue)[0].serial in answered
      ensures old(queue)[0].func ==> old(queue)[0].serial in called
      ensures calls == old(calls) + (if old(queue)[0].func then onResult else [])
      ensures Awake(queue, writeWatch, |old(queue)| > 1)
    {
      hide Good, Taken, Disposed, Awake, Status;
      ghost var v := View();
      var more := Status(op, ecode, queue[0].expected) == 0 && full;
      var c := CallBack(more, onResult);
      ghost var x := View();
      DisposedKept(x, c);
      DisposedWhole(x, c);
      CommandDestroy(c);
      ExtendsTransitive(v, x, View());
      ExtendsTransitive(Taken(v, more), x, View());
    }

    /** The head is put aside and its callback runs, with the calls it makes. */
    method CallBack(more: bool, onResult: seq<Call>) returns (c: Command)
      requires Good(View(), None) && queue != []
      modifies this
      ensures c == old(queue)[0] && Good(View(), Some(c)) && c.serial in answered && (c.func ==> c.serial in called)
      ensures calls == old(calls) + (if c.func then onResult else [])
      ensures Extends(old(View()), View()) && Extends(Taken(old(View()), more), View())
      ensures Awake(queue, writeWatch, |old(queue)| > 1)
    {
      ghost var v := View();
      c := queue[0];
      ghost var pending := v.queue[1..] != [];
      hide Good, Taken;
      TakenKept(v, more);
      Take(more);
      ghost var w := View();
      if c.func { PerformAll(onResult, Some(c), pending); } else { Unchanged(w, Some(c), pending); }
      ExtendsTransitive(v, w, View());
    }

    /** The head is popped and its callback called. */
    method Take(more: bool)
      requires Good(View(), None) && queue != []
      modifies this
      ensures View() == Taken(old(View()), more) && calls == old(calls)
      ensures old(queue)[0].serial in answered && (old(queue)[0].func ==> old(queue)[0].serial in called)
    {
      ghost var v := View();
      var c := queue[0];
      if c.chain.Some? && c.func { HeadOfChain(v); }
      hide Good;
      hide Resulted;
      ResultedCalls(v.(queue := v.queue[1..], answered := v.answered + {c.serial}), c, more);
      queue, answered := queue[1..], answered + {c.serial};
      if c.func { Result(c, more); }
    }

    /**
     `received_data` on a PDU that was read. Leaving aside what event handlers call: other PDUs
     take nothing off the queue, an elevated security level only wakes the sender, and any
     other response goes to the head.
     */
    method ReceivedData(e: Event)
      requires e.Received? && Good(View(), None)
      modifies this
      ensures Kept(old(View()), View(), None, false)
      ensures e.onEvent == [] ==> PduTaken(old(View()), e, View())
      ensures e.onEvent == [] && IsResponse(e.op) && !Retries(e) && old(queue) != [] ==>
                calls == old(calls) + (if old(queue)[0].func then e.onResult else [])
    {
      hide Good, IsResponse, Taken, Disposed, Extends, Status, Retries, HeadAnswered;
      ghost var v := View();
      PerformAll(e.onEvent, None, false);
      ghost var w := View();
      if !IsResponse(e.op) {
        if !e.delivered && Expected(e.op) != 0 {
          SubmittedKept(w, None, false, Expected(OP_ERROR), false);
          var _ := SendNew(OP_ERROR, false, None);
          KeptTransitive(v, w, View(), None, false);
        }
        return;
      }
      if Retries(e) {
        WatchKeepsGood(w, None, true);
        WatchExtends(v, w, true);
        if queue != [] { WakeUpSender(); }
        return;
      }
      if queue == [] { return; }
      var qempty := |queue| == 1;
      Answer(e.op, e.ecode, e.full, e.onResult);
      ghost var x := View();
      ExtendsTransitive(v, w, x);
      WatchKeepsGood(x, None, true);
      WatchExtends(v, x, true);
      TakenAnswers(w, e, x);
      AnsweredWatch(w, e, x, true);
      if !qempty { WakeUpSender(); }
    }

    /** One turn of the main loop. */
    method Handle(e: Event)
      requires Good(View(), None)
      modifies this
      ensures Good(View(), None) && Extends(old(View()), View())
      ensures (e.Writable? ==> e.ok) && Awake(old(queue), old(writeWatch), false) ==> Awake(queue, writeWatch, false)
      ensures Turned(old(View()), e, View())
    {
      hide Good, Written, HeadWritten, PduTaken, Done, Extends;
      ghost var v := View();
      match e
      case Called(call) => Perform(call, None, false);
      case Writable(ok) =>
        ExtendsReflexive(v);
        if writeWatch {
          EmptyWritten(v);
          CanWrite(ok);
        }
      case Unreadable =>
        WatchKeepsGood(v, None, true);
        ExtendsReflexive(v);
        WatchExtends(v, v, true);
        if queue != [] { WakeUpSender(); }
      case Received(_, _, _, _, _, _, _) => ReceivedData(e);
    }

    /**
     Any run from the start: the invariant holds after every event, the records only grow, and
     while no write fails, what waits at the head of the queue was sent or is about to be.
     */
    method Run(events: seq<Event>) returns (ghost states: seq<State>)
      requires Good(View(), None) && Awake(queue, writeWatch, false)
      modifies this
      ensures Good(View(), None) && Extends(old(View()), View())
      ensures (forall i | 0 <= i < |events| && events[i].Writable? :: events[i].ok) ==> Awake(queue, writeWatch, false)
      ensures |states| == |events| + 1 && states[0] == old(View()) && states[|events|] == View()
      ensures forall i {:trigger events[i]} | 0 <= i < |events| :: Turned(states[i], events[i], states[i + 1])
    {
      hide Good, Awake, Turned, Extends;
      ghost var v := View();
      ExtendsReflexive(v);
      states := [v];
      for k := 0 to |events|
        invariant Good(View(), None) && Extends(v, View())
        invariant (forall i | 0 <= i < k && events[i].Writable? :: events[i].ok) ==> Awake(queue, writeWatch, false)
        invariant |states| == k + 1 && states[0] == v && states[k] == View()
        invariant forall i {:trigger events[i]} | 0 <= i < k :: Turned(states[i], events[i], states[i + 1])
      {
        ghost var w := View();
        Handle(events[k]);
        ExtendsTransitive(v, w, View());
        states := states + [View()];
      }
    }
  }

  lemma Unchanged(v: State, hand: Option<Command>, pending: bool)
    requires Good(v, hand)
    ensures Kept(v, v, hand, pending)
  {
    hide Good;
  }

  lemma KeptIsGood(v: State, w: State, hand: Option<Command>, pending: bool)
    requires Kept(v, w, hand, pending)
    ensures Good(w, hand)
  {
    hide Good;
  }

  /** A queue with the head put aside back in place. */
  function Restored(v: State, head: Command): State {
    v.(queue := [head] + v.queue)
  }

  lemma DroppedStep(v: State, k: nat)
    requires k <= |v.queue|
    ensures k == |v.queue| ==> DroppedFrom(v, k) == v
    ensures k < |v.queue| ==>
              && |Dropped(v, k).queue| == |v.queue| - 1
              && DroppedFrom(v, k) == DroppedFrom(Dropped(v, k), k)
    ensures k < |v.queue| ==> Dropped(v, k).queue == Without(v.queue, k)
  {
  }

  /** Dropping the command behind a head put aside. */
  lemma RestoredStep(v: State, head: Command)
    requires v.queue != []
    ensures DroppedFrom(Restored(v, head), 1) == DroppedFrom(Restored(Dropped(v, 0), head), 1)
  {
    assert Without([head] + v.queue, 1) == [head] + Without(v.queue, 0);
    assert Dropped(Restored(v, head), 1) == Restored(Dropped(v, 0), head);
  }

  // --------------------------------------------------------------------- theorems

  /** At most one request is out at a time, and it is the head. */
  lemma OneOutstanding(v: State, i: nat, j: nat)
    requires Good(v, None) && i < |v.queue| && j < |v.queue| && v.queue[i].sent && v.queue[j].sent
    ensures i == j == 0
  {
    hide OrderOk, DisposalOk, CallsOk, RefsOk, ChainsOk, HandOk, FreedOk, LiveOk, CallbacksOk;
  }

  /** First transmissions are in submission order; two of one identifier have only their own long read between them. */
  lemma TransmissionsInOrder(v: State, i: nat, j: nat, k: nat)
    requires Good(v, None) && i < j <= k < |v.transmitted|
    ensures v.transmitted[i].id <= v.transmitted[j].id
    ensures v.transmitted[i].id == v.transmitted[k].id ==>
              v.transmitted[i] == v.transmitted[j] && v.transmitted[i].chain.Some?
  {
    assert Ordered(v.transmitted);
    hide Inv, LiveOk;
    assert Follows(v.transmitted[i], v.transmitted[j]);
    assert j < k ==> Follows(v.transmitted[j], v.transmitted[k]);
  }

  /**
   After the tear-down every command was destroyed exactly once, and a callback ran only where nothing was
   withdrawn.
   */
  lemma DisposedExactlyOnce(v: State)
    requires Good(v, None) && v.queue == []
    ensures Distinct(v.destroyed) && forall n :: n in v.destroyed <==> 0 <= n < v.issued
    ensures Distinct(v.called) && forall n | n in v.called :: 0 <= n < v.issued && n !in v.withdrawn
  {
    assert Serials(v.queue) == {};
    hide QueueOk, OrderOk, RefsOk, ChainsOk, HandOk, FreedOk, LiveOk, Distinct;
  }

  /** A command that was answered and submitted with a callback was called back if and only if it was not withdrawn. */
  lemma CalledBackIff(v: State, hand: Option<Command>, n: nat)
    requires Good(v, hand) && n in v.wanted && n in v.answered
    ensures n in v.called <==> n !in v.withdrawn
  {
    hide QueueOk, OrderOk, DisposalOk, RefsOk, ChainsOk, HandOk, FreedOk, LiveOk, Distinct;
  }

  /** A response is to a request: every opcode expected is that of a response, and the others are the error response. */
  lemma ResponsesAnswerRequests(op: byte)
    ensures Expected(op) != 0 ==> Expected(op) == op + 1 && IsResponse(Expected(op))
    ensures IsResponse(op) <==> op == OP_ERROR || (op > 0 && Expected(op - 1) == op)
  {
  }

  /**
   After the tear-down every long read was freed exactly once, and its user callback ran once if and only if nothing
   interrupted it.
   */
  lemma LongReadsExactlyOnce(v: State)
    requires Good(v, None) && v.queue == []
    ensures Distinct(v.freed) && forall r :: r in v.freed <==> 0 <= r < v.nextRead
    ensures Distinct(v.finished) && forall r | 0 <= r < v.nextRead :: r in v.finished <==> r !in v.interrupted
  {
    assert RefsOk(v.refs, [], None);
    assert forall r :: r !in v.refs;
    hide QueueOk, OrderOk, DisposalOk, CallsOk, RefsOk, ChainsOk, HandOk, LiveOk, Distinct;
  }

  /** A whole life: any run, then `attrib_destroy`. */
  method Life(events: seq<Event>) returns (a: GAttrib)
    ensures fresh(a) && Good(a.View(), None) && a.queue == []
    ensures Distinct(a.destroyed) && forall n :: n in a.destroyed <==> 0 <= n < a.issued
    ensures Distinct(a.freed) && forall r :: r in a.freed <==> 0 <= r < a.nextRead
    ensures forall n | n in a.wanted && n in a.answered :: n in a.called <==> n !in a.withdrawn
  {
    a := new GAttrib();
    hide Good;
    ghost var states := a.Run(events);
    DroppedFromKept(a.View(), None, 0);
    a.Destroy();
    DisposedExactlyOnce(a.View());
    LongReadsExactlyOnce(a.View());
    forall n | n in a.wanted && n in a.answered ensures n in a.called <==> n !in a.withdrawn {
      CalledBackIff(a.View(), None, n);
    }
  }
}
