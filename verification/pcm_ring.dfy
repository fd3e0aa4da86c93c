/**
 The PCM ring buffer of `audio/android_audio_hw.c`, shared by the mixer thread (`out_write`)
 and the write thread (`_out_buf_thread_func`). A step is what one thread does while it holds
 `buf_lock`, up to its next loop test; while the write thread sends it holds no lock.
 */
module PcmRing {
  import opened Sequences

  const MAX_WRITE_RETRIES: nat := 5

  /** Who holds `buf_lock`. */
  datatype Owner = Nobody | Mixer | Writer

  /** Where `out_write` is; `written` frames of `data` are in the buffer. */
  datatype MixerAt =
    | Idle
    | Loop(data: seq<int>, written: nat)
    | AwaitSpace(data: seq<int>, written: nat)
    | AwaitStart(data: seq<int>, written: nat)

  /** Where the write thread is; `frames` is its local count, `chunk` what it is sending of it. */
  datatype WriterAt =
    | Waiting
    | Outer
    | Inner(frames: nat, retries: nat)
    | Writing(frames: nat, chunk: nat, retries: nat)
    | Exited

  /** A frame that left the buffer. */
  datatype Item = Delivered(frame: int) | Dropped(frame: int)

  /** The simple queue the ring stands for: what left it, in order, and what it holds. */
  datatype Fifo = Fifo(gone: seq<Item>, held: seq<int>)

  function Put(q: Fifo, s: seq<int>): Fifo {
    Fifo(q.gone, q.held + s)
  }

  function Deliver(q: Fifo, n: nat): Fifo
    requires n <= |q.held|
  {
    Fifo(q.gone + seq(n, i requires 0 <= i < n => Delivered(q.held[i])), q.held[n..])
  }

  function Drop(q: Fifo, n: nat): Fifo
    requires n <= |q.held|
  {
    Fifo(q.gone + seq(n, i requires 0 <= i < n => Dropped(q.held[i])), q.held[n..])
  }

  function Frames(s: seq<Item>): seq<int> {
    seq(|s|, i requires 0 <= i < |s| => s[i].frame)
  }

  /** Every frame that was put in, in order. */
  function All(q: Fifo): seq<int> {
    Frames(q.gone) + q.held
  }

  /** Nothing is lost, repeated or reordered: only `Put` adds a frame, at the end. */
  lemma PutConserves(q: Fifo, s: seq<int>)
    ensures All(Put(q, s)) == All(q) + s
  {
  }

  lemma PutSlice(q: Fifo, before: seq<int>, data: seq<int>, written: nat, n: nat)
    requires written + n <= |data| && All(q) == before + First(data, written)
    ensures All(Put(q, data[written..written + n])) == before + First(data, written + n)
    ensures data[written..][..n] == data[written..written + n]
  {
    PutConserves(q, data[written..written + n]);
    assert data[..written] + data[written..written + n] == data[..written + n];
  }

  lemma TakeConserves(q: Fifo, n: nat)
    requires n <= |q.held|
    ensures All(Deliver(q, n)) == All(q) == All(Drop(q, n))
    ensures Deliver(q, n).held == Drop(q, n).held == q.held[n..]
  {
    assert q.held == q.held[..n] + q.held[n..];
    assert Frames(Deliver(q, n).gone) == Frames(q.gone) + q.held[..n];
    assert Frames(Drop(q, n).gone) == Frames(q.gone) + q.held[..n];
  }

  /** The frames that left delivered, in order. */
  function DeliveredFrames(gone: seq<Item>): seq<int> {
    if gone == [] then []
    else
      var n := |gone| - 1;
      DeliveredFrames(gone[..n]) + if gone[n].Delivered? then [gone[n].frame] else []
  }

  lemma DeliveredSnoc(gone: seq<Item>, i: Item)
    ensures DeliveredFrames(gone + [i]) == DeliveredFrames(gone) + if i.Delivered? then [i.frame] else []
  {
    assert (gone + [i])[..|gone|] == gone;
  }

  lemma TakeOneMore(q: Fifo, n: nat)
    requires n < |q.held|
    ensures Deliver(q, n + 1).gone == Deliver(q, n).gone + [Delivered(q.held[n])]
    ensures Drop(q, n + 1).gone == Drop(q, n).gone + [Dropped(q.held[n])]
    ensures q.held[..n + 1] == q.held[..n] + [q.held[n]]
  {
  }

  lemma TakeNone(q: Fifo)
    ensures Deliver(q, 0).gone == q.gone && Drop(q, 0).gone == q.gone && q.held[..0] == []
  {
  }

  /** What is delivered counts as such, and what is dropped does not. */
  lemma {:induction false} TakeDelivers(q: Fifo, n: nat)
    requires n <= |q.held|
    ensures DeliveredFrames(Deliver(q, n).gone) == DeliveredFrames(q.gone) + q.held[..n]
    ensures DeliveredFrames(Drop(q, n).gone) == DeliveredFrames(q.gone)
  {
    hide DeliveredFrames, Deliver, Drop;
    if n == 0 {
      TakeNone(q);
    } else {
      var m, x := n - 1, q.held[n - 1];
      TakeDelivers(q, m);
      TakeOneMore(q, m);
      DeliveredSnoc(Deliver(q, m).gone, Delivered(x));
      DeliveredSnoc(Drop(q, m).gone, Dropped(x));
      ConcatAssociative(DeliveredFrames(q.gone), q.held[..m], [x]);
    }
  }

  /** A call of `out_write` that is over: what it was given, how many frames of that it put in, and how it ended. */
  datatype Ending = Refused | TimedOut | Returned
  datatype Write = Write(data: seq<int>, written: nat, how: Ending)

  ghost predicate WriteOk(w: Write) {
    w.written <= |w.data| && (w.how == Refused ==> w.written == 0) && (w.how == Returned ==> w.written == |w.data|)
  }

  ghost predicate WritesOk(ws: seq<Write>) {
    forall i | 0 <= i < |ws| :: WriteOk(ws[i])
  }

  /** The first `n` frames of `data`. */
  function First(data: seq<int>, n: nat): seq<int> {
    if n <= |data| then data[..n] else data
  }

  /** All frames that the calls put in, in order. */
  function Flat(ws: seq<Write>): seq<int> {
    if ws == [] then [] else Flat(ws[..|ws| - 1]) + First(ws[|ws| - 1].data, ws[|ws| - 1].written)
  }

  lemma FlatSnoc(ws: seq<Write>, w: Write)
    requires WritesOk(ws) && WriteOk(w)
    ensures WritesOk(ws + [w]) && Flat(ws + [w]) == Flat(ws) + First(w.data, w.written)
  {
    assert (ws + [w])[..|ws|] == ws;
  }

  /** What the calls were given. */
  function Inputs(ws: seq<Write>): (r: seq<seq<int>>)
    ensures |r| == |ws| && forall i | 0 <= i < |ws| :: r[i] == ws[i].data
  {
    seq(|ws|, i requires 0 <= i < |ws| => ws[i].data)
  }

  lemma InputsSnoc(ws: seq<Write>, w: Write)
    ensures Inputs(ws + [w]) == Inputs(ws) + [w.data]
  {
  }

  /** An index that ran past the end of the buffer by less than its size. */
  function Wrap(x: nat, size: nat): nat {
    if x >= size then x - size else x
  }

  lemma WrapIsMod(x: nat, size: nat)
    requires x < 2 * size
    ensures Wrap(x, size) == x % size
  {
    if x >= size { assert x % size == (x - size) % size; }
  }

  /** The frame at index `x`, around the end. */
  ghost function At(s: seq<int>, x: nat): int
    requires x < 2 * |s|
  {
    s[Wrap(x, |s|)]
  }

  /** The frames of `s` from `rd` on. */
  ghost function Ring(s: seq<int>, rd: nat, ready: nat): (r: seq<int>)
    requires rd < |s| && ready <= |s|
    ensures |r| == ready
  {
    seq(ready, i requires 0 <= i < ready => At(s, rd + i))
  }

  /** The three indices and the buffer stand for the frames `held`. */
  ghost predicate Represents(s: seq<int>, rd: nat, wr: nat, ready: nat, held: seq<int>) {
    rd < |s| && ready <= |s| && wr == Wrap(rd + ready, |s|) && held == Ring(s, rd, ready)
  }

  /** Copying a chunk behind the frames that are ready appends it and moves no other frame. */
  lemma RingAppend(s: seq<int>, t: seq<int>, rd: nat, ready: nat, chunk: seq<int>)
    requires rd < |s| && ready + |chunk| <= |s| && Wrap(rd + ready, |s|) + |chunk| <= |s|
    requires t == s[..Wrap(rd + ready, |s|)] + chunk + s[Wrap(rd + ready, |s|) + |chunk|..]
    ensures Ring(t, rd, ready + |chunk|) == Ring(s, rd, ready) + chunk
  {
    var wr, a, b := Wrap(rd + ready, |s|), Ring(s, rd, ready), Ring(t, rd, ready + |chunk|);
    forall i | 0 <= i < |b| ensures b[i] == (a + chunk)[i] {
      var p := Wrap(rd + i, |s|);
      if i < ready {
        assert p < wr || wr + |chunk| <= p;
      } else {
        assert p == wr + (i - ready);
      }
    }
  }

  /** The region that starts at `rd` and is ready is not touched by that copy. */
  lemma RegionKept(s: seq<int>, t: seq<int>, rd: nat, ready: nat, n: nat, k: nat)
    requires rd < |s| && ready + k <= |s| && n <= ready && rd + n <= |s| && Wrap(rd + ready, |s|) + k <= |s|
    requires |t| == |s|
    requires t[..Wrap(rd + ready, |s|)] == s[..Wrap(rd + ready, |s|)]
    requires t[Wrap(rd + ready, |s|) + k..] == s[Wrap(rd + ready, |s|) + k..]
    ensures t[rd..rd + n] == s[rd..rd + n]
  {
    var wr := Wrap(rd + ready, |s|);
    forall i | rd <= i < rd + n ensures t[i] == s[i] {
      if i < wr {
        assert t[..wr][i] == s[..wr][i];
      } else {
        assert t[wr + k..][i - wr - k] == s[wr + k..][i - wr - k];
      }
    }
  }

  /** Advancing the read index removes the first frames, which are contiguous. */
  lemma RingTake(s: seq<int>, rd: nat, ready: nat, n: nat)
    requires rd < |s| && n <= ready <= |s| && rd + n <= |s|
    ensures Ring(s, Wrap(rd + n, |s|), ready - n) == Ring(s, rd, ready)[n..]
    ensures Ring(s, rd, ready)[..n] == s[rd..rd + n]
  {
    var a, b := Ring(s, rd, ready), Ring(s, Wrap(rd + n, |s|), ready - n);
    forall i | 0 <= i < |b| ensures b[i] == a[n..][i] {
      assert a[n..][i] == a[n + i] == At(s, rd + (n + i));
      assert b[i] == At(s, Wrap(rd + n, |s|) + i);
    }
    forall i | 0 <= i < n ensures a[..n][i] == s[rd..rd + n][i] {
      assert a[i] == At(s, rd + i);
    }
  }

  /** The write index after `k` more frames, which do not go past the end. */
  function Advanced(i: nat, k: nat, size: nat): nat {
    if i + k == size then 0 else i + k
  }

  lemma AdvancedIsMod(i: nat, k: nat, size: nat)
    requires i < size && i + k <= size
    ensures Advanced(i, k, size) == (i + k) % size
  {
    WrapIsMod(i + k, size);
  }

  lemma RepresentsAppend(s: seq<int>, t: seq<int>, rd: nat, wr: nat, ready: nat, held: seq<int>, chunk: seq<int>,
      n: nat)
    requires Represents(s, rd, wr, ready, held) && ready + |chunk| <= |s| && wr + |chunk| <= |s|
    requires t == s[..wr] + chunk + s[wr + |chunk|..] && n <= ready && rd + n <= |s|
    ensures Represents(t, rd, Advanced(wr, |chunk|, |s|), ready + |chunk|, held + chunk)
    ensures t[rd..rd + n] == s[rd..rd + n]
  {
    RingAppend(s, t, rd, ready, chunk);
    hide Ring;
    assert t[..wr] == s[..wr] && t[wr + |chunk|..] == s[wr + |chunk|..];
    RegionKept(s, t, rd, ready, n, |chunk|);
  }

  lemma RepresentsTake(s: seq<int>, rd: nat, wr: nat, ready: nat, held: seq<int>, n: nat)
    requires Represents(s, rd, wr, ready, held) && n <= ready && rd + n <= |s|
    ensures n <= |held| && held[..n] == s[rd..rd + n]
    ensures Represents(s, Advanced(rd, n, |s|), wr, ready - n, held[n..])
  {
    RingTake(s, rd, ready, n);
    hide Ring;
  }

  // ------------------------------------------------------------ the simple machine

  /** A step of a schedule. The arguments are what the environment decides. */
  datatype Step =
    | StartWrite(data: seq<int>, initOk: bool)
    | MixerStep(timedOut: bool)
    | WriterStep(ret: int)
    | Standby
    | Enable(on: bool)
    | Cleanup
    | Suspend(on: bool, stopped: bool)
    | Exit

  /** `hasData` says that `a2dp_init` succeeded and the stream was not closed since. */
  datatype Flags = Flags(standby: bool, btEnabled: bool, suspended: bool, hasData: bool, exiting: bool)

  /** The stream with a queue in the place of the ring; of the indices only the read index is left. */
  datatype State = State(
    size: nat, period: nat, rd: nat, queue: Fifo, flags: Flags,
    owner: Owner, mixer: MixerAt, writer: WriterAt, writes: seq<Write>,
    sent: seq<int>)                 // what the sends took

  predicate Sized(v: State) {
    v.rd < v.size && |v.queue.held| <= v.size && v.period > 0
  }

  /** What fits behind the frames held without going past the end of the ring. */
  function Available(v: State): (n: nat)
    requires Sized(v)
  {
    var ready := |v.queue.held|;
    var wr := Wrap(v.rd + ready, v.size);
    if v.size - ready > v.size - wr then v.size - wr else v.size - ready
  }

  /** The frames held up to the end of the ring. */
  function Contiguous(v: State): (n: nat)
    requires Sized(v)
  {
    if |v.queue.held| > v.size - v.rd then v.size - v.rd else |v.queue.held|
  }

  /** The write thread's count covers frames that are held and contiguous. */
  predicate WriterFits(v: State)
    requires Sized(v)
  {
    match v.writer
    case Inner(frames, _) => frames <= Contiguous(v)
    case Writing(frames, chunk, _) => 1 <= chunk <= frames <= Contiguous(v)
    case _ => true
  }

  predicate MixerFits(v: State) {
    !v.mixer.Idle? ==> v.mixer.written <= |v.mixer.data|
  }

  /** Between its steps a thread holds `buf_lock` exactly where it is in its loop. */
  predicate Locked(v: State) {
    (v.owner == Writer <==> v.writer.Outer? || v.writer.Inner?) && (v.owner == Mixer <==> v.mixer.Loop?)
  }

  /** The frames put in by the calls that are over, and by the current one. */
  function Produced(v: State): seq<int> {
    if v.mixer.Idle? then Flat(v.writes) else Flat(v.writes) + First(v.mixer.data, v.mixer.written)
  }

  /** What all calls were given, the current one included. */
  function Given(v: State): seq<seq<int>> {
    if v.mixer.Idle? then Inputs(v.writes) else Inputs(v.writes) + [v.mixer.data]
  }

  /**
   The invariant: all frames that went through the queue are those the calls put in, and the sends took those
   delivered.
   */
  ghost predicate Ok(v: State) {
    && Sized(v) && WriterFits(v) && MixerFits(v) && Locked(v)
    && WritesOk(v.writes) && All(v.queue) == Produced(v) && DeliveredFrames(v.queue.gone) == v.sent
  }

  /** A step is possible: the thread that takes it can get `buf_lock`. */
  predicate Possible(owner: Owner, mixer: MixerAt, writer: WriterAt, s: Step) {
    match s
    case StartWrite(_, _) => owner == Nobody && mixer.Idle?
    case MixerStep(_) => !mixer.Idle? && (mixer.Loop? || owner == Nobody)
    case WriterStep(ret) =>
      && !writer.Exited? && (owner == Nobody || owner == Writer)
      && (writer.Writing? ==> ret <= 4 * writer.chunk)
    case Exit => owner == Nobody
    case _ => true
  }

  predicate Enabled(v: State, s: Step) {
    Possible(v.owner, v.mixer, v.writer, s)
  }

  /** `out_write` would clear the indices of a buffer that is being sent. */
  predicate ResetsInFlight(v: State, s: Step) {
    s.StartWrite? && Enabled(v, s) && v.flags.btEnabled && !v.flags.suspended && v.flags.standby && v.writer.Writing?
  }

  /** `out_standby_stream_locked`: only a stream that was initialised goes to standby. */
  function OnStandby(v: State): State {
    if v.flags.hasData then v.(flags := v.flags.(standby := true)) else v
  }

  /** A call of `out_write` that does not get to its loop. */
  function Turned(v: State, data: seq<int>): State {
    OnStandby(v).(writes := v.writes + [Write(data, 0, Refused)])
  }

  /** The indices are cleared, which loses what is still buffered. */
  function Cleared(v: State): State {
    v.(rd := 0, queue := Drop(v.queue, |v.queue.held|))
  }

  function Began(v: State, data: seq<int>, initOk: bool): State {
    if !v.flags.btEnabled || v.flags.suspended then Turned(v, data)
    else
      var v1 := if v.flags.standby then Cleared(v) else v;
      if !v.flags.hasData && !initOk then Turned(v1, data)
      else v1.(flags := v1.flags.(hasData := true), mixer := Loop(data, 0), owner := Mixer)
  }

  /** The current call of `out_write` ends. */
  function Ended(v: State, how: Ending): State
    requires !v.mixer.Idle?
  {
    var u := if how == TimedOut then OnStandby(v) else v;
    u.(mixer := Idle, owner := Nobody, writes := v.writes + [Write(v.mixer.data, v.mixer.written, how)])
  }

  /** One pass of the loop of `out_write`. */
  function Copied(v: State): State
    requires Sized(v) && MixerFits(v) && !v.mixer.Idle?
  {
    var data, written := v.mixer.data, v.mixer.written;
    var n := if Available(v) > |data| - written then |data| - written else Available(v);
    var u := v.(queue := Put(v.queue, data[written..written + n]));
    if v.flags.standby && v.flags.btEnabled then
      u.(flags := u.flags.(standby := false), mixer := AwaitStart(data, written + n), owner := Nobody)
    else u.(mixer := Loop(data, written + n), owner := Mixer)
  }

  function MixerNext(v: State, timedOut: bool): State
    requires Sized(v) && MixerFits(v) && !v.mixer.Idle?
  {
    var data, written := v.mixer.data, v.mixer.written;
    if v.mixer.AwaitStart? then v.(mixer := Loop(data, written), owner := Mixer)
    else if v.mixer.AwaitSpace? && timedOut then Ended(v, TimedOut)
    else if v.mixer.Loop? && written == |data| then Ended(v, Returned)
    else if v.mixer.Loop? && Available(v) == 0 then v.(mixer := AwaitSpace(data, written), owner := Nobody)
    else Copied(v)
  }

  /** The first `n` frames leave the queue. */
  function TakenOut(v: State, n: nat, delivered: bool): State
    requires n <= |v.queue.held|
  {
    v.(rd := Advanced(v.rd, n, v.size), queue := if delivered then Deliver(v.queue, n) else Drop(v.queue, n))
  }

  /** `a2dp_write` has returned `ret` bytes. */
  function Resumed(v: State, ret: int): State
    requires Sized(v) && WriterFits(v) && v.writer.Writing? && ret <= 4 * v.writer.chunk
  {
    var (frames, retries) := (v.writer.frames, v.writer.retries);
    if ret < 0 || (ret == 0 && retries == 0) then
      TakenOut(v, frames, false).(writer := Outer, owner := Writer, sent := v.sent)
    else if ret == 0 then v.(writer := Inner(frames, retries - 1), owner := Writer)
    else TakenOut(v, ret / 4, true).(writer := Inner(frames - ret / 4, retries), owner := Writer,
                                     sent := v.sent + v.queue.held[..ret / 4])
  }

  /** The inner loop test: send, or drop what is contiguous when standby was requested. */
  function Sending(v: State): State
    requires Sized(v) && WriterFits(v) && v.writer.Inner?
  {
    if v.flags.standby || !v.flags.btEnabled then TakenOut(v, Contiguous(v), false).(writer := Waiting, owner := Nobody)
    else
      var chunk := if v.writer.frames > v.period then v.period else v.writer.frames;
      v.(writer := Writing(v.writer.frames, chunk, v.writer.retries), owner := Nobody)
  }

  function WriterNext(v: State, ret: int): State
    requires Sized(v) && WriterFits(v) && (v.writer.Writing? ==> ret <= 4 * v.writer.chunk)
  {
    match v.writer
    case Waiting => v.(writer := Outer, owner := Writer)
    case Outer =>
      if v.flags.exiting then v.(writer := Exited, owner := Nobody)
      else if Contiguous(v) == 0 then v.(writer := Waiting, owner := Nobody)
      else v.(writer := Inner(Contiguous(v), MAX_WRITE_RETRIES))
    case Inner(frames, _) => if frames == 0 || v.flags.exiting then v.(writer := Outer) else Sending(v)
    case Writing(_, _, _) => Resumed(v, ret)
    case Exited => v
  }

  /** A change of the flags. */
  function Switched(v: State, s: Step): State {
    match s
    case Standby => OnStandby(v)
    case Enable(on) =>
      var u := v.(flags := v.flags.(btEnabled := on));
      if on then u else OnStandby(u)
    case Cleanup => v.(flags := v.flags.(hasData := false))
    case Suspend(on, stopped) =>
      var u := OnStandby(v);
      if stopped || !on then u.(flags := u.flags.(suspended := on)) else u
    case Exit => v.(flags := v.flags.(exiting := true))
    case _ => v
  }

  /** What a step does; one that is not possible waits. */
  ghost function Next(v: State, s: Step): State
    requires Ok(v)
  {
    if !Enabled(v, s) then v
    else
      match s
      case StartWrite(data, initOk) => Began(v, data, initOk)
      case MixerStep(timedOut) => MixerNext(v, timedOut)
      case WriterStep(ret) => WriterNext(v, ret)
      case _ => Switched(v, s)
  }

  // ------------------------------------------------------------ what every step keeps

  lemma TurnedKeepsOk(v: State, data: seq<int>)
    requires Ok(v) && v.mixer.Idle?
    ensures var w := Turned(v, data);
            Ok(w) && Given(w) == Given(v) + [data] && w.queue == v.queue && v.writes <= w.writes
  {
    assert First(data, 0) == [] && Flat(v.writes) + [] == Flat(v.writes);
    hide DeliveredFrames, Flat, First, All, WritesOk, Inputs;
    FlatSnoc(v.writes, Write(data, 0, Refused));
    InputsSnoc(v.writes, Write(data, 0, Refused));
    SameFits(v, Turned(v, data));
    hide Sized, WriterFits;
  }

  lemma EndedKeepsOk(v: State, how: Ending)
    requires Ok(v) && !v.mixer.Idle? && (v.mixer.Loop? || v.owner == Nobody)
    requires WriteOk(Write(v.mixer.data, v.mixer.written, how))
    ensures Ok(Ended(v, how)) && Given(Ended(v, how)) == Given(v)
    ensures Ended(v, how).queue == v.queue && v.writes <= Ended(v, how).writes
  {
    hide DeliveredFrames, Flat, First, All, Contiguous, WritesOk, WriteOk, Inputs;
    FlatSnoc(v.writes, Write(v.mixer.data, v.mixer.written, how));
    InputsSnoc(v.writes, Write(v.mixer.data, v.mixer.written, how));
    SameFits(v, Ended(v, how));
    hide Sized, WriterFits;
  }

  /** Clearing the indices keeps the invariant exactly when no send is in progress. */
  lemma ClearedKeepsOk(v: State)
    requires Ok(v) && v.owner == Nobody && v.mixer.Idle?
    ensures Ok(Cleared(v)) <==> !v.writer.Writing?
    ensures All(Cleared(v).queue) == All(v.queue) && Given(Cleared(v)) == Given(v)
  {
    hide Flat, All, WritesOk, DeliveredFrames, Drop;
    TakeConserves(v.queue, |v.queue.held|);
    TakeDelivers(v.queue, |v.queue.held|);
  }

  /** `out_write` enters its loop. */
  lemma EnteredKeepsOk(v: State, data: seq<int>)
    requires Ok(v) && v.owner == Nobody && v.mixer.Idle?
    ensures var w := v.(flags := v.flags.(hasData := true), mixer := Loop(data, 0), owner := Mixer);
            Ok(w) && Given(w) == Given(v) + [data]
  {
    assert First(data, 0) == [] && Flat(v.writes) + [] == Flat(v.writes);
    hide DeliveredFrames, Flat, First, All, WritesOk, Inputs, Contiguous;
  }

  lemma BeganKeepsOk(v: State, data: seq<int>, initOk: bool)
    requires Ok(v) && v.owner == Nobody && v.mixer.Idle? && !ResetsInFlight(v, StartWrite(data, initOk))
    ensures var w := Began(v, data, initOk);
            Ok(w) && All(w.queue) == All(v.queue) && Given(w) == Given(v) + [data] && v.writes <= w.writes
  {
    hide Ok, All, Given, Turned, Drop;
    var v1 := v;
    if v.flags.btEnabled && !v.flags.suspended && v.flags.standby {
      ClearedKeepsOk(v);
      v1 := Cleared(v);
    }
    TurnedKeepsOk(v1, data);
    EnteredKeepsOk(v1, data);
  }

  lemma BeganInFlight(v: State, data: seq<int>, initOk: bool)
    requires Ok(v) && ResetsInFlight(v, StartWrite(data, initOk))
    ensures !Ok(Began(v, data, initOk))
  {
    TakeConserves(v.queue, |v.queue.held|);
    hide DeliveredFrames, Flat, First, All, Drop, WritesOk, Inputs;
    assert Began(v, data, initOk).queue.held == [] && Began(v, data, initOk).writer == v.writer;
  }

  /** More frames behind those held leave the contiguous ones in place. */
  lemma PutFits(v: State, s: seq<int>)
    requires Sized(v) && WriterFits(v) && |s| <= Available(v)
    ensures var w := v.(queue := Put(v.queue, s)); Sized(w) && WriterFits(w)
  {
  }

  lemma CopiedKeepsOk(v: State)
    requires Ok(v) && !v.mixer.Idle? && (v.mixer.Loop? || v.owner == Nobody)
    ensures var w := Copied(v);
            Ok(w) && All(v.queue) <= All(w.queue) && Given(w) == Given(v) && w.writes == v.writes
  {
    hide DeliveredFrames, Flat, First, All, WritesOk, Inputs, Available, Contiguous;
    var data, written := v.mixer.data, v.mixer.written;
    var n := if Available(v) > |data| - written then |data| - written else Available(v);
    PutFits(v, data[written..written + n]);
    PutSlice(v.queue, Flat(v.writes), data, written, n);
    PutConserves(v.queue, data[written..written + n]);
    hide Put;
    SameFits(v.(queue := Put(v.queue, data[written..written + n])), Copied(v));
  }

  lemma SameFits(v: State, w: State)
    requires Sized(v) && WriterFits(v)
    requires w.size == v.size && w.period == v.period && w.rd == v.rd && w.queue == v.queue && w.writer == v.writer
    ensures Sized(w) && WriterFits(w)
  {
  }

  /** `out_write` goes to another place with the frames it has put in. */
  lemma MixerMoves(v: State, at: MixerAt, owner: Owner)
    requires Ok(v) && !v.mixer.Idle? && !at.Idle? && at.data == v.mixer.data && at.written == v.mixer.written
    requires v.mixer.Loop? || v.owner == Nobody
    requires owner == if at.Loop? then Mixer else Nobody
    ensures var w := v.(mixer := at, owner := owner); Ok(w) && Given(w) == Given(v)
  {
    hide DeliveredFrames, Flat, First, All, WritesOk, Inputs;
  }

  lemma MixerNextKeepsOk(v: State, timedOut: bool)
    requires Ok(v) && Enabled(v, MixerStep(timedOut))
    ensures var w := MixerNext(v, timedOut);
            Ok(w) && All(v.queue) <= All(w.queue) && Given(w) == Given(v) && v.writes <= w.writes
  {
    assert Sized(v) && MixerFits(v);
    hide Ok, All, Given, Copied, Available, Ended;
    var data, written := v.mixer.data, v.mixer.written;
    if v.mixer.AwaitStart? {
      MixerMoves(v, Loop(data, written), Mixer);
    } else if v.mixer.AwaitSpace? && timedOut {
      EndedKeepsOk(v, TimedOut);
    } else if v.mixer.Loop? && written == |data| {
      EndedKeepsOk(v, Returned);
    } else if v.mixer.Loop? && Available(v) == 0 {
      MixerMoves(v, AwaitSpace(data, written), Nobody);
    } else {
      CopiedKeepsOk(v);
    }
  }

  /** Frames that leave in one stretch leave the rest in place. */
  lemma TakenOutKeeps(v: State, n: nat, m: nat, delivered: bool)
    requires Sized(v) && n + m <= Contiguous(v)
    ensures var w := TakenOut(v, n, delivered);
            && Sized(w) && All(w.queue) == All(v.queue) && m <= Contiguous(w)
            && DeliveredFrames(w.queue.gone)
               == DeliveredFrames(v.queue.gone) + if delivered then v.queue.held[..n] else []
  {
    TakeConserves(v.queue, n);
    TakeDelivers(v.queue, n);
    hide All, Deliver, Drop, DeliveredFrames;
  }

  /** The write thread takes out `n` frames and goes to another place, where it counts on `m` more. */
  lemma WriterMoves(v: State, n: nat, m: nat, delivered: bool, at: WriterAt, owner: Owner)
    requires Ok(v) && n + m <= Contiguous(v) && v.owner != Mixer
    requires !at.Writing? && (at.Inner? ==> at.frames == m)
    requires owner == if at.Outer? || at.Inner? then Writer else Nobody
    ensures var more := if delivered then v.queue.held[..n] else [];
            var w := TakenOut(v, n, delivered).(writer := at, owner := owner, sent := v.sent + more);
            Ok(w) && All(w.queue) == All(v.queue)
  {
    TakenOutKeeps(v, n, m, delivered);
    hide DeliveredFrames, Flat, First, All, WritesOk, Contiguous, Drop, Deliver, DeliveredFrames;
  }

  /** It goes to another place and leaves the frames as they are. */
  lemma WriterGoes(v: State, at: WriterAt, owner: Owner)
    requires Ok(v) && v.owner != Mixer
    requires at.Inner? ==> at.frames <= Contiguous(v)
    requires at.Writing? ==> 1 <= at.chunk <= at.frames <= Contiguous(v)
    requires owner == if at.Outer? || at.Inner? then Writer else Nobody
    ensures Ok(v.(writer := at, owner := owner))
  {
    hide DeliveredFrames, Flat, First, All, WritesOk;
  }

  lemma ResumedKeepsOk(v: State, ret: int)
    requires Ok(v) && v.owner == Nobody && v.writer.Writing? && ret <= 4 * v.writer.chunk
    ensures var w := Resumed(v, ret);
            Ok(w) && All(w.queue) == All(v.queue) && w.writes == v.writes && w.mixer == v.mixer
  {
    var frames, retries := v.writer.frames, v.writer.retries;
    assert Sized(v) && WriterFits(v);
    hide Ok, All, TakenOut, Contiguous;
    if ret < 0 || (ret == 0 && retries == 0) {
      WriterMoves(v, frames, 0, false, Outer, Writer);
    } else if ret == 0 {
      WriterGoes(v, Inner(frames, retries - 1), Writer);
    } else {
      WriterMoves(v, ret / 4, frames - ret / 4, true, Inner(frames - ret / 4, retries), Writer);
    }
  }

  lemma SendingKeepsOk(v: State)
    requires Ok(v) && v.writer.Inner? && v.writer.frames > 0
    ensures var w := Sending(v);
            Ok(w) && All(w.queue) == All(v.queue) && w.writes == v.writes && w.mixer == v.mixer
  {
    assert Sized(v) && WriterFits(v) && v.owner != Mixer;
    hide Ok, All, TakenOut, Contiguous;
    var chunk := if v.writer.frames > v.period then v.period else v.writer.frames;
    if v.flags.standby || !v.flags.btEnabled {
      WriterMoves(v, Contiguous(v), 0, false, Waiting, Nobody);
    } else {
      WriterGoes(v, Writing(v.writer.frames, chunk, v.writer.retries), Nobody);
    }
  }

  lemma WriterNextKeepsOk(v: State, ret: int)
    requires Ok(v) && Enabled(v, WriterStep(ret))
    ensures var w := WriterNext(v, ret);
            Ok(w) && All(w.queue) == All(v.queue) && w.writes == v.writes && w.mixer == v.mixer
  {
    assert Sized(v) && WriterFits(v) && v.owner != Mixer;
    hide Ok, All, Sending, Resumed;
    match v.writer
    case Waiting => WriterGoes(v, Outer, Writer);
    case Outer =>
      WriterGoes(v, Exited, Nobody);
      WriterGoes(v, Waiting, Nobody);
      WriterGoes(v, Inner(Contiguous(v), MAX_WRITE_RETRIES), Writer);
    case Inner(frames, _) =>
      WriterGoes(v, Outer, Writer);
      if frames > 0 { SendingKeepsOk(v); }
    case Writing(_, _, _) => ResumedKeepsOk(v, ret);
  }

  lemma NextIs(v: State, s: Step)
    requires Ok(v)
    ensures Sized(v) && WriterFits(v) && MixerFits(v)
    ensures !Enabled(v, s) ==> Next(v, s) == v
    ensures Enabled(v, s) && s.StartWrite? ==> Next(v, s) == Began(v, s.data, s.initOk)
    ensures Enabled(v, s) && s.MixerStep? ==> Next(v, s) == MixerNext(v, s.timedOut)
    ensures Enabled(v, s) && s.WriterStep? ==> Next(v, s) == WriterNext(v, s.ret)
    ensures Enabled(v, s) && Switches(s) ==> Next(v, s) == Switched(v, s)
  {
    hide All, Produced, WritesOk, Began, MixerNext, WriterNext, Switched;
  }

  /**
   Which flags change: standby only for an initialised stream, and no suspension when the stream could not be
   stopped.
   */
  lemma SwitchedIs(v: State, s: Step)
    requires Switches(s)
    ensures var w := Switched(v, s);
            var rests := s.Standby? || s.Suspend? || (s.Enable? && !s.on);
            && w == v.(flags := w.flags)
            && w.flags.standby == (v.flags.standby || (rests && v.flags.hasData))
            && w.flags.btEnabled == (if s.Enable? then s.on else v.flags.btEnabled)
            && w.flags.hasData == (v.flags.hasData && !s.Cleanup?)
            && w.flags.suspended == (if s.Suspend? && (s.stopped || !s.on) then s.on else v.flags.suspended)
            && w.flags.exiting == (v.flags.exiting || s.Exit?)
  {
  }

  predicate Switches(s: Step) {
    !s.StartWrite? && !s.MixerStep? && !s.WriterStep?
  }

  lemma SwitchedKeepsOk(v: State, s: Step)
    requires Ok(v)
    ensures var w := Switched(v, s);
            Ok(w) && w.queue == v.queue && w.writes == v.writes && w.mixer == v.mixer
  {
    hide All, Flat, First, WritesOk;
    var w := Switched(v, s);
    assert w == v.(flags := w.flags);
    hide Switched;
  }

  /** A step keeps the invariant exactly when it does not clear the indices during a send. */
  lemma NextKeepsOk(v: State, s: Step)
    requires Ok(v)
    ensures Ok(Next(v, s)) <==> !ResetsInFlight(v, s)
  {
    NextIs(v, s);
    hide Ok, Next, Began, MixerNext, WriterNext, Switched, Sized, WriterFits, MixerFits;
    if Enabled(v, s) {
      match s
      case StartWrite(data, initOk) =>
        if ResetsInFlight(v, s) { BeganInFlight(v, data, initOk); } else { BeganKeepsOk(v, data, initOk); }
      case MixerStep(timedOut) => MixerNextKeepsOk(v, timedOut);
      case WriterStep(ret) => WriterNextKeepsOk(v, ret);
      case _ => SwitchedKeepsOk(v, s);
    }
  }

  /** Frames enter in `out_write` alone, and every call begun is remembered. */
  lemma NextConserves(v: State, s: Step)
    requires Ok(v) && !ResetsInFlight(v, s)
    ensures var w := Next(v, s);
            && All(v.queue) <= All(w.queue) && (!s.MixerStep? ==> All(w.queue) == All(v.queue))
            && Given(w) == Given(v) + (if Enabled(v, s) && s.StartWrite? then [s.data] else [])
            && v.writes <= w.writes
  {
    NextIs(v, s);
    assert Given(v) + [] == Given(v);
    hide Ok, Next, Began, MixerNext, WriterNext, Switched, Sized, WriterFits, MixerFits, All, Inputs;
    if Enabled(v, s) {
      match s
      case StartWrite(data, initOk) => BeganKeepsOk(v, data, initOk);
      case MixerStep(timedOut) => MixerNextKeepsOk(v, timedOut);
      case WriterStep(ret) => WriterNextKeepsOk(v, ret);
      case _ => SwitchedKeepsOk(v, s);
    }
  }

  /** The step leads from one state to the next and clears no indices during a send. */
  ghost predicate Follows(v: State, s: Step, w: State) {
    Ok(v) && !ResetsInFlight(v, s) && w == Next(v, s)
  }

  lemma FollowsNext(v: State, s: Step)
    requires Ok(v) && !ResetsInFlight(v, s)
    ensures Follows(v, s, Next(v, s))
  {
  }

  /** The states of a run over a schedule, each the successor of the one before it. */
  ghost predicate Trace(states: seq<State>, schedule: seq<Step>) {
    && |states| == |schedule| + 1 && Ok(states[|schedule|])
    && forall i {:trigger schedule[i]} | 0 <= i < |schedule| :: Follows(states[i], schedule[i], states[i + 1])
  }

  /** The same for the first `n` steps of a schedule. */
  ghost predicate TraceUpTo(states: seq<State>, schedule: seq<Step>, n: nat) {
    && n <= |schedule| && |states| == n + 1 && Ok(states[n])
    && forall i {:trigger schedule[i]} | 0 <= i < n :: Follows(states[i], schedule[i], states[i + 1])
  }

  lemma TraceUpToNext(states: seq<State>, schedule: seq<Step>, n: nat, w: State)
    requires TraceUpTo(states, schedule, n) && n < |schedule| && Follows(states[n], schedule[n], w)
    ensures TraceUpTo(states + [w], schedule, n + 1)
  {
    hide Ok, Next, ResetsInFlight;
    NextKeepsOk(states[n], schedule[n]);
    hide Follows;
    var states' := states + [w];
    forall i | 0 <= i <= n ensures Follows(states'[i], schedule[i], states'[i + 1]) {
    }
  }

  lemma TraceOfPrefix(states: seq<State>, schedule: seq<Step>, n: nat)
    requires TraceUpTo(states, schedule, n)
    ensures |states| == n + 1 && Trace(states, schedule[..n])
  {
    hide Ok, Follows;
    forall i | 0 <= i < n ensures Follows(states[i], schedule[..n][i], states[i + 1]) {
      assert schedule[..n][i] == schedule[i];
    }
  }

  lemma TraceStarts(v: State, schedule: seq<Step>)
    requires Ok(v)
    ensures TraceUpTo([v], schedule, 0)
  {
  }

  /** The data of the calls that the steps taken begin. */
  function Started(states: seq<State>, schedule: seq<Step>): seq<seq<int>>
    requires |states| >= |schedule|
  {
    if schedule == [] then []
    else
      var n := |schedule| - 1;
      Started(states[..n], schedule[..n])
      + if Enabled(states[n], schedule[n]) && schedule[n].StartWrite? then [schedule[n].data] else []
  }

  lemma {:induction false} StartedPrefix(states: seq<State>, schedule: seq<Step>)
    requires |states| >= |schedule|
    ensures Started(states, schedule) == Started(states[..|schedule|], schedule)
  {
    if schedule != [] {
      var n := |schedule| - 1;
      assert states[..n + 1][..n] == states[..n];
    }
  }

  lemma TraceFront(states: seq<State>, schedule: seq<Step>)
    requires Trace(states, schedule) && schedule != []
    ensures Trace(states[..|schedule|], schedule[..|schedule| - 1])
    ensures Follows(states[|schedule| - 1], schedule[|schedule| - 1], states[|schedule|])
  {
    var n := |schedule| - 1;
    assert Follows(states[n], schedule[n], states[n + 1]);
    hide Next, ResetsInFlight, Ok;
    assert Ok(states[n]);
    hide Follows;
    var states', schedule' := states[..n + 1], schedule[..n];
    forall i | 0 <= i < n ensures Follows(states'[i], schedule'[i], states'[i + 1]) {
      assert schedule'[i] == schedule[i];
    }
  }

  /** Over a whole run no frame is lost and the calls are those begun by the steps that were possible. */
  lemma {:induction false} TraceConserves(states: seq<State>, schedule: seq<Step>)
    requires |states| == |schedule| + 1 && Trace(states, schedule)
    ensures Conserves(states[0], states[|schedule|], Started(states, schedule))
  {
    hide Trace, Conserves, Next, ResetsInFlight, Ok, Started;
    if schedule == [] {
      ConservesNothing(states);
    } else {
      var n := |schedule| - 1;
      TraceFront(states, schedule);
      TraceConserves(states[..n + 1], schedule[..n]);
      NextConserves(states[n], schedule[n]);
      StartedLast(states, schedule);
      ConservesMore(states[0], states[n], states[n + 1], Started(states[..n + 1], schedule[..n]), schedule[n]);
    }
  }

  /** No frame is lost from `v` to `w`, and the calls begun in between are the `started` ones. */
  ghost predicate Conserves(v: State, w: State, started: seq<seq<int>>) {
    All(v.queue) <= All(w.queue) && v.writes <= w.writes && Given(w) == Given(v) + started
  }

  lemma ConservesNothing(states: seq<State>)
    requires |states| == 1
    ensures Conserves(states[0], states[0], Started(states, []))
  {
    assert Given(states[0]) + [] == Given(states[0]);
  }

  lemma ConservesMore(u: State, v: State, w: State, started: seq<seq<int>>, s: Step)
    requires Conserves(u, v, started)
    requires All(v.queue) <= All(w.queue) && v.writes <= w.writes
    requires Given(w) == Given(v) + if Enabled(v, s) && s.StartWrite? then [s.data] else []
    ensures Conserves(u, w, started + if Enabled(v, s) && s.StartWrite? then [s.data] else [])
  {
    hide All, Given, Enabled;
    ConcatAssociative(Given(u), started, if Enabled(v, s) && s.StartWrite? then [s.data] else []);
  }

  lemma StartedLast(states: seq<State>, schedule: seq<Step>)
    requires |states| > |schedule| > 0
    ensures var n := |schedule| - 1;
            Started(states, schedule) == Started(states[..n + 1], schedule[..n])
              + if Enabled(states[n], schedule[n]) && schedule[n].StartWrite? then [schedule[n].data] else []
  {
    var n := |schedule| - 1;
    StartedPrefix(states[..n + 1], schedule[..n]);
    assert states[..n + 1][..n] == states[..n];
  }

  // ------------------------------------------------------------ the stream

  /** What is being sent is in the buffer `s` as it was given. */
  ghost predicate Carries(s: seq<int>, rd: nat, ready: nat, writer: WriterAt, flight: seq<int>) {
    writer.Writing? ==> rd + writer.chunk <= |s| && writer.chunk <= ready && s[rd..rd + writer.chunk] == flight
  }

  class Stream {
    const buf: array<int>
    const period: nat          // frames in `buffer_size` bytes
    var rd: nat
    var wr: nat
    var ready: nat
    var standby: bool
    var btEnabled: bool
    var suspended: bool
    var hasData: bool          // `a2dp_init` succeeded and the stream was not closed since
    var writeBusy: bool
    var exiting: bool
    var owner: Owner
    var mixer: MixerAt
    var writer: WriterAt
    ghost var queue: Fifo
    ghost var writes: seq<Write> // the calls of `out_write` that are over
    ghost var flight: seq<int>   // what `a2dp_write` was given
    ghost var sent: seq<int>     // what it took

    ghost function View(): State
      reads this
    {
      State(buf.Length, period, rd, queue, Flags(standby, btEnabled, suspended, hasData, exiting), owner, mixer,
            writer, writes, sent)
    }

    /** The ring holds the frames of the queue, and what is being sent is as it was given. */
    ghost predicate Rep()
      reads this, buf
    {
      && Represents(buf[..], rd, wr, ready, queue.held)
      && writeBusy == writer.Writing?
      && Carries(buf[..], rd, ready, writer, flight)
    }

    ghost predicate Valid()
      reads this, buf
    {
      Rep() && Ok(View())
    }

    constructor (size: nat, period: nat, btEnabled: bool, suspended: bool)
      requires size > 0 && period > 0
      ensures Valid() && fresh(buf) && View() == Fresh(size, period, btEnabled, suspended)
    {
      buf := new int[size];
      this.period := period;
      rd, wr, ready := 0, 0, 0;
      standby, hasData, writeBusy, exiting := false, false, false, false;
      this.btEnabled, this.suspended := btEnabled, suspended;
      owner, mixer, writer := Nobody, Idle, Waiting;
      queue, writes, flight, sent := Fifo([], []), [], [], [];
    }

    /** `_out_frames_available_locked`: what fits without wrapping. */
    method FramesAvailable() returns (n: nat)
      requires Rep() && Sized(View())
      ensures n == Available(View()) && ready + n <= buf.Length && wr + n <= buf.Length
      ensures n == 0 <==> ready == buf.Length
    {
      n := buf.Length - ready;
      if n > buf.Length - wr { n := buf.Length - wr; }
    }

    /** `_out_frames_ready_locked`: what can be sent without wrapping. */
    method FramesReady() returns (n: nat)
      requires Rep() && Sized(View())
      ensures n == Contiguous(View()) && n <= ready && rd + n <= buf.Length
      ensures n == 0 <==> ready == 0
      ensures n == ready || rd + n == buf.Length
    {
      n := ready;
      if n > buf.Length - rd { n := buf.Length - rd; }
    }

    /** `_out_inc_rd_idx_locked`: the first frames leave the buffer, delivered or dropped. */
    method IncRd(n: nat, ghost delivered: bool)
      requires Represents(buf[..], rd, wr, ready, queue.held) && n <= ready && rd + n <= buf.Length
      modifies this`rd, this`ready, this`queue
      ensures n <= |old(queue).held| && View() == TakenOut(old(View()), n, delivered)
      ensures rd == Advanced(old(rd), n, buf.Length)
      ensures Represents(buf[..], rd, wr, ready, queue.held) && ready == old(ready) - n
    {
      RepresentsTake(buf[..], rd, wr, ready, queue.held, n);
      TakeConserves(queue, n);
      hide Represents, All, Drop, Deliver;
      rd := rd + n;
      ready := ready - n;
      if rd == buf.Length { rd := 0; }
      queue := if delivered then Deliver(queue, n) else Drop(queue, n);
    }

    /** The `memcpy` and `_out_inc_wr_idx_locked`: the chunk is appended, the region being sent is not touched. */
    method Copy(chunk: seq<int>, ghost n: nat)
      requires Represents(buf[..], rd, wr, ready, queue.held) && ready + |chunk| <= buf.Length
      requires wr + |chunk| <= buf.Length
      requires n <= ready && rd + n <= buf.Length
      modifies this`wr, this`ready, this`queue, buf
      ensures Represents(buf[..], rd, wr, ready, queue.held) && ready == old(ready) + |chunk|
      ensures queue == Put(old(queue), chunk)
      ensures buf[..][rd..rd + n] == old(buf[..])[rd..rd + n]
    {
      hide Represents;
      ghost var s := buf[..];
      CopyInto(buf, wr, chunk);
      Appended(s, chunk, n);
      AddReady(chunk);
    }

    /** `_out_inc_wr_idx_locked`. */
    method AddReady(chunk: seq<int>)
      modifies this`wr, this`ready, this`queue
      ensures wr == Advanced(old(wr), |chunk|, buf.Length) && ready == old(ready) + |chunk|
      ensures queue == Put(old(queue), chunk) && queue.held == old(queue.held) + chunk
    {
      queue := Put(queue, chunk);
      wr := wr + |chunk|;
      ready := ready + |chunk|;
      if wr == buf.Length { wr := 0; }
    }

    /** The buffer was `s` and has the chunk at the write index now. */
    lemma Appended(s: seq<int>, chunk: seq<int>, n: nat)
      requires Represents(s, rd, wr, ready, queue.held) && ready + |chunk| <= |s| && wr + |chunk| <= |s|
      requires buf[..] == s[..wr] + chunk + s[wr + |chunk|..] && n <= ready && rd + n <= |s|
      ensures |s| == buf.Length && buf[..][rd..rd + n] == s[rd..rd + n]
      ensures Represents(buf[..], rd, Advanced(wr, |chunk|, |s|), ready + |chunk|, queue.held + chunk)
    {
      assert |s[..wr]| == wr && |s[wr + |chunk|..]| == |s| - wr - |chunk|;
      RepresentsAppend(s, buf[..], rd, wr, ready, queue.held, chunk, n);
    }

    /** The indices are cleared, which keeps the invariant exactly when no send is in progress. */
    method Reset()
      requires Valid() && owner == Nobody && mixer.Idle?
      modifies this`rd, this`wr, this`ready, this`queue
      ensures View() == Cleared(old(View())) && ready == 0
      ensures Valid() <==> !writeBusy
    {
      ClearedKeepsOk(View());
      hide All, Ok;
      queue := Drop(queue, |queue.held|);
      rd, wr, ready := 0, 0, 0;
    }

    /** `out_standby_stream_locked`. */
    method GoToStandby()
      modifies this`standby
      ensures View() == OnStandby(old(View())) && standby == (old(standby) || hasData)
    {
      if standby || !hasData { return; }
      standby := true;
    }

    /** A call of `out_write` that does not get to its loop. */
    method RefuseWrite(data: seq<int>)
      modifies this`standby, this`writes
      ensures View() == Turned(old(View()), data)
    {
      GoToStandby();
      writes := writes + [Write(data, 0, Refused)];
    }

    /** The beginning of `out_write`, up to its loop. */
    method StartWriting(data: seq<int>, initOk: bool)
      requires Valid() && Enabled(View(), StartWrite(data, initOk)) && !ResetsInFlight(View(), StartWrite(data, initOk))
      modifies this
      ensures Rep() && View() == Began(old(View()), data, initOk)
      ensures mixer == if btEnabled && !suspended && (old(hasData) || initOk) then Loop(data, 0) else Idle
      ensures writes == old(writes) + if mixer.Idle? then [Write(data, 0, Refused)] else []
      ensures queue == if btEnabled && !suspended && old(standby)
                       then Drop(old(queue), |old(queue).held|) else old(queue)
    {
      hide Ok, Represents, Drop;
      if !btEnabled || suspended {
        RefuseWrite(data);
        return;
      }
      if standby {
        Reset();
      }
      if !hasData && !initOk {
        RefuseWrite(data);
        return;
      }
      hasData, mixer, owner := true, Loop(data, 0), Mixer;
    }

    /** The current call of `out_write` ends. */
    method EndWrite(how: Ending)
      requires !mixer.Idle?
      modifies this`standby, this`mixer, this`owner, this`writes
      ensures View() == Ended(old(View()), how) && mixer.Idle? && owner == Nobody
      ensures writes == old(writes) + [Write(old(mixer.data), old(mixer.written), how)]
      ensures standby == (old(standby) || (how == TimedOut && hasData))
    {
      if how == TimedOut { GoToStandby(); }
      writes := writes + [Write(mixer.data, mixer.written, how)];
      mixer, owner := Idle, Nobody;
    }

    /** A chunk that fits is put in, also during a send. */
    method Fill(chunk: seq<int>)
      requires Rep() && ready + |chunk| <= buf.Length && wr + |chunk| <= buf.Length
      modifies this`wr, this`ready, this`queue, buf
      ensures Rep() && View() == old(View()).(queue := Put(old(queue), chunk))
    {
      assert rd < buf.Length;
      hide Represents, Put;
      Copy(chunk, if writer.Writing? then writer.chunk else 0);
    }

    /** One pass of the loop of `out_write` with `buf_lock` held: copy what fits, up to the end of the buffer. */
    method MixerCopies(frames: nat)
      requires Rep() && Sized(View()) && MixerFits(View()) && !mixer.Idle? && frames == Available(View())
      requires ready + frames <= buf.Length && wr + frames <= buf.Length
      modifies this`wr, this`ready, this`queue, this`standby, this`mixer, this`owner, buf
      ensures Rep() && View() == Copied(old(View()))
      ensures var n := if frames > |old(mixer.data)| - old(mixer.written) then |old(mixer.data)| - old(mixer.written)
                       else frames;
              && !mixer.Idle? && mixer.data == old(mixer.data) && mixer.written == old(mixer.written) + n
              && ready == old(ready) + n
    {
      var data, written := mixer.data, mixer.written;
      var n := frames;
      hide Represents, Put, Available, Carries;
      if n > |data| - written { n := |data| - written; }
      Fill(data[written..written + n]);
      if standby && btEnabled {
        standby := false;
        mixer, owner := AwaitStart(data, written + n), Nobody;
      } else {
        mixer, owner := Loop(data, written + n), Mixer;
      }
    }

    /** The next step of `out_write`. */
    method MixerSteps(timedOut: bool)
      requires Rep() && Sized(View()) && MixerFits(View()) && !mixer.Idle?
      modifies this`wr, this`ready, this`queue, this`standby, this`mixer, this`owner, this`writes, buf
      ensures Rep() && View() == MixerNext(old(View()), timedOut)
    {
      hide Represents, Copied, Ended;
      var data, written := mixer.data, mixer.written;
      if mixer.AwaitStart? {
        mixer, owner := Loop(data, written), Mixer;
        return;
      }
      if mixer.AwaitSpace? && timedOut {
        EndWrite(TimedOut);
        return;
      }
      if mixer.Loop? && written == |data| {
        EndWrite(Returned);
        return;
      }
      var frames := FramesAvailable();
      hide Available;
      if frames == 0 && mixer.Loop? {
        mixer, owner := AwaitSpace(data, written), Nobody;
        return;
      }
      MixerCopies(frames);
    }

    /** `a2dp_write` has returned `ret` bytes, at most what it was given; what is delivered is what it was given. */
    method WriterResumes(ret: int)
      requires Rep() && Sized(View()) && WriterFits(View()) && writer.Writing? && ret <= 4 * writer.chunk
      modifies this`rd, this`ready, this`queue, this`writeBusy, this`writer, this`owner, this`sent
      ensures Rep() && View() == Resumed(old(View()), ret)
      ensures var moved := if ret < 0 || (ret == 0 && old(writer.retries) == 0) then old(writer.frames) else ret / 4;
              && rd == (old(rd) + moved) % buf.Length && ready == old(ready) - moved
              && (moved == old(writer.frames) || (writer.Inner? && writer.frames == old(writer.frames) - moved))
      ensures sent == old(sent) + if ret > 0 then old(flight)[..ret / 4] else []
      ensures ret > 0 ==> ret / 4 <= |flight| && old(queue).held[..ret / 4] == flight[..ret / 4]
    {
      hide TakenOut, Sized, WriterFits, Advanced, Represents, Carries;
      var frames, retries := writer.frames, writer.retries;
      WriterFacts(ret);
      if ret < 0 || (ret == 0 && retries == 0) {
        AdvancedIsMod(rd, frames, buf.Length);
        WriterTakes(frames, false, Outer, []);
        assert sent == old(sent);
      } else if ret == 0 {
        NothingMoves(ret);
        writeBusy, owner, writer := false, Writer, Inner(frames, retries - 1);
      } else {
        AdvancedIsMod(rd, ret / 4, buf.Length);
        WriterTakes(ret / 4, true, Inner(frames - ret / 4, retries), flight[..ret / 4]);
      }
    }

    lemma WriterFacts(ret: int)
      requires Rep() && Sized(View()) && WriterFits(View()) && writer.Writing? && ret <= 4 * writer.chunk
      ensures rd < buf.Length && writer.frames <= ready && rd + writer.frames <= buf.Length && ready <= |queue.held|
      ensures ret > 0 ==>
                && 0 <= ret / 4 <= writer.chunk <= writer.frames && writer.chunk == |flight|
                && queue.held[..ret / 4] == flight[..ret / 4]
    {
      InFlight();
      assert ret > 0 ==> queue.held[..writer.chunk][..ret / 4] == queue.held[..ret / 4];
    }

    /** What is not being sent carries nothing. */
    lemma NothingMoves(ret: int)
      requires Rep() && rd < buf.Length && ret == 0
      ensures rd == (rd + ret / 4) % buf.Length
      ensures forall frames, retries :: Carries(buf[..], rd, ready, Inner(frames, retries), flight)
    {
    }

    /** The write thread has its answer, takes frames out and goes on. */
    method WriterTakes(n: nat, ghost delivered: bool, at: WriterAt, ghost took: seq<int>)
      requires Represents(buf[..], rd, wr, ready, queue.held) && n <= ready && rd + n <= buf.Length && !at.Writing?
      modifies this`rd, this`ready, this`queue, this`writeBusy, this`writer, this`owner, this`sent
      ensures n <= |old(queue).held| && Rep() && rd == Advanced(old(rd), n, buf.Length) && ready == old(ready) - n
      ensures sent == old(sent) + took
      ensures View() == TakenOut(old(View()), n, delivered).(writer := at, owner := Writer, sent := sent)
    {
      hide Represents, TakenOut;
      IncRd(n, delivered);
      sent := sent + took;
      writeBusy, owner, writer := false, Writer, at;
    }

    /** What is being sent are the first frames of the queue. */
    lemma InFlight()
      requires Rep() && writer.Writing?
      ensures writer.chunk <= |queue.held| && flight == queue.held[..writer.chunk]
    {
      RepresentsTake(buf[..], rd, wr, ready, queue.held, writer.chunk);
    }

    /** The inner loop test: send, or drop what is contiguous when standby was requested. */
    method WriterSends()
      requires Rep() && Sized(View()) && WriterFits(View()) && writer.Inner?
      modifies this`rd, this`ready, this`queue, this`writeBusy, this`writer, this`owner, this`flight
      ensures Rep() && View() == Sending(old(View()))
      ensures writer.Writing? ==>
                && writer.chunk <= period && writer.chunk <= |queue.held|
                && flight == queue.held[..writer.chunk]
    {
      if standby || !btEnabled {
        var n := FramesReady();
        hide TakenOut, Represents, Contiguous;
        IncRd(n, false);
        writer, owner := Waiting, Nobody;
      } else {
        var chunk := if writer.frames > period then period else writer.frames;
        assert rd + chunk <= buf.Length && chunk <= ready;
        RepresentsTake(buf[..], rd, wr, ready, queue.held, chunk);
        hide Represents;
        flight := buf[rd..rd + chunk];
        writeBusy := true;
        writer, owner := Writing(writer.frames, chunk, writer.retries), Nobody;
      }
    }

    /** The next step of `_out_buf_thread_func`. */
    method WriterSteps(ret: int)
      requires Rep() && Sized(View()) && WriterFits(View()) && !writer.Exited?
      requires writer.Writing? ==> ret <= 4 * writer.chunk
      modifies this`rd, this`ready, this`queue, this`writeBusy, this`writer, this`owner, this`flight, this`sent
      ensures Rep() && View() == WriterNext(old(View()), ret)
    {
      hide Represents, Sending, Resumed;
      match writer
      case Waiting => writer, owner := Outer, Writer;
      case Outer =>
        var frames := FramesReady();
        hide Contiguous;
        if exiting { writer, owner := Exited, Nobody; }
        else if frames == 0 { writer, owner := Waiting, Nobody; }
        else { writer := Inner(frames, MAX_WRITE_RETRIES); }
      case Inner(frames, _) =>
        if frames == 0 || exiting { writer := Outer; } else { WriterSends(); }
      case Writing(frames, chunk, _) => WriterResumes(ret);
    }

    /** A step, if it is possible. */
    method Take(s: Step)
      requires Valid() && !ResetsInFlight(View(), s)
      modifies this, buf
      ensures Valid() && View() == Next(old(View()), s)
    {
      ghost var v := View();
      NextIs(v, s);
      NextKeepsOk(v, s);
      hide Ok, Rep, Next, Began, MixerNext, WriterNext, Switched, Sized, WriterFits, MixerFits;
      if Possible(owner, mixer, writer, s) {
        match s
        case StartWrite(data, initOk) => StartWriting(data, initOk);
        case MixerStep(timedOut) => MixerSteps(timedOut);
        case WriterStep(ret) => WriterSteps(ret);
        case _ => Switch(s);
      }
    }

    /** A change of the flags. */
    method Switch(s: Step)
      requires Switches(s) && Rep()
      modifies this`standby, this`btEnabled, this`suspended, this`hasData, this`exiting
      ensures Rep() && View() == Switched(old(View()), s)
    {
      hide Represents, Carries;
      match s
      case Standby => GoToStandby();
      case Enable(on) =>
        btEnabled := on;
        if !on { GoToStandby(); }
      case Cleanup => hasData := false;
      case Suspend(on, stopped) =>
        GoToStandby();
        if stopped || !on { suspended := on; }
      case Exit => exiting := true;
    }

    /**
     Any interleaving, from any valid state: the stream with its ring goes through the states of the simple machine
     with its queue. The frames that went through are exactly those that the calls of `out_write` put in, in order,
     and a call that returned put in all it was given; the calls are those begun by the steps that were possible.
     The indices agree and what is being sent stays as it was given. The run stops early only at a step that would
     clear the indices during a send.
     */
    method Run(schedule: seq<Step>) returns (done: nat, ghost states: seq<State>)
      requires Valid()
      modifies this, buf
      ensures Valid() && done <= |schedule| && Trace(states, schedule[..done])
      ensures states[0] == old(View()) && states[done] == View()
      ensures All(queue) == Produced(View()) && All(old(queue)) <= All(queue) && old(writes) <= writes
      ensures DeliveredFrames(queue.gone) == sent
      ensures forall i | 0 <= i < |writes| && writes[i].how == Returned :: writes[i].written == |writes[i].data|
      ensures Given(View()) == Given(old(View())) + Started(states, schedule[..done])
      ensures wr == (rd + ready) % buf.Length
      ensures writer.Writing? ==> buf[rd..rd + writer.chunk] == flight == queue.held[..writer.chunk]
      ensures done < |schedule| ==> ResetsInFlight(View(), schedule[done])
    {
      hide Ok, Rep, All, Produced, Given, Started, Next, ResetsInFlight;
      done, states := Steps(schedule);
      TraceConserves(states, schedule[..done]);
      hide Trace;
      OkMeans(View());
      RepMeans();
    }

    /** The write index is behind the frames ready, and what is being sent is the first of them. */
    lemma RepMeans()
      requires Rep()
      ensures rd < buf.Length && wr == (rd + ready) % buf.Length
      ensures writer.Writing? ==>
                && rd + writer.chunk <= buf.Length && writer.chunk <= |queue.held|
                && buf[rd..rd + writer.chunk] == flight == queue.held[..writer.chunk]
    {
      WrapIsMod(rd + ready, buf.Length);
      if writer.Writing? { InFlight(); }
    }

    predicate ResetsNow(s: Step)
      reads this, buf
      ensures Rep() ==> (ResetsNow(s) <==> ResetsInFlight(View(), s))
    {
      s.StartWrite? && Possible(owner, mixer, writer, s) && btEnabled && !suspended && standby && writeBusy
    }

    /** The steps of a schedule, one after the other. */
    method Steps(schedule: seq<Step>) returns (done: nat, ghost states: seq<State>)
      requires Valid()
      modifies this, buf
      ensures Valid() && done <= |schedule| && Trace(states, schedule[..done])
      ensures states[0] == old(View()) && states[done] == View()
      ensures done < |schedule| ==> ResetsInFlight(View(), schedule[done])
    {
      done, states := 0, [View()];
      TraceStarts(View(), schedule);
      hide Rep, Ok, ResetsInFlight, Next, Trace, Follows, TraceUpTo;
      while done < |schedule| && !ResetsNow(schedule[done])
        invariant Valid() && done <= |schedule| && |states| == done + 1 && TraceUpTo(states, schedule, done)
        invariant states[0] == old(View()) && states[done] == View()
      {
        ghost var v := View();
        Take(schedule[done]);
        FollowsNext(v, schedule[done]);
        TraceUpToNext(states, schedule, done, View());
        states := states + [View()];
        done := done + 1;
      }
      TraceOfPrefix(states, schedule, done);
    }
  }

  /** A stream that was just opened. */
  function Fresh(size: nat, period: nat, btEnabled: bool, suspended: bool): State {
    State(size, period, 0, Fifo([], []), Flags(false, btEnabled, suspended, false, false), Nobody, Idle, Waiting, [],
          [])
  }

  lemma OkMeans(v: State)
    requires Ok(v)
    ensures All(v.queue) == Produced(v) && DeliveredFrames(v.queue.gone) == v.sent
    ensures forall i | 0 <= i < |v.writes| && v.writes[i].how == Returned :: v.writes[i].written == |v.writes[i].data|
  {
    assert forall i | 0 <= i < |v.writes| :: WriteOk(v.writes[i]);
  }

  /**
   With no skip and no drain, the frames delivered and then those held are the frames that the calls put in, in
   order.
   */
  lemma DeliveredInOrder(v: State)
    requires Ok(v) && forall i | 0 <= i < |v.queue.gone| :: v.queue.gone[i].Delivered?
    ensures |v.queue.gone| + |v.queue.held| == |Produced(v)|
    ensures forall i | 0 <= i < |v.queue.gone| :: v.queue.gone[i] == Delivered(Produced(v)[i])
    ensures v.queue.held == Produced(v)[|v.queue.gone|..]
  {
    var q := v.queue;
    assert Produced(v) == All(q) == Frames(q.gone) + q.held;
    forall i | 0 <= i < |q.gone| ensures q.gone[i] == Delivered(Produced(v)[i]) {
      assert All(q)[i] == Frames(q.gone)[i];
    }
  }

  // ------------------------------------------------------------ a reset during a send

  /** One frame is written and sent; before the send returns the stream goes to standby. */
  function SendThenStandby(): seq<Step> {
    [StartWrite([7], true), MixerStep(false), MixerStep(false), WriterStep(0), WriterStep(0), WriterStep(0), Standby]
  }

  /** The states that a new stream goes through. */
  function SendThenStandbyStates(): seq<State> {
    var v0 := Fresh(4, 4, true, false);
    var v1 := v0.(flags := v0.flags.(hasData := true), mixer := Loop([7], 0), owner := Mixer);
    var v2 := v1.(queue := Fifo([], [7]), mixer := Loop([7], 1));
    var v3 := v2.(mixer := Idle, owner := Nobody, writes := [Write([7], 1, Returned)]);
    var v4 := v3.(writer := Outer, owner := Writer);
    var v5 := v4.(writer := Inner(1, MAX_WRITE_RETRIES));
    var v6 := v5.(writer := Writing(1, 1, MAX_WRITE_RETRIES), owner := Nobody);
    [v0, v1, v2, v3, v4, v5, v6, v6.(flags := v6.flags.(standby := true))]
  }

  /** One state follows the other as long as the invariant holds. */
  lemma SendThenStandbyFollows(i: nat)
    requires i < 7 && Ok(SendThenStandbyStates()[i])
    ensures Follows(SendThenStandbyStates()[i], SendThenStandby()[i], SendThenStandbyStates()[i + 1])
  {
    hide Ok, Next;
    var v, s, w := SendThenStandbyStates()[i], SendThenStandby()[i], SendThenStandbyStates()[i + 1];
    NextIs(v, s);
    if i == 0 {
      hide MixerNext, WriterNext, Switched;
    } else if i == 1 {
      hide Began, WriterNext, Switched, Ended;
      assert [7][0..1] == [7] && [] + [7] == [7];
      assert Copied(v) == w;
    } else if i == 2 {
      hide Began, WriterNext, Switched, Copied;
    } else {
      hide Began, MixerNext, Resumed;
    }
  }

  /** After them the next call of `out_write` clears the indices of the frame being sent. */
  lemma ResetReached()
    ensures Trace(SendThenStandbyStates(), SendThenStandby())
    ensures SendThenStandbyStates()[0] == Fresh(4, 4, true, false)
    ensures ResetsInFlight(SendThenStandbyStates()[7], StartWrite([8], true))
  {
    var states, steps := SendThenStandbyStates(), SendThenStandby();
    assert Ok(states[0]);
    hide Ok, Follows;
    forall i | 0 <= i < 7 && Ok(states[i]) ensures Follows(states[i], steps[i], states[i + 1]) {
      SendThenStandbyFollows(i);
    }
    Reaches(states, steps);
  }

  /** A list of states that follow each other while the invariant holds. */
  lemma {:induction false} Reaches(states: seq<State>, schedule: seq<Step>)
    requires |states| == |schedule| + 1 && Ok(states[0])
    requires forall i | 0 <= i < |schedule| :: Ok(states[i]) ==> Follows(states[i], schedule[i], states[i + 1])
    ensures Trace(states, schedule)
  {
    for i := 0 to |schedule|
      invariant forall j | 0 <= j <= i :: Ok(states[j])
    {
      NextKeepsOk(states[i], schedule[i]);
    }
  }
}
