/**
 What the two threads of the PCM ring are for: while the stream is in use and `a2dp_write` takes what it is given, a
 schedule takes every frame of a call of `out_write` to the other side, in order.
 */
module PcmProgress {
  import opened Sequences
  import opened PcmRing

  /** Enabled, not on standby, and the write thread goes on. */
  predicate InUse(v: State) {
    v.flags.btEnabled && !v.flags.standby && !v.flags.exiting && !v.flags.suspended && v.flags.hasData
  }

  /** The run over a schedule leads from `v` to `w`. */
  ghost predicate Leads(v: State, w: State) {
    exists states, schedule :: Run(v, w, states, schedule)
  }

  ghost predicate Run(v: State, w: State, states: seq<State>, schedule: seq<Step>) {
    |states| == |schedule| + 1 && Trace(states, schedule) && states[0] == v && states[|schedule|] == w
  }

  lemma LeadsNowhere(v: State)
    requires Ok(v)
    ensures Leads(v, v)
  {
    assert Run(v, v, [v], []);
  }

  lemma LeadsOk(v: State, w: State)
    requires Leads(v, w)
    ensures Ok(w)
  {
  }

  /** A step first. */
  lemma LeadsCons(v: State, s: Step, w: State)
    requires Ok(v) && !ResetsInFlight(v, s) && Leads(Next(v, s), w)
    ensures Leads(v, w)
  {
    hide Ok, Next, ResetsInFlight;
    var states, schedule :| Run(Next(v, s), w, states, schedule);
    FollowsNext(v, s);
    hide Follows;
    TraceCons(v, s, states, schedule);
    assert Run(v, w, [v] + states, [s] + schedule);
  }

  lemma TraceCons(v: State, s: Step, states: seq<State>, schedule: seq<Step>)
    requires |states| == |schedule| + 1 && Trace(states, schedule) && Follows(v, s, states[0])
    ensures Trace([v] + states, [s] + schedule)
  {
    hide Ok, Follows;
    var states', schedule' := [v] + states, [s] + schedule;
    forall i | 0 <= i < |schedule'| ensures Follows(states'[i], schedule'[i], states'[i + 1]) {
      if i > 0 { assert schedule[i - 1] == schedule'[i]; }
    }
  }

  lemma {:induction false} LeadsTransitive(u: State, v: State, w: State)
    requires Leads(u, v) && Leads(v, w)
    ensures Leads(u, w)
  {
    hide Trace, Ok, Next;
    var states, schedule :| Run(u, v, states, schedule);
    LeadsAlong(u, v, w, states, schedule);
  }

  lemma {:induction false} LeadsAlong(u: State, v: State, w: State, states: seq<State>, schedule: seq<Step>)
    requires Run(u, v, states, schedule) && Leads(v, w)
    ensures Leads(u, w)
    decreases |schedule|
  {
    if schedule != [] {
      TraceTail(states, schedule);
      hide Trace, Ok, Next, Leads, ResetsInFlight;
      assert Run(states[1], v, states[1..], schedule[1..]);
      LeadsAlong(states[1], v, w, states[1..], schedule[1..]);
      LeadsCons(u, schedule[0], w);
    }
  }

  lemma TraceTail(states: seq<State>, schedule: seq<Step>)
    requires |states| == |schedule| + 1 && Trace(states, schedule) && schedule != []
    ensures Trace(states[1..], schedule[1..])
    ensures Ok(states[0]) && !ResetsInFlight(states[0], schedule[0]) && states[1] == Next(states[0], schedule[0])
  {
    hide Ok, Next, ResetsInFlight;
    assert Follows(states[0], schedule[0], states[1]);
    hide Follows;
    forall i | 0 <= i < |schedule| - 1 ensures Follows(states[1..][i], schedule[1..][i], states[1..][i + 1]) {
      assert schedule[i + 1] == schedule[1..][i];
    }
  }

  // ------------------------------------------------------------ the write thread

  /** Everything that was held was sent, and the write thread waits again. */
  ghost predicate Drained(v: State, w: State) {
    && w.queue.held == []
    && w == v.(rd := w.rd, queue := w.queue, writer := Waiting, owner := Nobody, sent := v.sent + v.queue.held)
  }

  function Rank(writer: WriterAt): nat {
    match writer
    case Waiting => 3
    case Outer => 2
    case Inner(frames, _) => if frames > 0 then 1 else 3
    case _ => 0
  }

  /** One step of the write thread that sends nothing. */
  lemma WriterStepIs(v: State, u: State)
    requires Ok(v) && v.owner != Mixer && !v.writer.Writing? && !v.writer.Exited?
    requires Sized(v) && WriterFits(v) && u == WriterNext(v, 0)
    ensures Next(v, WriterStep(0)) == u && Ok(u) && !ResetsInFlight(v, WriterStep(0))
  {
    NextIs(v, WriterStep(0));
    NextKeepsOk(v, WriterStep(0));
    hide Ok, Next, WriterNext;
  }

  lemma OkFits(v: State)
    requires Ok(v)
    ensures Sized(v) && WriterFits(v) && MixerFits(v) && Locked(v)
  {
    hide All, Produced, WritesOk, DeliveredFrames;
  }

  /** A send takes everything it is given. */
  lemma SendStep(v: State) returns (u: State)
    requires Ok(v) && InUse(v) && v.owner != Mixer && v.writer.Inner? && v.writer.frames > 0
    ensures Ok(u) && (forall w :: Leads(u, w) ==> Leads(v, w)) && |u.queue.held| < |v.queue.held|
    ensures u.writer.Inner? && u.owner == Writer && u.sent + u.queue.held == v.sent + v.queue.held
    ensures u == v.(rd := u.rd, queue := u.queue, writer := u.writer, owner := u.owner, sent := u.sent)
  {
    hide Ok, Next, Leads, All;
    OkFits(v);
    var x := WriterNext(v, 0);
    WriterStepIs(v, x);
    OkFits(x);
    var chunk := x.writer.chunk;
    u := Resumed(x, 4 * chunk);
    var s := WriterStep(4 * chunk);
    NextIs(x, s);
    NextKeepsOk(x, s);
    TakeConserves(x.queue, chunk);
    hide Deliver, Drop;
    assert v.queue.held == v.queue.held[..chunk] + v.queue.held[chunk..];
    ConcatAssociative(v.sent, v.queue.held[..chunk], v.queue.held[chunk..]);
    forall w | Leads(u, w) ensures Leads(v, w) {
      LeadsCons(x, s, w);
      LeadsCons(v, WriterStep(0), w);
    }
  }

  /** The write thread sends all that is held. */
  lemma {:induction false} Drain(v: State) returns (w: State)
    requires Ok(v) && InUse(v) && v.owner != Mixer && !v.writer.Writing? && !v.writer.Exited?
    ensures Leads(v, w) && Ok(w) && Drained(v, w)
    decreases |v.queue.held|, Rank(v.writer)
  {
    hide Ok, Next, Leads;
    OkFits(v);
    if v.writer.Inner? && v.writer.frames > 0 {
      var u := SendStep(v);
      w := Drain(u);
    } else {
      var u := WriterNext(v, 0);
      WriterStepIs(v, u);
      if v.writer.Outer? && v.queue.held == [] {
        LeadsNowhere(u);
        w := u;
        assert v.sent + [] == v.sent;
      } else {
        w := Drain(u);
      }
      LeadsCons(v, WriterStep(0), w);
    }
  }

  // ------------------------------------------------------------ `out_write`

  lemma MixerStepIs(v: State, u: State)
    requires Ok(v) && !v.mixer.Idle? && (v.mixer.Loop? || v.owner == Nobody)
    requires Sized(v) && MixerFits(v) && u == MixerNext(v, false)
    ensures Next(v, MixerStep(false)) == u && Ok(u) && !ResetsInFlight(v, MixerStep(false))
  {
    NextIs(v, MixerStep(false));
    NextKeepsOk(v, MixerStep(false));
    hide Ok, Next, MixerNext;
  }

  /** The call has returned, and all that was held and the rest of its frames were sent. */
  ghost predicate Finished(v: State, w: State)
    requires !v.mixer.Idle? && v.mixer.written <= |v.mixer.data|
  {
    && w.mixer.Idle? && w.owner == Nobody && w.writer.Waiting? && w.flags == v.flags && w.queue.held == []
    && w.sent == v.sent + v.queue.held + v.mixer.data[v.mixer.written..]
    && w.writes == v.writes + [Write(v.mixer.data, |v.mixer.data|, Returned)]
  }

  /** Copying some frames leaves the rest to do. */
  lemma CopyStep(v: State) returns (u: State)
    requires Ok(v) && InUse(v) && v.writer.Waiting? && v.owner != Writer
    requires v.mixer.Loop? || v.mixer.AwaitSpace?
    requires Sized(v) && Available(v) > 0 && MixerFits(v) && v.mixer.written < |v.mixer.data|
    ensures Ok(u) && InUse(u) && u.writer.Waiting? && u.mixer.Loop? && u.mixer.data == v.mixer.data
    ensures v.mixer.written < u.mixer.written <= |v.mixer.data|
    ensures forall w | Leads(u, w) :: Leads(v, w)
    ensures forall w | Finished(u, w) :: Finished(v, w)
  {
    hide Ok, Next, Leads, All, MixerNext, Finished;
    OkFits(v);
    u := MixerNext(v, false);
    MixerStepIs(v, u);
    CopyIs(v);
    forall w | Finished(u, w) ensures Finished(v, w) { FinishedCopy(v, u, w); }
    forall w | Leads(u, w) ensures Leads(v, w) { LeadsCons(v, MixerStep(false), w); }
  }

  /** What copying does. */
  lemma CopyIs(v: State)
    requires Sized(v) && MixerFits(v) && InUse(v) && (v.mixer.Loop? || v.mixer.AwaitSpace?)
    requires Available(v) > 0 && v.mixer.written < |v.mixer.data|
    ensures var u := MixerNext(v, false);
            && u.mixer.Loop? && u.mixer.data == v.mixer.data && v.mixer.written < u.mixer.written <= |v.mixer.data|
            && u.queue.held == v.queue.held + v.mixer.data[v.mixer.written..u.mixer.written]
            && u.sent == v.sent && u.flags == v.flags && u.writes == v.writes && u.writer == v.writer
  {
    hide Available;
  }

  lemma FinishedCopy(v: State, u: State, w: State)
    requires !v.mixer.Idle? && !u.mixer.Idle? && u.mixer.data == v.mixer.data
    requires v.mixer.written <= u.mixer.written <= |v.mixer.data|
    requires u.queue.held == v.queue.held + v.mixer.data[v.mixer.written..u.mixer.written]
    requires u.sent == v.sent && u.flags == v.flags && u.writes == v.writes && Finished(u, w)
    ensures Finished(v, w)
  {
    var data, m, n := v.mixer.data, v.mixer.written, u.mixer.written;
    assert data[m..] == data[m..n] + data[n..];
    SentWhole(v.sent, v.queue.held, data[m..n], data[n..]);
  }

  lemma SentWhole(a: seq<int>, b: seq<int>, c: seq<int>, d: seq<int>)
    ensures a + (b + c) + d == a + b + (c + d)
  {
  }

  lemma RoomWhenEmpty(v: State)
    requires Sized(v)
    ensures v.queue.held == [] ==> Available(v) > 0
  {
  }

  /** The loop of `out_write`, with the write thread taking its turn whenever the ring is full. */
  lemma {:induction false} Fill(v: State) returns (w: State)
    requires Ok(v) && InUse(v) && v.mixer.Loop? && v.writer.Waiting? && MixerFits(v)
    ensures Leads(v, w) && Ok(w) && Finished(v, w)
    decreases |v.mixer.data| - v.mixer.written
  {
    hide Ok, Next, Leads;
    OkFits(v);
    if v.mixer.written == |v.mixer.data| {
      var u := Return(v);
      w := Drain(u);
      LeadsCons(v, MixerStep(false), w);
    } else if Available(v) > 0 {
      var u := CopyStep(v);
      w := Fill(u);
    } else {
      var u := WaitAndDrain(v);
      var x := CopyStep(u);
      w := Fill(x);
      FinishedLater(v, u, w);
      LeadsTransitive(v, u, w);
    }
  }

  /** A call that has put in all its frames returns. */
  lemma Return(v: State) returns (u: State)
    requires Ok(v) && InUse(v) && v.mixer.Loop? && v.writer.Waiting? && MixerFits(v)
    requires v.mixer.written == |v.mixer.data|
    ensures Ok(u) && InUse(u) && u.owner == Nobody && u.writer.Waiting? && u == Next(v, MixerStep(false))
    ensures !ResetsInFlight(v, MixerStep(false)) && forall w | Drained(u, w) :: Finished(v, w)
  {
    OkFits(v);
    hide Ok, Next;
    u := MixerNext(v, false);
    MixerStepIs(v, u);
    assert v.mixer.data[v.mixer.written..] == [];
    forall w | Drained(u, w) ensures Finished(v, w) {
      assert v.sent + v.queue.held + [] == v.sent + v.queue.held;
    }
  }

  /** The ring is full: the call waits, and the write thread makes room. */
  lemma WaitAndDrain(v: State) returns (u: State)
    requires Ok(v) && InUse(v) && v.mixer.Loop? && v.writer.Waiting? && MixerFits(v)
    requires v.mixer.written < |v.mixer.data| && Sized(v) && Available(v) == 0
    ensures Leads(v, u) && Ok(u) && Sized(u) && Available(u) > 0 && u.owner == Nobody && u.writer.Waiting?
    ensures u.mixer == AwaitSpace(v.mixer.data, v.mixer.written) && u.flags == v.flags && u.writes == v.writes
    ensures u.queue.held == [] && u.sent == v.sent + v.queue.held
  {
    OkFits(v);
    hide Ok, Next, Leads;
    var x := MixerNext(v, false);
    MixerStepIs(v, x);
    u := Drain(x);
    LeadsCons(v, MixerStep(false), u);
    OkFits(u);
    RoomWhenEmpty(u);
  }

  lemma FinishedLater(v: State, u: State, w: State)
    requires !v.mixer.Idle? && v.mixer.written <= |v.mixer.data|
    requires u.mixer == AwaitSpace(v.mixer.data, v.mixer.written) && u.flags == v.flags && u.writes == v.writes
    requires u.queue.held == [] && u.sent == v.sent + v.queue.held && Finished(u, w)
    ensures Finished(v, w)
  {
    assert u.sent + [] == u.sent;
  }

  /**
   From every state in which both threads wait, the stream is enabled and not on standby, some schedule takes all
   frames of a new call, behind those still held, to the other side, and the call returns.
   */
  lemma WriteIsSent(v: State, data: seq<int>) returns (w: State)
    requires Ok(v) && v.owner == Nobody && v.mixer.Idle? && v.writer.Waiting?
    requires v.flags.btEnabled && !v.flags.standby && !v.flags.suspended && !v.flags.exiting
    ensures Leads(v, w) && Ok(w) && w.queue.held == [] && w.sent == v.sent + v.queue.held + data
    ensures w.writes == v.writes + [Write(data, |data|, Returned)]
  {
    hide Ok, Next, Leads;
    var s := StartWrite(data, true);
    NextIs(v, s);
    NextKeepsOk(v, s);
    var u := Next(v, s);
    assert u == v.(flags := v.flags.(hasData := true), mixer := Loop(data, 0), owner := Mixer);
    w := Fill(u);
    LeadsCons(v, s, w);
    assert data[0..] == data;
  }
}
