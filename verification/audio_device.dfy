/**
 The composite state of an audio device (`audio/device.c`), driven by the state callbacks of its
 sink and its headset, which call each other when the device is being disconnected.
 */
module AudioDevice {
  import opened Bytes

  datatype DeviceState = Disconnected | Connecting | Connected

  datatype SinkState = SinkDisconnected | SinkConnecting | SinkConnected | SinkPlaying | SinkDisconnecting

  datatype HeadsetState = HsDisconnected | HsConnecting | HsConnected | HsPlayInProgress | HsPlaying

  /** An answer to the bus request `id`. */
  datatype Reply = Reply(id: nat, ok: bool)

  /** What `sink_shutdown` does at once: nothing yet, or the sink is on its way out, or out. */
  datatype Shutdown = Later | Begun | Done

  datatype Event =
    | SinkChanges(sink: SinkState, shutdown: Shutdown)
    | HeadsetChanges(hs: HeadsetState, shutdown: Shutdown)
    | ConnectCall(headsetTries: bool, headsetFails: bool, session: bool, sinkTries: bool, sinkFails: bool)
    | DisconnectCall(shutdown: Shutdown)
    | LinkLost(shutdown: Shutdown)
    | HeadsetTimer(started: bool)
    | SinkTimer(started: bool)
    | AutoConnect(on: bool)

  predicate SinkUp(s: SinkState) { s == SinkConnected || s == SinkPlaying }

  predicate HeadsetUp(h: HeadsetState) { h == HsConnected || h == HsPlayInProgress || h == HsPlaying }

  ghost predicate DistinctIds(replies: seq<Reply>) {
    forall i, j | 0 <= i < j < |replies| :: replies[i].id != replies[j].id
  }

  ghost predicate Answered(replies: seq<Reply>, id: nat) {
    exists i | 0 <= i < |replies| :: replies[i].id == id
  }

  /** Every request was answered exactly once or is stored. */
  ghost predicate RequestsOk(replies: seq<Reply>, connReq: Option<nat>, dcReq: Option<nat>, issued: nat) {
    && DistinctIds(replies)
    && (forall i | 0 <= i < |replies| :: replies[i].id < issued)
    && (forall id | 0 <= id < issued :: Answered(replies, id) || connReq == Some(id) || dcReq == Some(id))
    && (connReq.Some? ==> connReq.value < issued && !Answered(replies, connReq.value) && connReq != dcReq)
    && (dcReq.Some? ==> dcReq.value < issued && !Answered(replies, dcReq.value))
  }

  /** The answer to a stored Connect request, and the state of the device that it tells of. */
  datatype Verdict = Verdict(id: nat, ok: bool, state: DeviceState)

  /** Every Connect request that was stored and is no more was answered, with success exactly for CONNECTED. */
  ghost predicate ConnectsOk(connects: seq<Verdict>, stored: set<nat>, connReq: Option<nat>, replies: seq<Reply>) {
    && (forall i | 0 <= i < |connects| ::
          (connects[i].ok <==> connects[i].state == Connected) && Reply(connects[i].id, connects[i].ok) in replies)
    && (forall id | id in stored :: connReq == Some(id) || exists i | 0 <= i < |connects| :: connects[i].id == id)
    && (connReq.Some? ==> connReq.value in stored)
  }

  lemma ConnectAnsweredOk(connects: seq<Verdict>, stored: set<nat>, connReq: Option<nat>, replies: seq<Reply>,
      state: DeviceState)
    requires ConnectsOk(connects, stored, connReq, replies) && connReq.Some?
    ensures var id, ok := connReq.value, state == Connected;
            ConnectsOk(connects + [Verdict(id, ok, state)], stored, None, replies + [Reply(id, ok)])
  {
    var id, ok := connReq.value, state == Connected;
    var cs := connects + [Verdict(id, ok, state)];
    assert cs[|connects|].id == id;
    forall n | n in stored ensures exists i | 0 <= i < |cs| :: cs[i].id == n {
      if n != id {
        var i :| 0 <= i < |connects| && connects[i].id == n;
        assert cs[i].id == n;
      }
    }
  }

  lemma ConnectsMean(connects: seq<Verdict>, stored: set<nat>, connReq: Option<nat>, replies: seq<Reply>)
    requires ConnectsOk(connects, stored, connReq, replies)
    ensures forall i | 0 <= i < |connects| ::
              (connects[i].ok <==> connects[i].state == Connected) && Reply(connects[i].id, connects[i].ok) in replies
    ensures forall id | id in stored :: connReq == Some(id) || exists i | 0 <= i < |connects| :: connects[i].id == id
  {
  }

  lemma StoreConnectOk(connects: seq<Verdict>, stored: set<nat>, replies: seq<Reply>, id: nat)
    requires ConnectsOk(connects, stored, None, replies)
    ensures ConnectsOk(connects, stored + {id}, Some(id), replies)
  {
  }

  lemma ConnectsMore(connects: seq<Verdict>, stored: set<nat>, connReq: Option<nat>, replies: seq<Reply>, r: Reply)
    requires ConnectsOk(connects, stored, connReq, replies)
    ensures ConnectsOk(connects, stored, connReq, replies + [r])
  {
  }

  lemma AnsweredSnoc(replies: seq<Reply>, r: Reply)
    ensures forall id :: Answered(replies + [r], id) <==> Answered(replies, id) || id == r.id
  {
    var s := replies + [r];
    assert s[|replies|] == r && forall i | 0 <= i < |replies| :: s[i] == replies[i];
  }

  lemma AnswerConnect(replies: seq<Reply>, connReq: Option<nat>, dcReq: Option<nat>, issued: nat, ok: bool)
    requires RequestsOk(replies, connReq, dcReq, issued) && connReq.Some?
    ensures RequestsOk(replies + [Reply(connReq.value, ok)], None, dcReq, issued)
  {
    AnsweredSnoc(replies, Reply(connReq.value, ok));
    assert forall i | 0 <= i < |replies| :: Answered(replies, replies[i].id);
    hide Answered;
  }

  lemma AnswerDisconnect(replies: seq<Reply>, connReq: Option<nat>, dcReq: Option<nat>, issued: nat)
    requires RequestsOk(replies, connReq, dcReq, issued) && dcReq.Some?
    ensures RequestsOk(replies + [Reply(dcReq.value, true)], connReq, None, issued)
  {
    AnsweredSnoc(replies, Reply(dcReq.value, true));
    assert forall i | 0 <= i < |replies| :: Answered(replies, replies[i].id);
    hide Answered;
  }

  /** A request answered on the spot. */
  lemma AnswerNew(replies: seq<Reply>, connReq: Option<nat>, dcReq: Option<nat>, issued: nat, ok: bool)
    requires RequestsOk(replies, connReq, dcReq, issued)
    ensures RequestsOk(replies + [Reply(issued, ok)], connReq, dcReq, issued + 1)
  {
    AnsweredSnoc(replies, Reply(issued, ok));
    assert forall i | 0 <= i < |replies| :: Answered(replies, replies[i].id);
    hide Answered;
  }

  lemma StoredBelow(replies: seq<Reply>, connReq: Option<nat>, dcReq: Option<nat>, issued: nat)
    requires RequestsOk(replies, connReq, dcReq, issued)
    ensures connReq != Some(issued) && dcReq != Some(issued)
  {
  }

  lemma StoreConnect(replies: seq<Reply>, dcReq: Option<nat>, issued: nat)
    requires RequestsOk(replies, None, dcReq, issued)
    ensures RequestsOk(replies, Some(issued), dcReq, issued + 1)
  {
  }

  lemma StoreDisconnect(replies: seq<Reply>, connReq: Option<nat>, issued: nat)
    requires RequestsOk(replies, connReq, None, issued)
    ensures RequestsOk(replies, connReq, Some(issued), issued + 1)
  {
  }

  /** The number of bus requests among events. */
  function Requests(events: seq<Event>): nat {
    if events == [] then 0
    else
      var e := events[|events| - 1];
      Requests(events[..|events| - 1]) + if e.ConnectCall? || e.DisconnectCall? then 1 else 0
  }

  /** The state of the device and of its two profiles. */
  datatype Composite = Composite(state: DeviceState, sink: SinkState, hs: HeadsetState, autoConnect: bool)

  datatype Profiles = Profiles(sink: bool, headset: bool)

  /** What an event does to a device with these profiles; what a profile does by itself is the profile's choice. */
  ghost predicate Turned(has: Profiles, v: Composite, e: Event, w: Composite) {
    match e
    case SinkChanges(s, _) =>
      if has.sink && (v.sink == SinkDisconnected ==> s == SinkConnecting) then w.sink == s else w == v
    case HeadsetChanges(h, _) =>
      if has.headset && (v.hs == HsDisconnected ==> h == HsConnecting) then w.hs == h else w == v
    case ConnectCall(headsetTries, headsetFails, session, sinkTries, sinkFails) =>
      if v.state != Disconnected then w == v
      else
        var headset := has.headset && headsetTries && !headsetFails;
        var sink := !headset && has.sink && session && sinkTries && !sinkFails;
        w == Composite(if headset || sink then Connecting else Disconnected,
                       if sink then SinkConnecting else SinkDisconnected,
                       if headset then HsConnecting else HsDisconnected, true)
    case DisconnectCall(shutdown) =>
      v.state == Disconnected ==> w == v
    case LinkLost(shutdown) =>
      v.state == Disconnected ==> w == v
    case HeadsetTimer(started) =>
      && w.sink == v.sink
      && w.hs == (if has.headset && started && v.hs == HsDisconnected then HsConnecting else v.hs)
      && (has.headset && started && SinkUp(v.sink) ==> w.state == Connected)
    case SinkTimer(started) =>
      w.hs == v.hs && w.sink == (if has.sink && started && v.sink == SinkDisconnected then SinkConnecting else v.sink)
    case AutoConnect(on) => w == v.(autoConnect := on)
  }

  /** `struct audio_device` with its `dev_priv`. */
  class Device {
    const hasSink: bool
    const hasHeadset: bool
    var state: DeviceState
    var sink: SinkState
    var hs: HeadsetState
    var connReq: Option<nat>
    var dcReq: Option<nat>
    var disconnecting: bool
    var watch: bool                // a watch on the loss of the link is registered
    var autoConnect: bool
    var headsetTimer: bool
    var sinkTimer: bool
    var issued: nat
    ghost var replies: seq<Reply>
    ghost var stored: set<nat>         // Connect requests that were stored
    ghost var connects: seq<Verdict>   // and the answers to them

    ghost function View(): Composite
      reads this
    {
      Composite(state, sink, hs, autoConnect)
    }

    /**
     The device is disconnected exactly when both profiles are; stored requests wait for a change that must still
     come.
     */
    ghost predicate StatesOk()
      reads this
    {
      && (state == Disconnected <==> sink == SinkDisconnected && hs == HsDisconnected)
      && Rest()
    }

    /** The part of the invariant that also holds between the change of a profile and that of the device. */
    ghost predicate Rest()
      reads this
    {
      && (!hasSink ==> sink == SinkDisconnected) && (!hasHeadset ==> hs == HsDisconnected)
      && (connReq.Some? ==> state == Connecting)
      && (dcReq.Some? || disconnecting ==> state != Disconnected)
      && (watch <==> state != Disconnected)
      && RequestsOk(replies, connReq, dcReq, issued)
      && ConnectsOk(connects, stored, connReq, replies)
    }

    /** Answers are only added. */
    twostate predicate Grows()
      reads this
    {
      old(replies) <= replies && old(issued) <= issued && old(stored) <= stored && old(connects) <= connects
    }

    /**
     A stored Connect request that leaves the store was answered, with success exactly when the device got
     connected.
     */
    twostate predicate ConnectAnswered()
      reads this
    {
      old(connReq).Some? && connReq != old(connReq) ==>
        connReq.None? && Reply(old(connReq).value, state == Connected) in replies && state != Connecting
    }

    constructor (hasSink: bool, hasHeadset: bool)
      ensures StatesOk() && state == Disconnected && replies == [] && issued == 0
    {
      this.hasSink, this.hasHeadset := hasSink, hasHeadset;
      state, sink, hs := Disconnected, SinkDisconnected, HsDisconnected;
      connReq, dcReq, issued := None, None, 0;
      disconnecting, watch, autoConnect, headsetTimer, sinkTimer := false, false, false, false, false;
      replies, stored, connects := [], {}, [];
    }

    /** `device_set_state`. */
    method SetState(new_: DeviceState)
      requires Rest() && (state == Disconnected ==> new_ != Connected)
      modifies this`state, this`connReq, this`dcReq, this`disconnecting, this`watch, this`replies, this`connects
      ensures Rest() && Grows() && state == new_
      ensures new_ == Disconnected ==> dcReq.None? && !disconnecting
      ensures new_ != Disconnected ==> dcReq == old(dcReq) && disconnecting == old(disconnecting)
      ensures old(connReq).Some? && new_ != Connecting ==>
                connReq.None? && Reply(old(connReq).value, new_ == Connected) in replies
      ensures new_ == Connecting ==> connReq == old(connReq) && replies == old(replies)
      ensures old(connReq).None? ==> connReq.None?
    {
      hide RequestsOk, ConnectsOk;
      if new_ == Disconnected { watch := false; } else if new_ == Connecting { watch := true; }
      if state == new_ { return; }
      state := new_;
      if new_ == Disconnected {
        if dcReq.Some? {
          AnswerDisconnect(replies, connReq, dcReq, issued);
          ConnectsMore(connects, stored, connReq, replies, Reply(dcReq.value, true));
          replies := replies + [Reply(dcReq.value, true)];
          dcReq := None;
        }
        disconnecting := false;
      }
      if connReq.Some? && new_ != Connecting {
        AnswerConnect(replies, connReq, dcReq, issued, new_ == Connected);
        ConnectAnsweredOk(connects, stored, connReq, replies, state);
        connects := connects + [Verdict(connReq.value, new_ == Connected, state)];
        replies := replies + [Reply(connReq.value, new_ == Connected)];
        connReq := None;
      }
    }

    /** Profiles that are not disconnected: the callbacks can call each other no more often than this. */
    function Active(): nat
      reads this
    {
      (if sink == SinkDisconnected then 0 else 1) + (if hs == HsDisconnected then 0 else 1)
    }

    /** `device_sink_cb`; a sink leaves DISCONNECTED only for CONNECTING. */
    method SinkCb(new_: SinkState, shutdown: Shutdown)
      requires StatesOk() && hasSink && (sink == SinkDisconnected ==> new_ == SinkConnecting)
      modifies this
      ensures autoConnect == old(autoConnect)
      ensures StatesOk() && Grows() && issued == old(issued)
      ensures sink == new_
      ensures new_ == SinkDisconnected ==>
                hs == if old(dcReq).Some? || old(disconnecting) then HsDisconnected else old(hs)
      ensures new_ != SinkDisconnected ==> hs == old(hs)
      ensures new_ == SinkDisconnected ==>
                state == if hs == HsDisconnected then Disconnected
                         else if old(sink) == SinkConnecting && HeadsetUp(hs) then Connected else old(state)
      ensures new_ == SinkConnecting ==> state == if hs == HsDisconnected then Connecting else old(state)
      ensures new_ == SinkConnected ==>
                state == if old(sink) != SinkPlaying && (if autoConnect then !hasHeadset || HeadsetUp(hs)
                                                         else hs == HsDisconnected || hs == HsConnecting)
                         then Connected else old(state)
      ensures new_ == SinkPlaying || new_ == SinkDisconnecting ==> state == old(state)
      ensures new_ == SinkConnecting ==> !sinkTimer
      ensures new_ == SinkConnected && old(sink) != SinkPlaying && autoConnect && hasHeadset && hs == HsDisconnected ==>
                headsetTimer
      ensures old(connReq).None? ==> connReq.None?
      ensures (disconnecting ==> old(disconnecting)) && (dcReq.Some? ==> dcReq == old(dcReq))
      ensures ConnectAnswered()
      decreases if new_ == SinkDisconnected then 0 else 1, Active(), 1
    {
      hide RequestsOk, ConnectsOk;
      var oldState := sink;
      sink := new_;
      match new_
      case SinkDisconnected =>
        if hs != HsDisconnected && (dcReq.Some? || disconnecting) {
          HeadsetShutdown(shutdown);
        } else if hs == HsDisconnected {
          SetState(Disconnected);
        } else if oldState == SinkConnecting && (hs == HsConnected || hs == HsPlayInProgress || hs == HsPlaying) {
          SetState(Connected);
        }
      case SinkConnecting =>
        sinkTimer := false;
        if hs == HsDisconnected { SetState(Connecting); }
      case SinkConnected =>
        if oldState != SinkPlaying {
          if autoConnect {
            if !hasHeadset {
              SetState(Connected);
            } else if hs == HsDisconnected {
              headsetTimer := true;
            } else if hs == HsConnected || hs == HsPlayInProgress || hs == HsPlaying {
              SetState(Connected);
            }
          } else if hs == HsDisconnected || hs == HsConnecting {
            SetState(Connected);
          }
        }
      case _ =>
    }

    /** `headset_shutdown`: the headset is disconnected at once. */
    method HeadsetShutdown(shutdown: Shutdown)
      requires Rest() && hasHeadset && hs != HsDisconnected && state != Disconnected
      requires dcReq.Some? || disconnecting || sink == SinkDisconnected
      modifies this
      ensures autoConnect == old(autoConnect)
      ensures StatesOk() && Grows() && issued == old(issued) && hs == HsDisconnected
      ensures old(sink) == SinkDisconnected ==> sink == SinkDisconnected
      ensures old(connReq).None? ==> connReq.None?
      ensures (disconnecting ==> old(disconnecting)) && (dcReq.Some? ==> dcReq == old(dcReq))
      ensures ConnectAnswered()
      decreases 0, Active(), 2
    {
      HeadsetCb(HsDisconnected, shutdown);
    }

    /** `sink_shutdown`. */
    method SinkShutdown(shutdown: Shutdown)
      requires Rest() && hasSink && sink != SinkDisconnected && state != Disconnected
      modifies this
      ensures autoConnect == old(autoConnect)
      ensures StatesOk() && Grows() && issued == old(issued)
      ensures old(hs) == HsDisconnected ==> hs == HsDisconnected
      ensures sink == match shutdown
                      case Later => old(sink)
                      case Begun => SinkDisconnecting
                      case Done => SinkDisconnected
      ensures sink != SinkDisconnected ==> state == old(state) && hs == old(hs)
      ensures shutdown == Done && (old(dcReq).Some? || old(disconnecting)) ==> hs == HsDisconnected
      ensures old(connReq).None? ==> connReq.None?
      ensures (disconnecting ==> old(disconnecting)) && (dcReq.Some? ==> dcReq == old(dcReq))
      ensures ConnectAnswered()
      decreases 0, Active(), 2
    {
      match shutdown
      case Later =>
      case Begun => sink := SinkDisconnecting;
      case Done => SinkCb(SinkDisconnected, shutdown);
    }

    /** `device_headset_cb`; a headset leaves DISCONNECTED only for CONNECTING. */
    method HeadsetCb(new_: HeadsetState, shutdown: Shutdown)
      requires Rest() && hasHeadset && (hs == HsDisconnected ==> new_ == HsConnecting)
      requires state == Disconnected <==> sink == SinkDisconnected && hs == HsDisconnected
      modifies this
      ensures autoConnect == old(autoConnect)
      ensures StatesOk() && Grows() && issued == old(issued)
      ensures hs == new_
      ensures old(sink) == SinkDisconnected || (old(dcReq).None? && !old(disconnecting)) ==> sink == old(sink)
      ensures new_ != HsDisconnected ==> sink == old(sink)
      ensures new_ == HsDisconnected ==>
                state == if sink == SinkDisconnected then Disconnected
                         else if && old(dcReq).None? && !old(disconnecting)
                                 && old(hs) == HsConnecting && SinkUp(sink) then Connected
                         else old(state)
      ensures new_ == HsConnecting ==> state == if sink == SinkDisconnected then Connecting else old(state)
      ensures new_ == HsConnected ==>
                state == if !HeadsetUp(old(hs)) && (if autoConnect then !hasSink || SinkUp(sink)
                                                    else sink == SinkDisconnected || sink == SinkConnecting)
                         then Connected else old(state)
      ensures new_ == HsPlayInProgress || new_ == HsPlaying ==> state == old(state)
      ensures new_ == HsConnecting ==> !headsetTimer
      ensures new_ == HsConnected && !HeadsetUp(old(hs)) && autoConnect && hasSink && sink == SinkDisconnected ==>
                sinkTimer
      ensures old(connReq).None? ==> connReq.None?
      ensures (disconnecting ==> old(disconnecting)) && (dcReq.Some? ==> dcReq == old(dcReq))
      ensures ConnectAnswered()
      decreases if new_ == HsDisconnected then 0 else 1, Active(), 1
    {
      hide RequestsOk, ConnectsOk;
      var oldState := hs;
      hs := new_;
      match new_
      case HsDisconnected =>
        sinkTimer := false;
        if sink != SinkDisconnected && hasSink && (dcReq.Some? || disconnecting) {
          SinkShutdown(shutdown);
        } else if sink == SinkDisconnected {
          SetState(Disconnected);
        } else if oldState == HsConnecting && (sink == SinkConnected || sink == SinkPlaying) {
          SetState(Connected);
        }
      case HsConnecting =>
        headsetTimer := false;
        if sink == SinkDisconnected { SetState(Connecting); }
      case HsConnected =>
        if !(oldState == HsConnected || oldState == HsPlayInProgress || oldState == HsPlaying) {
          if autoConnect {
            if !hasSink {
              SetState(Connected);
            } else if sink == SinkDisconnected {
              sinkTimer := true;
            } else if sink == SinkConnected || sink == SinkPlaying {
              SetState(Connected);
            }
          } else if sink == SinkDisconnected || sink == SinkConnecting {
            SetState(Connected);
          }
        }
      case _ =>
    }

    /** A profile that starts to connect when asked, and perhaps fails before the call returns. */
    method HeadsetTries(fails: bool)
      requires StatesOk() && connReq.None? && dcReq.None? && !disconnecting
      modifies this
      ensures StatesOk() && Grows() && issued == old(issued) && connReq.None? && dcReq.None? && !disconnecting
      ensures sink == old(sink) && autoConnect == old(autoConnect)
      ensures old(state) == Disconnected ==>
                && state == (if hasHeadset && !fails then Connecting else Disconnected)
                && hs == (if hasHeadset && !fails then HsConnecting else HsDisconnected)
    {
      if !hasHeadset || hs != HsDisconnected { return; }
      HeadsetCb(HsConnecting, Later);
      if fails { HeadsetCb(HsDisconnected, Later); }
    }

    method SinkTries(fails: bool)
      requires StatesOk() && connReq.None? && dcReq.None? && !disconnecting
      modifies this
      ensures StatesOk() && Grows() && issued == old(issued) && connReq.None? && dcReq.None? && !disconnecting
      ensures hs == old(hs) && autoConnect == old(autoConnect)
      ensures old(state) == Disconnected ==>
                && state == (if hasSink && !fails then Connecting else Disconnected)
                && sink == (if hasSink && !fails then SinkConnecting else SinkDisconnected)
    {
      if !hasSink || sink != SinkDisconnected { return; }
      SinkCb(SinkConnecting, Later);
      if fails { SinkCb(SinkDisconnected, Later); }
    }

    /** A request refused or granted on the spot. */
    method AnswerNow(ok: bool)
      requires StatesOk()
      modifies this`issued, this`replies
      ensures StatesOk() && Grows() && issued == old(issued) + 1 && Reply(old(issued), ok) in replies
    {
      AnswerNew(replies, connReq, dcReq, issued, ok);
      ConnectsMore(connects, stored, connReq, replies, Reply(issued, ok));
      hide RequestsOk, ConnectsOk;
      replies := replies + [Reply(issued, ok)];
      issued := issued + 1;
    }

    /** The headset is there, is tried and does not fail at once. */
    predicate HeadsetStarts(e: Event)
      requires e.ConnectCall?
    {
      hasHeadset && e.headsetTries && !e.headsetFails
    }

    predicate SinkStarts(e: Event)
      requires e.ConnectCall?
    {
      hasSink && e.session && e.sinkTries && !e.sinkFails
    }

    /** `dev_connect`: the request is stored when a profile has started to connect, and refused otherwise. */
    method Connect(e: Event)
      requires e.ConnectCall? && StatesOk()
      modifies this
      ensures StatesOk() && Grows() && issued == old(issued) + 1
      ensures ConnectAnswered()
      ensures connReq == Some(old(issued)) || Reply(old(issued), false) in replies
      ensures old(state) == Disconnected ==>
                && autoConnect && (connReq == Some(old(issued)) <==> state == Connecting)
                && state == (if HeadsetStarts(e) || SinkStarts(e) then Connecting else Disconnected)
                && hs == (if HeadsetStarts(e) then HsConnecting else HsDisconnected)
                && sink == (if !HeadsetStarts(e) && SinkStarts(e) then SinkConnecting else SinkDisconnected)
      ensures old(state) != Disconnected ==>
                Reply(old(issued), false) in replies && connReq == old(connReq) && View() == old(View())
      ensures connReq == Some(old(issued)) ==> state == Connecting && old(state) == Disconnected
    {
      hide RequestsOk, ConnectsOk;
      if state != Disconnected {
        StoredBelow(replies, connReq, dcReq, issued);
        AnswerNow(false);
        return;
      }
      autoConnect := true;
      if e.headsetTries { HeadsetTries(e.headsetFails); }
      if state != Connecting && hasSink {
        if !e.session {
          AnswerNow(false);
          return;
        }
        if e.sinkTries { SinkTries(e.sinkFails); }
      }
      if state != Connecting {
        AnswerNow(false);
        return;
      }
      StoreConnect(replies, dcReq, issued);
      StoreConnectOk(connects, stored, replies, issued);
      connReq, stored, issued := Some(issued), stored + {issued}, issued + 1;
    }

    /** The common end of `dev_disconnect` and `disconnect_cb`: the sink first, the headset from its callback. */
    method Shut(shutdown: Shutdown)
      requires StatesOk() && (dcReq.Some? || disconnecting)
      modifies this
      ensures StatesOk() && Grows() && issued == old(issued)
      ensures ConnectAnswered()
      ensures shutdown == Done || old(sink) == SinkDisconnected ==> state == Disconnected
    {
      hide RequestsOk, ConnectsOk;
      if hasSink && sink != SinkDisconnected {
        SinkShutdown(shutdown);
      } else {
        HeadsetShutdown(shutdown);
      }
    }

    /** `dev_disconnect`: answered when the device is disconnected. */
    method Disconnect(shutdown: Shutdown)
      requires StatesOk()
      modifies this
      ensures StatesOk() && Grows() && issued == old(issued) + 1
      ensures ConnectAnswered()
      ensures old(state) == Disconnected ==> Reply(old(issued), false) in replies && View() == old(View())
      ensures old(state) != Disconnected && old(dcReq).Some? ==>
                Reply(old(issued), true) in replies && state == old(state)
      ensures old(state) != Disconnected && old(dcReq).None? && (shutdown == Done || old(sink) == SinkDisconnected) ==>
                state == Disconnected && dcReq.None?
    {
      hide RequestsOk, ConnectsOk;
      if state == Disconnected {
        AnswerNow(false);
        return;
      }
      if dcReq.Some? {
        AnswerNow(true);
        return;
      }
      StoreDisconnect(replies, connReq, issued);
      dcReq, issued := Some(issued), issued + 1;
      Shut(shutdown);
    }

    /** `disconnect_cb`, when the link goes down. */
    method LinkDown(shutdown: Shutdown)
      requires StatesOk()
      modifies this
      ensures StatesOk() && Grows() && issued == old(issued)
      ensures old(state) == Disconnected ==> View() == old(View())
      ensures ConnectAnswered()
      ensures !old(disconnecting) && (shutdown == Done || old(sink) == SinkDisconnected) ==> state == Disconnected
    {
      hide RequestsOk, ConnectsOk;
      if state == Disconnected || disconnecting { return; }
      disconnecting, headsetTimer, sinkTimer := true, false, false;
      Shut(shutdown);
    }

    /** `headset_connect_timeout` and `avdtp_connect_timeout`: the other profile is tried. */
    method HeadsetTimeout(started: bool)
      requires StatesOk()
      modifies this
      ensures StatesOk() && Grows() && issued == old(issued)
      ensures !headsetTimer && sink == old(sink)
      ensures hs == if hasHeadset && started && old(hs) == HsDisconnected then HsConnecting else old(hs)
      ensures hasHeadset && started && SinkUp(sink) ==> state == Connected
      ensures ConnectAnswered()
    {
      hide RequestsOk, ConnectsOk;
      headsetTimer := false;
      if !hasHeadset || !started { return; }
      if hs == HsDisconnected { HeadsetCb(HsConnecting, Later); }
      if state != Connected && (sink == SinkConnected || sink == SinkPlaying) {
        SetState(Connected);
      }
    }

    method SinkTimeout(started: bool)
      requires StatesOk()
      modifies this
      ensures StatesOk() && Grows() && issued == old(issued)
      ensures !sinkTimer && hs == old(hs)
      ensures sink == if hasSink && started && old(sink) == SinkDisconnected then SinkConnecting else old(sink)
      ensures ConnectAnswered()
    {
      hide RequestsOk, ConnectsOk;
      sinkTimer := false;
      if hasSink && started && sink == SinkDisconnected { SinkCb(SinkConnecting, Later); }
    }

    /**
     An incoming connection sets the flag from the configuration (`ag_confirm`, `avdtp_confirm_cb`), and a Connect
     of one profile alone clears it (`hs_connect`, `sink_connect`).
     */
    method SetAutoConnect(on: bool)
      requires StatesOk()
      modifies this`autoConnect
      ensures StatesOk() && autoConnect == on
    {
      hide RequestsOk, ConnectsOk;
      autoConnect := on;
    }

    method Handle(e: Event)
      requires StatesOk()
      modifies this
      ensures StatesOk() && Grows()
      ensures ConnectAnswered()
      ensures issued == old(issued) + if e.ConnectCall? || e.DisconnectCall? then 1 else 0
      ensures Turned(Profiles(hasSink, hasHeadset), old(View()), e, View())
      ensures e.ConnectCall? && old(state) == Disconnected ==>
                (connReq == Some(old(issued)) <==> HeadsetStarts(e) || SinkStarts(e))
      ensures e.DisconnectCall? && old(state) == Disconnected ==> Reply(old(issued), false) in replies
      ensures e.DisconnectCall? && old(dcReq).None? && (e.shutdown == Done || old(sink) == SinkDisconnected) ==>
                state == Disconnected
      ensures e.LinkLost? && !old(disconnecting) && (e.shutdown == Done || old(sink) == SinkDisconnected) ==>
                state == Disconnected
    {
      hide RequestsOk, ConnectsOk;
      match e
      case SinkChanges(s, shutdown) =>
        if hasSink && s != sink && (sink == SinkDisconnected ==> s == SinkConnecting) { SinkCb(s, shutdown); }
      case HeadsetChanges(h, shutdown) =>
        if hasHeadset && h != hs && (hs == HsDisconnected ==> h == HsConnecting) { HeadsetCb(h, shutdown); }
      case ConnectCall(_, _, _, _, _) => Connect(e);
      case DisconnectCall(shutdown) => Disconnect(shutdown);
      case LinkLost(shutdown) => LinkDown(shutdown);
      case HeadsetTimer(started) => HeadsetTimeout(started);
      case SinkTimer(started) => SinkTimeout(started);
      case AutoConnect(on) => SetAutoConnect(on);
    }

    /**
     Any run: the device is disconnected exactly when both profiles are, every request is answered once or still
     stored, and every Connect request that was stored and is no more was answered, with success exactly when the
     device got connected.
     */
    method Run(events: seq<Event>) returns (ghost views: seq<Composite>)
      requires StatesOk()
      modifies this
      ensures StatesOk() && Grows()
      ensures forall i | 0 <= i < |connects| ::
                (connects[i].ok <==> connects[i].state == Connected) && Reply(connects[i].id, connects[i].ok) in replies
      ensures forall id | id in stored :: connReq == Some(id) || exists i | 0 <= i < |connects| :: connects[i].id == id
      ensures issued == old(issued) + Requests(events)
      ensures |views| == |events| + 1 && views[0] == old(View()) && views[|events|] == View()
      ensures forall i {:trigger events[i]} | 0 <= i < |events| ::
                Turned(Profiles(hasSink, hasHeadset), views[i], events[i], views[i + 1])
    {
      hide RequestsOk, ConnectsOk, Turned;
      views := [View()];
      for i := 0 to |events|
        invariant StatesOk() && Grows() && issued == old(issued) + Requests(events[..i])
        invariant |views| == i + 1 && views[0] == old(View()) && views[i] == View()
        invariant forall k {:trigger events[k]} | 0 <= k < i ::
                    Turned(Profiles(hasSink, hasHeadset), views[k], events[k], views[k + 1])
      {
        assert events[..i + 1][..i] == events[..i];
        Handle(events[i]);
        views := views + [View()];
      }
      assert events[..|events|] == events;
      ConnectsMean(connects, stored, connReq, replies);
    }
  }

  /** A disconnected device has no open request: every request ever made was answered, once. */
  lemma QuietWhenDisconnected(d: Device)
    requires d.StatesOk() && d.sink == SinkDisconnected && d.hs == HsDisconnected
    ensures d.state == Disconnected && d.connReq.None? && d.dcReq.None? && !d.disconnecting && !d.watch
    ensures DistinctIds(d.replies) && forall id | 0 <= id < d.issued :: Answered(d.replies, id)
  {
    assert forall id | 0 <= id < d.issued :: Answered(d.replies, id);
  }
}
