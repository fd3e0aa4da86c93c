/**
 The worker thread of `audio/liba2dp.c`: its state and its two descriptors, whatever the
 calls to the audio service do. The outcomes of the calls are an endless sequence.
 */
module A2dpWorker {
  datatype State = NoState | Initialized | Configuring | Configured | Starting | Started | Stopping

  datatype Command = NoCommand | Init | Configure | Start | Stop | Quit

  /**
   What a call does. `Hangup` is EPIPE or ECONNRESET. For a receive, `ErrorReply` is a BT_ERROR
   message with its code, `ErrorLost` one whose code could not be read and `ErrorHangup` one whose code was
   answered with EPIPE; `OtherName` is a message that was not expected.
   */
  datatype Outcome = Ok | Fails | Hangup | OtherName | ErrorReply(code: int) | ErrorLost | ErrorHangup

  const EINVAL: int := 22
  const EIO: int := 5
  const EPIPE: int := 32

  type Outcomes = nat -> Outcome

  ghost predicate AllOk(o: Outcomes) {
    forall i: nat :: o(i).Ok?
  }

  ghost predicate NoHangup(o: Outcomes) {
    forall i: nat :: !o(i).Hangup?
  }

  /** From call `n` on: the close request is sent, and its reply makes `audioservice_recv` close again. */
  predicate Reopens(o: Outcomes, n: nat) {
    o(n).Ok? && o(n + 1).ErrorHangup?
  }

  /** Closing from call `n` on nests exactly `depth` times. */
  ghost predicate Nests(o: Outcomes, n: nat, depth: nat) {
    (forall i: nat | i < depth :: Reopens(o, n + 2 * i)) && !Reopens(o, n + 2 * depth)
  }

  /** Closing comes to an end, from whatever call on it begins. */
  ghost predicate Ends(o: Outcomes) {
    forall n: nat :: EndsFrom(o, n)
  }

  ghost predicate EndsFrom(o: Outcomes, n: nat) {
    exists depth: nat :: Nests(o, n, depth)
  }

  /** How often closing from call `n` on nests. */
  ghost function Depth(o: Outcomes, n: nat): nat {
    if depth: nat :| Nests(o, n, depth) then depth else 0
  }

  lemma DepthIs(o: Outcomes, n: nat, depth: nat)
    requires Nests(o, n, depth)
    ensures Depth(o, n) == depth
  {
    var other := Depth(o, n);
    assert Nests(o, n, other);
  }

  lemma DepthOnce(o: Outcomes, n: nat)
    requires Ends(o) && Reopens(o, n)
    ensures Depth(o, n) == Depth(o, n + 2) + 1
  {
    assert EndsFrom(o, n + 2);
    var depth: nat :| Nests(o, n + 2, depth);
    DepthIs(o, n + 2, depth);
    NestsOnce(o, n, depth);
    DepthIs(o, n, depth + 1);
  }

  lemma NestsOnce(o: Outcomes, n: nat, depth: nat)
    requires Reopens(o, n) && Nests(o, n + 2, depth)
    ensures Nests(o, n, depth + 1)
  {
    forall i: nat | i < depth + 1 ensures Reopens(o, n + 2 * i) {
      if i > 0 { assert Reopens(o, n + 2 + 2 * (i - 1)); }
    }
    assert n + 2 * (depth + 1) == n + 2 + 2 * depth;
  }

  lemma NestsNot(o: Outcomes, n: nat)
    ensures !Reopens(o, n) ==> Nests(o, n, 0)
  {
  }

  /** A close request that is answered in another way stops it. */
  lemma {:induction false} NestsUpTo(o: Outcomes, n: nat, k: nat)
    requires !Reopens(o, n + 2 * k)
    ensures EndsFrom(o, n)
    decreases k
  {
    if Reopens(o, n) {
      assert n + 2 * k == n + 2 + 2 * (k - 1);
      NestsUpTo(o, n + 2, k - 1);
      var depth: nat :| Nests(o, n + 2, depth);
      NestsOnce(o, n, depth);
    } else {
      NestsNot(o, n);
    }
  }

  /**
   `bluetooth_close` calls itself without end, so that no depth is reached, exactly when the service goes on so for
   ever.
   */
  lemma EndlessClose(o: Outcomes, n: nat)
    ensures !EndsFrom(o, n) <==> forall i: nat :: Reopens(o, n + 2 * i)
  {
    if !EndsFrom(o, n) {
      forall i: nat ensures Reopens(o, n + 2 * i) {
        if !Reopens(o, n + 2 * i) { NestsUpTo(o, n, i); }
      }
    }
  }

  lemma AllOkEnds(o: Outcomes)
    requires AllOk(o)
    ensures Ends(o)
  {
    forall n: nat ensures EndsFrom(o, n) {
      assert o(n + 1).Ok?;
      NestsNot(o, n);
    }
  }

  /** A request sent with call `n` and its reply leave the service connected. */
  predicate Survives(o: Outcomes, n: nat) {
    !o(n).Hangup? && (o(n).Ok? ==> !o(n + 1).Hangup? && !o(n + 1).ErrorHangup?)
  }

  /** What a command does to the state of the worker; `ok` says that it succeeded. */
  ghost predicate Obeys(wanted: Command, s: State, s': State, ok: bool) {
    match wanted
    case Configure => s' == if s != Initialized then s else if ok then Configured else NoState
    case Start => s' == if s != Configured then s else if ok then Started else NoState
    case Stop => if s == Started then s' == Configured || s' == NoState else s' == s
    case Quit => s' == NoState
    case _ => s' == s
  }

  /** What the thread is left with after a turn: its state and the command it executed last. */
  datatype Moment = Moment(state: State, command: Command)

  /** One turn of the thread: a worker without a state is initialised, and a new command is executed. */
  ghost predicate Turned(wanted: Command, m: Moment, m': Moment) {
    exists s, ok :: TurnedBy(wanted, m, s, ok, m')
  }

  /** The state was `s` when the command was looked at, and `ok` says that it succeeded. */
  ghost predicate TurnedBy(wanted: Command, m: Moment, s: State, ok: bool, m': Moment) {
    && (if m.state == NoState && wanted != Quit then s == NoState || s == Initialized else s == m.state)
    && (if m.command == wanted then m' == Moment(s, wanted)
        else Obeys(wanted, s, m'.state, ok) && (m'.command == wanted || m'.command == NoCommand))
  }

  /** `struct bluetooth_data`: state and descriptors. */
  class Worker {
    const outcomes: Outcomes
    var at: nat                    // outcomes used
    var state: State
    var server: int
    var stream: int
    var command: Command           // the last command executed
    var result: int                // the last result, which later commands leave as it is
    var nextFd: nat
    ghost var inUse: set<int>      // descriptors open in the process
    ghost var lost: set<int>       // those that nothing refers to any more

    /** How often closing now nests. */
    ghost function CloseDepth(): nat
      reads this
    {
      if server >= 0 then Depth(outcomes, at) else 0
    }

    /** How often the reply that comes next closes. */
    ghost function ReplyDepth(): nat
      reads this
    {
      if outcomes(at).ErrorHangup? then Depth(outcomes, at + 1) + 1 else 0
    }

    /** 1 while the server descriptor is held. */
    ghost function Held(): nat
      reads this
    {
      if server >= 0 then 1 else 0
    }

    /** Open descriptors are the two held and those lost, all different. */
    ghost predicate FdsOk()
      reads this
    {
      && inUse == lost + (if server >= 0 then {server} else {}) + (if stream >= 0 then {stream} else {})
      && (server >= 0 ==> server !in lost && server != stream)
      && (stream >= 0 ==> stream !in lost)
      && (forall fd | fd in inUse :: 0 <= fd < nextFd)
      && Ends(outcomes)
    }

    /** What holds whenever the worker waits for a command. */
    ghost predicate Waiting()
      reads this
    {
      && FdsOk()
      && (state == NoState || state == Initialized || state == Configured || state == Started)
      && (server >= 0 <==> state != NoState)
      && (stream >= 0 <==> state == Started)
    }

    ghost predicate Closed()
      reads this
    {
      FdsOk() && state == NoState && server < 0 && stream < 0
    }

    /** Outcomes are used up in order, and without a hangup among them no descriptor is lost. */
    twostate predicate Progress()
      reads this
    {
      && old(at) <= at && old(lost) <= lost && (NoHangup(outcomes) ==> lost == old(lost))
      && nextFd == old(nextFd) && command == old(command)
    }

    /** State and descriptors are as before. */
    twostate predicate Kept()
      reads this
    {
      server == old(server) && state == old(state) && stream == old(stream) && lost == old(lost) && inUse == old(inUse)
    }

    constructor (outcomes: Outcomes)
      requires Ends(outcomes)
      ensures Waiting() && state == NoState && lost == {} && this.outcomes == outcomes && at == 0
      ensures command == NoCommand
    {
      this.outcomes := outcomes;
      at, state, server, stream, command, result, nextFd := 0, NoState, -1, -1, NoCommand, 0, 3;
      inUse, lost := {}, {};
    }

    method Next() returns (o: Outcome)
      modifies this`at
      ensures o == outcomes(old(at)) && at == old(at) + 1
    {
      o := outcomes(at);
      at := at + 1;
    }

    /**
     `audioservice_send`: a hangup forgets the descriptor without closing it and closes the rest. The
     descriptor is gone by then, so that closing sends nothing.
     */
    method AudioserviceSend() returns (err: int)
      requires FdsOk() && server >= 0
      modifies this
      ensures FdsOk() && Progress() && (Kept() || (Closed() && err < 0)) && at == old(at) + 1
      ensures err <= 0 && (err == 0 <==> outcomes(old(at)).Ok?)
      ensures err == 0 ==> Kept()
      ensures outcomes(old(at)).Hangup? ==> Closed() && lost == old(lost) + {old(server)}
      ensures !outcomes(old(at)).Hangup? ==> Kept()
      decreases 0, Held(), 1
    {
      hide Nests, Ends, Depth;
      var o := Next();
      if o.Ok? { return 0; }
      err := -EIO;
      if o.Hangup? {
        err := -EPIPE;
        lost := lost + {server};
        server := -1;
        ghost var depth := BluetoothClose();
      }
    }

    /** `audioservice_recv` and the name test of `audioservice_expect`; `depth` counts the closings nested in it. */
    method AudioserviceExpect() returns (err: int, ghost depth: nat)
      requires FdsOk() && server >= 0
      modifies this
      ensures FdsOk() && Progress() && (Kept() || (Closed() && err < 0))
      ensures outcomes(old(at)).Ok? ==> err == 0 && at == old(at) + 1
      ensures outcomes(old(at)).Hangup? ==> Closed() && lost == old(lost) + {old(server)}
      ensures outcomes(old(at)).ErrorHangup? ==> Closed() && depth >= 1 && Nests(outcomes, old(at) + 1, depth - 1)
      ensures !outcomes(old(at)).ErrorHangup? ==> depth == 0
      ensures old(at) < at
      ensures !outcomes(old(at)).Hangup? && !outcomes(old(at)).ErrorHangup? ==> Kept() && at == old(at) + 1
      decreases ReplyDepth(), Held(), 1
    {
      hide Nests, Ends, Depth;
      depth := 0;
      var o := Next();
      match o
      case Ok => err := 0;
      case Fails => err := -EIO;
      case Hangup =>
        err := -EPIPE;
        lost := lost + {server};
        server := -1;
        ghost var none := BluetoothClose();
      case OtherName => err := -EINVAL;
      case ErrorReply(code) => err := -code;
      case ErrorLost => err := -EIO;
      case ErrorHangup =>
        err := -EPIPE;
        depth := BluetoothClose();
        depth := depth + 1;
    }

    /**
     `bluetooth_close`: tells the service, and closes both descriptors. It nests once for every close request that
     is sent and then answered by an error whose code cannot be read for EPIPE, and no more.
     */
    method BluetoothClose() returns (ghost depth: nat)
      requires FdsOk()
      modifies this
      ensures Closed() && Progress()
      ensures old(server) < 0 ==> lost == old(lost) && at == old(at) && depth == 0
      ensures old(server) >= 0 ==> Nests(outcomes, old(at), depth)
      decreases CloseDepth(), Held(), 3
    {
      hide Nests, Ends, NoHangup, Depth;
      depth := 0;
      if server >= 0 {
        depth := TellService();
        inUse := inUse - {server};
        server := -1;
      }
      if stream >= 0 {
        inUse := inUse - {stream};
        stream := -1;
      }
      state := NoState;
    }

    /** The close request and its reply. */
    method TellService() returns (ghost depth: nat)
      requires FdsOk() && server >= 0
      modifies this
      ensures FdsOk() && Progress() && (Kept() || Closed()) && Nests(outcomes, old(at), depth)
      decreases CloseDepth(), Held(), 2
    {
      ghost var n := at;
      hide Nests, Ends, NoHangup, Depth;
      NestsNot(outcomes, n);
      depth := 0;
      var err := AudioserviceSend();
      if err >= 0 {
        if Reopens(outcomes, n) { DepthOnce(outcomes, n); }
        err, depth := AudioserviceExpect();
        if depth > 0 { NestsOnce(outcomes, n, depth - 1); }
      }
    }

    /** A request and its reply; a reply counts as a failure only when its code is negative. */
    method Exchange() returns (err: int)
      requires FdsOk() && server >= 0
      modifies this
      ensures FdsOk() && Progress() && (Kept() || (Closed() && err < 0))
      ensures Kept() <==> Survives(outcomes, old(at))
      ensures AllOk(outcomes) ==> err == 0 && at == old(at) + 2
    {
      ghost var depth;
      err := AudioserviceSend();
      if err < 0 { return; }
      err, depth := AudioserviceExpect();
    }

    /** `bluetooth_init`: a socket whose timeout cannot be set is not kept, and not closed either. */
    method BluetoothInit() returns (err: int)
      requires Waiting() && state == NoState
      modifies this
      ensures Waiting() && state == if err < 0 then NoState else Initialized
      ensures old(at) <= at && old(lost) <= lost && command == old(command)
      ensures lost == old(lost) || (err < 0 && lost == old(lost) + {old(nextFd)})
      ensures AllOk(outcomes) ==> err == 0 && at == old(at) + 2
    {
      var o := Next();
      if !o.Ok? { return -EIO; }
      var sk := nextFd;
      assert sk !in inUse;
      nextFd, inUse := nextFd + 1, inUse + {sk};
      o := Next();
      if !o.Ok? {
        lost := lost + {sk};
        return -EIO;
      }
      server := sk;
      state := Initialized;
      err := 0;
    }

    /** The exchanges of `bluetooth_configure` and `bluetooth_a2dp_hw_params`. */
    method ConfigureSteps() returns (err: int)
      requires FdsOk() && server >= 0
      modifies this
      ensures FdsOk() && Progress() && (Kept() || (Closed() && err < 0))
      ensures AllOk(outcomes) ==> err == 0 && at == old(at) + 8
    {
      err := Exchange();                      // BT_GET_CAPABILITIES
      if err < 0 { return; }
      var o := Next();                        // bluetooth_parse_capabilities
      if !o.Ok? { return -EINVAL; }
      err := Exchange();                      // BT_OPEN
      if err < 0 { return; }
      o := Next();                            // bluetooth_a2dp_init
      if !o.Ok? { return -EIO; }
      err := Exchange();                      // BT_SET_CONFIGURATION
      if err < 0 { return; }
      err := 0;
    }

    /** `bluetooth_configure`. */
    method BluetoothConfigure() returns (err: int)
      requires Waiting() && state == Initialized
      modifies this
      ensures Waiting() && Progress()
      ensures state == if err >= 0 then Configured else NoState
      ensures AllOk(outcomes) ==> err == 0 && at == old(at) + 8
    {
      state := Configuring;
      err := ConfigureSteps();
      if err >= 0 {
        state := Configured;
      } else if state == Configuring {
        ghost var depth := BluetoothClose();
      }
    }

    /** The exchange that starts the stream, and whether the service passed a descriptor. */
    method StartSteps() returns (err: int)
      requires FdsOk() && server >= 0
      modifies this
      ensures FdsOk() && Progress() && (Kept() || (Closed() && err < 0))
      ensures AllOk(outcomes) ==> err == 0 && at == old(at) + 4
    {
      err := Exchange();                      // BT_START_STREAM
      if err < 0 { return; }
      ghost var depth;
      err, depth := AudioserviceExpect();     // BT_NEW_STREAM
      if err < 0 { return; }
      var o := Next();                        // bt_audio_service_get_data_fd
      err := if o.Ok? then 0 else -EIO;
    }

    /** `bluetooth_start`. */
    method BluetoothStart() returns (err: int)
      requires Waiting() && state == Configured
      modifies this
      ensures Waiting() && old(at) <= at && command == old(command)
      ensures NoHangup(outcomes) ==> lost == old(lost)
      ensures state == if err >= 0 then Started else NoState
      ensures AllOk(outcomes) ==> err == 0
    {
      state := Starting;
      err := StartSteps();
      if err >= 0 {
        stream := nextFd;
        nextFd, inUse := nextFd + 1, inUse + {nextFd};
        state := Started;
      } else if state == Starting {
        ghost var depth := BluetoothClose();
      }
    }

    /** `bluetooth_stop`: the stream is closed in any case; only a hangup also loses the service. */
    method BluetoothStop() returns (err: int)
      requires Waiting() && state == Started
      modifies this
      ensures Waiting() && Progress()
      ensures stream < 0 && (state == Configured || (state == NoState && err < 0))
      ensures state == Configured <==> Survives(outcomes, old(at))
    {
      state := Stopping;
      inUse := inUse - {stream};
      stream := -1;
      err := Exchange();                      // BT_STOP_STREAM
      if state == Stopping { state := Configured; }
    }

    /** The command switch of `a2dp_thread`. */
    method Execute(wanted: Command) returns (quit: bool)
      requires Waiting()
      modifies this
      ensures Waiting() && old(at) <= at && command == old(command)
      ensures NoHangup(outcomes) ==> lost == old(lost)
      ensures quit == wanted.Quit? && (quit ==> Closed())
      ensures Obeys(wanted, old(state), state, result >= 0)
      ensures wanted.Stop? && old(state) == Started ==>
                stream < 0 && (state == Configured <==> Survives(outcomes, old(at)))
      ensures wanted.Configure? && old(state).Initialized? && AllOk(outcomes) ==>
                state == Configured && at == old(at) + 8 && result == 0
      ensures wanted.Start? && old(state).Configured? && AllOk(outcomes) ==> state == Started
      ensures wanted.Init? ==> state == old(state) && at == old(at) && result == old(result)
    {
      quit := wanted.Quit?;
      if wanted.Configure? && state == Initialized {
        var e := BluetoothConfigure();
        result := e;
      } else if wanted.Start? && state == Configured {
        var e := BluetoothStart();
        result := e;
      } else if wanted.Stop? && state == Started {
        var e := BluetoothStop();
        result := e;
      } else if wanted.Quit? {
        ghost var depth := BluetoothClose();
      }
    }

    /** One turn of the loop of `a2dp_thread` after a signal, with `wanted` the command set by then. */
    method Signalled(wanted: Command) returns (quit: bool)
      requires Waiting()
      modifies this
      ensures Waiting() && (quit ==> Closed())
      ensures quit <==> wanted == Quit && old(command) != Quit
      ensures command == wanted || command == NoCommand
      ensures NoHangup(outcomes) && old(state) != NoState ==> lost == old(lost)
      ensures Turned(wanted, Moment(old(state), old(command)), Moment(state, command))
      ensures AllOk(outcomes) && old(command) != wanted ==>
                && (wanted == Init && old(state) == NoState ==>
                    state == Initialized && at == old(at) + 2 && lost == old(lost))
                && (wanted == Configure && old(state) == Initialized ==> state == Configured && at == old(at) + 8)
                && (wanted == Start && old(state) == Configured ==> state == Started)
    {
      quit := false;
      if state == NoState && wanted != Quit {
        var e := BluetoothInit();
        result := e;
      }
      ghost var s := state;
      if command == wanted {
        assert TurnedBy(wanted, Moment(old(state), old(command)), s, true, Moment(state, command));
        return;
      }
      command := wanted;
      quit := Execute(wanted);
      if !quit && result < 0 { command := NoCommand; }
      assert TurnedBy(wanted, Moment(old(state), old(command)), s, result >= 0, Moment(state, command));
    }

    /** Any sequence of commands and any outcomes: the invariant holds at every wait. */
    method Run(wanted: seq<Command>) returns (done: nat, ghost moments: seq<Moment>)
      requires Waiting()
      modifies this
      ensures Waiting() && done <= |wanted|
      ensures done < |wanted| ==> Closed() && wanted[done] == Quit
      ensures |moments| == done + 1 && moments[0] == Moment(old(state), old(command))
      ensures forall i {:trigger wanted[i]} | 0 <= i < done :: Turned(wanted[i], moments[i], moments[i + 1])
      ensures done == |wanted| ==> moments[done] == Moment(state, command)
    {
      hide Turned;
      done, moments := 0, [Moment(state, command)];
      while done < |wanted|
        invariant Waiting() && done <= |wanted|
        invariant |moments| == done + 1 && moments[0] == Moment(old(state), old(command))
        invariant moments[done] == Moment(state, command)
        invariant forall i {:trigger wanted[i]} | 0 <= i < done :: Turned(wanted[i], moments[i], moments[i + 1])
      {
        var quit := Signalled(wanted[done]);
        if quit { return; }
        moments := moments + [Moment(state, command)];
        done := done + 1;
      }
    }
  }

  /**
   With a service that answers everything, the commands of `wait_for_start` lead to a started stream and lose
   nothing.
   */
  method StartFromNothing(outcomes: Outcomes) returns (w: Worker)
    requires AllOk(outcomes)
    ensures fresh(w) && w.Waiting() && w.state == Started && w.lost == {}
  {
    AllOkEnds(outcomes);
    w := new Worker(outcomes);
    var _ := w.Signalled(Init);
    var _ := w.Signalled(Configure);
    var _ := w.Signalled(Start);
  }
}
