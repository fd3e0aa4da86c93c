/**
 The limit on connected headsets of an adapter (`audio/manager.c`), over every way in which
 a headset leaves its disconnected state (`audio/headset.c`).
 */
module HeadsetLimit {

  datatype State = Disconnected | Connecting | Connected | PlayInProgress | Playing

  /** A device: the adapter it is reached through, and its headset, if it has one. */
  datatype Device = Device(adapter: nat, hasHeadset: bool, state: State)

  /** The device has a headset of adapter `a` that is not disconnected. */
  predicate Active(d: Device, a: nat) {
    d.adapter == a && d.hasHeadset && d.state != Disconnected
  }

  function One(b: bool): nat { if b then 1 else 0 }

  /** Headsets of adapter `a` that are not disconnected. */
  function Count(ds: seq<Device>, a: nat): nat {
    if ds == [] then 0 else Count(ds[..|ds| - 1], a) + One(Active(ds[|ds| - 1], a))
  }

  ghost predicate WithinLimit(ds: seq<Device>, limit: int) {
    forall a: nat :: Count(ds, a) <= limit
  }

  lemma {:induction false} CountUpdate(ds: seq<Device>, i: nat, d: Device, a: nat)
    requires i < |ds|
    ensures Count(ds[i := d], a) + One(Active(ds[i], a)) == Count(ds, a) + One(Active(d, a))
  {
    var init, es := ds[..|ds| - 1], ds[i := d];
    if i == |ds| - 1 {
      assert es[..|ds| - 1] == init;
    } else {
      CountUpdate(init, i, d, a);
      assert es[..|ds| - 1] == init[i := d];
    }
  }

  lemma CountSnoc(ds: seq<Device>, d: Device, a: nat)
    ensures Count(ds + [d], a) == Count(ds, a) + One(Active(d, a))
  {
    assert (ds + [d])[..|ds|] == ds;
  }

  /** The headsets counted for device `i`: those of its adapter other than its own. */
  function Others(ds: seq<Device>, i: nat): nat
    requires i < |ds|
  {
    Count(ds[i := ds[i].(hasHeadset := false)], ds[i].adapter)
  }

  /** Those of them among the first `k` devices. */
  function Seen(ds: seq<Device>, i: nat, k: nat): nat
    requires i < |ds| && k <= |ds|
  {
    if k == 0 then 0 else Seen(ds, i, k - 1) + One(k - 1 != i && Active(ds[k - 1], ds[i].adapter))
  }

  lemma {:induction false} SeenIs(ds: seq<Device>, i: nat, k: nat)
    requires i < |ds| && k <= |ds|
    ensures Seen(ds, i, k) == Count(ds[i := ds[i].(hasHeadset := false)][..k], ds[i].adapter)
  {
    if k > 0 {
      var es := ds[i := ds[i].(hasHeadset := false)];
      SeenIs(ds, i, k - 1);
      CountSnoc(es[..k - 1], es[k - 1], ds[i].adapter);
      hide Count;
      assert es[..k] == es[..k - 1] + [es[k - 1]];
    }
  }

  lemma SeenAll(ds: seq<Device>, i: nat)
    requires i < |ds|
    ensures Seen(ds, i, |ds|) == Others(ds, i)
  {
    SeenIs(ds, i, |ds|);
    hide Count, Seen;
    var es := ds[i := ds[i].(hasHeadset := false)];
    assert es[..|ds|] == es;
  }

  lemma {:induction false} SeenGrows(ds: seq<Device>, i: nat, k: nat)
    requires i < |ds| && k <= |ds|
    ensures Seen(ds, i, k) <= Seen(ds, i, |ds|)
    decreases |ds| - k
  {
    if k < |ds| { SeenGrows(ds, i, k + 1); }
  }

  lemma OthersIs(ds: seq<Device>, i: nat)
    requires i < |ds|
    ensures Others(ds, i) + One(Active(ds[i], ds[i].adapter)) == Count(ds, ds[i].adapter)
  {
    CountUpdate(ds, i, ds[i].(hasHeadset := false), ds[i].adapter);
  }

  /** A change of device `i` that the others leave room for keeps every adapter within the limit. */
  lemma RoomKeepsLimit(ds: seq<Device>, i: nat, d: Device, limit: int)
    requires i < |ds| && d.adapter == ds[i].adapter && WithinLimit(ds, limit)
    requires d.hasHeadset && d.state != Disconnected ==> Others(ds, i) < limit || Active(ds[i], ds[i].adapter)
    ensures WithinLimit(ds[i := d], limit)
  {
    OthersIs(ds, i);
    var es := ds[i := d];
    forall a: nat ensures Count(es, a) <= limit {
      CountUpdate(ds, i, d, a);
      assert Count(ds, a) <= limit;
      hide Count;
    }
  }

  datatype Event =
    | Incoming(device: nat, gainsHeadset: bool, channelOk: bool, authorised: bool)
    | Outgoing(device: nat, channelOk: bool)
    | Changes(device: nat, state: State)
    | Shutdown(device: nat)
    | NewDevice(adapter: nat, hasHeadset: bool)

  /** What an event does to the devices. */
  ghost predicate Turned(limit: int, ds: seq<Device>, e: Event, es: seq<Device>) {
    match e
    case NewDevice(adapter, hasHeadset) => es == ds + [Device(adapter, hasHeadset, Disconnected)]
    case Incoming(i, gainsHeadset, channelOk, authorised) =>
      if i >= |ds| then es == ds
      else
        var free := if ds[i].hasHeadset then ds[i].state == Disconnected else gainsHeadset;
        if Others(ds, i) < limit && free && channelOk && authorised
        then es == ds[i := Device(ds[i].adapter, true, Connecting)]
        else es == ds || (es == ds[i := Device(ds[i].adapter, true, Disconnected)] && !ds[i].hasHeadset)
    case Outgoing(i, channelOk) =>
      es == if i < |ds| && ds[i].hasHeadset && Others(ds, i) < limit && channelOk
            then ds[i := ds[i].(state := Connecting)] else ds
    case Changes(i, state) =>
      es == if i < |ds| && ds[i].hasHeadset && ds[i].state != Disconnected then ds[i := ds[i].(state := state)] else ds
    case Shutdown(i) => es == if i < |ds| then ds[i := ds[i].(state := Disconnected)] else ds
  }

  class Manager {
    const limit: int               // max_connected_headsets
    var devices: seq<Device>

    ghost predicate Valid()
      reads this
    {
      limit >= 1 && WithinLimit(devices, limit)
    }

    constructor (limit: int)
      requires limit >= 1
      ensures Valid() && this.limit == limit && devices == []
    {
      this.limit, devices := limit, [];
    }

    /** `manager_allow_headset_connection`: fewer others than the limit are not disconnected. */
    method Allow(i: nat) returns (ok: bool)
      requires i < |devices| && limit >= 1
      ensures ok <==> Others(devices, i) < limit
    {
      var connected := 0;
      var a := devices[i].adapter;
      SeenAll(devices, i);
      hide Others;
      for k := 0 to |devices|
        invariant connected == Seen(devices, i, k) < limit
      {
        var d := devices[k];
        SeenGrows(devices, i, k + 1);
        if k != i && d.adapter == a && d.hasHeadset {
          if d.state != Disconnected { connected := connected + 1; }
          if connected >= limit { return false; }
        }
      }
      ok := true;
    }

    /** `headset_set_state`, for a headset that is on its way, or that there is room for. */
    method SetState(i: nat, state: State)
      requires Valid() && i < |devices|
      requires devices[i].hasHeadset && state != Disconnected ==>
                 Others(devices, i) < limit || Active(devices[i], devices[i].adapter)
      modifies this
      ensures Valid() && devices == old(devices)[i := old(devices)[i].(state := state)]
    {
      RoomKeepsLimit(devices, i, devices[i].(state := state), limit);
      devices := devices[i := devices[i].(state := state)];
    }

    /** `ag_confirm`: an incoming connection. */
    method AgConfirm(i: nat, gainsHeadset: bool, channelOk: bool, authorised: bool) returns (accepted: bool)
      requires Valid() && i < |devices|
      modifies this
      ensures Valid() && |devices| == |old(devices)|
      ensures accepted <==>
                && Others(old(devices), i) < limit && channelOk && authorised
                && (if old(devices)[i].hasHeadset then old(devices)[i].state == Disconnected else gainsHeadset)
      ensures accepted ==> devices[i].state == Connecting && devices[i].hasHeadset
      ensures devices[i] == if accepted then Device(old(devices)[i].adapter, true, Connecting)
                            else if Others(old(devices), i) < limit && !old(devices)[i].hasHeadset && gainsHeadset
                            then Device(old(devices)[i].adapter, true, Disconnected) else old(devices)[i]
      ensures forall j | 0 <= j < |devices| && j != i :: devices[j] == old(devices)[j]
    {
      ghost var before := devices;
      var allowed := Allow(i);
      if !allowed { return false; }
      if !devices[i].hasHeadset {
        if !gainsHeadset { return false; }
        var d := devices[i].(hasHeadset := true, state := Disconnected);
        RoomKeepsLimit(devices, i, d, limit);
        devices := devices[i := d];
        SameOthers(before, devices, i);
      }
      if devices[i].state != Disconnected { return false; }
      if !channelOk { return false; }
      SetState(i, Connecting);
      if !authorised {
        SetState(i, Disconnected);
        return false;
      }
      accepted := true;
    }

    /** `rfcomm_connect` and `get_records`: an outgoing connection. */
    method RfcommConnect(i: nat, channelOk: bool) returns (started: bool)
      requires Valid() && i < |devices| && devices[i].hasHeadset
      modifies this
      ensures Valid()
      ensures started <==> Others(old(devices), i) < limit && channelOk
      ensures devices == if started then old(devices)[i := old(devices)[i].(state := Connecting)] else old(devices)
    {
      var allowed := Allow(i);
      if !allowed || !channelOk { return false; }
      SetState(i, Connecting);
      started := true;
    }

    /** One event. Callbacks of a connection arrive only while the headset is not disconnected. */
    method Handle(e: Event)
      requires Valid()
      modifies this
      ensures Valid() && Turned(limit, old(devices), e, devices)
    {
      match e
      case Incoming(i, gainsHeadset, channelOk, authorised) =>
        if i < |devices| { var _ := AgConfirm(i, gainsHeadset, channelOk, authorised); }
      case Outgoing(i, channelOk) =>
        if i < |devices| && devices[i].hasHeadset { var _ := RfcommConnect(i, channelOk); }
      case Changes(i, state) =>
        if i < |devices| && devices[i].hasHeadset && devices[i].state != Disconnected { SetState(i, state); }
      case Shutdown(i) =>
        if i < |devices| { SetState(i, Disconnected); }
      case NewDevice(adapter, hasHeadset) =>
        var d := Device(adapter, hasHeadset, Disconnected);
        forall a: nat ensures Count(devices + [d], a) <= limit {
          CountSnoc(devices, d, a);
          assert Count(devices, a) <= limit;
        }
        devices := devices + [d];
    }

    /** Any run of incoming and outgoing connections: no adapter ever has more headsets than the limit. */
    method Run(events: seq<Event>) returns (ghost states: seq<seq<Device>>)
      requires Valid()
      modifies this
      ensures Valid()
      ensures |states| == |events| + 1 && states[0] == old(devices) && states[|events|] == devices
      ensures forall i | 0 <= i < |states| :: WithinLimit(states[i], limit)
      ensures forall i {:trigger events[i]} | 0 <= i < |events| :: Turned(limit, states[i], events[i], states[i + 1])
    {
      hide Turned, WithinLimit;
      states := [devices];
      for k := 0 to |events|
        invariant Valid() && |states| == k + 1 && states[0] == old(devices) && states[k] == devices
        invariant forall i | 0 <= i < |states| :: WithinLimit(states[i], limit)
        invariant forall i {:trigger events[i]} | 0 <= i < k :: Turned(limit, states[i], events[i], states[i + 1])
      {
        Handle(events[k]);
        states := states + [devices];
      }
    }
  }

  /** The headset of device `i` itself does not matter to what it is counted against. */
  lemma SameOthers(ds: seq<Device>, es: seq<Device>, i: nat)
    requires i < |ds| == |es| && ds[i].adapter == es[i].adapter
    requires forall j | 0 <= j < |ds| && j != i :: ds[j] == es[j]
    ensures Others(ds, i) == Others(es, i)
  {
    var d, e := ds[i].(hasHeadset := false), es[i].(hasHeadset := false);
    assert ds[i := d][i := e] == es[i := e];
    CountUpdate(ds[i := d], i, e, ds[i].adapter);
  }

  /** A headset on its way counts: with the limit reached by others, no further one is let in. */
  lemma LimitIsTight(ds: seq<Device>, i: nat, limit: int)
    requires i < |ds| && WithinLimit(ds, limit) && !Active(ds[i], ds[i].adapter)
    ensures Others(ds, i) < limit <==> WithinLimit(ds[i := Device(ds[i].adapter, true, Connecting)], limit)
  {
    var d := Device(ds[i].adapter, true, Connecting);
    OthersIs(ds, i);
    CountUpdate(ds, i, d, ds[i].adapter);
    if Others(ds, i) < limit {
      RoomKeepsLimit(ds, i, d, limit);
    } else {
      assert Count(ds[i := d], ds[i].adapter) > limit;
    }
  }
}
