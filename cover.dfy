/** The blind (cover) entity: the movement state it tracks, since the hub
    cannot be asked where a blind is, and the commands it sends. */
module Cover {
  import opened Wrappers
  import opened Dicts
  import opened Hub

  /** The entity's two tracked fields: `previous_action` and `_attr_is_closed`. */
  datatype CoverState = CoverState(previousAction: Option<string>, isClosed: Option<bool>)

  /** A fresh entity knows nothing. */
  const INITIAL := CoverState(None, None)

  /** The entity's operations. */
  datatype CoverOp = Open | Close | Stop | OpenTilt | CloseTilt | Toggle

  /** The states an entity can be in: the previous action, if any, is "open"
      or "close"; "closed" is known once any command has gone out, and it is
      True exactly after a close. */
  ghost predicate Consistent(s: CoverState) {
    && (s.previousAction.None? || s.previousAction.value == "open" || s.previousAction.value == "close")
    && (s.isClosed.None? ==> s.previousAction.None?)
    && (s.isClosed == Some(true) <==> s.previousAction == Some("close"))
  }

  /** The command `op` sends to the hub from state `s`, or None when a guard
      returns early (stop with no previous action, close-tilt after a close). */
  function Issued(s: CoverState, op: CoverOp): (r: Option<string>)
    ensures r.None? <==> (op == Stop && s.previousAction.None?) || (op == CloseTilt && s.previousAction == Some("close"))
    ensures op == Stop && r.Some? ==> r == Some(StopCommand(s.previousAction.value))
  {
    match op
    case Open => Some(COMMAND_ON)
    case Close => Some(COMMAND_OFF)
    case Stop => if s.previousAction.None? then None else Some(StopCommand(s.previousAction.value))
    case OpenTilt => Some(COMMAND_DIM_UP)
    case CloseTilt => if s.previousAction == Some("close") then None else Some(COMMAND_DIM_DOWN)
    case Toggle => Some(COMMAND_ON)
  }

  /** The fields after `op`'s hub call returned. */
  function Moved(op: CoverOp): (r: CoverState)
    ensures r.isClosed == Some(op == Close)
    ensures r.previousAction.Some? <==> op == Open || op == Close
  {
    match op
    case Open => CoverState(Some("open"), Some(false))
    case Close => CoverState(Some("close"), Some(true))
    case _ => CoverState(None, Some(false))
  }

  /** The fields after `op`, where `raised` says the hub call raised: a
      guarded no-op and a failed call both leave them as they were. */
  function Next(s: CoverState, op: CoverOp, raised: bool): (r: CoverState)
    ensures raised ==> r == s
    ensures r == s || r == Moved(op)
  {
    if Issued(s, op).None? || raised then s else Moved(op)
  }

  lemma InitialConsistent()
    ensures Consistent(INITIAL)
  {
  }

  lemma NextConsistent(s: CoverState, op: CoverOp, raised: bool)
    requires Consistent(s)
    ensures Consistent(Next(s, op, raised))
  {
  }

  /** Stop reverses the last direction: after an open it sends "off", after a
      close "on", and it leaves the blind idle and not closed. */
  lemma StopReversesDirection(s: CoverState)
    ensures Issued(Next(s, Open, false), Stop) == Some(COMMAND_OFF)
    ensures Issued(Next(s, Close, false), Stop) == Some(COMMAND_ON)
    ensures Next(Next(s, Open, false), Stop, false) == CoverState(None, Some(false))
    ensures Next(Next(s, Close, false), Stop, false) == CoverState(None, Some(false))
  {
  }

  /** Stop with no previous action sends nothing and changes nothing. */
  lemma StopWhenIdle(s: CoverState, raised: bool)
    requires s.previousAction.None?
    ensures Issued(s, Stop).None? && Next(s, Stop, raised) == s
  {
  }

  /** Close-tilt right after a close sends nothing and changes nothing. */
  lemma CloseTiltAfterClose(s: CoverState, raised: bool)
    ensures var c := Next(s, Close, false);
      Issued(c, CloseTilt).None? && Next(c, CloseTilt, raised) == c
  {
  }

  /** One call of an operation, and whether its hub call raised. */
  datatype Call = Call(op: CoverOp, raised: bool)

  /** The fields after the calls `calls`, starting from `s`. */
  function Run(s: CoverState, calls: seq<Call>): CoverState {
    if calls == [] then s
    else var c := calls[|calls| - 1]; Next(Run(s, calls[..|calls| - 1]), c.op, c.raised)
  }

  /** The operation whose command went out last, if any. */
  function LastIssued(s: CoverState, calls: seq<Call>): Option<CoverOp> {
    if calls == [] then None
    else
      var c := calls[|calls| - 1];
      var before := Run(s, calls[..|calls| - 1]);
      if Issued(before, c.op).Some? && !c.raised then Some(c.op) else LastIssued(s, calls[..|calls| - 1])
  }

  /** What the entity believes is decided by the last command it sent and
      nothing else: by no command, the initial state; otherwise that
      command's state. In particular it reports "closed" exactly when
      that command was a close. */
  lemma {:induction false} StateIsLastIssued(calls: seq<Call>)
    ensures Run(INITIAL, calls) == match LastIssued(INITIAL, calls) case None => INITIAL case Some(op) => Moved(op)
    ensures Run(INITIAL, calls).isClosed == Some(true) <==> LastIssued(INITIAL, calls) == Some(Close)
    ensures Consistent(Run(INITIAL, calls))
  {
    if calls != [] {
      StateIsLastIssued(calls[..|calls| - 1]);
    }
  }

  /** The requests `op` adds to the hub's log from state `s`. */
  function Sent(channel: string, s: CoverState, op: CoverOp, raised: bool): seq<Request> {
    if Issued(s, op).None? || raised then [] else [CommandRequest(channel, Issued(s, op).value)]
  }

  /** FellerZeptrionBlind. A hub call that raises is modelled by `raised`;
      the call then sends nothing, since the command never completed. The
      hub modelled in Hub itself never raises. */
  class Blind {
    const hub: ZeptrionHub
    const channelId: string
    const name: string
    const uniqueId: string
    var previousAction: Option<string>
    var isClosed: Option<bool>

    function State(): CoverState
      reads this
    {
      CoverState(previousAction, isClosed)
    }

    ghost predicate Valid()
      reads this
    {
      Consistent(State())
    }

    /** `channel_id` is the dict key (the element tag); commands go to the
        channel's id. */
    constructor (hub: ZeptrionHub, channelKey: string, info: Channel, network: NetworkInfo)
      ensures Valid() && State() == INITIAL
      ensures this.hub == hub && channelId == info.id && name == info.name
      ensures uniqueId == info.name + "_" + channelKey + "_" + PyText.PyStr(network.mac)
    {
      this.hub := hub;
      channelId := info.id;
      name := info.name;
      uniqueId := info.name + "_" + channelKey + "_" + PyText.PyStr(network.mac);
      isClosed := None;
      previousAction := None;
    }

    method OpenCover(raised: bool)
      requires Valid()
      modifies this, hub
      ensures Valid() && State() == Next(old(State()), CoverOp.Open, raised)
      ensures hub.log == old(hub.log) + Sent(channelId, old(State()), CoverOp.Open, raised)
    {
      if !raised {
        hub.BlindOpen(channelId);
        previousAction := Some("open");
        isClosed := Some(false);
      }
    }

    method CloseCover(raised: bool)
      requires Valid()
      modifies this, hub
      ensures Valid() && State() == Next(old(State()), CoverOp.Close, raised)
      ensures hub.log == old(hub.log) + Sent(channelId, old(State()), CoverOp.Close, raised)
    {
      if !raised {
        hub.BlindClose(channelId);
        previousAction := Some("close");
        isClosed := Some(true);
      }
    }

    method StopCover(raised: bool)
      requires Valid()
      modifies this, hub
      ensures Valid() && State() == Next(old(State()), CoverOp.Stop, raised)
      ensures hub.log == old(hub.log) + Sent(channelId, old(State()), CoverOp.Stop, raised)
    {
      if previousAction.None? {
        return;
      }
      if !raised {
        hub.BlindStop(channelId, previousAction.value);
        previousAction := None;
        isClosed := Some(false);
      }
    }

    method OpenCoverTilt(raised: bool)
      requires Valid()
      modifies this, hub
      ensures Valid() && State() == Next(old(State()), CoverOp.OpenTilt, raised)
      ensures hub.log == old(hub.log) + Sent(channelId, old(State()), CoverOp.OpenTilt, raised)
    {
      if !raised {
        hub.BlindOpenTilt(channelId);
        previousAction := None;
        isClosed := Some(false);
      }
    }

    method CloseCoverTilt(raised: bool)
      requires Valid()
      modifies this, hub
      ensures Valid() && State() == Next(old(State()), CoverOp.CloseTilt, raised)
      ensures hub.log == old(hub.log) + Sent(channelId, old(State()), CoverOp.CloseTilt, raised)
    {
      if previousAction == Some("close") {
        return;
      }
      if !raised {
        hub.BlindCloseTilt(channelId);
        previousAction := None;
        isClosed := Some(false);
      }
    }

    method Toggle(raised: bool)
      requires Valid()
      modifies this, hub
      ensures Valid() && State() == Next(old(State()), CoverOp.Toggle, raised)
      ensures hub.log == old(hub.log) + Sent(channelId, old(State()), CoverOp.Toggle, raised)
    {
      if !raised {
        hub.BlindToggle(channelId);
        previousAction := None;
        isClosed := Some(false);
      }
    }
  }

  /** The keys among `ks`, in their order, whose channel is a blind. */
  function BlindKeys(ks: seq<string>, entries: map<string, Channel>): (r: seq<string>)
    requires forall k :: k in ks ==> k in entries
    ensures |r| <= |ks|
    ensures forall i :: 0 <= i < |r| ==> r[i] in entries && entries[r[i]].category == BLIND
  {
    if ks == [] then []
    else
      var rest := BlindKeys(ks[..|ks| - 1], entries);
      if entries[ks[|ks| - 1]].category == BLIND then rest + [ks[|ks| - 1]] else rest
  }

  /** The blinds are exactly the keys whose category is BLIND, each listed once. */
  lemma {:induction false} BlindKeysSpec(ks: seq<string>, entries: map<string, Channel>)
    requires forall k :: k in ks ==> k in entries
    requires forall i, j :: 0 <= i < j < |ks| ==> ks[i] != ks[j]
    ensures forall k :: k in BlindKeys(ks, entries) <==> k in ks && entries[k].category == BLIND
    ensures forall i, j :: 0 <= i < j < |BlindKeys(ks, entries)| ==> BlindKeys(ks, entries)[i] != BlindKeys(ks, entries)[j]
  {
    if ks != [] {
      var p := ks[..|ks| - 1];
      BlindKeysSpec(p, entries);
      assert forall k :: k in ks <==> k in p || k == ks[|ks| - 1];
      assert ks[|ks| - 1] !in p;
    }
  }

  /** The loop of `async_setup_entry` that picks the channels to make a blind for. */
  method SelectBlinds(channels: Dict<Channel>) returns (keys: seq<string>)
    requires Valid(channels)
    ensures keys == BlindKeys(channels.order, channels.entries)
    ensures forall k :: k in keys <==> k in channels.entries && channels.entries[k].category == BLIND
    ensures forall i, j :: 0 <= i < j < |keys| ==> keys[i] != keys[j]
  {
    keys := [];
    var n := 0;
    while n < |channels.order|
      invariant 0 <= n <= |channels.order|
      invariant keys == BlindKeys(channels.order[..n], channels.entries)
    {
      assert channels.order[..n + 1][..n] == channels.order[..n];
      var key := channels.order[n];
      if channels.entries[key].category == BLIND {
        keys := keys + [key];
      }
      n := n + 1;
    }
    assert channels.order[..n] == channels.order;
    BlindKeysSpec(channels.order, channels.entries);
  }

  /** `async_setup_entry` for covers: one blind per BLIND channel, in dict
      order (see BlindKeysSpec). `channels` is None when the description
      fetch failed at setup, and then `channels.items()` raises
      AttributeError. Reading `network_info['mac']` raises TypeError when
      the network info is None, which happens as soon as there is a blind to
      create. */
  method SetupEntry(hub: ZeptrionHub, channels: Option<Dict<Channel>>, network: Option<NetworkInfo>)
    returns (r: Result<seq<Blind>, PyError>)
    requires channels.Some? ==> Valid(channels.value)
    ensures channels.None? ==> r == Err(AttributeError)
    ensures channels.Some? ==>
      (r.Err? <==> network.None? && exists k :: k in channels.value.entries && channels.value.entries[k].category == BLIND)
    ensures channels.Some? && r.Err? ==> r.error == TypeError
    ensures r.Ok? ==> channels.Some? && |r.value| == |BlindKeys(channels.value.order, channels.value.entries)|
    ensures r.Ok? ==> channels.Some? && forall i :: 0 <= i < |r.value| ==>
              && var d := channels.value;
              && var key := BlindKeys(d.order, d.entries)[i];
              && key in d.entries
              && fresh(r.value[i]) && r.value[i].Valid() && r.value[i].State() == INITIAL && r.value[i].hub == hub
              && r.value[i].channelId == d.entries[key].id && r.value[i].name == d.entries[key].name
              && network.Some? && r.value[i].uniqueId == d.entries[key].name + "_" + key + "_" + PyText.PyStr(network.value.mac)
  {
    if channels.None? {
      return Err(AttributeError);
    }
    var d := channels.value;
    var keys := SelectBlinds(d);
    if |keys| > 0 && network.None? {
      assert keys[0] in keys;
      return Err(TypeError);
    }
    var covers: seq<Blind> := [];
    var i := 0;
    while i < |keys|
      invariant 0 <= i <= |keys|
      invariant |covers| == i
      invariant forall j :: 0 <= j < i ==>
                  && keys[j] in d.entries
                  && fresh(covers[j]) && covers[j].Valid() && covers[j].State() == INITIAL && covers[j].hub == hub
                  && covers[j].channelId == d.entries[keys[j]].id && covers[j].name == d.entries[keys[j]].name
                  && network.Some? && covers[j].uniqueId == d.entries[keys[j]].name + "_" + keys[j] + "_" + PyText.PyStr(network.value.mac)
    {
      assert keys[i] in keys;
      var b := new Blind(hub, keys[i], d.entries[keys[i]], network.value);
      covers := covers + [b];
      i := i + 1;
    }
    r := Ok(covers);
  }
}
