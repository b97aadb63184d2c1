/** The two-threaded delivery engine as a transition system: every critical section, and every
    unlocked read or send between two of them, is one step of one thread. */
module Engine {
  import opened Common
  import opened Reassembly
  import opened Transport
  import opened MadsBroker
  import opened TopicPath

  // ---- The WebSocket library, seen from its callbacks ---------------------

  /** A connection passes its filter, is established, and is closed; after a callback fails only the
      closing callback follows. */
  datatype Phase = Handshake | Live | Closing

  datatype Conn = Conn(uri: string, phase: Phase)

  /** `writable`: connections that asked for a turn to write. `cancelPending`: the coalescing wake-up. */
  datatype Net = Net(conns: map<Wsi, Conn>, writable: set<Wsi>, cancelPending: bool)

  // ---- Where each thread is -----------------------------------------------

  /** `Sending`: the head was read, the lock is released, the send has not returned.
      `Sent`: the send succeeded, the lock is not yet taken again. */
  datatype ServicePc = Polling | Sending(wsi: Wsi, frame: string) | Sent(wsi: Wsi, frame: string)

  datatype BridgePc =
    | Resting
    | DrainingWs
    | Publishing(message: Message)
    | DrainingMads
    | Routing(message: Message)
    | Pushing(message: Message)
    | Signalling
    | Checking

  datatype Core = Core(healthy: bool, shouldStop: bool)

  // ---- What has happened (no step reads it) -------------------------------

  /** One use of a handle, from ESTABLISHED to CLOSED; `id` counts the connections accepted before it.
      `since` and `until` are positions in the broadcast log; `frames` are the frames the library
      took in full. */
  datatype Peer = Peer(
    id: nat,
    topic: string,
    since: nat,
    until: Option<nat>,
    frames: seq<string>,
    fragments: seq<Fragment>)

  datatype Arrival = Arrival(peer: nat, message: Message)

  datatype Log = Log(
    broadcasts: seq<Message>,
    live: map<Wsi, Peer>,
    past: seq<Peer>,
    arrivals: seq<Arrival>,
    published: seq<Message>,
    lostUp: seq<Message>,
    heard: seq<Receipt>,
    lostDown: seq<Message>,
    ticks: nat,
    failedTicks: nat,
    discarded: nat,
    lastReported: nat)

  datatype State = State(
    ws: Shared,
    net: Net,
    service: ServicePc,
    mads: Mads,
    core: Core,
    bridge: BridgePc,
    log: Log)

  /** Both transports just started. */
  const START := State(
    Transport.EMPTY, Net(map[], {}, false), Polling, MadsBroker.STARTED, Core(true, false), Resting,
    Log([], map[], [], [], [], [], [], [], 0, 0, 0, 0))

  datatype Action =
    // service thread
    | Filter(wsi: Wsi, request: Option<string>)
    | Abandon(wsi: Wsi)
    | Establish(wsi: Wsi)
    | Close(wsi: Wsi)
    | Receive(wsi: Wsi, fragment: Fragment)
    | WritePeek(wsi: Wsi)
    | WireWrite(ok: bool)
    | WritePop
    | Wake
    | HttpFailure
    // bridge thread
    | StartTick(receipts: seq<Receipt>, running: bool)
    | PopWs
    | DoPublish(threw: bool)
    | PopMads
    | Admit
    | Push
    | Signal
    | Check
    | ConsumeCount

  predicate IsService(a: Action) {
    a.Filter? || a.Abandon? || a.Establish? || a.Close? || a.Receive? || a.WritePeek? || a.WireWrite?
    || a.WritePop? || a.Wake? || a.HttpFailure?
  }

  // ---- Service-thread steps ------------------------------------------------

  function DoFilter(g: Config, s: State, w: Wsi, request: Option<string>): Option<State> {
    if !s.service.Polling? || w in s.net.conns then None
    else if request.None? || TopicFromUri(request.value, g.basePath).None? then Some(s)
    else Some(s.(net := s.net.(conns := s.net.conns[w := Conn(request.value, Handshake)])))
  }

  function DoAbandon(s: State, w: Wsi): Option<State> {
    if !s.service.Polling? || w !in s.net.conns || !s.net.conns[w].phase.Handshake? then None
    else Some(s.(net := s.net.(conns := s.net.conns - {w})))
  }

  function DoEstablish(g: Config, s: State, w: Wsi): Option<State> {
    if !s.service.Polling? || w !in s.net.conns || !s.net.conns[w].phase.Handshake? then None
    else
      var uri := s.net.conns[w].uri;
      var topic := TopicFromUri(uri, g.basePath);
      var phase := if topic.Some? then Live else Closing;
      Some(s.(ws := Established(s.ws, w, topic),
              net := s.net.(conns := s.net.conns[w := Conn(uri, phase)]),
              log := if topic.None? then s.log
                     else s.log.(live := s.log.live[w := Peer(s.ws.accepted, topic.value, |s.log.broadcasts|, None, [], [])])))
  }

  /** The log entry of the connection now on `w` gets a new fragment, a new frame, or its end. */
  function AddFragment(log: Log, w: Wsi, f: Fragment): Log {
    if w !in log.live then log
    else log.(live := log.live[w := log.live[w].(fragments := log.live[w].fragments + [f])])
  }

  function AddFrame(log: Log, w: Wsi, frame: string): Log {
    if w !in log.live then log
    else log.(live := log.live[w := log.live[w].(frames := log.live[w].frames + [frame])])
  }

  function EndPeer(log: Log, w: Wsi, discarded: nat): Log {
    if w !in log.live then log
    else
      log.(live := log.live - {w},
           past := log.past + [log.live[w].(until := Some(|log.broadcasts|))],
           discarded := log.discarded + discarded)
  }

  function DoClose(s: State, w: Wsi): Option<State> {
    if !s.service.Polling? || w !in s.net.conns || s.net.conns[w].phase.Handshake? then None
    else
      var queued := if w in s.ws.sessions then |s.ws.sessions[w].tx| else 0;
      Some(s.(ws := Closed(s.ws, w),
              net := s.net.(conns := s.net.conns - {w}, writable := s.net.writable - {w}),
              log := EndPeer(s.log, w, queued)))
  }

  function SetPhase(net: Net, w: Wsi, phase: Phase): Net {
    if w in net.conns then net.(conns := net.conns[w := net.conns[w].(phase := phase)]) else net
  }

  function DoReceive(g: Config, s: State, w: Wsi, f: Fragment): Option<State> {
    if !s.service.Polling? || w !in s.net.conns || !s.net.conns[w].phase.Live? then None
    else
      var r := Received(g.codec, s.ws, w, f);
      var log := AddFragment(s.log, w, f);
      Some(s.(ws := r.shared,
              net := if r.keep then s.net else SetPhase(s.net, w, Closing),
              log := if r.arrived.Some? && w in log.live
                     then log.(arrivals := log.arrivals + [Arrival(log.live[w].id, r.arrived.value)])
                     else log))
  }

  function DoWritePeek(s: State, w: Wsi): Option<State> {
    if !s.service.Polling? || w !in s.net.writable || w !in s.net.conns || !s.net.conns[w].phase.Live? then None
    else
      var head := Head(s.ws, w);
      Some(s.(net := s.net.(writable := s.net.writable - {w}),
              service := if head.None? then Polling else Sending(w, head.value)))
  }

  function DoWireWrite(s: State, ok: bool): Option<State> {
    if !s.service.Sending? then None
    else
      var w, frame := s.service.wsi, s.service.frame;
      if ok then
        Some(s.(service := Sent(w, frame),
                log := AddFrame(s.log, w, frame)))
      else
        Some(s.(ws := s.ws.(healthy := false), net := SetPhase(s.net, w, Closing), service := Polling))
  }

  function DoWritePop(s: State): Option<State> {
    if !s.service.Sent? then None
    else
      var w := s.service.wsi;
      var (ws, more) := Written(s.ws, w);
      Some(s.(ws := ws,
              net := if more then s.net.(writable := s.net.writable + {w}) else s.net,
              service := Polling))
  }

  function DoWake(s: State): Option<State> {
    if !s.service.Polling? || !s.net.cancelPending then None
    else Some(s.(net := s.net.(writable := s.net.writable + Backlogged(s.ws.sessions), cancelPending := false)))
  }

  /** A body chunk that falls short on an HTTP connection: the service thread serves those too, and they
      share the transport's health. */
  function DoHttpFailure(s: State): Option<State> {
    if !s.service.Polling? then None else Some(s.(ws := s.ws.(healthy := false)))
  }

  // ---- Bridge-thread steps -------------------------------------------------

  function DoStartTick(g: Config, s: State, rs: seq<Receipt>, running: bool): Option<State> {
    if !s.bridge.Resting? then None
    else
      var heard := if s.mads.started && s.mads.healthy then Consumed(g.codec, rs) else [];
      Some(s.(mads := Poll(g.codec, s.mads, rs, running),
              bridge := DrainingWs,
              log := s.log.(heard := s.log.heard + heard, ticks := s.log.ticks + 1)))
  }

  function DoPopWs(s: State): Option<State> {
    if !s.bridge.DrainingWs? then None
    else
      var (ws, message) := Popped(s.ws);
      Some(s.(ws := ws, bridge := if message.None? then DrainingMads else Publishing(message.value)))
  }

  /** A tick that returns false. */
  function FailTick(s: State): State {
    s.(core := Core(false, true), bridge := Resting, log := s.log.(failedTicks := s.log.failedTicks + 1))
  }

  function DoDoPublish(s: State, threw: bool): Option<State> {
    if !s.bridge.Publishing? then None
    else
      var m := s.bridge.message;
      var (mads, ok) := MadsBroker.Publish(s.mads, threw);
      if ok then
        Some(s.(mads := mads, bridge := DrainingWs, log := s.log.(published := s.log.published + [m])))
      else
        Some(FailTick(s.(mads := mads, log := s.log.(lostUp := s.log.lostUp + [m]))))
  }

  function DoPopMads(s: State): Option<State> {
    if !s.bridge.DrainingMads? then None
    else
      var (mads, message) := Pop(s.mads);
      Some(s.(mads := mads, bridge := if message.None? then Checking else Routing(message.value)))
  }

  /** The unlocked health check at the head of `broadcast`. */
  function DoAdmit(s: State): Option<State> {
    if !s.bridge.Routing? then None
    else if s.ws.healthy then Some(s.(bridge := Pushing(s.bridge.message)))
    else Some(FailTick(s.(log := s.log.(lostDown := s.log.lostDown + [s.bridge.message]))))
  }

  function DoPush(g: Config, s: State): Option<State> {
    if !s.bridge.Pushing? then None
    else
      var m := s.bridge.message;
      Some(s.(ws := Pushed(g.codec, s.ws, m), bridge := Signalling,
              log := s.log.(broadcasts := s.log.broadcasts + [m])))
  }

  function DoSignal(s: State): Option<State> {
    if !s.bridge.Signalling? then None
    else Some(s.(net := s.net.(cancelPending := true), bridge := DrainingMads))
  }

  /** The checks that end a tick. */
  function DoCheck(s: State): Option<State> {
    if !s.bridge.Checking? then None
    else if !s.mads.healthy || !s.ws.healthy then Some(FailTick(s))
    else
      Some(s.(core := s.core.(shouldStop := s.core.shouldStop || s.mads.shouldStop), bridge := Resting,
              log := s.log.(failedTicks := s.log.failedTicks + if s.core.healthy then 0 else 1)))
  }

  function DoConsumeCount(s: State): Option<State> {
    if !s.bridge.Resting? then None
    else Some(s.(ws := s.ws.(countChanged := false),
                 log := s.log.(lastReported := if s.ws.countChanged then |s.ws.sessions| else s.log.lastReported)))
  }

  // ---- Runs ----------------------------------------------------------------

  function Step(g: Config, s: State, a: Action): Option<State> {
    match a
    case Filter(w, request) => DoFilter(g, s, w, request)
    case Abandon(w) => DoAbandon(s, w)
    case Establish(w) => DoEstablish(g, s, w)
    case Close(w) => DoClose(s, w)
    case Receive(w, f) => DoReceive(g, s, w, f)
    case WritePeek(w) => DoWritePeek(s, w)
    case WireWrite(ok) => DoWireWrite(s, ok)
    case WritePop => DoWritePop(s)
    case Wake => DoWake(s)
    case HttpFailure => DoHttpFailure(s)
    case StartTick(rs, running) => DoStartTick(g, s, rs, running)
    case PopWs => DoPopWs(s)
    case DoPublish(threw) => DoDoPublish(s, threw)
    case PopMads => DoPopMads(s)
    case Admit => DoAdmit(s)
    case Push => DoPush(g, s)
    case Signal => DoSignal(s)
    case Check => DoCheck(s)
    case ConsumeCount => DoConsumeCount(s)
  }

  /** The state after `acts`, if every one of them was possible in turn. */
  function Exec(g: Config, s: State, acts: seq<Action>): Option<State> {
    if acts == [] then Some(s)
    else match Exec(g, s, acts[..|acts| - 1])
      case None => None
      case Some(before) => Step(g, before, acts[|acts| - 1])
  }

  /** `s` is the state after some run of both threads from the start. */
  ghost predicate Reachable(g: Config, s: State) {
    exists acts :: Exec(g, START, acts) == Some(s)
  }

  lemma {:induction false} ExecAppend(g: Config, s: State, a: seq<Action>, b: seq<Action>)
    ensures Exec(g, s, a + b) == match Exec(g, s, a) case None => None case Some(mid) => Exec(g, mid, b)
  {
    if b == [] {
      assert a + b == a;
    } else {
      assert (a + b)[..|a + b| - 1] == a + b[..|b| - 1];
      ExecAppend(g, s, a, b[..|b| - 1]);
    }
  }

  lemma ExecThen(g: Config, s: State, acts: seq<Action>, mid: State, a: Action)
    requires Exec(g, s, acts) == Some(mid)
    ensures Exec(g, s, acts + [a]) == Step(g, mid, a)
  {
    assert (acts + [a])[..|acts|] == acts;
  }

  lemma ExecChain(g: Config, s: State, a: seq<Action>, mid: State, b: seq<Action>, t: State)
    requires Exec(g, s, a) == Some(mid) && Exec(g, mid, b) == Some(t)
    ensures Exec(g, s, a + b) == Some(t)
  {
    ExecAppend(g, s, a, b);
  }
}
