/** `BridgeCore::tick` as a program, preempted at every point by the service thread. */
module Bridge {
  import opened Common
  import opened Transport
  import opened MadsBroker
  import opened Engine
  import opened Server
  import opened TopicPath
  import opened Reassembly
  import Accounting
  import Coherence
  import Ticks

  /** The service thread leaves the bridge thread, its transports' MADS side and its log alone. */
  lemma {:induction false} ServiceKeepsBridge(g: Config, s: State, acts: seq<Action>, t: State)
    requires Exec(g, s, acts) == Some(t)
    requires forall i :: 0 <= i < |acts| ==> IsService(acts[i])
    ensures t.mads == s.mads && t.core == s.core && t.bridge == s.bridge
    ensures t.log.failedTicks == s.log.failedTicks && t.log.ticks == s.log.ticks
  {
    if acts != [] {
      var mid := Exec(g, s, acts[..|acts| - 1]).value;
      ServiceKeepsBridge(g, s, acts[..|acts| - 1], mid);
      Coherence.ServiceFrame(g, mid, acts[|acts| - 1]);
    }
  }

  /** No bridge step moves the service thread or a connection. */
  lemma {:induction false} BridgeKeepsService(g: Config, s: State, acts: seq<Action>, t: State)
    requires Exec(g, s, acts) == Some(t)
    requires forall i :: 0 <= i < |acts| ==> !IsService(acts[i])
    ensures t.service == s.service && t.net.conns == s.net.conns
  {
    if acts != [] {
      var mid := Exec(g, s, acts[..|acts| - 1]).value;
      BridgeKeepsService(g, s, acts[..|acts| - 1], mid);
    }
  }

  lemma FilterAdmits(g: Config, uri: string)
    requires exists t, rest :: t != "" && NoCut(t) && IsTail(rest) && uri == g.basePath + "/" + t + rest
    ensures TopicFromUri(uri, g.basePath).Some?
  {
    var t, rest :| t != "" && NoCut(t) && IsTail(rest) && uri == g.basePath + "/" + t + rest;
    FactorIsTopic(g.basePath, t, rest);
  }

  lemma FilterRejects(g: Config, uri: string)
    requires !exists t, rest :: t != "" && NoCut(t) && IsTail(rest) && uri == g.basePath + "/" + t + rest
    ensures TopicFromUri(uri, g.basePath).None?
  {
    if TopicFromUri(uri, g.basePath).Some? {
      var rest := TopicIsFactor(uri, g.basePath, TopicFromUri(uri, g.basePath).value);
      assert false;
    }
  }

  class BridgeCore {
    const mads: MadsTransport
    const ws: WsImpl
    var healthy: bool
    var shouldStop: bool

    // What the two threads and the network are doing, and what they have done.
    ghost var conns: map<Wsi, Conn>
    ghost var service: ServicePc
    ghost var pc: BridgePc
    ghost var log: Log

    ghost function World(): State
      reads this, mads, ws, ws.lws
    {
      State(ws.View(), Net(conns, ws.lws.writable, ws.lws.cancelPending), service, mads.View(),
            Core(healthy, shouldStop), pc, log)
    }

    /** Both transports use one JSON library. */
    ghost predicate Wired() {
      mads.codec == ws.config.codec
    }

    constructor (mads: MadsTransport, ws: WsImpl)
      requires mads.View() == MadsBroker.STARTED && ws.View() == Transport.EMPTY
      requires ws.lws.writable == {} && !ws.lws.cancelPending && mads.codec == ws.config.codec
      ensures World() == START && Wired() && this.mads == mads && this.ws == ws
    {
      this.mads, this.ws := mads, ws;
      healthy, shouldStop := true, false;
      conns, service, pc, log := map[], Polling, Resting, START.log;
    }

    /** The service thread may run here: any run of its steps, using up `fuel` if it is not empty. The
        caller knows nothing more about what it did. */
    method Preempt(ghost fuel: nat) returns (ghost left: nat, ghost acts: seq<Action>)
      modifies this, ws, ws.lws
      ensures Exec(ws.config, old(World()), acts) == Some(World())
      ensures forall i :: 0 <= i < |acts| ==> IsService(acts[i])
      ensures left <= fuel && (acts != [] ==> left < fuel)
      ensures mads.View() == old(mads.View()) && pc == old(pc)
      ensures log.failedTicks == old(log.failedTicks) && log.ticks == old(log.ticks)
    {
      left, acts := fuel, [];
      ServiceKeepsBridge(ws.config, World(), acts, World());
    }

    // ---- The steps of a tick -------------------------------------------------

    method BeginTick()
      requires Wired() && pc.Resting?
      modifies this, mads, mads.agent
      ensures Step(ws.config, old(World()), StartTick(old(mads.agent.inbox), old(mads.agent.running))) == Some(World())
      ensures log.failedTicks == old(log.failedTicks) && log.ticks == old(log.ticks) + 1
    {
      log := log.(heard := log.heard
                           + (if mads.started && mads.healthy then Consumed(mads.codec, mads.agent.inbox) else []),
                  ticks := log.ticks + 1);
      pc := DrainingWs;
      mads.Poll();
    }

    method TakeFromWs() returns (message: Option<Message>)
      requires pc.DrainingWs?
      modifies this, ws
      ensures Step(ws.config, old(World()), PopWs) == Some(World())
      ensures pc == if message.None? then DrainingMads else Publishing(message.value)
      ensures message.Some? ==> |ws.inbound| < |old(ws.inbound)|
    {
      message := ws.PopIncoming();
      pc := if message.None? then DrainingMads else Publishing(message.value);
    }

    method Fail()
      modifies this
      ensures World() == FailTick(old(World()))
    {
      healthy, shouldStop := false, true;
      pc, log := Resting, log.(failedTicks := log.failedTicks + 1);
    }

    method SendToMads(message: Message) returns (ok: bool, ghost threw: bool)
      requires Wired() && pc == Publishing(message)
      modifies this, mads, mads.agent
      ensures Step(ws.config, old(World()), DoPublish(threw)) == Some(World())
      ensures pc == if ok then DrainingWs else Resting
      ensures log.failedTicks == old(log.failedTicks) + (if ok then 0 else 1) && log.ticks == old(log.ticks)
    {
      ok, threw := mads.Publish(message);
      if ok {
        log, pc := log.(published := log.published + [message]), DrainingWs;
      } else {
        log := log.(lostUp := log.lostUp + [message]);
        Fail();
      }
    }

    /** The service thread may run between the pop and the publication too. */
    method PreemptAndSend(message: Message, ghost fuel: nat) returns (ok: bool, ghost left: nat, ghost acts: seq<Action>)
      requires Wired() && pc == Publishing(message)
      modifies this, mads, mads.agent, ws, ws.lws
      ensures Exec(ws.config, old(World()), acts) == Some(World()) && left <= fuel
      ensures left == fuel ==> ws.inbound == old(ws.inbound)
      ensures pc == if ok then DrainingWs else Resting
      ensures log.failedTicks == old(log.failedTicks) + (if ok then 0 else 1) && log.ticks == old(log.ticks)
    {
      ghost var s0 := World();
      left, acts := Preempt(fuel);
      assert left == fuel ==> World() == s0;
      ghost var s1, threw := World(), false;
      ok, threw := SendToMads(message);
      ExecThen(ws.config, s0, acts, s1, DoPublish(threw));
      acts := acts + [DoPublish(threw)];
    }

    method TakeFromMads() returns (message: Option<Message>)
      requires pc.DrainingMads?
      modifies this, mads
      ensures Step(ws.config, old(World()), PopMads) == Some(World())
      ensures pc == if message.None? then Checking else Routing(message.value)
      ensures message.Some? ==> |mads.queue| < |old(mads.queue)|
    {
      message := mads.PopIncoming();
      pc := if message.None? then Checking else Routing(message.value);
    }

    method AdmitBroadcast(message: Message) returns (ok: bool)
      requires pc == Routing(message)
      modifies this
      ensures Step(ws.config, old(World()), Admit) == Some(World())
      ensures pc == if ok then Pushing(message) else Resting
      ensures log.failedTicks == old(log.failedTicks) + (if ok then 0 else 1) && log.ticks == old(log.ticks)
    {
      ok := ws.healthy;
      if ok {
        pc := Pushing(message);
      } else {
        log := log.(lostDown := log.lostDown + [message]);
        Fail();
      }
    }

    method PushFrames(message: Message)
      modifies ws`sessions, ws`enqueued
      ensures ws.View() == Pushed(ws.config.codec, old(ws.View()), message)
    {
      ws.PushToTakers(message);
    }

    method PushBroadcast(message: Message)
      requires pc == Pushing(message)
      modifies this`log, this`pc, ws`sessions, ws`enqueued
      ensures Step(ws.config, old(World()), Push) == Some(World())
      ensures pc.Signalling? && log.failedTicks == old(log.failedTicks) && log.ticks == old(log.ticks)
    {
      PushFrames(message);
      log, pc := log.(broadcasts := log.broadcasts + [message]), Signalling;
    }

    method SignalBroadcast()
      requires pc.Signalling?
      modifies this`pc, ws.lws
      ensures Step(ws.config, old(World()), Signal) == Some(World()) && pc.DrainingMads?
    {
      ws.lws.CancelService();
      pc := DrainingMads;
    }

    method PreemptAndPush(message: Message, ghost fuel: nat) returns (ghost left: nat, ghost acts: seq<Action>)
      requires pc == Pushing(message)
      modifies this, ws, ws.lws
      ensures Exec(ws.config, old(World()), acts) == Some(World()) && left <= fuel && pc == Signalling
      ensures mads.View() == old(mads.View()) && log.failedTicks == old(log.failedTicks) && log.ticks == old(log.ticks)
    {
      ghost var s0 := World();
      left, acts := Preempt(fuel);
      ghost var s1 := World();
      PushBroadcast(message);
      ExecThen(ws.config, s0, acts, s1, Push);
      acts := acts + [Push];
    }

    method PreemptAndSignal(ghost fuel: nat) returns (ghost left: nat, ghost acts: seq<Action>)
      requires pc.Signalling?
      modifies this, ws, ws.lws
      ensures Exec(ws.config, old(World()), acts) == Some(World()) && left <= fuel && pc == DrainingMads
      ensures mads.View() == old(mads.View()) && log.failedTicks == old(log.failedTicks) && log.ticks == old(log.ticks)
    {
      ghost var s0 := World();
      left, acts := Preempt(fuel);
      ghost var s1 := World();
      SignalBroadcast();
      ExecThen(ws.config, s0, acts, s1, Signal);
      acts := acts + [Signal];
    }

    method PushAndSignal(message: Message, ghost fuel: nat) returns (ghost left: nat, ghost acts: seq<Action>)
      requires pc == Pushing(message)
      modifies this, ws, ws.lws
      ensures Exec(ws.config, old(World()), acts) == Some(World()) && left <= fuel && pc == DrainingMads
      ensures mads.View() == old(mads.View()) && log.failedTicks == old(log.failedTicks) && log.ticks == old(log.ticks)
    {
      ghost var s0, rest := World(), [];
      left, acts := PreemptAndPush(message, fuel);
      ghost var s1 := World();
      left, rest := PreemptAndSignal(left);
      ExecChain(ws.config, s0, acts, s1, rest, World());
      acts := acts + rest;
    }

    /** `WebSocketTransport::broadcast`, with the service thread let in before each of its three parts. */
    method Broadcast(message: Message, ghost fuel: nat) returns (ok: bool, ghost left: nat, ghost acts: seq<Action>)
      requires pc == Routing(message)
      modifies this, ws, ws.lws
      ensures Exec(ws.config, old(World()), acts) == Some(World()) && left <= fuel
      ensures pc == if ok then DrainingMads else Resting
      ensures mads.View() == old(mads.View())
      ensures log.failedTicks == old(log.failedTicks) + (if ok then 0 else 1) && log.ticks == old(log.ticks)
    {
      ghost var s0 := World();
      left, acts := Preempt(fuel);
      ghost var s1 := World();
      ok := AdmitBroadcast(message);
      ExecThen(ws.config, s0, acts, s1, Admit);
      acts := acts + [Admit];
      if ok {
        ghost var s2, rest := World(), [];
        left, rest := PushAndSignal(message, left);
        ExecChain(ws.config, s0, acts, s2, rest, World());
        acts := acts + rest;
      }
    }

    method FinishTick() returns (ok: bool)
      requires pc.Checking?
      modifies this
      ensures Step(ws.config, old(World()), Check) == Some(World()) && pc.Resting?
      ensures log.failedTicks == old(log.failedTicks) + (if ok then 0 else 1) && log.ticks == old(log.ticks)
      ensures ok <==> mads.healthy && ws.healthy && old(healthy)
      ensures shouldStop <==> old(shouldStop) || mads.shouldStop || !mads.healthy || !ws.healthy
    {
      if !mads.healthy {
        Fail();
        return false;
      }
      if !ws.healthy {
        Fail();
        return false;
      }
      if mads.shouldStop {
        shouldStop := true;
      }
      ok := healthy;
      pc, log := Resting, log.(failedTicks := log.failedTicks + if ok then 0 else 1);
    }

    // ---- The tick ---------------------------------------------------------------

    method PreemptAndTakeFromWs(ghost fuel: nat) returns (message: Option<Message>, ghost left: nat, ghost acts: seq<Action>)
      requires pc.DrainingWs?
      modifies this, ws, ws.lws
      ensures Exec(ws.config, old(World()), acts) == Some(World()) && left <= fuel
      ensures pc == if message.None? then DrainingMads else Publishing(message.value)
      ensures message.Some? ==> left < fuel || |ws.inbound| < |old(ws.inbound)|
      ensures log.failedTicks == old(log.failedTicks) && log.ticks == old(log.ticks)
    {
      ghost var s0 := World();
      left, acts := Preempt(fuel);
      assert left == fuel ==> World() == s0;
      ghost var s1 := World();
      message := TakeFromWs();
      ExecThen(ws.config, s0, acts, s1, PopWs);
      acts := acts + [PopWs];
    }

    /** One turn of the first loop; `more` says whether there is another. */
    method SendNext(ghost fuel: nat) returns (more: bool, ok: bool, ghost left: nat, ghost acts: seq<Action>)
      requires Wired() && pc.DrainingWs?
      modifies this, mads, mads.agent, ws, ws.lws
      ensures Exec(ws.config, old(World()), acts) == Some(World()) && left <= fuel
      ensures pc == if more then DrainingWs else if ok then DrainingMads else Resting
      ensures more ==> ok && (left < fuel || |ws.inbound| < |old(ws.inbound)|)
      ensures log.failedTicks == old(log.failedTicks) + (if ok then 0 else 1) && log.ticks == old(log.ticks)
    {
      ghost var s0 := World();
      var message;
      message, left, acts := PreemptAndTakeFromWs(fuel);
      more, ok := message.Some?, true;
      if more {
        ghost var s1, rest := World(), [];
        ok, left, rest := PreemptAndSend(message.value, left);
        ExecChain(ws.config, s0, acts, s1, rest, World());
        acts := acts + rest;
        more := ok;
      }
    }

    /** The first loop of `tick`: everything that has arrived goes to MADS. Stops short on a failure. */
    method DrainToMads(ghost fuel: nat) returns (ok: bool, ghost left: nat, ghost acts: seq<Action>)
      requires Wired() && pc.DrainingWs?
      modifies this, mads, mads.agent, ws, ws.lws
      ensures Exec(ws.config, old(World()), acts) == Some(World()) && left <= fuel
      ensures pc == if ok then DrainingMads else Resting
      ensures log.failedTicks == old(log.failedTicks) + (if ok then 0 else 1) && log.ticks == old(log.ticks)
    {
      ghost var s0 := World();
      var more := true;
      left, acts, ok := fuel, [], true;
      while more
        invariant Exec(ws.config, s0, acts) == Some(World()) && left <= fuel
        invariant pc == if more then DrainingWs else if ok then DrainingMads else Resting
        invariant (more ==> ok) && log.failedTicks == old(log.failedTicks) + (if ok then 0 else 1) && log.ticks == old(log.ticks)
        decreases more, left, |ws.inbound|
      {
        ghost var s1, rest := World(), [];
        more, ok, left, rest := SendNext(left);
        ExecChain(ws.config, s0, acts, s1, rest, World());
        acts := acts + rest;
      }
    }

    method PreemptAndTakeFromMads(ghost fuel: nat) returns (message: Option<Message>, ghost left: nat, ghost acts: seq<Action>)
      requires pc.DrainingMads?
      modifies this, mads, ws, ws.lws
      ensures Exec(ws.config, old(World()), acts) == Some(World()) && left <= fuel
      ensures pc == if message.None? then Checking else Routing(message.value)
      ensures message.Some? ==> |mads.queue| < |old(mads.queue)|
      ensures log.failedTicks == old(log.failedTicks) && log.ticks == old(log.ticks)
    {
      ghost var s0 := World();
      left, acts := Preempt(fuel);
      ghost var s1 := World();
      assert mads.View().queue == old(mads.View()).queue;
      message := TakeFromMads();
      ExecThen(ws.config, s0, acts, s1, PopMads);
      acts := acts + [PopMads];
    }

    /** One turn of the second loop. */
    method RouteNext(ghost fuel: nat) returns (more: bool, ok: bool, ghost left: nat, ghost acts: seq<Action>)
      requires pc.DrainingMads?
      modifies this, mads, ws, ws.lws
      ensures Exec(ws.config, old(World()), acts) == Some(World()) && left <= fuel
      ensures pc == if more then DrainingMads else if ok then Checking else Resting
      ensures more ==> ok && |mads.queue| < |old(mads.queue)|
      ensures log.failedTicks == old(log.failedTicks) + (if ok then 0 else 1) && log.ticks == old(log.ticks)
    {
      ghost var s0 := World();
      var message;
      message, left, acts := PreemptAndTakeFromMads(fuel);
      more, ok := message.Some?, true;
      if more {
        ghost var s1, rest := World(), [];
        ok, left, rest := Broadcast(message.value, left);
        ExecChain(ws.config, s0, acts, s1, rest, World());
        acts := acts + rest;
        assert mads.View().queue == s1.mads.queue;
        more := ok;
      }
    }

    /** The second loop of `tick`: everything received from MADS is broadcast. */
    method DrainToWs(ghost fuel: nat) returns (ok: bool, ghost left: nat, ghost acts: seq<Action>)
      requires pc.DrainingMads?
      modifies this, mads, ws, ws.lws
      ensures Exec(ws.config, old(World()), acts) == Some(World()) && left <= fuel
      ensures pc == if ok then Checking else Resting
      ensures log.failedTicks == old(log.failedTicks) + (if ok then 0 else 1) && log.ticks == old(log.ticks)
    {
      ghost var s0 := World();
      var more := true;
      left, acts, ok := fuel, [], true;
      while more
        invariant Exec(ws.config, s0, acts) == Some(World()) && left <= fuel
        invariant pc == if more then DrainingMads else if ok then Checking else Resting
        invariant (more ==> ok) && log.failedTicks == old(log.failedTicks) + (if ok then 0 else 1) && log.ticks == old(log.ticks)
        decreases more, |mads.queue|
      {
        ghost var s1, rest := World(), [];
        more, ok, left, rest := RouteNext(left);
        ExecChain(ws.config, s0, acts, s1, rest, World());
        acts := acts + rest;
      }
    }

    /** One tick, whatever the service thread does meanwhile, as long as it does finitely much: a run of
        the transition system that begins with the tick and brings the bridge thread back to rest. It
        returns false exactly when the run counts one more failed tick; then a transport has failed, or an
        earlier tick had, the core is unhealthy and wants to stop, and at most one message was dropped. If it
        returns true both transports are healthy, nothing was dropped, everything that had arrived from
        clients is published, and everything received from MADS is broadcast. */
    method Tick(ghost fuel: nat) returns (ok: bool, ghost acts: seq<Action>)
      requires Wired() && pc.Resting?
      modifies this, mads, mads.agent, ws, ws.lws
      ensures Exec(ws.config, old(World()), acts) == Some(World()) && pc.Resting?
      ensures acts != [] && acts[0] == StartTick(old(mads.agent.inbox), old(mads.agent.running))
      ensures log.failedTicks == old(log.failedTicks) + if ok then 0 else 1
      ensures Accounting.Dropped(old(World())) <= Accounting.Dropped(World())
              <= Accounting.Dropped(old(World())) + if ok then 0 else 1
      ensures ok ==> mads.healthy && ws.healthy && old(healthy) && healthy
      ensures ok ==> shouldStop == (old(shouldStop) || mads.shouldStop)
      ensures !ok ==> !healthy && (old(healthy || shouldStop) ==> shouldStop)
      ensures !ok ==> !mads.started || !mads.healthy || !ws.healthy || !old(healthy)
      ensures ok ==> mads.queue == [] && old(log.published + ws.inbound) <= log.published
      ensures ok && old(mads.started) ==>
                log.broadcasts == old(log.broadcasts + mads.queue)
                                  + Routed(mads.codec, Ticks.Heard(mads.codec, old(mads.agent.inbox)))
    {
      ghost var s0 := World();
      ok, acts := RunTick(fuel);
      Accounting.TickDropsAtMostOne(ws.config, s0, acts, World(), ok);
      TickAnswers(s0, acts, ok);
    }

    ghost method TickAnswers(s0: State, acts: seq<Action>, ok: bool)
      requires Wired() && pc.Resting? && s0.bridge.Resting?
      requires Exec(ws.config, s0, acts) == Some(World()) && acts != [] && acts[0].StartTick?
      requires log.failedTicks == s0.log.failedTicks + (if ok then 0 else 1) && log.ticks == s0.log.ticks + 1
      requires ok ==> mads.healthy && ws.healthy
      ensures ok ==> s0.core.healthy && healthy && shouldStop == (s0.core.shouldStop || mads.shouldStop)
      ensures !ok ==> !healthy && (s0.core.healthy || s0.core.shouldStop ==> shouldStop)
      ensures !ok ==> !mads.started || !mads.healthy || !ws.healthy || !s0.core.healthy
      ensures ok ==> mads.queue == [] && s0.log.published + s0.ws.inbound <= log.published
      ensures ok && s0.mads.started ==>
                log.broadcasts == s0.log.broadcasts + s0.mads.queue + Routed(mads.codec, Ticks.Heard(mads.codec, acts[0].receipts))
    {
      Accounting.FailureIsForGood(ws.config, s0, acts, World());
      if ok {
        Ticks.GoodTickFinishesItsWork(ws.config, s0, acts, World());
      } else {
        Ticks.FailedTickMeaning(ws.config, s0, acts, World());
      }
    }

    method RunTick(ghost fuel: nat) returns (ok: bool, ghost acts: seq<Action>)
      requires Wired() && pc.Resting?
      modifies this, mads, mads.agent, ws, ws.lws
      ensures Exec(ws.config, old(World()), acts) == Some(World()) && pc.Resting?
      ensures acts != [] && acts[0] == StartTick(old(mads.agent.inbox), old(mads.agent.running))
      ensures log.failedTicks == old(log.failedTicks) + (if ok then 0 else 1) && log.ticks == old(log.ticks) + 1
      ensures ok ==> mads.healthy && ws.healthy
    {
      ghost var s0 := World();
      BeginTick();
      ghost var begin := StartTick(old(mads.agent.inbox), old(mads.agent.running));
      ExecThen(ws.config, s0, [], s0, begin);
      acts := [begin];
      ghost var left, more;
      ghost var s1 := World();
      ok, left, more := DrainToMads(fuel);
      ExecChain(ws.config, s0, acts, s1, more, World());
      acts := acts + more;
      if !ok {
        return;
      }
      ghost var s2 := World();
      ok, left, more := DrainToWs(left);
      ExecChain(ws.config, s0, acts, s2, more, World());
      acts := acts + more;
      if !ok {
        return;
      }
      ghost var s3 := World();
      left, more := Preempt(left);
      ghost var s4 := World();
      ExecChain(ws.config, s0, acts, s3, more, s4);
      acts := acts + more;
      ok := FinishTick();
      ExecThen(ws.config, s0, acts, s4, Check);
      acts := acts + [Check];
    }

    method ConsumeCount() returns (count: nat, changed: bool)
      requires pc.Resting?
      modifies this, ws
      ensures Step(ws.config, old(World()), Action.ConsumeCount) == Some(World())
      ensures count == |ws.sessions|
      ensures changed ==> log.lastReported == count
    {
      count, changed := ws.ConsumeClientCountChanged();
      log := log.(lastReported := if changed then count else log.lastReported);
    }

    // ---- The service thread ---------------------------------------------------------

    method ServeFilter(w: Wsi, request: Option<string>)
      requires service.Polling? && w !in conns
      modifies this
      ensures Step(ws.config, old(World()), Filter(w, request)) == Some(World())
    {
      var rc := ws.OnFilter(request);
      if rc == 0 {
        FilterAdmits(ws.config, request.value);
        conns := conns[w := Conn(request.value, Handshake)];
      } else if request.Some? {
        FilterRejects(ws.config, request.value);
      }
    }

    /** The request still reads as it did when it passed the filter. */
    method ServeEstablished(w: Wsi, uri: string)
      requires service.Polling? && w in conns && conns[w] == Conn(uri, Handshake)
      modifies this, ws
      ensures Step(ws.config, old(World()), Establish(w)) == Some(World())
    {
      ghost var id, since := ws.accepted, |log.broadcasts|;
      ghost var topic := TopicFromUri(uri, ws.config.basePath);
      var rc := ws.OnEstablished(w, uri);
      conns := conns[w := Conn(uri, if rc == 0 then Live else Closing)];
      if rc == 0 {
        log := log.(live := log.live[w := Peer(id, topic.value, since, None, [], [])]);
      }
    }

    method ServeClosed(w: Wsi)
      requires service.Polling? && w in conns && !conns[w].phase.Handshake?
      modifies this, ws, ws.lws
      ensures Step(ws.config, old(World()), Close(w)) == Some(World())
    {
      log := EndPeer(log, w, if w in ws.sessions then |ws.sessions[w].tx| else 0);
      conns := conns - {w};
      ws.lws.ClearWritable(w);
      ws.OnClosed(w);
    }

    method ServeReceive(w: Wsi, f: Fragment)
      requires service.Polling? && w in conns && conns[w].phase.Live?
      modifies this, ws
      ensures Step(ws.config, old(World()), Receive(w, f)) == Some(World())
    {
      ghost var r := Received(ws.config.codec, ws.View(), w, f);
      var rc := ws.OnReceive(w, f);
      log := AddFragment(log, w, f);
      if r.arrived.Some? && w in log.live {
        log := log.(arrivals := log.arrivals + [Arrival(log.live[w].id, r.arrived.value)]);
      }
      if rc != 0 {
        conns := conns[w := conns[w].(phase := Closing)];
      }
    }

    method ServeWaitCancelled()
      requires service.Polling? && ws.lws.cancelPending
      modifies this, ws.lws
      ensures Step(ws.config, old(World()), Action.Wake) == Some(World())
    {
      ws.lws.ClearCancel();
      ws.OnWaitCancelled();
    }

    method ServeHttpFailure() returns (rc: int)
      requires service.Polling?
      modifies this, ws
      ensures Step(ws.config, old(World()), HttpFailure) == Some(World()) && rc == -1
    {
      rc := ws.OnWriteFailed();
    }

    method PeekForWrite(w: Wsi) returns (payload: Option<string>)
      requires service.Polling? && w in ws.lws.writable && w in conns && conns[w].phase.Live?
      modifies this, ws.lws
      ensures Step(ws.config, old(World()), WritePeek(w)) == Some(World())
      ensures service == if payload.None? then Polling else Sending(w, payload.value)
      ensures payload == if w in ws.sessions && ws.sessions[w].tx != [] then Some(ws.sessions[w].tx[0]) else None
    {
      ws.lws.ClearWritable(w);
      payload := ws.PeekHead(w);
      service := if payload.None? then Polling else Sending(w, payload.value);
    }

    /** `count`: how much of the frame the library took. */
    method SendFrame(w: Wsi, payload: string, count: int) returns (ok: bool)
      requires service == Sending(w, payload)
      modifies this, ws
      ensures ok <==> count >= |payload|
      ensures Step(ws.config, old(World()), WireWrite(ok)) == Some(World())
      ensures service == if ok then Sent(w, payload) else Polling
      ensures !ok ==> !ws.healthy && (w in old(conns) ==> w in conns && conns[w].phase.Closing?)
    {
      if count < |payload| {
        var rc := ws.OnWriteFailed();
        conns := SetPhase(Net(conns, {}, false), w, Closing).conns;
        service := Polling;
        return false;
      }
      log := AddFrame(log, w, payload);
      service := Sent(w, payload);
      ok := true;
    }

    method PopAfterWrite(w: Wsi, payload: string)
      requires service == Sent(w, payload)
      modifies this, ws, ws.lws
      ensures Step(ws.config, old(World()), WritePop) == Some(World())
      ensures service.Polling?
    {
      ws.PopWritten(w);
      service := Polling;
      assert old(ws.lws.writable) + {} == old(ws.lws.writable);
    }

    /** The bridge thread may run here: any run of its steps. */
    method YieldToBridge() returns (ghost acts: seq<Action>)
      modifies this, mads, mads.agent, ws, ws.lws
      ensures Exec(ws.config, old(World()), acts) == Some(World())
      ensures forall i :: 0 <= i < |acts| ==> !IsService(acts[i])
      ensures service == old(service) && conns == old(conns)
    {
      acts := [];
      BridgeKeepsService(ws.config, World(), acts, World());
    }

    /** The whole writeable callback, with the bridge thread let in where the lock is released. It fails if
        and only if there was a frame to send and the library did not take all of it. */
    method ServeWriteable(w: Wsi, count: int) returns (rc: int, ghost acts: seq<Action>)
      requires service.Polling? && w in ws.lws.writable && w in conns && conns[w].phase.Live?
      modifies this, mads, mads.agent, ws, ws.lws
      ensures Exec(ws.config, old(World()), acts) == Some(World()) && service.Polling?
      ensures rc == 0 || rc == -1
      ensures rc == -1 <==> old(w in ws.sessions && ws.sessions[w].tx != [] && count < |ws.sessions[w].tx[0]|)
      ensures rc == -1 ==> !ws.healthy && w in conns && conns[w].phase.Closing?
    {
      rc := 0;
      ghost var s0 := World();
      var payload := PeekForWrite(w);
      ExecThen(ws.config, s0, [], s0, WritePeek(w));
      acts := [WritePeek(w)];
      if payload.None? {
        return;
      }
      ghost var rest;
      rc, rest := FinishWrite(w, payload.value, count, s0, acts);
      acts := rest;
    }

    method FinishWrite(w: Wsi, payload: string, count: int, ghost s0: State, ghost before: seq<Action>)
        returns (rc: int, ghost acts: seq<Action>)
      requires service == Sending(w, payload) && Exec(ws.config, s0, before) == Some(World()) && w in conns
      modifies this, mads, mads.agent, ws, ws.lws
      ensures Exec(ws.config, s0, acts) == Some(World()) && service.Polling?
      ensures rc == if count < |payload| then -1 else 0
      ensures rc == -1 ==> !ws.healthy && w in conns && conns[w].phase.Closing?
    {
      ghost var s1 := World();
      ghost var more := YieldToBridge();
      ExecChain(ws.config, s0, before, s1, more, World());
      acts := before + more;
      ghost var s2 := World();
      var ok := SendFrame(w, payload, count);
      ExecThen(ws.config, s0, acts, s2, WireWrite(ok));
      acts := acts + [WireWrite(ok)];
      if !ok {
        return -1, acts;
      }
      ghost var s3 := World();
      more := YieldToBridge();
      ExecChain(ws.config, s0, acts, s3, more, World());
      acts := acts + more;
      ghost var s4 := World();
      PopAfterWrite(w, payload);
      ExecThen(ws.config, s0, acts, s4, WritePop);
      acts := acts + [WritePop];
      rc := 0;
    }
  }
}
