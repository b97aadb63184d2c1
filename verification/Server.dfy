/** The bridge's objects: the transports and the core that moves messages between them. Each method is
    proved to make the step, or the run of steps, of the transition system it stands for. */
module Server {
  import opened Common
  import opened Reassembly
  import opened Transport
  import opened MadsBroker
  import opened TopicPath
  import opened Engine

  // ---- The WebSocket library as the transport uses it -----------------------

  class LwsContext {
    var writable: set<Wsi>
    var cancelPending: bool

    constructor ()
      ensures writable == {} && !cancelPending
    {
      writable, cancelPending := {}, false;
    }

    method CallbackOnWritable(w: Wsi)
      modifies this
      ensures writable == old(writable) + {w} && cancelPending == old(cancelPending)
    {
      writable := writable + {w};
    }

    /** The library takes a request back: it serves it, or the connection is gone. */
    method ClearWritable(w: Wsi)
      modifies this
      ensures writable == old(writable) - {w} && cancelPending == old(cancelPending)
    {
      writable := writable - {w};
    }

    method ClearCancel()
      modifies this
      ensures !cancelPending && writable == old(writable)
    {
      cancelPending := false;
    }

    method CancelService()
      modifies this
      ensures cancelPending && writable == old(writable)
    {
      cancelPending := true;
    }
  }

  // ---- WebSocketTransport::Impl ----------------------------------------------

  /** One method per critical section of the callback handler and of the calls of the bridge thread.
      Return codes are the callback's. */
  class WsImpl {
    const config: Config
    const lws: LwsContext
    var sessions: map<Wsi, Session>
    var inbound: seq<Message>
    var healthy: bool
    var accepted: nat
    var closed: nat
    var inboundFrames: nat
    var enqueued: nat
    var written: nat
    var countChanged: bool

    ghost function View(): Shared
      reads this
    {
      Shared(sessions, inbound, healthy, accepted, closed, inboundFrames, enqueued, written, countChanged)
    }

    constructor (config: Config, lws: LwsContext)
      ensures View() == Transport.EMPTY && this.config == config && this.lws == lws
    {
      this.config, this.lws := config, lws;
      sessions, inbound, healthy := map[], [], true;
      accepted, closed, inboundFrames, enqueued, written, countChanged := 0, 0, 0, 0, 0, false;
    }

    /** Lets a connection through exactly when its path names a topic. */
    method OnFilter(request: Option<string>) returns (rc: int)
      ensures rc == 0 || rc == 1
      ensures rc == 0 <==> request.Some? && exists t, rest ::
                t != "" && NoCut(t) && IsTail(rest) && request.value == config.basePath + "/" + t + rest
    {
      var topic := None;
      if request.Some? {
        topic := TopicFromUri(request.value, config.basePath);
      }
      if topic.None? {
        rc := 1;
        if request.Some? {
          forall t, rest | t != "" && NoCut(t) && IsTail(rest)
            ensures request.value != config.basePath + "/" + t + rest
          {
            TopicFromUriFactors(request.value, config.basePath, t);
          }
        }
      } else {
        rc := 0;
        var rest := TopicIsFactor(request.value, config.basePath, topic.value);
      }
    }

    method OnEstablished(w: Wsi, uri: string) returns (rc: int)
      modifies this
      ensures View() == Established(old(View()), w, TopicFromUri(uri, config.basePath))
      ensures rc == if TopicFromUri(uri, config.basePath).Some? then 0 else -1
      ensures rc != 0 ==> !healthy && sessions == old(sessions) && accepted == old(accepted)
      ensures rc == 0 ==>
                && healthy == old(healthy) && accepted == old(accepted) + 1 && countChanged
                && w in sessions && sessions.Keys == old(sessions.Keys) + {w}
                && (forall v :: v in old(sessions) ==> sessions[v] == old(sessions)[v])
                && (w !in old(sessions) ==>
                      TopicFromUri(uri, config.basePath) == Some(sessions[w].topic) && sessions[w].rx == "" && sessions[w].tx == [])
    {
      var topic := TopicFromUri(uri, config.basePath);
      if topic.None? {
        healthy := false;
        return -1;
      }
      if w !in sessions {
        sessions := sessions[w := Session(topic.value, "", [])];
      }
      accepted := accepted + 1;
      countChanged := true;
      rc := 0;
    }

    method OnClosed(w: Wsi)
      modifies this
      ensures View() == Closed(old(View()), w)
      ensures sessions == old(sessions) - {w} && closed == old(closed) + 1 && countChanged && healthy == old(healthy)
    {
      sessions := sessions - {w};
      closed := closed + 1;
      countChanged := true;
    }

    method OnReceive(w: Wsi, f: Fragment) returns (rc: int)
      modifies this
      ensures var r := Received(config.codec, old(View()), w, f);
              View() == r.shared && rc == if r.keep then 0 else -1
      ensures w !in old(sessions) || !f.last ==> rc == 0 && inbound == old(inbound) && healthy == old(healthy)
      ensures w in old(sessions) ==>
                && sessions.Keys == old(sessions.Keys)
                && (forall v :: v in sessions && v != w ==> sessions[v] == old(sessions)[v])
                && sessions[w].topic == old(sessions)[w].topic && sessions[w].tx == old(sessions)[w].tx
      ensures w in old(sessions) && !f.last ==> sessions[w].rx == old(sessions)[w].rx + f.text
      ensures w in old(sessions) && f.last ==>
                match config.codec.parse(old(sessions)[w].rx + f.text)
                case None => rc == -1 && !healthy && inbound == old(inbound)
                case Some(body) =>
                  && rc == 0 && healthy == old(healthy) && sessions[w].rx == ""
                  && inbound == old(inbound) + [Message(old(sessions)[w].topic, body)]
                  && inboundFrames == old(inboundFrames) + 1
    {
      rc := 0;
      if w in sessions {
        sessions := sessions[w := sessions[w].(rx := sessions[w].rx + f.text)];
        if f.last {
          match config.codec.parse(sessions[w].rx)
          case None =>
            healthy := false;
            return -1;
          case Some(body) =>
            inbound := inbound + [Message(sessions[w].topic, body)];
            inboundFrames := inboundFrames + 1;
            sessions := sessions[w := sessions[w].(rx := "")];
        }
      }
    }

    /** The first critical section of a writeable callback: reads the head, changes nothing. */
    method PeekHead(w: Wsi) returns (payload: Option<string>)
      ensures payload == Head(View(), w)
      ensures payload == if w in sessions && sessions[w].tx != [] then Some(sessions[w].tx[0]) else None
    {
      if w !in sessions || sessions[w].tx == [] {
        payload := None;
      } else {
        payload := Some(sessions[w].tx[0]);
      }
    }

    /** A writeable callback, of a WebSocket or an HTTP connection, whose `lws_write` fell short. */
    method OnWriteFailed() returns (rc: int)
      modifies this
      ensures rc == -1 && View() == old(View()).(healthy := false)
    {
      healthy := false;
      rc := -1;
    }

    /** The last critical section of a writeable callback: drops the frame that went out, and asks for
        another turn if more is queued. */
    method PopWritten(w: Wsi)
      modifies this, lws
      ensures var (after, more) := Written(old(View()), w);
              View() == after && lws.writable == old(lws.writable) + if more then {w} else {}
      ensures lws.cancelPending == old(lws.cancelPending)
      ensures if w in old(sessions) && old(sessions)[w].tx != [] then
                && sessions == old(sessions)[w := old(sessions)[w].(tx := old(sessions)[w].tx[1..])]
                && written == old(written) + 1
                && lws.writable == if |old(sessions)[w].tx| > 1 then old(lws.writable) + {w} else old(lws.writable)
              else View() == old(View()) && lws.writable == old(lws.writable)
    {
      if w in sessions && sessions[w].tx != [] {
        sessions := sessions[w := sessions[w].(tx := sessions[w].tx[1..])];
        written := written + 1;
        if sessions[w].tx != [] {
          lws.CallbackOnWritable(w);
        }
      }
    }

    method OnWaitCancelled()
      modifies lws
      ensures lws.writable == old(lws.writable) + Backlogged(sessions)
      ensures forall w :: w in lws.writable <==> w in old(lws.writable) || (w in sessions && sessions[w].tx != [])
      ensures lws.cancelPending == old(lws.cancelPending)
    {
      var todo := sessions.Keys;
      while todo != {}
        invariant todo <= sessions.Keys
        invariant lws.writable == old(lws.writable) + (Backlogged(sessions) - todo)
        invariant lws.cancelPending == old(lws.cancelPending)
        decreases |todo|
      {
        var w :| w in todo;
        if sessions[w].tx != [] {
          lws.CallbackOnWritable(w);
        }
        todo := todo - {w};
      }
    }

    /** One turn of the loop of `broadcast`. */
    method Offer(w: Wsi, topic: string, payload: string)
      requires w in sessions
      modifies this`sessions, this`enqueued
      ensures sessions == old(sessions)[w := Enqueue(old(sessions)[w], topic, payload)]
      ensures enqueued == old(enqueued) + if Takes(old(sessions)[w].topic, topic) then 1 else 0
    {
      var session := sessions[w];
      if !Takes(session.topic, topic) {
        return;
      }
      sessions := sessions[w := session.(tx := session.tx + [payload])];
      enqueued := enqueued + 1;
    }

    /** The critical section of `broadcast`: visits the sessions in no particular order. */
    method PushToTakers(m: Message)
      modifies this`sessions, this`enqueued
      ensures sessions == EnqueueAll(old(sessions), m.topic, config.codec.dump(m.body))
      ensures enqueued == old(enqueued) + |Takers(old(sessions), m.topic)|
      ensures ReachesExactly(old(sessions), sessions, m.topic, config.codec.dump(m.body))
    {
      var payload := config.codec.dump(m.body);
      EnqueueAllReaches(sessions, m.topic, payload);
      ghost var before := sessions;
      var todo := sessions.Keys;
      EnqueueEnds(sessions, m.topic, payload);
      while todo != {}
        invariant todo <= before.Keys
        invariant sessions == PartlyEnqueued(before, todo, m.topic, payload)
        invariant enqueued == old(enqueued) + |Takers(before, m.topic) - todo|
        decreases |todo|
      {
        var w :| w in todo;
        EnqueueOneMore(before, todo, w, m.topic, payload);
        Offer(w, m.topic, payload);
        todo := todo - {w};
      }
    }

    method PopIncoming() returns (message: Option<Message>)
      modifies this
      ensures (View(), message) == Popped(old(View()))
      ensures if old(inbound) == [] then message.None? && inbound == []
              else message == Some(old(inbound)[0]) && inbound == old(inbound)[1..]
    {
      if inbound == [] {
        return None;
      }
      message := Some(inbound[0]);
      inbound := inbound[1..];
    }

    method ConsumeClientCountChanged() returns (count: nat, changed: bool)
      modifies this
      ensures View() == old(View()).(countChanged := false)
      ensures count == |sessions| && changed == old(countChanged)
    {
      count := |sessions|;
      changed := countChanged;
      countChanged := false;
    }

    /** The frames `stats` reports as pending. */
    method PendingFrames() returns (pending: nat)
      ensures pending == Pending(sessions)
    {
      pending := 0;
      var rest := sessions;
      while rest != map[]
        invariant pending + Pending(rest) == Pending(sessions)
        decreases |rest|
      {
        var w :| w in rest;
        PendingWithout(rest, w);
        pending := pending + |rest[w].tx|;
        rest := rest - {w};
      }
    }
  }

  // ---- MadsTransport -----------------------------------------------------------

  /** The MADS agent: what it will deliver, which publications will throw, and what it took. */
  class Agent {
    var inbox: seq<Receipt>
    var faults: seq<bool>
    var outbox: seq<Message>
    var running: bool

    constructor (inbox: seq<Receipt>, faults: seq<bool>)
      ensures this.inbox == inbox && this.faults == faults && outbox == [] && running
    {
      this.inbox, this.faults, this.outbox, this.running := inbox, faults, [], true;
    }

    method Receive() returns (r: Receipt)
      modifies this
      ensures r == if old(inbox) == [] then Quiet else old(inbox)[0]
      ensures inbox == if old(inbox) == [] then [] else old(inbox)[1..]
      ensures faults == old(faults) && outbox == old(outbox) && running == old(running)
    {
      if inbox == [] {
        return Quiet;
      }
      r := inbox[0];
      inbox := inbox[1..];
    }

    method Publish(m: Message) returns (threw: bool)
      modifies this
      ensures threw <==> old(faults) != [] && old(faults)[0]
      ensures faults == if old(faults) == [] then [] else old(faults)[1..]
      ensures outbox == if threw then old(outbox) else old(outbox) + [m]
      ensures inbox == old(inbox) && running == old(running)
    {
      threw := faults != [] && faults[0];
      if faults != [] {
        faults := faults[1..];
      }
      if !threw {
        outbox := outbox + [m];
      }
    }
  }

  class MadsTransport {
    const codec: Codec
    const agent: Agent
    var started: bool
    var healthy: bool
    var shouldStop: bool
    var queue: seq<Message>
    var received: nat
    var published: nat

    ghost function View(): Mads
      reads this
    {
      Mads(started, healthy, shouldStop, queue, received, published)
    }

    constructor (codec: Codec, agent: Agent)
      ensures this.codec == codec && this.agent == agent
      ensures View() == STARTED.(started := false)
    {
      this.codec, this.agent := codec, agent;
      started, healthy, shouldStop, queue, received, published := false, true, false, [], 0, 0;
    }

    /** `threw`: the agent refused to start. */
    method Start(threw: bool) returns (ok: bool)
      modifies this
      ensures ok == !threw
      ensures View() == if threw then old(View()).(healthy := false) else old(View()).(started := true)
    {
      if threw {
        healthy := false;
        return false;
      }
      started := true;
      ok := true;
    }

    method Poll()
      modifies this, agent
      ensures View() == MadsBroker.Poll(codec, old(View()), old(agent.inbox), old(agent.running))
      ensures agent.outbox == old(agent.outbox) && agent.faults == old(agent.faults) && agent.running == old(agent.running)
      ensures started == old(started) && published == old(published)
      ensures if old(started && healthy) then
                && queue == old(queue) + Routed(codec, old(agent.inbox)[..FirstStop(codec, old(agent.inbox))])
                && (healthy <==> EndsQuietly(codec, old(agent.inbox)))
                && (shouldStop <==> old(shouldStop) || (healthy && !agent.running))
              else View() == old(View()) && agent.inbox == old(agent.inbox)
    {
      PollMeaning(codec, View(), agent.inbox, agent.running);
      if started && healthy {
        ReceiveAll();
      }
    }

    method ReceiveAll()
      modifies this, agent
      ensures View() == PollLoop(codec, old(View()), old(agent.inbox), old(agent.running))
      ensures agent.outbox == old(agent.outbox) && agent.faults == old(agent.faults) && agent.running == old(agent.running)
    {
      while true
        invariant agent.outbox == old(agent.outbox) && agent.faults == old(agent.faults)
        invariant agent.running == old(agent.running)
        invariant PollLoop(codec, View(), agent.inbox, agent.running)
                  == PollLoop(codec, old(View()), old(agent.inbox), old(agent.running))
        decreases |agent.inbox|
      {
        var r := agent.Receive();
        if r.Fault? {
          healthy := false;
          return;
        }
        if !r.Heard? {
          break;
        }
        if r.topic != CONTROL_TOPIC {
          match codec.parse(r.payload)
          case None =>
            healthy := false;
            return;
          case Some(body) =>
            queue := queue + [Message(r.topic, body)];
            received := received + 1;
        }
      }
      if !agent.running {
        shouldStop := true;
      }
    }

    method Publish(m: Message) returns (ok: bool, ghost threw: bool)
      modifies this, agent
      ensures (View(), ok) == MadsBroker.Publish(old(View()), threw)
      ensures agent.outbox == if ok then old(agent.outbox) + [m] else old(agent.outbox)
      ensures ok ==> healthy && published == old(published) + 1
      ensures !ok ==> !started || !healthy
      ensures healthy ==> old(healthy)
    {
      threw := false;
      if !started || !healthy {
        return false, threw;
      }
      var fault := agent.Publish(m);
      threw := fault;
      if fault {
        healthy := false;
        return false, threw;
      }
      published := published + 1;
      ok := true;
    }

    method PopIncoming() returns (message: Option<Message>)
      modifies this
      ensures (View(), message) == Pop(old(View()))
      ensures if old(queue) == [] then message.None? && queue == []
              else message == Some(old(queue)[0]) && queue == old(queue)[1..]
    {
      if queue == [] {
        return None;
      }
      message := Some(queue[0]);
      queue := queue[1..];
    }
  }
}
