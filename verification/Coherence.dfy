/** What ties connections, sessions and the connection log together in every reachable state. */
module Coherence {
  import opened Common
  import opened Reassembly
  import opened Transport
  import opened TopicPath
  import opened Engine

  /** Session `w` has a connection and an open log entry, and all three agree on its topic. */
  predicate SessionCoherent(g: Config, s: State, w: Wsi)
    requires w in s.ws.sessions
  {
    && w in s.net.conns && !s.net.conns[w].phase.Handshake?
    && w in s.log.live
    && s.log.live[w].topic == s.ws.sessions[w].topic
    && s.log.live[w].until == None && s.log.live[w].since <= |s.log.broadcasts|
    && s.log.live[w].id < s.ws.accepted
    && TopicFromUri(s.net.conns[w].uri, g.basePath) == Some(s.ws.sessions[w].topic)
  }

  predicate PastCoherent(s: State, i: nat)
    requires i < |s.log.past|
  {
    && s.log.past[i].id < s.ws.accepted
    && s.log.past[i].until.Some?
    && s.log.past[i].since <= s.log.past[i].until.value <= |s.log.broadcasts|
  }

  predicate DistinctIds(log: Log) {
    && (forall v, w :: v in log.live && w in log.live && v != w ==> log.live[v].id != log.live[w].id)
    && (forall w, i: nat :: w in log.live && i < |log.past| ==> log.live[w].id != log.past[i].id)
    && (forall i: nat, j: nat :: i < j < |log.past| ==> log.past[i].id != log.past[j].id)
  }

  /** While a frame is being sent, it is the head of its session's queue and the connection is live. */
  predicate ServiceCoherent(s: State) {
    !s.service.Polling? ==>
      && s.service.wsi in s.ws.sessions
      && s.service.wsi in s.net.conns && s.net.conns[s.service.wsi].phase.Live?
      && s.ws.sessions[s.service.wsi].tx != []
      && s.ws.sessions[s.service.wsi].tx[0] == s.service.frame
  }

  predicate Coherent(g: Config, s: State) {
    && (forall w :: w in s.net.conns ==> TopicFromUri(s.net.conns[w].uri, g.basePath).Some?)
    && (forall w :: w in s.net.conns && !s.net.conns[w].phase.Handshake? ==> w in s.ws.sessions)
    && (forall w :: w in s.ws.sessions ==> SessionCoherent(g, s, w))
    && s.log.live.Keys == s.ws.sessions.Keys
    && (forall i: nat :: i < |s.log.past| ==> PastCoherent(s, i))
    && ServiceCoherent(s)
  }

  lemma CoherentFrame(g: Config, s: State, t: State)
    requires Coherent(g, s)
    requires t.ws.sessions == s.ws.sessions && t.ws.accepted == s.ws.accepted
    requires t.service == s.service || ServiceCoherent(t)
    requires t.log.live == s.log.live && t.log.past == s.log.past && t.log.broadcasts == s.log.broadcasts
    requires forall w :: w in t.net.conns && w in s.net.conns ==> t.net.conns[w] == s.net.conns[w]
    requires forall w :: w in s.net.conns && w !in t.net.conns ==> s.net.conns[w].phase.Handshake?
    requires forall w :: w in t.net.conns && w !in s.net.conns ==>
               t.net.conns[w].phase.Handshake? && TopicFromUri(t.net.conns[w].uri, g.basePath).Some?
    ensures Coherent(g, t)
  {
    forall v | v in t.ws.sessions ensures SessionCoherent(g, t, v) {
      assert SessionCoherent(g, s, v);
    }
    forall i: nat | i < |t.log.past| ensures PastCoherent(t, i) {
      assert PastCoherent(s, i);
    }
  }

  // ---- What the pieces of a step change, field by field ---------------------------

  /** The same connections, each with its URI and past its handshake or not as before. */
  predicate SameConns(a: map<Wsi, Conn>, b: map<Wsi, Conn>) {
    a.Keys == b.Keys && forall w :: w in a ==> b[w].uri == a[w].uri && b[w].phase.Handshake? == a[w].phase.Handshake?
  }

  predicate SamePeers(a: map<Wsi, Peer>, b: map<Wsi, Peer>) {
    a.Keys == b.Keys && forall w :: w in a ==> SamePeer(a[w], b[w])
  }

  predicate SameTopics(a: map<Wsi, Session>, b: map<Wsi, Session>) {
    a.Keys == b.Keys && forall w :: w in a ==> b[w].topic == a[w].topic
  }

  lemma ClosingKeepsConns(net: Net, w: Wsi)
    requires w in net.conns && !net.conns[w].phase.Handshake?
    ensures SameConns(net.conns, SetPhase(net, w, Closing).conns)
  {}

  lemma AddFrameKeepsPeers(log: Log, w: Wsi, frame: string)
    ensures SamePeers(log.live, AddFrame(log, w, frame).live)
  {}

  lemma WrittenKeepsTopics(sh: Shared, w: Wsi)
    ensures SameTopics(sh.sessions, Written(sh, w).0.sessions)
  {}

  lemma EnqueueAllKeepsTopics(sessions: map<Wsi, Session>, topic: string, frame: string)
    ensures SameTopics(sessions, EnqueueAll(sessions, topic, frame))
  {}

  lemma CoherentEstablish(g: Config, s: State, w: Wsi)
    requires Coherent(g, s) && DoEstablish(g, s, w).Some?
    ensures Coherent(g, DoEstablish(g, s, w).value)
  {
    var t := DoEstablish(g, s, w).value;
    assert w in s.ws.sessions ==> SessionCoherent(g, s, w);
    forall v | v in t.ws.sessions ensures SessionCoherent(g, t, v) {
      if v != w { assert SessionCoherent(g, s, v); }
    }
    forall i: nat | i < |t.log.past| ensures PastCoherent(t, i) {
      assert PastCoherent(s, i);
    }
  }

  lemma CoherentClose(g: Config, s: State, w: Wsi)
    requires Coherent(g, s) && DoClose(s, w).Some?
    ensures Coherent(g, DoClose(s, w).value)
  {
    var t := DoClose(s, w).value;
    assert SessionCoherent(g, s, w);
    forall v | v in t.ws.sessions ensures SessionCoherent(g, t, v) {
      assert SessionCoherent(g, s, v);
    }
    forall i: nat | i < |t.log.past| ensures PastCoherent(t, i) {
      if i < |s.log.past| { assert PastCoherent(s, i); }
    }
  }

  /** Steps that keep the sets of connections, sessions and log entries, and what identifies each. */
  lemma CoherentUpdate(g: Config, s: State, t: State)
    requires Coherent(g, s) && ServiceCoherent(t)
    requires SameTopics(s.ws.sessions, t.ws.sessions) && SameConns(s.net.conns, t.net.conns)
    requires SamePeers(s.log.live, t.log.live) && t.log.past == s.log.past && t.ws.accepted == s.ws.accepted
    requires |s.log.broadcasts| <= |t.log.broadcasts|
    ensures Coherent(g, t)
  {
    forall v | v in t.ws.sessions ensures SessionCoherent(g, t, v) {
      assert SessionCoherent(g, s, v);
    }
    forall i: nat | i < |t.log.past| ensures PastCoherent(t, i) {
      assert PastCoherent(s, i);
    }
  }

  predicate SamePeer(p: Peer, q: Peer) {
    p.id == q.id && p.topic == q.topic && p.since == q.since && p.until == q.until
  }

  /** A fragment touches its session's receive buffer, its log entry, and the inbound queue. */
  predicate ReceiveEffect(s: State, t: State, w: Wsi, f: Fragment) {
    && w in s.ws.sessions && w in s.log.live && w in t.ws.sessions
    && t.ws.sessions == s.ws.sessions[w := s.ws.sessions[w].(rx := t.ws.sessions[w].rx)]
    && (t.net == s.net || t.net == SetPhase(s.net, w, Closing))
    && t.log.live == s.log.live[w := s.log.live[w].(fragments := s.log.live[w].fragments + [f])]
    && t.log.past == s.log.past && t.log.broadcasts == s.log.broadcasts
    && t.log.discarded == s.log.discarded
    && t.service == s.service && t.ws.accepted == s.ws.accepted && t.bridge == s.bridge
  }

  lemma ReceiveFrame(g: Config, s: State, w: Wsi, f: Fragment)
    requires Coherent(g, s) && DoReceive(g, s, w, f).Some?
    ensures ReceiveEffect(s, DoReceive(g, s, w, f).value, w, f)
  {
    assert SessionCoherent(g, s, w);
  }

  lemma ReceiveKeepsSessions(s: State, t: State, w: Wsi, f: Fragment)
    requires ReceiveEffect(s, t, w, f)
    ensures SameTopics(s.ws.sessions, t.ws.sessions)
    ensures forall v :: v in s.ws.sessions ==> t.ws.sessions[v].tx == s.ws.sessions[v].tx
  {}

  lemma ReceiveKeepsPeers(s: State, t: State, w: Wsi, f: Fragment)
    requires ReceiveEffect(s, t, w, f)
    ensures SamePeers(s.log.live, t.log.live)
    ensures forall v :: v in s.log.live ==> t.log.live[v].frames == s.log.live[v].frames
  {}

  lemma CoherentAfterReceive(g: Config, s: State, t: State, w: Wsi, f: Fragment)
    requires Coherent(g, s) && ReceiveEffect(s, t, w, f)
    requires w in s.net.conns && s.net.conns[w].phase.Live? && s.service.Polling?
    ensures Coherent(g, t)
  {
    ReceiveKeepsSessions(s, t, w, f);
    ReceiveKeepsPeers(s, t, w, f);
    ClosingKeepsConns(s.net, w);
    CoherentUpdate(g, s, t);
  }

  lemma CoherentReceive(g: Config, s: State, w: Wsi, f: Fragment)
    requires Coherent(g, s) && DoReceive(g, s, w, f).Some?
    ensures Coherent(g, DoReceive(g, s, w, f).value)
  {
    ReceiveFrame(g, s, w, f);
    CoherentAfterReceive(g, s, DoReceive(g, s, w, f).value, w, f);
  }

  lemma CoherentWireWrite(g: Config, s: State, ok: bool)
    requires Coherent(g, s) && DoWireWrite(s, ok).Some?
    ensures Coherent(g, DoWireWrite(s, ok).value)
  {
    var w := s.service.wsi;
    AddFrameKeepsPeers(s.log, w, s.service.frame);
    ClosingKeepsConns(s.net, w);
    CoherentUpdate(g, s, DoWireWrite(s, ok).value);
  }

  lemma CoherentWritePop(g: Config, s: State)
    requires Coherent(g, s) && DoWritePop(s).Some?
    ensures Coherent(g, DoWritePop(s).value)
  {
    WrittenKeepsTopics(s.ws, s.service.wsi);
    CoherentUpdate(g, s, DoWritePop(s).value);
  }

  /** A push can only lengthen queues: the head being sent stays the head. */
  lemma CoherentPush(g: Config, s: State)
    requires Coherent(g, s) && DoPush(g, s).Some?
    ensures Coherent(g, DoPush(g, s).value)
  {
    EnqueueAllKeepsTopics(s.ws.sessions, s.bridge.message.topic, g.codec.dump(s.bridge.message.body));
    CoherentUpdate(g, s, DoPush(g, s).value);
  }

  lemma SessionsConnected(g: Config, s: State)
    requires Coherent(g, s)
    ensures forall w :: w in s.ws.sessions ==>
              w in s.net.conns && !s.net.conns[w].phase.Handshake? && w in s.log.live && s.log.live[w].id < s.ws.accepted
  {
    forall w | w in s.ws.sessions
      ensures w in s.net.conns && !s.net.conns[w].phase.Handshake? && w in s.log.live && s.log.live[w].id < s.ws.accepted
    {
      assert SessionCoherent(g, s, w);
    }
  }

  /** Apart from a push, no bridge step touches connections, queues or the log of connections. */
  lemma BridgeFrame(g: Config, s: State, a: Action)
    requires !IsService(a) && !a.Push? && Step(g, s, a).Some?
    ensures var t := Step(g, s, a).value;
            && t.ws.sessions == s.ws.sessions && t.ws.accepted == s.ws.accepted && t.service == s.service
            && t.net.conns == s.net.conns && t.net.writable == s.net.writable
            && t.log.live == s.log.live && t.log.past == s.log.past
            && t.log.broadcasts == s.log.broadcasts && t.log.arrivals == s.log.arrivals
            && t.log.discarded == s.log.discarded
  {}

  /** No service step touches the bridge thread's side. */
  predicate SameBridgeSide(s: State, t: State) {
    && t.mads == s.mads && t.core == s.core && t.bridge == s.bridge
    && t.log.broadcasts == s.log.broadcasts && t.log.published == s.log.published
    && t.log.lostUp == s.log.lostUp && t.log.lostDown == s.log.lostDown && t.log.heard == s.log.heard
    && t.log.ticks == s.log.ticks && t.log.failedTicks == s.log.failedTicks && (t.ws.healthy ==> s.ws.healthy)
  }

  lemma ServiceFrame(g: Config, s: State, a: Action)
    requires IsService(a) && Step(g, s, a).Some?
    ensures SameBridgeSide(s, Step(g, s, a).value)
  {}

  lemma ServiceExtendsInbound(g: Config, s: State, a: Action)
    requires IsService(a) && Step(g, s, a).Some?
    ensures s.ws.inbound <= Step(g, s, a).value.ws.inbound
  {}

  /** Steps that move no frame, no fragment and no connection into or out of a session. */
  predicate IsQuiet(a: Action) {
    a.Filter? || a.Abandon? || a.WritePeek? || a.Wake? || a.HttpFailure?
    || (a.WireWrite? && !a.ok) || (!IsService(a) && !a.Push?)
  }

  lemma QuietFrame(g: Config, s: State, a: Action)
    requires IsQuiet(a) && Step(g, s, a).Some?
    ensures var t := Step(g, s, a).value;
            && t.ws.sessions == s.ws.sessions && t.ws.accepted == s.ws.accepted
            && t.log.live == s.log.live && t.log.past == s.log.past
            && t.log.broadcasts == s.log.broadcasts && t.log.arrivals == s.log.arrivals
            && t.log.discarded == s.log.discarded
            && (t.service == s.service || (!t.service.Sent? && !s.service.Sent?))
  {
    if !IsService(a) {
      BridgeFrame(g, s, a);
    }
  }

  lemma CoherentStep(g: Config, s: State, a: Action)
    requires Coherent(g, s) && Step(g, s, a).Some?
    ensures Coherent(g, Step(g, s, a).value)
  {
    if a.Establish? { CoherentEstablish(g, s, a.wsi); }
    else if a.Close? { CoherentClose(g, s, a.wsi); }
    else if a.Receive? { CoherentReceive(g, s, a.wsi, a.fragment); }
    else if a.WireWrite? { CoherentWireWrite(g, s, a.ok); }
    else if a.WritePop? { CoherentWritePop(g, s); }
    else if a.Push? { CoherentPush(g, s); }
    else if !IsService(a) { CoherentBridge(g, s, a); }
    else if a.Filter? || a.Abandon? { CoherentHandshake(g, s, a); }
    else { CoherentQuiet(g, s, a); }
  }

  lemma CoherentBridge(g: Config, s: State, a: Action)
    requires Coherent(g, s) && !IsService(a) && !a.Push? && Step(g, s, a).Some?
    ensures Coherent(g, Step(g, s, a).value)
  {
    BridgeFrame(g, s, a);
    CoherentFrame(g, s, Step(g, s, a).value);
  }

  lemma CoherentHandshake(g: Config, s: State, a: Action)
    requires Coherent(g, s) && (a.Filter? || a.Abandon?) && Step(g, s, a).Some?
    ensures Coherent(g, Step(g, s, a).value)
  {
    CoherentFrame(g, s, Step(g, s, a).value);
  }

  lemma CoherentQuiet(g: Config, s: State, a: Action)
    requires Coherent(g, s) && Step(g, s, a).Some?
    requires a.WritePeek? || a.Wake? || a.HttpFailure?
    ensures Coherent(g, Step(g, s, a).value)
  {
    CoherentFrame(g, s, Step(g, s, a).value);
  }

  lemma {:induction false} CoherentRun(g: Config, acts: seq<Action>, s: State)
    requires Exec(g, START, acts) == Some(s)
    ensures Coherent(g, s)
  {
    if acts != [] {
      var before := Exec(g, START, acts[..|acts| - 1]).value;
      CoherentRun(g, acts[..|acts| - 1], before);
      CoherentStep(g, before, acts[|acts| - 1]);
    }
  }

  /** The filter's path check decides for ESTABLISHED too: its missing-topic branch is never taken. */
  lemma MissingTopicIsUnreachable(g: Config, s: State, w: Wsi)
    requires Reachable(g, s) && DoEstablish(g, s, w).Some?
    ensures TopicFromUri(s.net.conns[w].uri, g.basePath).Some?
    ensures DoEstablish(g, s, w).value.ws.healthy == s.ws.healthy
    ensures DoEstablish(g, s, w).value.net.conns[w].phase == Live
  {
    var acts :| Exec(g, START, acts) == Some(s);
    CoherentRun(g, acts, s);
  }
}
