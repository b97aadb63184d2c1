/** No wake-up is lost, and once broadcasts stop every queue drains within a computable number of steps. */
module Wakeup {
  import opened Common
  import opened Reassembly
  import opened Transport
  import opened Engine
  import opened Coherence
  import opened Delivery

  /** Somebody will come for what is queued on `w`. */
  predicate Attended(s: State, w: Wsi)
    requires w in s.ws.sessions
  {
    w in s.net.conns && s.net.conns[w].phase.Live? && s.ws.sessions[w].tx != [] ==>
      || w in s.net.writable
      || s.net.cancelPending
      || s.bridge.Signalling?
      || (!s.service.Polling? && s.service.wsi == w)
  }

  predicate AllAttended(s: State) {
    forall w :: w in s.ws.sessions ==> Attended(s, w)
  }

  lemma AttendedHandshake(g: Config, s: State, a: Action)
    requires AllAttended(s) && (a.Filter? || a.Abandon?) && Step(g, s, a).Some?
    ensures AllAttended(Step(g, s, a).value)
  {
    var t := Step(g, s, a).value;
    forall w | w in t.ws.sessions ensures Attended(t, w) {
      assert Attended(s, w);
    }
  }

  lemma AttendedEstablish(g: Config, s: State, w: Wsi)
    requires Coherent(g, s) && AllAttended(s) && DoEstablish(g, s, w).Some?
    ensures AllAttended(DoEstablish(g, s, w).value)
  {
    var t := DoEstablish(g, s, w).value;
    assert w in s.ws.sessions ==> SessionCoherent(g, s, w);
    forall v | v in t.ws.sessions ensures Attended(t, v) {
      if v != w { assert Attended(s, v); }
    }
  }

  lemma AttendedClose(s: State, w: Wsi)
    requires AllAttended(s) && DoClose(s, w).Some?
    ensures AllAttended(DoClose(s, w).value)
  {
    var t := DoClose(s, w).value;
    forall v | v in t.ws.sessions ensures Attended(t, v) {
      assert Attended(s, v);
    }
  }

  lemma AttendedPeek(g: Config, s: State, a: Action)
    requires AllAttended(s) && (a.WritePeek? || a.Wake? || a.HttpFailure?) && Step(g, s, a).Some?
    ensures AllAttended(Step(g, s, a).value)
  {
    var t := Step(g, s, a).value;
    forall w | w in t.ws.sessions ensures Attended(t, w) {
      assert Attended(s, w);
    }
  }

  lemma AttendedSend(g: Config, s: State, ok: bool)
    requires AllAttended(s) && DoWireWrite(s, ok).Some?
    ensures AllAttended(DoWireWrite(s, ok).value)
  {
    var t := DoWireWrite(s, ok).value;
    forall w | w in t.ws.sessions ensures Attended(t, w) {
      assert Attended(s, w);
    }
  }

  lemma AttendedPop(g: Config, s: State)
    requires ServiceCoherent(s) && AllAttended(s) && DoWritePop(s).Some?
    ensures AllAttended(DoWritePop(s).value)
  {
    var t := DoWritePop(s).value;
    forall w | w in t.ws.sessions ensures Attended(t, w) {
      assert Attended(s, w);
    }
  }

  lemma AttendedReceive(s: State, t: State, w: Wsi, f: Fragment)
    requires AllAttended(s) && ReceiveEffect(s, t, w, f)
    ensures AllAttended(t)
  {
    forall v | v in t.ws.sessions ensures Attended(t, v) {
      assert Attended(s, v);
    }
  }

  lemma AttendedBridge(g: Config, s: State, a: Action)
    requires AllAttended(s) && !IsService(a) && Step(g, s, a).Some?
    ensures AllAttended(Step(g, s, a).value)
  {
    var t := Step(g, s, a).value;
    if !a.Push? {
      BridgeFrame(g, s, a);
      assert s.bridge.Signalling? ==> t.net.cancelPending;
      forall w | w in t.ws.sessions ensures Attended(t, w) {
        assert Attended(s, w);
      }
    }
  }

  lemma AttendedStep(g: Config, s: State, a: Action)
    requires Coherent(g, s) && AllAttended(s) && Step(g, s, a).Some?
    ensures AllAttended(Step(g, s, a).value)
  {
    if a.Receive? {
      ReceiveFrame(g, s, a.wsi, a.fragment);
      AttendedReceive(s, Step(g, s, a).value, a.wsi, a.fragment);
    } else if a.Filter? || a.Abandon? {
      AttendedHandshake(g, s, a);
    } else if a.Establish? {
      AttendedEstablish(g, s, a.wsi);
    } else if a.Close? {
      AttendedClose(s, a.wsi);
    } else if a.WireWrite? {
      AttendedSend(g, s, a.ok);
    } else if a.WritePop? {
      AttendedPop(g, s);
    } else if IsService(a) {
      AttendedPeek(g, s, a);
    } else {
      AttendedBridge(g, s, a);
    }
  }

  lemma {:induction false} AttendedRun(g: Config, acts: seq<Action>, s: State)
    requires Exec(g, START, acts) == Some(s)
    ensures Coherent(g, s) && AllAttended(s)
  {
    CoherentRun(g, acts, s);
    if acts != [] {
      var before := Exec(g, START, acts[..|acts| - 1]).value;
      AttendedRun(g, acts[..|acts| - 1], before);
      AttendedStep(g, before, acts[|acts| - 1]);
    }
  }

  /** In every reachable state a live connection with a queued frame has asked for a turn, or a
      wake-up is pending or about to be raised, or its frame is being sent. */
  lemma NoLostWakeup(g: Config, s: State, w: Wsi)
    requires Reachable(g, s)
    requires w in s.net.conns && s.net.conns[w].phase.Live? && w in s.ws.sessions && s.ws.sessions[w].tx != []
    ensures w in s.net.writable || s.net.cancelPending || s.bridge.Signalling?
            || (!s.service.Polling? && s.service.wsi == w)
  {
    var acts :| Exec(g, START, acts) == Some(s);
    AttendedRun(g, acts, s);
    assert Attended(s, w);
  }

  // ---- No turn for nothing ---------------------------------------------------

  /** The session has something queued that is not being sent already. */
  predicate TurnNeeded(s: State, w: Wsi) {
    && w in s.ws.sessions && s.ws.sessions[w].tx != []
    && (s.service.Polling? || s.service.wsi != w)
  }

  predicate AllTurnsNeeded(s: State) {
    forall w :: w in s.net.writable ==> TurnNeeded(s, w)
  }

  lemma TurnsNeededFrame(s: State, t: State)
    requires AllTurnsNeeded(s) && t.net.writable <= s.net.writable
    requires forall w :: w in t.net.writable ==>
               w in s.ws.sessions ==> w in t.ws.sessions && |t.ws.sessions[w].tx| >= |s.ws.sessions[w].tx|
    requires t.service.Polling? || t.service.wsi !in t.net.writable
    ensures AllTurnsNeeded(t)
  {
    forall w | w in t.net.writable ensures TurnNeeded(t, w) {
      assert TurnNeeded(s, w);
    }
  }

  lemma TurnsNeededPop(s: State)
    requires AllTurnsNeeded(s) && DoWritePop(s).Some?
    ensures AllTurnsNeeded(DoWritePop(s).value)
  {
    var t := DoWritePop(s).value;
    forall w | w in t.net.writable ensures TurnNeeded(t, w) {
      assert w in s.net.writable ==> TurnNeeded(s, w);
    }
  }

  lemma TurnsNeededWake(s: State)
    requires AllTurnsNeeded(s) && DoWake(s).Some?
    ensures AllTurnsNeeded(DoWake(s).value)
  {
    var t := DoWake(s).value;
    forall w | w in t.net.writable ensures TurnNeeded(t, w) {
      assert w in s.net.writable ==> TurnNeeded(s, w);
    }
  }

  lemma TurnsNeededPush(g: Config, s: State)
    requires AllTurnsNeeded(s) && DoPush(g, s).Some?
    ensures AllTurnsNeeded(DoPush(g, s).value)
  {
    var t := DoPush(g, s).value;
    forall w | w in t.net.writable ensures TurnNeeded(t, w) {
      assert TurnNeeded(s, w);
    }
  }

  lemma TurnsNeededStep(g: Config, s: State, a: Action)
    requires Coherent(g, s) && AllTurnsNeeded(s) && Step(g, s, a).Some?
    ensures AllTurnsNeeded(Step(g, s, a).value)
  {
    var t := Step(g, s, a).value;
    if a.WritePop? { TurnsNeededPop(s); }
    else if a.Wake? { TurnsNeededWake(s); }
    else if a.Push? { TurnsNeededPush(g, s); }
    else if a.Receive? {
      ReceiveFrame(g, s, a.wsi, a.fragment);
      TurnsNeededReceive(s, t, a.wsi, a.fragment);
    }
    else if !IsService(a) { TurnsNeededBridge(g, s, a); }
    else if a.Establish? || a.Close? { TurnsNeededConnection(g, s, a); }
    else { TurnsNeededElsewhere(g, s, a); }
  }

  lemma TurnsNeededReceive(s: State, t: State, w: Wsi, f: Fragment)
    requires AllTurnsNeeded(s) && ReceiveEffect(s, t, w, f)
    ensures AllTurnsNeeded(t)
  {
    ReceiveKeepsSessions(s, t, w, f);
    assert forall v :: v in s.net.writable ==> TurnNeeded(s, v);
    TurnsNeededFrame(s, t);
  }

  lemma TurnsNeededBridge(g: Config, s: State, a: Action)
    requires AllTurnsNeeded(s) && !IsService(a) && !a.Push? && Step(g, s, a).Some?
    ensures AllTurnsNeeded(Step(g, s, a).value)
  {
    BridgeFrame(g, s, a);
    assert forall w :: w in s.net.writable ==> TurnNeeded(s, w);
    TurnsNeededFrame(s, Step(g, s, a).value);
  }

  lemma TurnsNeededConnection(g: Config, s: State, a: Action)
    requires Coherent(g, s) && AllTurnsNeeded(s) && (a.Establish? || a.Close?) && Step(g, s, a).Some?
    ensures AllTurnsNeeded(Step(g, s, a).value)
  {
    TurnsNeededFrame(s, Step(g, s, a).value);
  }

  lemma TurnsNeededElsewhere(g: Config, s: State, a: Action)
    requires AllTurnsNeeded(s) && Step(g, s, a).Some?
    requires a.Filter? || a.Abandon? || a.WritePeek? || a.WireWrite? || a.HttpFailure?
    ensures AllTurnsNeeded(Step(g, s, a).value)
  {
    assert forall w :: w in s.net.writable ==> TurnNeeded(s, w);
    TurnsNeededFrame(s, Step(g, s, a).value);
  }

  lemma {:induction false} TurnsNeededRun(g: Config, acts: seq<Action>, s: State)
    requires Exec(g, START, acts) == Some(s)
    ensures AllTurnsNeeded(s)
  {
    if acts != [] {
      var before := Exec(g, START, acts[..|acts| - 1]).value;
      TurnsNeededRun(g, acts[..|acts| - 1], before);
      CoherentRun(g, acts[..|acts| - 1], before);
      TurnsNeededStep(g, before, acts[|acts| - 1]);
    }
  }

  /** A turn to write is only ever asked for by a session that has a frame to send in it: in no reachable
      state does a writeable callback find nothing to write. */
  lemma NoTurnForNothing(g: Config, s: State, w: Wsi)
    requires Reachable(g, s) && w in s.net.writable
    ensures w in s.ws.sessions && s.ws.sessions[w].tx != []
    ensures DoWritePeek(s, w).Some? ==> DoWritePeek(s, w).value.service == Sending(w, s.ws.sessions[w].tx[0])
  {
    var acts :| Exec(g, START, acts) == Some(s);
    TurnsNeededRun(g, acts, s);
    assert TurnNeeded(s, w);
  }

  // ---- Draining ------------------------------------------------------------

  /** What still happens when nothing new is broadcast, received or connected. */
  predicate IsDrain(a: Action) {
    a.Wake? || a.WritePeek? || a.WireWrite? || a.WritePop? || a.Close? || a.Signal?
  }

  function LiveConns(net: Net): set<Wsi> {
    set w | w in net.conns && net.conns[w].phase.Live?
  }

  function ServiceRank(pc: ServicePc): nat {
    match pc
    case Polling => 2
    case Sending(_, _) => 1
    case Sent(_, _) => 0
  }

  /** An upper bound on the drain steps left. */
  ghost function Budget(s: State): nat {
    var wake := |s.ws.sessions| + 1;
    (if s.bridge.Signalling? then wake + 1 else 0)
    + (if s.net.cancelPending then wake else 0)
    + 5 * Pending(s.ws.sessions)
    + 3 * |LiveConns(s.net)|
    + |s.ws.sessions|
    + ServiceRank(s.service)
    + |s.net.writable|
  }

  lemma ClosedSizes(sessions: map<Wsi, Session>, w: Wsi)
    requires w in sessions
    ensures |sessions - {w}| == |sessions| - 1
    ensures Pending(sessions - {w}) <= Pending(sessions)
  {
    PendingWithout(sessions, w);
    assert (sessions - {w}).Keys == sessions.Keys - {w};
  }

  lemma DrainClose(g: Config, s: State, w: Wsi)
    requires Coherent(g, s) && DoClose(s, w).Some?
    ensures Budget(DoClose(s, w).value) < Budget(s)
  {
    var t := DoClose(s, w).value;
    ClosedSizes(s.ws.sessions, w);
    SubsetSize(LiveConns(t.net), LiveConns(s.net));
    SubsetSize(t.net.writable, s.net.writable);
  }

  lemma DrainWake(s: State)
    requires DoWake(s).Some?
    ensures Budget(DoWake(s).value) < Budget(s)
  {
    var t := DoWake(s).value;
    var b := Backlogged(s.ws.sessions);
    assert |b| <= |s.ws.sessions.Keys| by { SubsetSize(b, s.ws.sessions.Keys); }
    assert |s.ws.sessions.Keys| == |s.ws.sessions|;
    assert |t.net.writable| <= |s.net.writable| + |b|;
  }

  lemma SubsetSize(a: set<Wsi>, b: set<Wsi>)
    requires a <= b
    ensures |a| <= |b|
  {
    assert b == a + (b - a);
  }

  lemma DrainWireWrite(g: Config, s: State, ok: bool)
    requires Coherent(g, s) && DoWireWrite(s, ok).Some?
    ensures Budget(DoWireWrite(s, ok).value) < Budget(s)
  {
    if ok { DrainSent(s); } else { DrainFailed(g, s); }
  }

  lemma DrainSent(s: State)
    requires DoWireWrite(s, true).Some?
    ensures Budget(DoWireWrite(s, true).value) < Budget(s)
  {}

  lemma DrainFailed(g: Config, s: State)
    requires Coherent(g, s) && DoWireWrite(s, false).Some?
    ensures Budget(DoWireWrite(s, false).value) < Budget(s)
  {
    ClosingLosesOne(s.net, s.service.wsi);
  }

  lemma ClosingLosesOne(net: Net, w: Wsi)
    requires w in net.conns && net.conns[w].phase.Live?
    ensures |LiveConns(SetPhase(net, w, Closing))| == |LiveConns(net)| - 1
  {
    assert LiveConns(SetPhase(net, w, Closing)) == LiveConns(net) - {w};
    assert w in LiveConns(net);
  }

  lemma DrainWritePop(g: Config, s: State)
    requires Coherent(g, s) && DoWritePop(s).Some?
    ensures Budget(DoWritePop(s).value) < Budget(s)
  {
    var w := s.service.wsi;
    WrittenSizes(s.ws, w);
    assert |s.net.writable + {w}| <= |s.net.writable| + 1;
  }

  lemma WrittenSizes(sh: Shared, w: Wsi)
    requires w in sh.sessions && sh.sessions[w].tx != []
    ensures |Written(sh, w).0.sessions| == |sh.sessions|
    ensures Pending(Written(sh, w).0.sessions) == Pending(sh.sessions) - 1
  {
    var after := Written(sh, w).0.sessions;
    PendingUpdate(sh.sessions, w, after[w]);
    assert after.Keys == sh.sessions.Keys;
    assert |after| == |after.Keys| && |sh.sessions| == |sh.sessions.Keys|;
  }

  lemma DrainWritePeek(s: State, w: Wsi)
    requires DoWritePeek(s, w).Some?
    ensures Budget(DoWritePeek(s, w).value) < Budget(s)
  {}

  lemma DrainSignal(s: State)
    requires DoSignal(s).Some?
    ensures Budget(DoSignal(s).value) < Budget(s)
  {}

  /** Every drain step uses up some of the budget. */
  lemma DrainStep(g: Config, s: State, a: Action)
    requires Coherent(g, s) && IsDrain(a) && Step(g, s, a).Some?
    ensures Budget(Step(g, s, a).value) < Budget(s)
  {
    match a
    case Close(w) => DrainClose(g, s, w);
    case Wake => DrainWake(s);
    case WireWrite(ok) => DrainWireWrite(g, s, ok);
    case WritePop => DrainWritePop(g, s);
    case WritePeek(w) => DrainWritePeek(s, w);
    case Signal => DrainSignal(s);
  }

  lemma {:induction false} DrainBound(g: Config, s: State, acts: seq<Action>, t: State)
    requires Coherent(g, s) && Exec(g, s, acts) == Some(t)
    requires forall i :: 0 <= i < |acts| ==> IsDrain(acts[i])
    ensures Coherent(g, t) && |acts| + Budget(t) <= Budget(s)
  {
    if acts != [] {
      var mid := Exec(g, s, acts[..|acts| - 1]).value;
      DrainBound(g, s, acts[..|acts| - 1], mid);
      CoherentStep(g, mid, acts[|acts| - 1]);
      DrainStep(g, mid, acts[|acts| - 1]);
    }
  }

  /** A drain step the bridge itself will take: a connection that still works is closed only by its peer,
      so its close does not count. */
  predicate IsProgress(s: State, a: Action) {
    IsDrain(a) && (a.Close? ==> a.wsi in s.net.conns && s.net.conns[a.wsi].phase.Closing?)
  }

  predicate CanDrain(s: State, a: Action) {
    match a
    case Wake => s.service.Polling? && s.net.cancelPending
    case WritePeek(w) => s.service.Polling? && w in s.net.writable && w in s.net.conns && s.net.conns[w].phase.Live?
    case WireWrite(_) => s.service.Sending?
    case WritePop => s.service.Sent?
    case Close(w) => s.service.Polling? && w in s.net.conns && s.net.conns[w].phase.Closing?
    case Signal => s.bridge.Signalling?
    case _ => false
  }

  lemma PossibleDrain(g: Config, s: State, a: Action)
    requires CanDrain(s, a)
    ensures IsProgress(s, a) && Step(g, s, a).Some?
  {}

  lemma DrainChoice(g: Config, s: State, w: Wsi) returns (a: Action)
    requires Coherent(g, s) && AllAttended(s) && w in s.ws.sessions && s.ws.sessions[w].tx != []
    ensures CanDrain(s, a)
    ensures a.WritePeek? || a.Close? ==> a.wsi == w
    ensures a.WireWrite? ==> a.ok
  {
    assert SessionCoherent(g, s, w) && Attended(s, w);
    if s.service.Sending? { a := WireWrite(true); }
    else if s.service.Sent? { a := WritePop; }
    else if s.net.conns[w].phase.Closing? { a := Close(w); }
    else if w in s.net.writable { a := WritePeek(w); }
    else if s.net.cancelPending { a := Wake; }
    else { a := Signal; }
  }

  /** While anything is queued for `w`, the bridge has a step to take: send or pop a frame, peek at the
      queue of `w`, wake up, signal, or close `w` if a callback of it failed. Waiting for a peer to close
      is never needed. */
  lemma DrainEnabled(g: Config, s: State, w: Wsi) returns (a: Action)
    requires Coherent(g, s) && AllAttended(s) && w in s.ws.sessions && s.ws.sessions[w].tx != []
    ensures IsProgress(s, a) && Step(g, s, a).Some?
    ensures a.WritePeek? || a.Close? ==> a.wsi == w
    ensures a.WireWrite? ==> a.ok
  {
    a := DrainChoice(g, s, w);
    PossibleDrain(g, s, a);
  }

  /** The bridge has no step left to take. */
  ghost predicate Idle(g: Config, s: State) {
    forall a :: IsProgress(s, a) ==> Step(g, s, a).None?
  }

  /** Session `w` has an empty queue and has been written all it was owed. */
  predicate FullyServed(g: Config, s: State, w: Wsi)
    requires w in s.ws.sessions
  {
    && s.ws.sessions[w].tx == []
    && w in s.log.live && s.log.live[w].since <= |s.log.broadcasts|
    && s.log.live[w].frames == Payloads(g.codec, s.log.broadcasts[s.log.live[w].since..], s.ws.sessions[w].topic)
  }

  lemma IdleMeansServed(g: Config, s: State, w: Wsi)
    requires Reachable(g, s) && Idle(g, s) && w in s.ws.sessions
    ensures FullyServed(g, s, w)
  {
    var acts :| Exec(g, START, acts) == Some(s);
    AttendedRun(g, acts, s);
    ExactlyOnceInOrder(g, s, w);
    if s.ws.sessions[w].tx != [] {
      var a := DrainEnabled(g, s, w);
      assert false;
    }
  }

  lemma ReachableThen(g: Config, s: State, acts: seq<Action>, t: State)
    requires Reachable(g, s) && Exec(g, s, acts) == Some(t)
    ensures Reachable(g, t)
  {
    var past :| Exec(g, START, past) == Some(s);
    ExecAppend(g, START, past, acts);
  }

  /** From any reachable state, every run of drain steps is at most `Budget` long, whichever connections
      their peers close meanwhile; and where the bridge has no step left, all queues are empty and every
      session has been written all it was owed. */
  lemma DrainDelivers(g: Config, s: State, acts: seq<Action>, t: State)
    requires Reachable(g, s) && Exec(g, s, acts) == Some(t)
    requires forall i :: 0 <= i < |acts| ==> IsDrain(acts[i])
    ensures |acts| <= Budget(s)
    ensures Idle(g, t) ==> forall w :: w in t.ws.sessions ==> FullyServed(g, t, w)
  {
    var past :| Exec(g, START, past) == Some(s);
    CoherentRun(g, past, s);
    DrainBound(g, s, acts, t);
    ReachableThen(g, s, acts, t);
    if Idle(g, t) {
      forall w | w in t.ws.sessions ensures FullyServed(g, t, w) {
        IdleMeansServed(g, t, w);
      }
    }
  }

  // ---- Draining while everybody stays -------------------------------------------

  /** A drain step in which no connection is lost. */
  predicate IsDelivery(a: Action) {
    IsDrain(a) && !a.Close? && (a.WireWrite? ==> a.ok)
  }

  /** No callback of an established connection has failed. */
  predicate NoneClosing(s: State) {
    forall w :: w in s.net.conns ==> !s.net.conns[w].phase.Closing?
  }

  lemma DeliveryKeepsConnections(g: Config, s: State, a: Action)
    requires Coherent(g, s) && IsDelivery(a) && Step(g, s, a).Some?
    ensures var t := Step(g, s, a).value;
            t.ws.sessions.Keys == s.ws.sessions.Keys && t.net.conns == s.net.conns
  {
    if a.WritePop? {
      WrittenKeepsTopics(s.ws, s.service.wsi);
    } else if a.Signal? {
      BridgeFrame(g, s, a);
    }
  }

  lemma {:induction false} DeliveriesKeepConnections(g: Config, s: State, acts: seq<Action>, t: State)
    requires Coherent(g, s) && Exec(g, s, acts) == Some(t)
    requires forall i :: 0 <= i < |acts| ==> IsDelivery(acts[i])
    ensures t.ws.sessions.Keys == s.ws.sessions.Keys && t.net.conns == s.net.conns
  {
    if acts != [] {
      var mid := Exec(g, s, acts[..|acts| - 1]).value;
      DeliveriesKeepConnections(g, s, acts[..|acts| - 1], mid);
      DrainBound(g, s, acts[..|acts| - 1], mid);
      DeliveryKeepsConnections(g, mid, acts[|acts| - 1]);
    }
  }

  /** Every run in which no connection is lost keeps all sessions, takes at most `Budget` steps, and, where
      the bridge has no step left, has served each of them in full. */
  lemma DeliveriesServeEverySession(g: Config, s: State, acts: seq<Action>, t: State)
    requires Reachable(g, s) && Exec(g, s, acts) == Some(t)
    requires forall i :: 0 <= i < |acts| ==> IsDelivery(acts[i])
    ensures |acts| <= Budget(s) && t.ws.sessions.Keys == s.ws.sessions.Keys
    ensures Idle(g, t) ==> forall w :: w in s.ws.sessions ==> w in t.ws.sessions && FullyServed(g, t, w)
  {
    var past :| Exec(g, START, past) == Some(s);
    CoherentRun(g, past, s);
    DeliveriesKeepConnections(g, s, acts, t);
    DrainDelivers(g, s, acts, t);
  }

  /** Where no callback has failed and the bridge still has a step, it has one that loses nobody. */
  lemma DeliveryEnabled(g: Config, s: State) returns (a: Action)
    requires NoneClosing(s) && !Idle(g, s)
    ensures IsDelivery(a) && Step(g, s, a).Some?
  {
    var b :| IsProgress(s, b) && Step(g, s, b).Some?;
    a := if b.WireWrite? then WireWrite(true) else b;
  }

  /** And such a run to the end exists from every reachable state in which no callback has failed: it
      serves every session in full, within the budget. */
  lemma {:induction false} EverySessionCanBeServed(g: Config, s: State) returns (acts: seq<Action>, t: State)
    requires Reachable(g, s) && NoneClosing(s)
    ensures Exec(g, s, acts) == Some(t) && |acts| <= Budget(s)
    ensures forall i :: 0 <= i < |acts| ==> IsDelivery(acts[i])
    ensures Idle(g, t) && t.ws.sessions.Keys == s.ws.sessions.Keys
    ensures forall w :: w in s.ws.sessions ==> FullyServed(g, t, w)
    decreases Budget(s)
  {
    if Idle(g, s) {
      acts, t := [], s;
    } else {
      var past :| Exec(g, START, past) == Some(s);
      CoherentRun(g, past, s);
      var a := DeliveryEnabled(g, s);
      var next := Step(g, s, a).value;
      assert Exec(g, s, [a]) == Some(next) by { assert [a][..0] == []; }
      DeliveryKeepsConnections(g, s, a);
      DrainStep(g, s, a);
      ReachableThen(g, s, [a], next);
      var rest;
      rest, t := EverySessionCanBeServed(g, next);
      acts := [a] + rest;
      ExecAppend(g, s, [a], rest);
    }
    DeliveriesServeEverySession(g, s, acts, t);
  }
}
