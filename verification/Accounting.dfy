/** Counters, the client-count flag, and what ticks route in each direction. */
module Accounting {
  import opened Common
  import opened Reassembly
  import opened Transport
  import opened MadsBroker
  import opened Engine
  import opened Coherence
  import opened Delivery

  // ---- Counters ------------------------------------------------------------

  ghost predicate Counted(s: State) {
    && s.ws.enqueued == s.ws.written + Pending(s.ws.sessions) + s.log.discarded
    && s.ws.accepted == s.ws.closed + |s.ws.sessions|
    && s.ws.inboundFrames == |s.log.arrivals|
    && (!s.ws.countChanged ==> s.log.lastReported == |s.ws.sessions|)
  }

  lemma CountedEstablish(g: Config, s: State, w: Wsi)
    requires Coherent(g, s) && Counted(s) && DoEstablish(g, s, w).Some?
    ensures Counted(DoEstablish(g, s, w).value)
  {
    var t := DoEstablish(g, s, w).value;
    assert w in s.ws.sessions ==> SessionCoherent(g, s, w);
    PendingUpdate(s.ws.sessions, w, t.ws.sessions[w]);
    assert t.ws.sessions.Keys == s.ws.sessions.Keys + {w};
  }

  lemma CountedClose(g: Config, s: State, w: Wsi)
    requires Coherent(g, s) && Counted(s) && DoClose(s, w).Some?
    ensures Counted(DoClose(s, w).value)
  {
    assert SessionCoherent(g, s, w);
    PendingWithout(s.ws.sessions, w);
    assert (s.ws.sessions - {w}).Keys == s.ws.sessions.Keys - {w};
  }

  lemma CountedReceive(g: Config, s: State, w: Wsi, f: Fragment)
    requires Coherent(g, s) && Counted(s) && DoReceive(g, s, w, f).Some?
    ensures Counted(DoReceive(g, s, w, f).value)
  {
    var t := DoReceive(g, s, w, f).value;
    assert SessionCoherent(g, s, w);
    ReceiveFrame(g, s, w, f);
    PendingUpdate(s.ws.sessions, w, t.ws.sessions[w]);
    assert t.ws.sessions.Keys == s.ws.sessions.Keys;
    assert |t.ws.sessions| == |t.ws.sessions.Keys|;
  }

  lemma CountedPop(g: Config, s: State)
    requires Coherent(g, s) && Counted(s) && DoWritePop(s).Some?
    ensures Counted(DoWritePop(s).value)
  {
    var t := DoWritePop(s).value;
    var w := s.service.wsi;
    PendingUpdate(s.ws.sessions, w, t.ws.sessions[w]);
    assert t.ws.sessions.Keys == s.ws.sessions.Keys;
    assert |t.ws.sessions| == |t.ws.sessions.Keys|;
  }

  lemma CountedPush(g: Config, s: State)
    requires Counted(s) && DoPush(g, s).Some?
    ensures Counted(DoPush(g, s).value)
  {
    var t := DoPush(g, s).value;
    var m := s.bridge.message;
    PendingAfterPush(s.ws.sessions, m.topic, g.codec.dump(m.body));
    assert t.ws.sessions.Keys == s.ws.sessions.Keys;
    assert |t.ws.sessions| == |t.ws.sessions.Keys|;
  }

  lemma CountedStep(g: Config, s: State, a: Action)
    requires Coherent(g, s) && Counted(s) && Step(g, s, a).Some?
    ensures Counted(Step(g, s, a).value)
  {
    if a.Establish? { CountedEstablish(g, s, a.wsi); }
    else if a.Close? { CountedClose(g, s, a.wsi); }
    else if a.Receive? { CountedReceive(g, s, a.wsi, a.fragment); }
    else if a.WritePop? { CountedPop(g, s); }
    else if a.Push? { CountedPush(g, s); }
    else if !a.WireWrite? { QuietFrame(g, s, a); }
  }

  // ---- Routing -------------------------------------------------------------

  function Bodies(arrivals: seq<Arrival>): (ms: seq<Message>)
    ensures |ms| == |arrivals|
  {
    seq(|arrivals|, i requires 0 <= i < |arrivals| => arrivals[i].message)
  }

  /** The message the bridge thread has taken from a queue and not yet passed on. */
  function InHandUp(pc: BridgePc): seq<Message> {
    if pc.Publishing? then [pc.message] else []
  }

  function InHandDown(pc: BridgePc): seq<Message> {
    if pc.Routing? || pc.Pushing? then [pc.message] else []
  }

  predicate RoutedUp(s: State) {
    && Bodies(s.log.arrivals) == s.log.published + s.log.lostUp + InHandUp(s.bridge) + s.ws.inbound
    && (s.log.lostUp != [] ==> !s.mads.healthy || !s.mads.started)
    && s.mads.published == |s.log.published|
  }

  predicate RoutedDown(g: Config, s: State) {
    && Routed(g.codec, s.log.heard) == s.log.broadcasts + s.log.lostDown + InHandDown(s.bridge) + s.mads.queue
    && (s.log.lostDown != [] ==> !s.ws.healthy)
    && (s.bridge.Pushing? ==> s.log.lostDown == [])
    && s.mads.received == |Routed(g.codec, s.log.heard)|
  }

  predicate Failures(s: State) {
    && |s.log.lostUp| + |s.log.lostDown| <= s.log.failedTicks
    && (!s.core.healthy ==> !s.mads.healthy || !s.mads.started || !s.ws.healthy)
    && (!s.core.healthy ==> s.core.shouldStop)
  }

  lemma RoutedUpReceive(g: Config, s: State, w: Wsi, f: Fragment)
    requires Coherent(g, s) && RoutedUp(s) && DoReceive(g, s, w, f).Some?
    ensures RoutedUp(DoReceive(g, s, w, f).value)
  {
    var t := DoReceive(g, s, w, f).value;
    assert SessionCoherent(g, s, w);
    var r := Received(g.codec, s.ws, w, f);
    if r.arrived.Some? {
      assert Bodies(t.log.arrivals) == Bodies(s.log.arrivals) + [r.arrived.value];
      var before := s.log.published + s.log.lostUp + InHandUp(s.bridge);
      assert before + s.ws.inbound + [r.arrived.value] == before + t.ws.inbound;
    }
  }

  lemma RoutedUpPop(s: State)
    requires RoutedUp(s) && DoPopWs(s).Some?
    ensures RoutedUp(DoPopWs(s).value)
  {
    if s.ws.inbound != [] {
      var done, m, rest := s.log.published + s.log.lostUp, s.ws.inbound[0], s.ws.inbound[1..];
      assert done + [] + s.ws.inbound == done + [m] + rest;
    }
  }

  lemma RoutedUpPublish(s: State, threw: bool)
    requires RoutedUp(s) && DoDoPublish(s, threw).Some?
    ensures RoutedUp(DoDoPublish(s, threw).value)
  {
    var m := s.bridge.message;
    var lost := s.log.lostUp;
    assert s.log.published + lost + [m] + s.ws.inbound == s.log.published + (lost + [m]) + [] + s.ws.inbound;
    if lost == [] {
      assert s.log.published + lost + [m] + s.ws.inbound == (s.log.published + [m]) + [] + [] + s.ws.inbound;
    }
  }

  lemma RoutedUpStep(g: Config, s: State, a: Action)
    requires Coherent(g, s) && RoutedUp(s) && Step(g, s, a).Some?
    ensures RoutedUp(Step(g, s, a).value)
  {
    if a.Receive? { RoutedUpReceive(g, s, a.wsi, a.fragment); }
    else if a.PopWs? { RoutedUpPop(s); }
    else if a.DoPublish? { RoutedUpPublish(s, a.threw); }
    else if a.StartTick? { PollFrame(g.codec, s.mads, a.receipts, a.running); }
  }

  lemma RoutedDownTick(g: Config, s: State, rs: seq<Receipt>, running: bool)
    requires RoutedDown(g, s) && DoStartTick(g, s, rs, running).Some?
    ensures RoutedDown(g, DoStartTick(g, s, rs, running).value)
  {
    var heard := if s.mads.started && s.mads.healthy then Consumed(g.codec, rs) else [];
    PollFrame(g.codec, s.mads, rs, running);
    RoutedAppend(g.codec, s.log.heard, heard);
    var before, more := s.log.broadcasts + s.log.lostDown + InHandDown(s.bridge), Routed(g.codec, heard);
    assert before + s.mads.queue + more == before + (s.mads.queue + more);
  }

  lemma RoutedDownPop(g: Config, s: State)
    requires RoutedDown(g, s) && DoPopMads(s).Some?
    ensures RoutedDown(g, DoPopMads(s).value)
  {
    if s.mads.queue != [] {
      var done, m, rest := s.log.broadcasts + s.log.lostDown, s.mads.queue[0], s.mads.queue[1..];
      assert done + [] + s.mads.queue == done + [m] + rest;
    }
  }

  lemma RoutedDownBroadcast(g: Config, s: State, a: Action)
    requires RoutedDown(g, s) && (a.Admit? || a.Push?) && Step(g, s, a).Some?
    ensures RoutedDown(g, Step(g, s, a).value)
  {
    var m, sent, lost, queue := s.bridge.message, s.log.broadcasts, s.log.lostDown, s.mads.queue;
    assert sent + lost + [m] + queue == sent + (lost + [m]) + [] + queue;
    if lost == [] {
      assert sent + lost + [m] + queue == (sent + [m]) + [] + [] + queue;
    }
  }

  lemma RoutedDownStep(g: Config, s: State, a: Action)
    requires RoutedDown(g, s) && Step(g, s, a).Some?
    ensures RoutedDown(g, Step(g, s, a).value)
  {
    if a.StartTick? { RoutedDownTick(g, s, a.receipts, a.running); }
    else if a.PopMads? { RoutedDownPop(g, s); }
    else if a.Admit? || a.Push? { RoutedDownBroadcast(g, s, a); }
    else if IsService(a) { RoutedDownService(g, s, a); }
    else { RoutedDownElsewhere(g, s, a); }
  }

  lemma RoutedDownService(g: Config, s: State, a: Action)
    requires RoutedDown(g, s) && IsService(a) && Step(g, s, a).Some?
    ensures RoutedDown(g, Step(g, s, a).value)
  {
    ServiceFrame(g, s, a);
    RoutedDownFrame(g, s, Step(g, s, a).value);
  }

  lemma RoutedDownFrame(g: Config, s: State, t: State)
    requires RoutedDown(g, s) && SameBridgeSide(s, t)
    ensures RoutedDown(g, t)
  {}

  lemma RoutedDownElsewhere(g: Config, s: State, a: Action)
    requires RoutedDown(g, s) && Step(g, s, a).Some?
    requires a.PopWs? || a.DoPublish? || a.Signal? || a.Check? || a.ConsumeCount?
    ensures RoutedDown(g, Step(g, s, a).value)
  {}

  lemma FailuresStep(g: Config, s: State, a: Action)
    requires Failures(s) && Step(g, s, a).Some?
    ensures Failures(Step(g, s, a).value)
  {
    if a.StartTick? { PollFrame(g.codec, s.mads, a.receipts, a.running); }
  }

  // ---- All of it over whole runs --------------------------------------------

  ghost predicate Tallied(g: Config, s: State) {
    Counted(s) && RoutedUp(s) && RoutedDown(g, s) && Failures(s)
  }

  lemma TalliedStep(g: Config, s: State, a: Action)
    requires Coherent(g, s) && Tallied(g, s) && Step(g, s, a).Some?
    ensures Tallied(g, Step(g, s, a).value)
  {
    CountedStep(g, s, a);
    RoutedUpStep(g, s, a);
    RoutedDownStep(g, s, a);
    FailuresStep(g, s, a);
  }

  lemma RoutedStart(g: Config)
    ensures RoutedUp(START) && RoutedDown(g, START)
  {
    assert Bodies(START.log.arrivals) == [];
    assert Routed(g.codec, START.log.heard) == [];
  }

  lemma TalliedStart(g: Config)
    ensures Tallied(g, START)
  {
    assert START.ws.sessions == map[];
    assert Counted(START);
    RoutedStart(g);
  }

  lemma {:induction false} TalliedRun(g: Config, acts: seq<Action>, s: State)
    requires Exec(g, START, acts) == Some(s)
    ensures Tallied(g, s)
  {
    if acts == [] {
      TalliedStart(g);
    } else {
      var before, a := Exec(g, START, acts[..|acts| - 1]).value, acts[|acts| - 1];
      TalliedRun(g, acts[..|acts| - 1], before);
      CoherentRun(g, acts[..|acts| - 1], before);
      TalliedStep(g, before, a);
    }
  }

  lemma TalliedState(g: Config, s: State)
    requires Reachable(g, s)
    ensures Tallied(g, s)
  {
    var acts :| Exec(g, START, acts) == Some(s);
    TalliedRun(g, acts, s);
  }

  /** Every frame ever queued was written, is still queued, or was dropped when its connection closed;
      every connection ever accepted has closed or has a session. */
  lemma CountersBalance(g: Config, s: State)
    requires Reachable(g, s)
    ensures s.ws.enqueued == s.ws.written + Pending(s.ws.sessions) + s.log.discarded
    ensures s.ws.accepted == s.ws.closed + |s.ws.sessions|
    ensures s.ws.inboundFrames == |s.log.arrivals|
    ensures s.mads.published == |s.log.published| && s.mads.received == |Routed(g.codec, s.log.heard)|
  {
    TalliedState(g, s);
  }

  /** While the change flag is clear, the count last reported as changed is the number of sessions. */
  lemma ClientCountIsNeverStale(g: Config, s: State)
    requires Reachable(g, s) && !s.ws.countChanged
    ensures s.log.lastReported == |s.ws.sessions|
  {
    TalliedState(g, s);
  }

  /** WebSocket to MADS: what was published is a gap-free prefix of what arrived; what follows it was
      dropped by failed ticks, or is in hand, or is still queued, in arrival order. */
  lemma PublishedIsAPrefix(g: Config, s: State)
    requires Reachable(g, s)
    ensures s.log.published <= Bodies(s.log.arrivals)
    ensures Bodies(s.log.arrivals) == s.log.published + s.log.lostUp + InHandUp(s.bridge) + s.ws.inbound
    ensures s.mads.started && s.mads.healthy ==> s.log.lostUp == []
    ensures |s.log.lostUp| + |s.log.lostDown| <= s.log.failedTicks
  {
    TalliedState(g, s);
  }

  /** MADS to WebSocket: what was broadcast is a gap-free prefix of the JSON messages received on
      topics other than `control`; the rest was dropped by failed ticks, is in hand, or is queued. */
  lemma BroadcastIsAPrefix(g: Config, s: State)
    requires Reachable(g, s)
    ensures s.log.broadcasts <= Routed(g.codec, s.log.heard)
    ensures Routed(g.codec, s.log.heard)
            == s.log.broadcasts + s.log.lostDown + InHandDown(s.bridge) + s.mads.queue
    ensures s.ws.healthy ==> s.log.lostDown == []
    ensures |s.log.lostUp| + |s.log.lostDown| <= s.log.failedTicks
  {
    TalliedState(g, s);
  }

  // ---- After a failure -------------------------------------------------------

  /** How many messages failed ticks have dropped, in either direction. */
  function Dropped(s: State): nat {
    |s.log.lostUp| + |s.log.lostDown|
  }

  /** Health is only ever lost. Whatever part of a run one looks at, its failed ticks dropped at most one
      message each, and the others none. Without MADS health nothing more is published; without WebSocket health
      nothing more is broadcast, but for a message that `broadcast` had already let in. */
  predicate NoRecovery(s: State, t: State) {
    && (t.ws.healthy ==> s.ws.healthy) && (t.mads.healthy ==> s.mads.healthy)
    && (t.core.healthy ==> s.core.healthy) && (s.core.shouldStop ==> t.core.shouldStop)
    && 0 <= Dropped(t) - Dropped(s) <= t.log.failedTicks - s.log.failedTicks
    && (!s.mads.healthy ==> t.log.published == s.log.published)
    && (!s.ws.healthy ==> Admitted(t) == Admitted(s))
  }

  /** Everything broadcast, and what is about to be. */
  function Admitted(s: State): seq<Message> {
    s.log.broadcasts + if s.bridge.Pushing? then [s.bridge.message] else []
  }

  lemma NoRecoveryService(g: Config, s: State, a: Action)
    requires IsService(a) && Step(g, s, a).Some?
    ensures NoRecovery(s, Step(g, s, a).value)
  {
    ServiceFrame(g, s, a);
  }

  lemma NoRecoveryBridge(g: Config, s: State, a: Action)
    requires !IsService(a) && Step(g, s, a).Some?
    ensures NoRecovery(s, Step(g, s, a).value)
  {
    if a.StartTick? { PollFrame(g.codec, s.mads, a.receipts, a.running); }
  }

  /** After any run from any state. */
  lemma {:induction false} FailureIsForGood(g: Config, s: State, acts: seq<Action>, t: State)
    requires Exec(g, s, acts) == Some(t)
    ensures NoRecovery(s, t)
  {
    if acts != [] {
      var mid, a := Exec(g, s, acts[..|acts| - 1]).value, acts[|acts| - 1];
      FailureIsForGood(g, s, acts[..|acts| - 1], mid);
      if IsService(a) { NoRecoveryService(g, mid, a); } else { NoRecoveryBridge(g, mid, a); }
    }
  }

  /** A tick that does not fail drops nothing; one that fails drops at most one message. */
  lemma TickDropsAtMostOne(g: Config, s: State, acts: seq<Action>, t: State, ok: bool)
    requires Exec(g, s, acts) == Some(t)
    requires t.log.failedTicks == s.log.failedTicks + if ok then 0 else 1
    ensures Dropped(s) <= Dropped(t) <= Dropped(s) + if ok then 0 else 1
    ensures ok ==> t.log.lostUp == s.log.lostUp && t.log.lostDown == s.log.lostDown
  {
    FailureIsForGood(g, s, acts, t);
    LostOnlyGrows(g, s, acts, t);
  }

  lemma {:induction false} LostOnlyGrows(g: Config, s: State, acts: seq<Action>, t: State)
    requires Exec(g, s, acts) == Some(t)
    ensures s.log.lostUp <= t.log.lostUp && s.log.lostDown <= t.log.lostDown
  {
    if acts != [] {
      var mid := Exec(g, s, acts[..|acts| - 1]).value;
      LostOnlyGrows(g, s, acts[..|acts| - 1], mid);
    }
  }

  // ---- From MADS to the client -----------------------------------------------

  /** `frames` are, in order, the first of the frames that the routed messages from position `since`
      amount to for `topic`, and none of them carries a message of the control topic. */
  ghost predicate ServedFrom(c: Codec, routed: seq<Message>, since: nat, topic: string, frames: seq<string>) {
    && since <= |routed|
    && frames <= Payloads(c, routed[since..], topic)
    && forall k: nat :: k < |frames| ==> HasOrigin(c, routed, since, topic, frames[k])
  }

  ghost predicate HasOrigin(c: Codec, routed: seq<Message>, since: nat, topic: string, frame: string) {
    exists i: nat :: since <= i < |routed| && (topic == "_all" || topic == routed[i].topic)
                     && routed[i].topic != "control" && c.dump(routed[i].body) == frame
  }

  lemma ServedFromPrefix(c: Codec, heard: seq<Receipt>, broadcasts: seq<Message>, since: nat, until: nat, topic: string, frames: seq<string>)
    requires broadcasts <= Routed(c, heard) && since <= until <= |broadcasts|
    requires frames <= Payloads(c, broadcasts[since..until], topic)
    ensures ServedFrom(c, Routed(c, heard), since, topic, frames)
  {
    var routed := Routed(c, heard);
    assert broadcasts[since..until] <= routed[since..];
    PayloadsMonotone(c, broadcasts[since..until], routed[since..], topic);
    RoutedIsNeverControl(c, heard);
    forall k: nat | k < |frames| ensures HasOrigin(c, routed, since, topic, frames[k]) {
      var i := PayloadsOrigin(c, routed[since..], topic, k);
      assert routed[since + i] == routed[since..][i];
    }
  }

  /** From the MADS agent to the wire, through `poll`, `tick`, `broadcast` and the writer: every
      connection, open or closed, was written a prefix of what its topic takes of the JSON messages
      routed since it connected, and never a control message. */
  lemma EndToEnd(g: Config, s: State)
    requires Reachable(g, s)
    ensures forall w :: w in s.ws.sessions ==>
              w in s.log.live
              && ServedFrom(g.codec, Routed(g.codec, s.log.heard), s.log.live[w].since, s.ws.sessions[w].topic, s.log.live[w].frames)
    ensures forall i :: 0 <= i < |s.log.past| ==>
              var p := s.log.past[i];
              ServedFrom(g.codec, Routed(g.codec, s.log.heard), p.since, p.topic, p.frames)
  {
    BroadcastIsAPrefix(g, s);
    forall w | w in s.ws.sessions
      ensures w in s.log.live
      ensures ServedFrom(g.codec, Routed(g.codec, s.log.heard), s.log.live[w].since, s.ws.sessions[w].topic, s.log.live[w].frames)
    {
      ExactlyOnceInOrder(g, s, w);
      var p := s.log.live[w];
      assert s.log.broadcasts[p.since..] == s.log.broadcasts[p.since..|s.log.broadcasts|];
      ServedFromPrefix(g.codec, s.log.heard, s.log.broadcasts, p.since, |s.log.broadcasts|, p.topic, p.frames);
    }
    forall i | 0 <= i < |s.log.past|
      ensures var p := s.log.past[i];
              ServedFrom(g.codec, Routed(g.codec, s.log.heard), p.since, p.topic, p.frames)
    {
      var p := s.log.past[i];
      ClosedConnectionsGotAPrefix(g, s, p);
      ServedFromPrefix(g.codec, s.log.heard, s.log.broadcasts, p.since, p.until.value, p.topic, p.frames);
    }
  }
}
