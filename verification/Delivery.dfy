/** Exactly-once, in-order delivery from the broadcast log to the wire. */
module Delivery {
  import opened Common
  import opened Reassembly
  import opened Transport
  import opened Engine
  import opened Coherence

  /** What is queued for `w` and not yet written; a frame written but not yet popped is not counted. */
  function Unsent(s: State, w: Wsi): seq<string>
    requires w in s.ws.sessions
  {
    var tx := s.ws.sessions[w].tx;
    if s.service.Sent? && s.service.wsi == w && tx != [] then tx[1..] else tx
  }

  predicate LiveDelivered(g: Config, s: State, w: Wsi)
    requires w in s.ws.sessions
  {
    && w in s.log.live && s.log.live[w].since <= |s.log.broadcasts|
    && Payloads(g.codec, s.log.broadcasts[s.log.live[w].since..], s.log.live[w].topic)
       == s.log.live[w].frames + Unsent(s, w)
  }

  predicate PastDelivered(g: Config, s: State, p: Peer) {
    && p.until.Some? && p.since <= p.until.value <= |s.log.broadcasts|
    && p.frames <= Payloads(g.codec, s.log.broadcasts[p.since..p.until.value], p.topic)
  }

  predicate Delivered(g: Config, s: State) {
    && (forall w :: w in s.ws.sessions ==> LiveDelivered(g, s, w))
    && (forall i: nat :: i < |s.log.past| ==> PastDelivered(g, s, s.log.past[i]))
  }

  /** Steps that leave queues, frames and the broadcast log alone. */
  lemma DeliveredFrame(g: Config, s: State, t: State)
    requires Delivered(g, s)
    requires t.ws.sessions.Keys == s.ws.sessions.Keys && t.log.live.Keys == s.log.live.Keys
    requires t.log.past == s.log.past && t.log.broadcasts == s.log.broadcasts
    requires forall w :: w in s.ws.sessions ==> t.ws.sessions[w].tx == s.ws.sessions[w].tx
    requires forall w :: w in s.log.live ==> SamePeer(s.log.live[w], t.log.live[w]) && t.log.live[w].frames == s.log.live[w].frames
    requires t.service == s.service || (!s.service.Sent? && !t.service.Sent?)
    ensures Delivered(g, t)
  {
    forall w | w in t.ws.sessions ensures LiveDelivered(g, t, w) {
      assert LiveDelivered(g, s, w);
      assert Unsent(t, w) == Unsent(s, w);
    }
    forall i: nat | i < |t.log.past| ensures PastDelivered(g, t, t.log.past[i]) {
      assert PastDelivered(g, s, s.log.past[i]);
    }
  }

  lemma DeliveredEstablish(g: Config, s: State, w: Wsi)
    requires Coherent(g, s) && Delivered(g, s) && DoEstablish(g, s, w).Some?
    ensures Delivered(g, DoEstablish(g, s, w).value)
  {
    var t := DoEstablish(g, s, w).value;
    assert w in s.ws.sessions ==> SessionCoherent(g, s, w);
    forall v | v in t.ws.sessions ensures LiveDelivered(g, t, v) {
      if v != w { assert LiveDelivered(g, s, v); }
    }
    forall i: nat | i < |t.log.past| ensures PastDelivered(g, t, t.log.past[i]) {
      assert PastDelivered(g, s, s.log.past[i]);
    }
  }

  /** A closing connection leaves behind the part of what it was owed that was written. */
  lemma ClosingPeerDelivered(g: Config, s: State, w: Wsi)
    requires w in s.ws.sessions && LiveDelivered(g, s, w)
    ensures PastDelivered(g, s, s.log.live[w].(until := Some(|s.log.broadcasts|)))
  {
    var p := s.log.live[w];
    assert s.log.broadcasts[p.since..|s.log.broadcasts|] == s.log.broadcasts[p.since..];
  }

  lemma DeliveredClose(g: Config, s: State, w: Wsi)
    requires w in s.ws.sessions && Delivered(g, s) && DoClose(s, w).Some?
    ensures Delivered(g, DoClose(s, w).value)
  {
    var t := DoClose(s, w).value;
    assert LiveDelivered(g, s, w);
    ClosingPeerDelivered(g, s, w);
    forall v | v in t.ws.sessions ensures LiveDelivered(g, t, v) {
      LiveDeliveredClose(g, s, w, v);
    }
    forall i: nat | i < |t.log.past| ensures PastDelivered(g, t, t.log.past[i]) {
      if i < |s.log.past| { assert PastDelivered(g, s, s.log.past[i]); }
    }
  }

  lemma LiveDeliveredClose(g: Config, s: State, w: Wsi, v: Wsi)
    requires Delivered(g, s) && DoClose(s, w).Some? && v in DoClose(s, w).value.ws.sessions
    ensures LiveDelivered(g, DoClose(s, w).value, v)
  {
    assert LiveDelivered(g, s, v);
  }

  lemma DeliveredSend(g: Config, s: State)
    requires Coherent(g, s) && Delivered(g, s) && DoWireWrite(s, true).Some?
    ensures Delivered(g, DoWireWrite(s, true).value)
  {
    var t := DoWireWrite(s, true).value;
    forall v | v in t.ws.sessions ensures LiveDelivered(g, t, v) {
      LiveDeliveredSend(g, s, v);
    }
    forall i: nat | i < |t.log.past| ensures PastDelivered(g, t, t.log.past[i]) {
      assert PastDelivered(g, s, s.log.past[i]);
    }
  }

  /** The frame logged by a send is the first of what was unsent. */
  lemma LiveDeliveredSend(g: Config, s: State, v: Wsi)
    requires Coherent(g, s) && DoWireWrite(s, true).Some? && v in s.ws.sessions && LiveDelivered(g, s, v)
    ensures v in DoWireWrite(s, true).value.ws.sessions && LiveDelivered(g, DoWireWrite(s, true).value, v)
  {
    var frames, tx := s.log.live[v].frames, s.ws.sessions[v].tx;
    if v == s.service.wsi {
      assert frames + tx == frames + [s.service.frame] + tx[1..];
    }
  }

  /** Popping removes the frame already written, so what is unsent stays the same. */
  lemma DeliveredPop(g: Config, s: State)
    requires Coherent(g, s) && Delivered(g, s) && DoWritePop(s).Some?
    ensures Delivered(g, DoWritePop(s).value)
  {
    var t := DoWritePop(s).value;
    forall v | v in t.ws.sessions ensures LiveDelivered(g, t, v) {
      assert LiveDelivered(g, s, v);
      PopKeepsUnsent(g, s, v);
    }
    forall i: nat | i < |t.log.past| ensures PastDelivered(g, t, t.log.past[i]) {
      assert PastDelivered(g, s, s.log.past[i]);
    }
  }

  lemma PopKeepsUnsent(g: Config, s: State, v: Wsi)
    requires ServiceCoherent(s) && DoWritePop(s).Some? && v in s.ws.sessions
    ensures v in DoWritePop(s).value.ws.sessions && Unsent(DoWritePop(s).value, v) == Unsent(s, v)
  {}

  /** The frame `m` adds for a session on `topic`. */
  function Added(c: Codec, topic: string, m: Message): seq<string> {
    if Takes(topic, m.topic) then [c.dump(m.body)] else []
  }

  lemma OwedAfterPush(c: Codec, broadcasts: seq<Message>, m: Message, since: nat, topic: string, frames: seq<string>, unsent: seq<string>)
    requires since <= |broadcasts| && Payloads(c, broadcasts[since..], topic) == frames + unsent
    ensures Payloads(c, (broadcasts + [m])[since..], topic) == frames + (unsent + Added(c, topic, m))
  {
    assert (broadcasts + [m])[since..] == broadcasts[since..] + [m];
    PayloadsSnoc(c, broadcasts[since..], m, topic);
    AppendAssoc(frames, unsent, Added(c, topic, m));
  }

  lemma UnsentAfterPush(g: Config, s: State, w: Wsi)
    requires ServiceCoherent(s) && DoPush(g, s).Some? && w in s.ws.sessions
    ensures w in DoPush(g, s).value.ws.sessions
    ensures Unsent(DoPush(g, s).value, w) == Unsent(s, w) + Added(g.codec, s.ws.sessions[w].topic, s.bridge.message)
  {
    var m := s.bridge.message;
    assert DoPush(g, s).value.ws.sessions[w] == Enqueue(s.ws.sessions[w], m.topic, g.codec.dump(m.body));
  }

  lemma LiveDeliveredPush(g: Config, s: State, w: Wsi)
    requires Coherent(g, s) && DoPush(g, s).Some? && w in s.ws.sessions && LiveDelivered(g, s, w)
    ensures w in DoPush(g, s).value.ws.sessions && LiveDelivered(g, DoPush(g, s).value, w)
  {
    var p := s.log.live[w];
    assert SessionCoherent(g, s, w);
    UnsentAfterPush(g, s, w);
    OwedAfterPush(g.codec, s.log.broadcasts, s.bridge.message, p.since, p.topic, p.frames, Unsent(s, w));
  }

  lemma DeliveredPush(g: Config, s: State)
    requires Coherent(g, s) && Delivered(g, s) && DoPush(g, s).Some?
    ensures Delivered(g, DoPush(g, s).value)
  {
    var t := DoPush(g, s).value;
    forall v | v in t.ws.sessions ensures LiveDelivered(g, t, v) {
      LiveDeliveredPush(g, s, v);
    }
    forall i: nat | i < |t.log.past| ensures PastDelivered(g, t, t.log.past[i]) {
      assert PastDelivered(g, s, s.log.past[i]);
      PastDeliveredLater(g, s, t, s.log.past[i]);
    }
  }

  /** More broadcasts do not matter to a connection that has ended. */
  lemma PastDeliveredLater(g: Config, s: State, t: State, p: Peer)
    requires PastDelivered(g, s, p) && s.log.broadcasts <= t.log.broadcasts
    ensures PastDelivered(g, t, p)
  {
    assert t.log.broadcasts[p.since..p.until.value] == s.log.broadcasts[p.since..p.until.value];
  }

  lemma DeliveredAfterReceive(g: Config, s: State, t: State, w: Wsi, f: Fragment)
    requires Delivered(g, s) && ReceiveEffect(s, t, w, f)
    ensures Delivered(g, t)
  {
    ReceiveKeepsSessions(s, t, w, f);
    ReceiveKeepsPeers(s, t, w, f);
    DeliveredFrame(g, s, t);
  }

  lemma DeliveredStep(g: Config, s: State, a: Action)
    requires Coherent(g, s) && Delivered(g, s) && Step(g, s, a).Some?
    ensures Delivered(g, Step(g, s, a).value)
  {
    if a.Establish? { DeliveredEstablish(g, s, a.wsi); }
    else if a.Close? { DeliveredClose(g, s, a.wsi); }
    else if a.Receive? {
      ReceiveFrame(g, s, a.wsi, a.fragment);
      DeliveredAfterReceive(g, s, Step(g, s, a).value, a.wsi, a.fragment);
    }
    else if a.WireWrite? && a.ok { DeliveredSend(g, s); }
    else if a.WritePop? { DeliveredPop(g, s); }
    else if a.Push? { DeliveredPush(g, s); }
    else {
      QuietFrame(g, s, a);
      DeliveredFrame(g, s, Step(g, s, a).value);
    }
  }

  lemma {:induction false} DeliveredRun(g: Config, acts: seq<Action>, s: State)
    requires Exec(g, START, acts) == Some(s)
    ensures Coherent(g, s) && Delivered(g, s)
  {
    CoherentRun(g, acts, s);
    if acts != [] {
      var before := Exec(g, START, acts[..|acts| - 1]).value;
      DeliveredRun(g, acts[..|acts| - 1], before);
      DeliveredStep(g, before, acts[|acts| - 1]);
    }
  }

  /** In every interleaving, the frames written to a live session followed by its unsent queue are
      exactly the payloads broadcast since it was established that its topic takes, in order. */
  lemma ExactlyOnceInOrder(g: Config, s: State, w: Wsi)
    requires Reachable(g, s) && w in s.ws.sessions
    ensures w in s.log.live && s.log.live[w].since <= |s.log.broadcasts|
    ensures s.log.live[w].topic == s.ws.sessions[w].topic
    ensures s.log.live[w].frames + Unsent(s, w)
            == Payloads(g.codec, s.log.broadcasts[s.log.live[w].since..], s.ws.sessions[w].topic)
  {
    var acts :| Exec(g, START, acts) == Some(s);
    DeliveredRun(g, acts, s);
    assert SessionCoherent(g, s, w) && LiveDelivered(g, s, w);
  }

  /** The same without the word `Payloads`: position by position, what was written and what is queued are the
      printed bodies of exactly the messages broadcast since then on the session's topic, or of all of them
      if it is `_all`. */
  lemma DeliveredExactlyTheTaken(g: Config, s: State, w: Wsi) returns (picked: seq<nat>)
    requires Reachable(g, s) && w in s.ws.sessions
    ensures w in s.log.live && s.log.live[w].since <= |s.log.broadcasts|
    ensures var since := s.log.broadcasts[s.log.live[w].since..];
            && Lists(picked, set i: nat | i < |since|
                                          && (s.ws.sessions[w].topic == "_all" || s.ws.sessions[w].topic == since[i].topic))
            && PrintsOf(g.codec, since, picked, s.log.live[w].frames + Unsent(s, w))
  {
    ExactlyOnceInOrder(g, s, w);
    var since := s.log.broadcasts[s.log.live[w].since..];
    picked := PayloadsListTheTaken(g.codec, since, s.ws.sessions[w].topic);
    assert TakenAt(since, s.ws.sessions[w].topic)
        == set i: nat | i < |since| && (s.ws.sessions[w].topic == "_all" || s.ws.sessions[w].topic == since[i].topic);
  }

  /** A session on `_all` gets every broadcast. */
  lemma AllSubscribersGetEverything(g: Config, s: State, w: Wsi)
    requires Reachable(g, s) && w in s.ws.sessions && s.ws.sessions[w].topic == "_all"
    ensures w in s.log.live && s.log.live[w].since <= |s.log.broadcasts|
    ensures var since := s.log.broadcasts[s.log.live[w].since..];
            s.log.live[w].frames + Unsent(s, w) == seq(|since|, i requires 0 <= i < |since| => g.codec.dump(since[i].body))
  {
    ExactlyOnceInOrder(g, s, w);
    AllIsOwedEverything(g.codec, s.log.broadcasts[s.log.live[w].since..]);
  }

  /** A connection that has ended was written a prefix of what was broadcast while it lasted. */
  lemma ClosedConnectionsGotAPrefix(g: Config, s: State, p: Peer)
    requires Reachable(g, s) && p in s.log.past
    ensures p.until.Some? && p.since <= p.until.value <= |s.log.broadcasts|
    ensures p.frames <= Payloads(g.codec, s.log.broadcasts[p.since..p.until.value], p.topic)
  {
    var acts :| Exec(g, START, acts) == Some(s);
    DeliveredRun(g, acts, s);
    var i: nat :| i < |s.log.past| && s.log.past[i] == p;
    assert PastDelivered(g, s, s.log.past[i]);
  }

  /** Whatever was pushed between the peek and the pop, the frame popped is the frame written. */
  lemma PoppedFrameIsWrittenFrame(g: Config, s: State)
    requires Reachable(g, s) && s.service.Sent?
    ensures var w, frame := s.service.wsi, s.service.frame;
            var t := DoWritePop(s).value;
            && w in s.ws.sessions && w in t.ws.sessions
            && s.ws.sessions[w].tx == [frame] + t.ws.sessions[w].tx
            && t.ws.written == s.ws.written + 1
  {
    var acts :| Exec(g, START, acts) == Some(s);
    CoherentRun(g, acts, s);
    PopDropsHead(s);
  }

  lemma PopDropsHead(s: State)
    requires ServiceCoherent(s) && s.service.Sent?
    ensures var w, frame := s.service.wsi, s.service.frame;
            var t := DoWritePop(s).value;
            && w in s.ws.sessions && w in t.ws.sessions
            && s.ws.sessions[w].tx == [frame] + t.ws.sessions[w].tx
            && t.ws.written == s.ws.written + 1
  {}
}
