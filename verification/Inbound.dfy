/** What clients send arrives whole, in order, and tagged with their topic, however it is cut. */
module Inbound {
  import opened Common
  import opened Reassembly
  import opened Transport
  import opened Engine
  import opened Coherence

  /** The messages that arrived from connection `id`, in order. */
  function From(arrivals: seq<Arrival>, id: nat): seq<Message> {
    if arrivals == [] then []
    else
      var a := arrivals[|arrivals| - 1];
      From(arrivals[..|arrivals| - 1], id) + (if a.peer == id then [a.message] else [])
  }

  lemma FromSnoc(arrivals: seq<Arrival>, a: Arrival, id: nat)
    ensures From(arrivals + [a], id) == From(arrivals, id) + (if a.peer == id then [a.message] else [])
  {
    assert (arrivals + [a])[..|arrivals|] == arrivals;
  }

  lemma {:induction false} FromNobody(arrivals: seq<Arrival>, id: nat)
    requires forall i :: 0 <= i < |arrivals| ==> arrivals[i].peer != id
    ensures From(arrivals, id) == []
  {
    if arrivals != [] {
      FromNobody(arrivals[..|arrivals| - 1], id);
    }
  }

  /** Everything that arrived from a connection is the parse of its whole messages. */
  predicate PeerRead(g: Config, s: State, p: Peer) {
    From(s.log.arrivals, p.id) == Parsed(g.codec, p.topic, Messages(p.fragments))
  }

  /** The receive buffer holds the unfinished message; after a message that is not JSON it holds that
      message, and the connection is closing. */
  predicate BufferRead(c: Codec, rx: string, fragments: seq<Fragment>, live: bool) {
    var texts := Messages(fragments);
    if AllParse(c, texts) then rx == Tail(fragments)
    else !live && AllParse(c, texts[..|texts| - 1]) && rx == texts[|texts| - 1]
  }

  predicate SessionRead(g: Config, s: State, w: Wsi)
    requires w in s.ws.sessions
  {
    && w in s.log.live && w in s.net.conns
    && PeerRead(g, s, s.log.live[w])
    && BufferRead(g.codec, s.ws.sessions[w].rx, s.log.live[w].fragments, s.net.conns[w].phase.Live?)
  }

  predicate AllRead(g: Config, s: State) {
    && DistinctIds(s.log)
    && (forall i :: 0 <= i < |s.log.arrivals| ==> s.log.arrivals[i].peer < s.ws.accepted)
    && (forall w :: w in s.ws.sessions ==> SessionRead(g, s, w))
    && (forall i: nat :: i < |s.log.past| ==> PeerRead(g, s, s.log.past[i]))
  }

  predicate SameBuffers(a: map<Wsi, Session>, b: map<Wsi, Session>) {
    a.Keys == b.Keys && forall w :: w in a ==> b[w].rx == a[w].rx
  }

  predicate SameFragments(a: map<Wsi, Peer>, b: map<Wsi, Peer>) {
    a.Keys == b.Keys && forall w :: w in a ==> SamePeer(a[w], b[w]) && b[w].fragments == a[w].fragments
  }

  /** The connections of `sessions` are still there; one that was closing is not live again. */
  predicate StillConnected(sessions: map<Wsi, Session>, a: map<Wsi, Conn>, b: map<Wsi, Conn>) {
    forall w :: w in sessions ==> w in a && w in b && (b[w].phase.Live? ==> a[w].phase.Live?)
  }

  /** `t` holds the same connections with the same receive buffers, fragments and arrivals. */
  predicate SameInbound(s: State, t: State) {
    && t.log.arrivals == s.log.arrivals && t.log.past == s.log.past && t.ws.accepted == s.ws.accepted
    && SameBuffers(s.ws.sessions, t.ws.sessions) && SameFragments(s.log.live, t.log.live)
    && StillConnected(s.ws.sessions, s.net.conns, t.net.conns)
  }

  lemma AddFrameKeepsFragments(log: Log, w: Wsi, frame: string)
    ensures SameFragments(log.live, AddFrame(log, w, frame).live)
  {}

  lemma WrittenKeepsBuffers(sh: Shared, w: Wsi)
    ensures SameBuffers(sh.sessions, Written(sh, w).0.sessions)
  {}

  lemma EnqueueAllKeepsBuffers(sessions: map<Wsi, Session>, topic: string, frame: string)
    ensures SameBuffers(sessions, EnqueueAll(sessions, topic, frame))
  {}

  lemma ClosingKeepsConnected(sessions: map<Wsi, Session>, net: Net, w: Wsi)
    requires forall v :: v in sessions ==> v in net.conns
    ensures StillConnected(sessions, net.conns, SetPhase(net, w, Closing).conns)
  {}

  lemma WireWriteKeepsInbound(g: Config, s: State, ok: bool)
    requires Coherent(g, s) && DoWireWrite(s, ok).Some?
    ensures SameInbound(s, DoWireWrite(s, ok).value)
  {
    SessionsConnected(g, s);
    AddFrameKeepsFragments(s.log, s.service.wsi, s.service.frame);
    ClosingKeepsConnected(s.ws.sessions, s.net, s.service.wsi);
  }

  lemma WritePopKeepsInbound(g: Config, s: State)
    requires Coherent(g, s) && DoWritePop(s).Some?
    ensures SameInbound(s, DoWritePop(s).value)
  {
    SessionsConnected(g, s);
    WrittenKeepsBuffers(s.ws, s.service.wsi);
  }

  lemma PushKeepsInbound(g: Config, s: State)
    requires Coherent(g, s) && DoPush(g, s).Some?
    ensures SameInbound(s, DoPush(g, s).value)
  {
    SessionsConnected(g, s);
    EnqueueAllKeepsBuffers(s.ws.sessions, s.bridge.message.topic, g.codec.dump(s.bridge.message.body));
  }

  lemma SameSessionsSameInbound(g: Config, s: State, t: State)
    requires Coherent(g, s)
    requires t.log.arrivals == s.log.arrivals && t.log.past == s.log.past && t.ws.accepted == s.ws.accepted
    requires t.ws.sessions == s.ws.sessions && t.log.live == s.log.live
    requires forall w :: w in s.net.conns && !s.net.conns[w].phase.Handshake? ==>
               w in t.net.conns && t.net.conns[w] == s.net.conns[w]
    ensures SameInbound(s, t)
  {
    SessionsConnected(g, s);
  }

  lemma QuietKeepsInbound(g: Config, s: State, a: Action)
    requires Coherent(g, s) && IsQuiet(a) && !a.WireWrite? && Step(g, s, a).Some?
    ensures SameInbound(s, Step(g, s, a).value)
  {
    QuietFrame(g, s, a);
    QuietConns(g, s, a);
    SameSessionsSameInbound(g, s, Step(g, s, a).value);
  }

  lemma QuietConns(g: Config, s: State, a: Action)
    requires IsQuiet(a) && !a.WireWrite? && Step(g, s, a).Some?
    ensures var t := Step(g, s, a).value;
            forall w :: w in s.net.conns && !s.net.conns[w].phase.Handshake? ==>
              w in t.net.conns && t.net.conns[w] == s.net.conns[w]
  {
    if !IsService(a) {
      BridgeFrame(g, s, a);
    }
  }

  lemma ReadFrame(g: Config, s: State, t: State)
    requires AllRead(g, s) && SameInbound(s, t)
    ensures AllRead(g, t)
  {
    forall w | w in t.ws.sessions ensures SessionRead(g, t, w) {
      assert SessionRead(g, s, w);
    }
    forall i: nat | i < |t.log.past| ensures PeerRead(g, t, t.log.past[i]) {
      assert PeerRead(g, s, s.log.past[i]);
    }
  }

  lemma ReadEstablish(g: Config, s: State, w: Wsi)
    requires Coherent(g, s) && AllRead(g, s) && DoEstablish(g, s, w).Some?
    ensures AllRead(g, DoEstablish(g, s, w).value)
  {
    var t := DoEstablish(g, s, w).value;
    assert w in s.ws.sessions ==> SessionCoherent(g, s, w);
    FromNobody(s.log.arrivals, s.ws.accepted);
    forall v | v in t.ws.sessions ensures SessionRead(g, t, v) {
      if v != w { assert SessionRead(g, s, v); }
    }
    forall i: nat | i < |t.log.past| ensures PeerRead(g, t, t.log.past[i]) {
      assert PeerRead(g, s, s.log.past[i]);
    }
    DistinctAfterEstablish(g, s, w);
  }

  lemma DistinctAfterEstablish(g: Config, s: State, w: Wsi)
    requires Coherent(g, s) && DistinctIds(s.log) && DoEstablish(g, s, w).Some?
    ensures DistinctIds(DoEstablish(g, s, w).value.log)
  {
    SessionsConnected(g, s);
    forall i: nat | i < |s.log.past| ensures s.log.past[i].id < s.ws.accepted {
      assert PastCoherent(s, i);
    }
  }

  lemma ReadClose(g: Config, s: State, w: Wsi)
    requires Coherent(g, s) && AllRead(g, s) && DoClose(s, w).Some?
    ensures AllRead(g, DoClose(s, w).value)
  {
    var t := DoClose(s, w).value;
    assert SessionCoherent(g, s, w) && SessionRead(g, s, w);
    forall v | v in t.ws.sessions ensures SessionRead(g, t, v) {
      ReadCloseOther(g, s, w, v);
    }
    forall i: nat | i < |t.log.past| ensures PeerRead(g, t, t.log.past[i]) {
      if i < |s.log.past| { assert PeerRead(g, s, s.log.past[i]); } else { ClosedPeerRead(g, s, w); }
    }
    DistinctAfterEnd(s.log, w, |s.ws.sessions[w].tx|);
  }

  lemma ClosedPeerRead(g: Config, s: State, w: Wsi)
    requires w in s.log.live && PeerRead(g, s, s.log.live[w]) && DoClose(s, w).Some?
    ensures var t := DoClose(s, w).value;
            |t.log.past| == |s.log.past| + 1 && PeerRead(g, t, t.log.past[|s.log.past|])
  {}

  lemma ReadCloseOther(g: Config, s: State, w: Wsi, v: Wsi)
    requires Coherent(g, s) && AllRead(g, s) && DoClose(s, w).Some? && v in DoClose(s, w).value.ws.sessions
    ensures SessionRead(g, DoClose(s, w).value, v)
  {
    assert SessionRead(g, s, v);
  }

  lemma DistinctAfterEnd(log: Log, w: Wsi, discarded: nat)
    requires DistinctIds(log) && w in log.live
    ensures DistinctIds(EndPeer(log, w, discarded))
  {}

  /** One fragment, seen by its own connection. */
  lemma BufferAfterFragment(c: Codec, topic: string, rx: string, fs: seq<Fragment>, f: Fragment)
    requires BufferRead(c, rx, fs, true)
    ensures var texts := Messages(fs + [f]);
            && (!f.last ==> texts == Messages(fs) && BufferRead(c, rx + f.text, fs + [f], true))
            && (f.last ==>
                 && texts == Messages(fs) + [rx + f.text]
                 && (c.parse(rx + f.text).Some? ==> BufferRead(c, "", fs + [f], true))
                 && (c.parse(rx + f.text).None? ==> BufferRead(c, rx + f.text, fs + [f], false)))
            && Parsed(c, topic, texts)
               == Parsed(c, topic, Messages(fs))
                  + (if f.last && c.parse(rx + f.text).Some? then [Message(topic, c.parse(rx + f.text).value)] else [])
  {
    var whole := Messages(fs);
    assert (fs + [f])[..|fs|] == fs;
    if f.last {
      var text := rx + f.text;
      assert Messages(fs + [f]) == whole + [text];
      ParsedSnoc(c, topic, whole, text);
      assert (whole + [text])[|whole|] == text;
      assert (whole + [text])[..|whole|] == whole;
      assert c.parse(text).Some? ==> AllParse(c, whole + [text]);
    }
  }

  /** What arrived from a connection, and its buffer, after one more fragment from it. */
  lemma FragmentRead(c: Codec, arrivals: seq<Arrival>, p: Peer, rx: string, f: Fragment, arrived: Option<Message>)
    requires From(arrivals, p.id) == Parsed(c, p.topic, Messages(p.fragments)) && BufferRead(c, rx, p.fragments, true)
    requires arrived == if f.last && c.parse(rx + f.text).Some? then Some(Message(p.topic, c.parse(rx + f.text).value)) else None
    ensures From(if arrived.Some? then arrivals + [Arrival(p.id, arrived.value)] else arrivals, p.id)
            == Parsed(c, p.topic, Messages(p.fragments + [f]))
    ensures !f.last ==> BufferRead(c, rx + f.text, p.fragments + [f], true)
    ensures arrived.Some? ==> BufferRead(c, "", p.fragments + [f], true)
    ensures f.last && arrived.None? ==> BufferRead(c, rx + f.text, p.fragments + [f], false)
  {
    BufferAfterFragment(c, p.topic, rx, p.fragments, f);
    if arrived.Some? {
      FromSnoc(arrivals, Arrival(p.id, arrived.value), p.id);
    }
  }

  lemma ReadReceiveSelf(g: Config, s: State, w: Wsi, f: Fragment)
    requires Coherent(g, s) && AllRead(g, s) && DoReceive(g, s, w, f).Some?
    ensures w in DoReceive(g, s, w, f).value.ws.sessions && SessionRead(g, DoReceive(g, s, w, f).value, w)
  {
    assert SessionCoherent(g, s, w) && SessionRead(g, s, w);
    ReceiveAtOne(g, s, w, f);
  }

  lemma ReceiveAtOne(g: Config, s: State, w: Wsi, f: Fragment)
    requires DoReceive(g, s, w, f).Some? && w in s.ws.sessions && SessionRead(g, s, w)
    requires s.log.live[w].topic == s.ws.sessions[w].topic
    ensures w in DoReceive(g, s, w, f).value.ws.sessions && SessionRead(g, DoReceive(g, s, w, f).value, w)
  {
    var p, rx := s.log.live[w], s.ws.sessions[w].rx;
    FragmentRead(g.codec, s.log.arrivals, p, rx, f, Received(g.codec, s.ws, w, f).arrived);
  }

  lemma ArrivalsAfterReceive(g: Config, s: State, w: Wsi, f: Fragment, id: nat)
    requires DoReceive(g, s, w, f).Some? && w in s.log.live && s.log.live[w].id != id
    ensures From(DoReceive(g, s, w, f).value.log.arrivals, id) == From(s.log.arrivals, id)
  {
    var r := Received(g.codec, s.ws, w, f);
    if r.arrived.Some? {
      FromSnoc(s.log.arrivals, Arrival(s.log.live[w].id, r.arrived.value), id);
    }
  }

  lemma ArrivalIds(g: Config, s: State, w: Wsi, f: Fragment)
    requires DoReceive(g, s, w, f).Some? && w in s.log.live && s.log.live[w].id < s.ws.accepted
    requires forall i :: 0 <= i < |s.log.arrivals| ==> s.log.arrivals[i].peer < s.ws.accepted
    ensures var t := DoReceive(g, s, w, f).value;
            forall i :: 0 <= i < |t.log.arrivals| ==> t.log.arrivals[i].peer < s.ws.accepted
  {}

  lemma ReadReceiveOther(g: Config, s: State, w: Wsi, f: Fragment, v: Wsi)
    requires Coherent(g, s) && AllRead(g, s) && DoReceive(g, s, w, f).Some? && v in s.ws.sessions && v != w
    ensures v in DoReceive(g, s, w, f).value.ws.sessions && SessionRead(g, DoReceive(g, s, w, f).value, v)
  {
    assert SessionCoherent(g, s, w) && SessionRead(g, s, v);
    ArrivalsAfterReceive(g, s, w, f, s.log.live[v].id);
    ReceiveFrame(g, s, w, f);
  }

  lemma ReadReceive(g: Config, s: State, w: Wsi, f: Fragment)
    requires Coherent(g, s) && AllRead(g, s) && DoReceive(g, s, w, f).Some?
    ensures AllRead(g, DoReceive(g, s, w, f).value)
  {
    var t := DoReceive(g, s, w, f).value;
    assert SessionCoherent(g, s, w);
    ReceiveFrame(g, s, w, f);
    ArrivalIds(g, s, w, f);
    forall v | v in t.ws.sessions ensures SessionRead(g, t, v) {
      if v == w { ReadReceiveSelf(g, s, w, f); } else { ReadReceiveOther(g, s, w, f, v); }
    }
    forall i: nat | i < |t.log.past| ensures PeerRead(g, t, t.log.past[i]) {
      ReadReceivePast(g, s, w, f, i);
    }
    DistinctAfterReceive(s, t, w, f);
  }

  lemma ReadReceivePast(g: Config, s: State, w: Wsi, f: Fragment, i: nat)
    requires Coherent(g, s) && AllRead(g, s) && DoReceive(g, s, w, f).Some? && i < |s.log.past|
    ensures PeerRead(g, DoReceive(g, s, w, f).value, s.log.past[i])
  {
    assert SessionCoherent(g, s, w);
    assert PeerRead(g, s, s.log.past[i]);
    ArrivalsAfterReceive(g, s, w, f, s.log.past[i].id);
  }

  lemma DistinctAfterReceive(s: State, t: State, w: Wsi, f: Fragment)
    requires DistinctIds(s.log) && ReceiveEffect(s, t, w, f)
    ensures DistinctIds(t.log)
  {}

  lemma ReadStep(g: Config, s: State, a: Action)
    requires Coherent(g, s) && AllRead(g, s) && Step(g, s, a).Some?
    ensures AllRead(g, Step(g, s, a).value)
  {
    var t := Step(g, s, a).value;
    if a.Establish? { ReadEstablish(g, s, a.wsi); }
    else if a.Close? { ReadClose(g, s, a.wsi); }
    else if a.Receive? { ReadReceive(g, s, a.wsi, a.fragment); }
    else {
      if a.WireWrite? { WireWriteKeepsInbound(g, s, a.ok); }
      else if a.WritePop? { WritePopKeepsInbound(g, s); }
      else if a.Push? { PushKeepsInbound(g, s); }
      else { QuietKeepsInbound(g, s, a); }
      ReadFrame(g, s, t);
    }
  }

  lemma {:induction false} ReadRun(g: Config, acts: seq<Action>, s: State)
    requires Exec(g, START, acts) == Some(s)
    ensures Coherent(g, s) && AllRead(g, s)
  {
    CoherentRun(g, acts, s);
    if acts != [] {
      var before := Exec(g, START, acts[..|acts| - 1]).value;
      ReadRun(g, acts[..|acts| - 1], before);
      ReadStep(g, before, acts[|acts| - 1]);
    }
  }

  /** For a live connection, in every interleaving with the others: what arrived from it is the parse
      of each of its whole messages, tagged with its topic, in order, and the buffer is the rest. */
  lemma InboundIsWholeMessages(g: Config, s: State, w: Wsi)
    requires Reachable(g, s) && w in s.net.conns && s.net.conns[w].phase.Live?
    ensures w in s.ws.sessions && w in s.log.live
    ensures var p, texts := s.log.live[w], Messages(s.log.live[w].fragments);
            var got := From(s.log.arrivals, p.id);
            && |got| == |texts|
            && (forall i :: 0 <= i < |texts| ==>
                  g.codec.parse(texts[i]).Some? && got[i] == Message(s.ws.sessions[w].topic, g.codec.parse(texts[i]).value))
            && s.ws.sessions[w].rx == Tail(p.fragments)
  {
    var acts :| Exec(g, START, acts) == Some(s);
    ReadRun(g, acts, s);
    assert SessionCoherent(g, s, w) && SessionRead(g, s, w);
    ParsedAll(g.codec, s.log.live[w].topic, Messages(s.log.live[w].fragments));
  }

  /** Two live connections on one topic whose clients sent the same messages, cut differently and
      interleaved differently, have had the same messages delivered and hold the same unfinished text. */
  lemma CuttingDoesNotMatter(
      g: Config, s: State, t: State, v: Wsi, w: Wsi,
      a: seq<seq<string>>, b: seq<seq<string>>, moreA: seq<string>, moreB: seq<string>)
    requires Reachable(g, s) && v in s.net.conns && s.net.conns[v].phase.Live? && v in s.log.live && v in s.ws.sessions
    requires Reachable(g, t) && w in t.net.conns && t.net.conns[w].phase.Live? && w in t.log.live && w in t.ws.sessions
    requires forall i :: 0 <= i < |a| ==> a[i] != []
    requires forall i :: 0 <= i < |b| ==> b[i] != []
    requires s.log.live[v].fragments == CutAll(a) + Open(moreA)
    requires t.log.live[w].fragments == CutAll(b) + Open(moreB)
    requires Wholes(a) == Wholes(b) && Concat(moreA) == Concat(moreB)
    requires s.ws.sessions[v].topic == t.ws.sessions[w].topic
    ensures From(s.log.arrivals, s.log.live[v].id) == From(t.log.arrivals, t.log.live[w].id)
    ensures s.ws.sessions[v].rx == t.ws.sessions[w].rx
  {
    CutsAreInvisible(a, moreA);
    CutsAreInvisible(b, moreB);
    InboundIsWholeMessages(g, s, v);
    InboundIsWholeMessages(g, t, w);
  }
}
