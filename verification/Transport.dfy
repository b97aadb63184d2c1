/** The WebSocket transport: what each critical section does to the state its two threads share. */
module Transport {
  import opened Common
  import opened Reassembly

  /** A connection handle. A handle may be used again once its connection has closed. */
  type Wsi = nat

  datatype Config = Config(basePath: string, codec: Codec)

  datatype Session = Session(topic: string, rx: string, tx: seq<string>)

  /** The fields of `WebSocketTransport::Impl` that its mutex guards, and its health flag. */
  datatype Shared = Shared(
    sessions: map<Wsi, Session>,
    inbound: seq<Message>,
    healthy: bool,
    accepted: nat,
    closed: nat,
    inboundFrames: nat,
    enqueued: nat,
    written: nat,
    countChanged: bool)

  const EMPTY := Shared(map[], [], true, 0, 0, 0, 0, 0, false)

  function Established(sh: Shared, w: Wsi, topic: Option<string>): Shared {
    match topic
    case None => sh.(healthy := false)
    case Some(t) =>
      sh.(sessions := if w in sh.sessions then sh.sessions else sh.sessions[w := Session(t, "", [])],
          accepted := sh.accepted + 1, countChanged := true)
  }

  function Closed(sh: Shared, w: Wsi): Shared {
    sh.(sessions := sh.sessions - {w}, closed := sh.closed + 1, countChanged := true)
  }

  /** What a RECEIVE callback does: the new state, the message it queued if any, and whether the
      connection is kept. */
  datatype Reception = Reception(shared: Shared, arrived: Option<Message>, keep: bool)

  function SetRx(sh: Shared, w: Wsi, rx: string): Shared
    requires w in sh.sessions
  {
    sh.(sessions := sh.sessions[w := sh.sessions[w].(rx := rx)])
  }

  function Received(c: Codec, sh: Shared, w: Wsi, f: Fragment): Reception {
    if w !in sh.sessions then Reception(sh, None, true)
    else
      var rx := sh.sessions[w].rx + f.text;
      if !f.last then Reception(SetRx(sh, w, rx), None, true)
      else match c.parse(rx)
        case None => Reception(SetRx(sh, w, rx).(healthy := false), None, false)
        case Some(body) =>
          var m := Message(sh.sessions[w].topic, body);
          Reception(SetRx(sh, w, "").(inbound := sh.inbound + [m], inboundFrames := sh.inboundFrames + 1), Some(m), true)
  }

  function Head(sh: Shared, w: Wsi): Option<string> {
    if w !in sh.sessions || sh.sessions[w].tx == [] then None else Some(sh.sessions[w].tx[0])
  }

  /** After a frame went out on `w`: the new state, and whether to ask for another turn. */
  function Written(sh: Shared, w: Wsi): (Shared, bool) {
    if w !in sh.sessions || sh.sessions[w].tx == [] then (sh, false)
    else
      var rest := sh.sessions[w].tx[1..];
      (sh.(sessions := sh.sessions[w := sh.sessions[w].(tx := rest)], written := sh.written + 1), rest != [])
  }

  function Backlogged(sessions: map<Wsi, Session>): set<Wsi> {
    set w | w in sessions && sessions[w].tx != []
  }

  function Takers(sessions: map<Wsi, Session>, topic: string): set<Wsi> {
    set w | w in sessions && Takes(sessions[w].topic, topic)
  }

  function Enqueue(session: Session, topic: string, frame: string): Session {
    if Takes(session.topic, topic) then session.(tx := session.tx + [frame]) else session
  }

  function EnqueueAll(sessions: map<Wsi, Session>, topic: string, frame: string): map<Wsi, Session> {
    map w | w in sessions :: Enqueue(sessions[w], topic, frame)
  }

  /** A broadcast under way: the sessions of `todo` are still to be visited. */
  ghost function PartlyEnqueued(sessions: map<Wsi, Session>, todo: set<Wsi>, topic: string, frame: string): map<Wsi, Session> {
    map w | w in sessions :: if w in todo then sessions[w] else Enqueue(sessions[w], topic, frame)
  }

  lemma EnqueueEnds(sessions: map<Wsi, Session>, topic: string, frame: string)
    ensures PartlyEnqueued(sessions, sessions.Keys, topic, frame) == sessions
    ensures PartlyEnqueued(sessions, {}, topic, frame) == EnqueueAll(sessions, topic, frame)
    ensures Takers(sessions, topic) - sessions.Keys == {}
    ensures Takers(sessions, topic) - {} == Takers(sessions, topic)
  {}

  lemma EnqueueOneMore(sessions: map<Wsi, Session>, todo: set<Wsi>, w: Wsi, topic: string, frame: string)
    requires w in todo && w in sessions
    ensures PartlyEnqueued(sessions, todo, topic, frame)[w] == sessions[w]
    ensures PartlyEnqueued(sessions, todo - {w}, topic, frame)
            == PartlyEnqueued(sessions, todo, topic, frame)[w := Enqueue(sessions[w], topic, frame)]
    ensures |Takers(sessions, topic) - (todo - {w})|
            == |Takers(sessions, topic) - todo| + if Takes(sessions[w].topic, topic) then 1 else 0
  {
    var done := if Takes(sessions[w].topic, topic) then {w} else {};
    assert Takers(sessions, topic) - (todo - {w}) == (Takers(sessions, topic) - todo) + done;
  }

  /** A broadcast reaches the sessions on `_all` and on the message's topic, and no others. */
  predicate ReachesExactly(before: map<Wsi, Session>, after: map<Wsi, Session>, topic: string, frame: string) {
    after.Keys == before.Keys && forall w :: w in before ==> ReachesRightly(before, after, w, topic, frame)
  }

  predicate ReachesRightly(before: map<Wsi, Session>, after: map<Wsi, Session>, w: Wsi, topic: string, frame: string) {
    && w in before && w in after
    && after[w] == if before[w].topic == "_all" || before[w].topic == topic then before[w].(tx := before[w].tx + [frame])
                   else before[w]
  }

  lemma EnqueueAllReaches(sessions: map<Wsi, Session>, topic: string, frame: string)
    ensures ReachesExactly(sessions, EnqueueAll(sessions, topic, frame), topic, frame)
  {}

  function Pushed(c: Codec, sh: Shared, m: Message): Shared {
    sh.(sessions := EnqueueAll(sh.sessions, m.topic, c.dump(m.body)),
        enqueued := sh.enqueued + |Takers(sh.sessions, m.topic)|)
  }

  function Popped(sh: Shared): (Shared, Option<Message>) {
    if sh.inbound == [] then (sh, None) else (sh.(inbound := sh.inbound[1..]), Some(sh.inbound[0]))
  }

  // ---- Frames waiting in all queues ---------------------------------------

  ghost function Pending(sessions: map<Wsi, Session>): nat
    decreases |sessions|
  {
    if sessions == map[] then 0
    else
      var w :| w in sessions;
      |sessions[w].tx| + Pending(sessions - {w})
  }

  lemma {:induction false} PendingWithout(sessions: map<Wsi, Session>, w: Wsi)
    requires w in sessions
    ensures Pending(sessions) == |sessions[w].tx| + Pending(sessions - {w})
    decreases |sessions|
  {
    var v :| v in sessions && Pending(sessions) == |sessions[v].tx| + Pending(sessions - {v});
    if v != w {
      PendingWithout(sessions - {v}, w);
      PendingWithout(sessions - {w}, v);
      assert (sessions - {v}) - {w} == (sessions - {w}) - {v};
    }
  }

  lemma PendingUpdate(sessions: map<Wsi, Session>, w: Wsi, session: Session)
    ensures Pending(sessions[w := session])
            == Pending(sessions) + |session.tx| - (if w in sessions then |sessions[w].tx| else 0)
  {
    PendingWithout(sessions[w := session], w);
    assert sessions[w := session] - {w} == sessions - {w};
    if w in sessions {
      PendingWithout(sessions, w);
    } else {
      assert sessions - {w} == sessions;
    }
  }

  /** A broadcast adds one waiting frame per session that takes it. */
  lemma {:induction false} PendingAfterPush(sessions: map<Wsi, Session>, topic: string, frame: string)
    ensures Pending(EnqueueAll(sessions, topic, frame)) == Pending(sessions) + |Takers(sessions, topic)|
    decreases |sessions|
  {
    var after := EnqueueAll(sessions, topic, frame);
    if sessions == map[] {
      assert after == map[];
      assert Takers(sessions, topic) == {};
    } else {
      var w :| w in sessions;
      var less := sessions - {w};
      PendingAfterPush(less, topic, frame);
      PendingWithout(sessions, w);
      PendingWithout(after, w);
      assert after - {w} == EnqueueAll(less, topic, frame);
      TakersWithout(sessions, w, topic);
    }
  }

  lemma TakersWithout(sessions: map<Wsi, Session>, w: Wsi, topic: string)
    requires w in sessions
    ensures |Takers(sessions, topic)|
            == |Takers(sessions - {w}, topic)| + (if Takes(sessions[w].topic, topic) then 1 else 0)
  {
    var here := if Takes(sessions[w].topic, topic) then {w} else {};
    assert Takers(sessions, topic) == Takers(sessions - {w}, topic) + here;
    assert Takers(sessions - {w}, topic) !! here;
  }
}
