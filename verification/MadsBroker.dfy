/** The MADS side of the bridge: `MadsTransport` and what it takes from its agent. */
module MadsBroker {
  import opened Common

  /** One `receive` of the agent: a JSON message, anything else, or an exception. */
  datatype Receipt = Heard(topic: string, payload: string) | Quiet | Fault

  datatype Mads = Mads(
    started: bool,
    healthy: bool,
    shouldStop: bool,
    queue: seq<Message>,
    received: nat,
    published: nat)

  const STARTED := Mads(true, true, false, [], 0, 0)

  /** The receive loop; an exhausted list of receipts reads as quiet. */
  function PollLoop(c: Codec, m: Mads, rs: seq<Receipt>, running: bool): Mads
    decreases |rs|
  {
    if rs == [] || rs[0].Quiet? then m.(shouldStop := m.shouldStop || !running)
    else if rs[0].Fault? then m.(healthy := false)
    else if rs[0].topic == CONTROL_TOPIC then PollLoop(c, m, rs[1..], running)
    else match c.parse(rs[0].payload)
      case None => m.(healthy := false)
      case Some(body) =>
        PollLoop(c, m.(queue := m.queue + [Message(rs[0].topic, body)], received := m.received + 1), rs[1..], running)
  }

  function Poll(c: Codec, m: Mads, rs: seq<Receipt>, running: bool): Mads {
    if !m.started || !m.healthy then m else PollLoop(c, m, rs, running)
  }

  function Publish(m: Mads, threw: bool): (Mads, bool) {
    if !m.started || !m.healthy then (m, false)
    else if threw then (m.(healthy := false), false)
    else (m.(published := m.published + 1), true)
  }

  function Pop(m: Mads): (Mads, Option<Message>) {
    if m.queue == [] then (m, None) else (m.(queue := m.queue[1..]), Some(m.queue[0]))
  }

  // ---- What polling means -------------------------------------------------

  /** The JSON receipts the loop takes: up to the first quiet or faulty one, or up to and including
      the first whose payload is not JSON. */
  function Consumed(c: Codec, rs: seq<Receipt>): seq<Receipt> {
    if rs == [] || !rs[0].Heard? then []
    else if rs[0].topic != CONTROL_TOPIC && c.parse(rs[0].payload).None? then [rs[0]]
    else [rs[0]] + Consumed(c, rs[1..])
  }

  /** What one receipt amounts to: nothing, unless it is JSON on a topic other than `control`. */
  function Route(c: Codec, r: Receipt): seq<Message> {
    if r.Heard? && r.topic != CONTROL_TOPIC && c.parse(r.payload).Some?
    then [Message(r.topic, c.parse(r.payload).value)] else []
  }

  function Routed(c: Codec, heard: seq<Receipt>): seq<Message> {
    if heard == [] then [] else Route(c, heard[0]) + Routed(c, heard[1..])
  }

  /** The loop goes on after receipt `r`: a control message, or JSON on another topic. */
  predicate Goes(c: Codec, r: Receipt) {
    r.Heard? && (r.topic == "control" || c.parse(r.payload).Some?)
  }

  /** The first receipt after which it does not go on, or the end of the list. */
  function FirstStop(c: Codec, rs: seq<Receipt>): (k: nat)
    ensures k <= |rs|
    ensures forall i :: 0 <= i < k ==> Goes(c, rs[i])
    ensures k < |rs| ==> !Goes(c, rs[k])
  {
    if rs == [] || !Goes(c, rs[0]) then 0 else 1 + FirstStop(c, rs[1..])
  }

  /** The loop ends because nothing more is there, and not by an exception. */
  predicate EndsQuietly(c: Codec, rs: seq<Receipt>) {
    var k := FirstStop(c, rs);
    k == |rs| || rs[k].Quiet?
  }

  lemma {:induction false} PollLoopHealth(c: Codec, m: Mads, rs: seq<Receipt>, running: bool)
    ensures var after := PollLoop(c, m, rs, running);
            && (after.healthy <==> m.healthy && EndsQuietly(c, rs))
            && (after.shouldStop <==> m.shouldStop || (!running && EndsQuietly(c, rs)))
            && after.started == m.started && after.published == m.published
    decreases |rs|
  {
    if rs != [] && Goes(c, rs[0]) {
      var next := m.(queue := m.queue + Route(c, rs[0]), received := m.received + |Route(c, rs[0])|);
      PollLoopHealth(c, next, rs[1..], running);
      assert m.queue + [] == m.queue;
      assert PollLoop(c, m, rs, running) == PollLoop(c, next, rs[1..], running);
    }
  }

  /** What is routed of what the loop takes is what is routed of what it goes on after. */
  lemma {:induction false} RoutedUpToStop(c: Codec, rs: seq<Receipt>)
    ensures Routed(c, Consumed(c, rs)) == Routed(c, rs[..FirstStop(c, rs)])
  {
    if rs != [] && Goes(c, rs[0]) {
      var k := FirstStop(c, rs);
      RoutedUpToStop(c, rs[1..]);
      assert Consumed(c, rs)[1..] == Consumed(c, rs[1..]);
      assert rs[..k][1..] == rs[1..][..k - 1] && rs[..k][0] == rs[0];
    } else if rs != [] && rs[0].Heard? {
      assert Consumed(c, rs) == [rs[0]] && Routed(c, [rs[0]]) == Route(c, rs[0]) + Routed(c, []);
    }
  }

  /** Where `heard` has something other than a control message. */
  function OthersAt(heard: seq<Receipt>): set<nat> {
    set i: nat | i < |heard| && heard[i].Heard? && heard[i].topic != "control"
  }

  /** `messages` are what was heard at `picked`: each with its topic and its parsed payload. */
  predicate MessagesOf(c: Codec, heard: seq<Receipt>, picked: seq<nat>, messages: seq<Message>) {
    && |picked| == |messages|
    && forall k :: 0 <= k < |picked| ==>
         && picked[k] < |heard| && heard[picked[k]].Heard? && messages[k].topic == heard[picked[k]].topic
         && c.parse(heard[picked[k]].payload) == Some(messages[k].body)
  }

  lemma MessagesOfNext(c: Codec, heard: seq<Receipt>, r: Receipt, picked: seq<nat>, messages: seq<Message>)
    requires MessagesOf(c, heard, picked, messages)
    ensures MessagesOf(c, heard + [r], picked, messages)
    ensures r.Heard? && c.parse(r.payload).Some? ==>
              MessagesOf(c, heard + [r], picked + [|heard|], messages + [Message(r.topic, c.parse(r.payload).value)])
  {}

  lemma OthersNext(heard: seq<Receipt>, r: Receipt)
    ensures OthersAt(heard + [r])
            == if r.Heard? && r.topic != "control" then OthersAt(heard) + {|heard|} else OthersAt(heard)
  {}

  /** What is routed of receipts the loop goes on after: those not on the topic `control`, in order. */
  lemma {:induction false} RoutedListsTheOthers(c: Codec, heard: seq<Receipt>) returns (picked: seq<nat>)
    requires forall i :: 0 <= i < |heard| ==> Goes(c, heard[i])
    ensures Lists(picked, OthersAt(heard)) && MessagesOf(c, heard, picked, Routed(c, heard))
  {
    if heard == [] {
      picked := [];
    } else {
      var before, r := heard[..|heard| - 1], heard[|heard| - 1];
      assert heard == before + [r];
      var start := RoutedListsTheOthers(c, before);
      OthersNext(before, r);
      MessagesOfNext(c, before, r, start, Routed(c, before));
      RoutedSnoc(c, before, r);
      if r.topic == "control" {
        picked := start;
      } else {
        picked := start + [|before|];
        ListsNext(start, OthersAt(before), |before|);
      }
    }
  }

  lemma RoutedSnoc(c: Codec, heard: seq<Receipt>, r: Receipt)
    requires Goes(c, r)
    ensures Routed(c, heard + [r])
            == if r.topic == "control" then Routed(c, heard)
               else Routed(c, heard) + [Message(r.topic, c.parse(r.payload).value)]
  {
    RoutedAppend(c, heard, [r]);
    assert Routed(c, [r]) == Route(c, r) + Routed(c, []);
  }

  lemma {:induction false} PollLoopMeaning(c: Codec, m: Mads, rs: seq<Receipt>, running: bool)
    ensures PollLoop(c, m, rs, running).queue == m.queue + Routed(c, Consumed(c, rs))
    ensures PollLoop(c, m, rs, running).received == m.received + |Routed(c, Consumed(c, rs))|
    decreases |rs|
  {
    var taken := Consumed(c, rs);
    if taken != [] {
      var r := rs[0];
      assert Routed(c, taken) == Route(c, r) + Routed(c, taken[1..]);
      if r.topic != CONTROL_TOPIC && c.parse(r.payload).None? {
        assert Routed(c, taken) == [];
      } else {
        assert taken[1..] == Consumed(c, rs[1..]);
        var next := m.(queue := m.queue + Route(c, r), received := m.received + |Route(c, r)|);
        PollLoopMeaning(c, next, rs[1..], running);
        assert m.queue + [] == m.queue;
        assert PollLoop(c, m, rs, running) == PollLoop(c, next, rs[1..], running);
        assert m.queue + (Route(c, r) + Routed(c, taken[1..])) == next.queue + Routed(c, taken[1..]);
      }
    }
  }

  /** What the engine needs to know of a poll. */
  lemma PollFrame(c: Codec, m: Mads, rs: seq<Receipt>, running: bool)
    ensures var after := Poll(c, m, rs, running);
            var heard := if m.started && m.healthy then Consumed(c, rs) else [];
            && after.queue == m.queue + Routed(c, heard)
            && after.received == m.received + |Routed(c, heard)|
            && after.started == m.started && after.published == m.published
            && (after.healthy ==> m.healthy) && (m.shouldStop ==> after.shouldStop)
  {
    PollLoopMeaning(c, m, rs, running);
    PollLoopHealth(c, m, rs, running);
  }

  /** Polling appends exactly the messages of the receipts it goes on after, and stops at the first other
      one. An exception there costs health; otherwise, and only then, it takes up a stop request. */
  lemma PollMeaning(c: Codec, m: Mads, rs: seq<Receipt>, running: bool)
    ensures var after := Poll(c, m, rs, running);
            if m.started && m.healthy then
              && after.queue == m.queue + Routed(c, rs[..FirstStop(c, rs)])
              && after.received == m.received + |Routed(c, rs[..FirstStop(c, rs)])|
              && (after.healthy <==> EndsQuietly(c, rs))
              && (after.shouldStop <==> m.shouldStop || (!running && EndsQuietly(c, rs)))
              && after.started && after.published == m.published
            else after == m
  {
    PollLoopMeaning(c, m, rs, running);
    PollLoopHealth(c, m, rs, running);
    RoutedUpToStop(c, rs);
  }

  lemma {:induction false} RoutedAppend(c: Codec, a: seq<Receipt>, b: seq<Receipt>)
    ensures Routed(c, a + b) == Routed(c, a) + Routed(c, b)
  {
    if a == [] {
      assert a + b == b;
    } else {
      assert (a + b)[1..] == a[1..] + b;
      RoutedAppend(c, a[1..], b);
    }
  }

  /** No message on `control` is ever routed. */
  lemma {:induction false} RoutedIsNeverControl(c: Codec, heard: seq<Receipt>)
    ensures forall i :: 0 <= i < |Routed(c, heard)| ==> Routed(c, heard)[i].topic != "control"
  {
    if heard != [] {
      RoutedIsNeverControl(c, heard[1..]);
    }
  }
}
