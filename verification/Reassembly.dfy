/** How the transport turns WebSocket fragments into JSON messages, and JSON messages into frames. */
module Reassembly {
  import opened Common

  /** One RECEIVE callback: a piece of text, and whether it ends a message. */
  datatype Fragment = Fragment(text: string, last: bool)

  /** The unfinished message after the fragments received so far. */
  function Tail(fs: seq<Fragment>): string {
    if fs == [] || fs[|fs| - 1].last then ""
    else Tail(fs[..|fs| - 1]) + fs[|fs| - 1].text
  }

  /** The text of every whole message, in order. */
  function Messages(fs: seq<Fragment>): seq<string> {
    if fs == [] then []
    else
      var before, f := fs[..|fs| - 1], fs[|fs| - 1];
      if f.last then Messages(before) + [Tail(before) + f.text] else Messages(before)
  }

  // ---- Reassembly does not see the cuts -----------------------------------

  function Concat(pieces: seq<string>): string {
    if pieces == [] then "" else Concat(pieces[..|pieces| - 1]) + pieces[|pieces| - 1]
  }

  /** A message sent in the given non-empty list of pieces, only the last one marked as last. */
  function Cut(pieces: seq<string>): (fs: seq<Fragment>)
    ensures |fs| == |pieces|
  {
    seq(|pieces|, i requires 0 <= i < |pieces| => Fragment(pieces[i], i == |pieces| - 1))
  }

  function CutAll(messages: seq<seq<string>>): seq<Fragment> {
    if messages == [] then [] else CutAll(messages[..|messages| - 1]) + Cut(messages[|messages| - 1])
  }

  function Wholes(messages: seq<seq<string>>): (ts: seq<string>)
    ensures |ts| == |messages|
  {
    seq(|messages|, i requires 0 <= i < |messages| => Concat(messages[i]))
  }

  function Open(pieces: seq<string>): (fs: seq<Fragment>)
    ensures |fs| == |pieces|
  {
    seq(|pieces|, i requires 0 <= i < |pieces| => Fragment(pieces[i], false))
  }

  lemma {:induction false} OpenPiecesAccumulate(fs: seq<Fragment>, pieces: seq<string>)
    requires fs == [] || fs[|fs| - 1].last
    ensures Messages(fs + Open(pieces)) == Messages(fs)
    ensures Tail(fs + Open(pieces)) == Concat(pieces)
  {
    if pieces == [] {
      assert fs + Open(pieces) == fs;
    } else {
      var shorter := pieces[..|pieces| - 1];
      OpenPiecesAccumulate(fs, shorter);
      assert (fs + Open(pieces))[..|fs| + |pieces| - 1] == fs + Open(shorter);
    }
  }

  /** Any cutting of any messages reassembles to exactly those messages; what follows the last whole
      message is exactly what is held back. */
  lemma CutsAreInvisible(messages: seq<seq<string>>, unfinished: seq<string>)
    requires forall i :: 0 <= i < |messages| ==> messages[i] != []
    ensures Messages(CutAll(messages) + Open(unfinished)) == Wholes(messages)
    ensures Tail(CutAll(messages) + Open(unfinished)) == Concat(unfinished)
  {
    CutsEndCleanly(messages);
    OpenPiecesAccumulate(CutAll(messages), unfinished);
  }

  lemma {:induction false} CutsEndCleanly(messages: seq<seq<string>>)
    requires forall i :: 0 <= i < |messages| ==> messages[i] != []
    ensures var fs := CutAll(messages);
            && Messages(fs) == Wholes(messages)
            && (fs == [] || fs[|fs| - 1].last)
  {
    if messages != [] {
      var before, pieces := messages[..|messages| - 1], messages[|messages| - 1];
      CutsEndCleanly(before);
      CutAddsOneMessage(CutAll(before), pieces);
      assert Wholes(messages) == Wholes(before) + [Concat(pieces)];
    }
  }

  lemma CutAddsOneMessage(fs: seq<Fragment>, pieces: seq<string>)
    requires pieces != [] && (fs == [] || fs[|fs| - 1].last)
    ensures Messages(fs + Cut(pieces)) == Messages(fs) + [Concat(pieces)]
    ensures (fs + Cut(pieces))[|fs + Cut(pieces)| - 1].last
  {
    var unended := fs + Open(pieces[..|pieces| - 1]);
    var end := Fragment(pieces[|pieces| - 1], true);
    OpenPiecesAccumulate(fs, pieces[..|pieces| - 1]);
    assert fs + Cut(pieces) == unended + [end];
    MessageEnds(unended, end);
  }

  lemma MessageEnds(fs: seq<Fragment>, end: Fragment)
    requires end.last
    ensures Messages(fs + [end]) == Messages(fs) + [Tail(fs) + end.text]
  {
    assert (fs + [end])[..|fs|] == fs;
  }

  // ---- From texts to JSON messages ----------------------------------------

  predicate AllParse(c: Codec, texts: seq<string>) {
    forall i :: 0 <= i < |texts| ==> c.parse(texts[i]).Some?
  }

  /** The messages read from `texts`, up to the first text that is not JSON. */
  function Parsed(c: Codec, topic: string, texts: seq<string>): seq<Message> {
    if texts == [] || c.parse(texts[0]).None? then []
    else [Message(topic, c.parse(texts[0]).value)] + Parsed(c, topic, texts[1..])
  }

  lemma {:induction false} ParsedSnoc(c: Codec, topic: string, texts: seq<string>, text: string)
    requires AllParse(c, texts)
    ensures Parsed(c, topic, texts + [text])
            == Parsed(c, topic, texts)
               + (if c.parse(text).Some? then [Message(topic, c.parse(text).value)] else [])
  {
    if texts != [] {
      assert (texts + [text])[1..] == texts[1..] + [text];
      ParsedSnoc(c, topic, texts[1..], text);
    }
  }

  lemma {:induction false} ParsedAll(c: Codec, topic: string, texts: seq<string>)
    requires AllParse(c, texts)
    ensures |Parsed(c, topic, texts)| == |texts|
    ensures forall i :: 0 <= i < |texts| ==>
              Parsed(c, topic, texts)[i] == Message(topic, c.parse(texts[i]).value)
  {
    if texts != [] {
      ParsedAll(c, topic, texts[1..]);
    }
  }

  // ---- From JSON messages to the frames of one subscription ---------------

  /** The frames a session on `subscription` is owed for the messages of `log`. */
  function Payloads(c: Codec, log: seq<Message>, subscription: string): seq<string> {
    if log == [] then []
    else
      var m := log[|log| - 1];
      Payloads(c, log[..|log| - 1], subscription) + (if Takes(subscription, m.topic) then [c.dump(m.body)] else [])
  }

  lemma PayloadsSnoc(c: Codec, log: seq<Message>, m: Message, subscription: string)
    ensures Payloads(c, log + [m], subscription)
            == Payloads(c, log, subscription) + (if Takes(subscription, m.topic) then [c.dump(m.body)] else [])
  {
    assert (log + [m])[..|log|] == log;
  }

  lemma {:induction false} PayloadsAppend(c: Codec, a: seq<Message>, b: seq<Message>, subscription: string)
    ensures Payloads(c, a + b, subscription) == Payloads(c, a, subscription) + Payloads(c, b, subscription)
  {
    if b == [] {
      assert a + b == a;
    } else {
      assert (a + b)[..|a + b| - 1] == a + b[..|b| - 1];
      PayloadsAppend(c, a, b[..|b| - 1], subscription);
    }
  }

  /** A longer log only extends what is owed. */
  lemma PayloadsMonotone(c: Codec, a: seq<Message>, b: seq<Message>, subscription: string)
    requires a <= b
    ensures Payloads(c, a, subscription) <= Payloads(c, b, subscription)
  {
    PayloadsAppend(c, a, b[|a|..], subscription);
    assert b == a + b[|a|..];
  }

  /** Where `log` has a message the subscription takes: everywhere for `_all`, and otherwise where the topic
      is the subscription's own. */
  function TakenAt(log: seq<Message>, subscription: string): set<nat> {
    set i: nat | i < |log| && (subscription == "_all" || subscription == log[i].topic)
  }

  /** `frames` are the printed bodies of the messages of `log` at `picked`. */
  predicate PrintsOf(c: Codec, log: seq<Message>, picked: seq<nat>, frames: seq<string>) {
    |picked| == |frames| && forall k :: 0 <= k < |picked| ==> picked[k] < |log| && frames[k] == c.dump(log[picked[k]].body)
  }

  lemma TakenNext(log: seq<Message>, m: Message, subscription: string)
    ensures TakenAt(log + [m], subscription)
            == if subscription == "_all" || subscription == m.topic then TakenAt(log, subscription) + {|log|}
               else TakenAt(log, subscription)
  {}

  lemma PrintsOfNext(c: Codec, log: seq<Message>, m: Message, picked: seq<nat>, frames: seq<string>)
    requires PrintsOf(c, log, picked, frames)
    ensures PrintsOf(c, log + [m], picked, frames)
    ensures PrintsOf(c, log + [m], picked + [|log|], frames + [c.dump(m.body)])
  {}

  /** The frames owed are the printed bodies of exactly the messages the subscription takes, in order. */
  lemma {:induction false} PayloadsListTheTaken(c: Codec, log: seq<Message>, subscription: string) returns (picked: seq<nat>)
    ensures Lists(picked, TakenAt(log, subscription)) && PrintsOf(c, log, picked, Payloads(c, log, subscription))
  {
    if log == [] {
      picked := [];
    } else {
      var before, m := log[..|log| - 1], log[|log| - 1];
      assert log == before + [m];
      var start := PayloadsListTheTaken(c, before, subscription);
      TakenNext(before, m, subscription);
      PrintsOfNext(c, before, m, start, Payloads(c, before, subscription));
      PayloadsSnoc(c, before, m, subscription);
      if subscription == "_all" || subscription == m.topic {
        picked := start + [|before|];
        ListsNext(start, TakenAt(before, subscription), |before|);
      } else {
        picked := start;
      }
    }
  }

  /** A subscription to `_all` is owed every message, once and in order. */
  lemma {:induction false} AllIsOwedEverything(c: Codec, log: seq<Message>)
    ensures Payloads(c, log, "_all") == seq(|log|, i requires 0 <= i < |log| => c.dump(log[i].body))
  {
    if log != [] {
      AllIsOwedEverything(c, log[..|log| - 1]);
    }
  }

  /** Every frame owed carries the body of some logged message the subscription takes. */
  lemma {:induction false} PayloadsOrigin(c: Codec, log: seq<Message>, subscription: string, k: nat) returns (i: nat)
    requires k < |Payloads(c, log, subscription)|
    ensures i < |log| && (subscription == "_all" || subscription == log[i].topic)
    ensures c.dump(log[i].body) == Payloads(c, log, subscription)[k]
  {
    var before := log[..|log| - 1];
    if k < |Payloads(c, before, subscription)| {
      i := PayloadsOrigin(c, before, subscription, k);
    } else {
      i := |log| - 1;
    }
  }
}
