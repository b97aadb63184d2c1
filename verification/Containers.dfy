/** What a refresh does to any container that refreshes leave, whatever the topics of the messages. */
module Containers {
  import opened Common
  import opened TopicOrder
  import opened Trees
  import opened Cards

  // ---- Cards of the empty topic, and the others -----------------------------------------------

  predicate IsBlank(node: Node) {
    node.Card? && node.topic == ""
  }

  /** The cards of a container that have a topic, and those of the empty topic, each in order. */
  function Named(nodes: seq<Node>): seq<Node> {
    if nodes == [] then []
    else (if nodes[0].Card? && !IsBlank(nodes[0]) then [nodes[0]] else []) + Named(nodes[1..])
  }

  function BlankCards(nodes: seq<Node>): seq<Node> {
    if nodes == [] then []
    else (if IsBlank(nodes[0]) then [nodes[0]] else []) + BlankCards(nodes[1..])
  }

  lemma {:induction false} NamedAppend(a: seq<Node>, b: seq<Node>)
    ensures Named(a + b) == Named(a) + Named(b)
  {
    if a == [] {
      assert a + b == b;
    } else {
      assert (a + b)[0] == a[0] && (a + b)[1..] == a[1..] + b;
      NamedAppend(a[1..], b);
    }
  }

  lemma {:induction false} BlankAppend(a: seq<Node>, b: seq<Node>)
    ensures BlankCards(a + b) == BlankCards(a) + BlankCards(b)
  {
    if a == [] {
      assert a + b == b;
    } else {
      assert (a + b)[0] == a[0] && (a + b)[1..] == a[1..] + b;
      BlankAppend(a[1..], b);
    }
  }

  lemma NamedCons(node: Node, rest: seq<Node>)
    ensures Named([node] + rest) == (if node.Card? && !IsBlank(node) then [node] + Named(rest) else Named(rest))
    ensures BlankCards([node] + rest) == (if IsBlank(node) then [node] + BlankCards(rest) else BlankCards(rest))
  {
    assert ([node] + rest)[1..] == rest;
    assert [] + Named(rest) == Named(rest) && [] + BlankCards(rest) == BlankCards(rest);
  }

  lemma NamedOne(node: Node)
    ensures Named([node]) == if node.Card? && !IsBlank(node) then [node] else []
    ensures BlankCards([node]) == if IsBlank(node) then [node] else []
  {
    assert [node][1..] == [];
  }

  lemma {:induction false} NamedMeaning(nodes: seq<Node>)
    ensures AllCards(Named(nodes))
    ensures forall n :: n in Named(nodes) <==> n in nodes && n.Card? && !IsBlank(n)
    ensures forall n :: n in BlankCards(nodes) <==> n in nodes && IsBlank(n)
    ensures AllCards(nodes) && BlankCards(nodes) == [] ==> Named(nodes) == nodes
  {
    if nodes != [] {
      NamedMeaning(nodes[1..]);
      assert nodes == [nodes[0]] + nodes[1..];
      if AllCards(nodes) && BlankCards(nodes) == [] {
        assert !IsBlank(nodes[0]) && AllCards(nodes[1..]);
      }
    }
  }

  /** Every node is a card made before `nextId`, and no card of the empty topic shares its id. */
  predicate Apart(nodes: seq<Node>, nextId: nat) {
    && (forall n :: n in nodes ==> n.Card? && n.id < nextId)
    && (forall b, n {:trigger TellApart(b, n)} :: b in nodes && n in nodes ==> TellApart(b, n))
  }

  predicate TellApart(b: Node, n: Node) {
    b.Card? && n.Card? && IsBlank(b) && !IsBlank(n) ==> b.id != n.id
  }

  /** No card has an inherited name for its topic. */
  predicate Ordinary(nodes: seq<Node>) {
    forall n :: n in nodes && n.Card? ==> n.topic !in INHERITED
  }

  /** The placeholder, or cards in topic order with cards of the empty topic anywhere between them. */
  predicate Laid(nodes: seq<Node>, nextId: nat) {
    nodes == [Placeholder] || (Apart(nodes, nextId) && Tidy(Named(nodes), nextId))
  }

  /** What refreshes leave. */
  predicate Container(nodes: seq<Node>, nextId: nat) {
    Laid(nodes, nextId) && Ordinary(nodes)
  }

  /** The first of `cards` are one card per topic, in order. */
  predicate ShowsTopics(cards: seq<Node>, topics: seq<string>) {
    |topics| <= |cards| && forall i :: 0 <= i < |topics| ==> cards[i].Card? && cards[i].topic == topics[i]
  }

  function NamedKeys(keys: seq<string>): seq<string> {
    if keys != [] && keys[0] == "" then keys[1..] else keys
  }

  lemma NamedKeysMeaning(keys: seq<string>)
    requires Sorted(keys)
    ensures Sorted(NamedKeys(keys)) && forall t :: t in NamedKeys(keys) <==> t in keys && t != ""
  {
    forall i | 0 < i < |keys| ensures keys[i] != "" {
      SortedAt(keys, 0, i);
    }
    if keys != [] { SortedTail(keys); }
    assert keys != [] ==> keys == [keys[0]] + keys[1..];
  }

  lemma PrefixCovers(keys: seq<string>, n: nat, messages: map<string, Json>)
    requires Sorted(keys) && n <= |keys| && forall t :: t in keys <==> t in messages
    ensures Sorted(keys[..n]) && forall t :: t in keys[..n] ==> t in messages
    ensures UpTo(NamedKeys(keys[..n]), messages)
  {
    SortedPrefix(keys, n);
    NamedKeysMeaning(keys[..n]);
    var names := NamedKeys(keys[..n]);
    forall t | t in messages && t != "" ensures t in names || Past(t, names) {
      var j :| 0 <= j < |keys| && keys[j] == t;
      if j < n {
        assert keys[..n][j] == t;
      } else if names != [] {
        SortedAt(keys, n - 1, j);
      }
    }
  }

  /** The keys a refresh of a container gets to: those before the first inherited name. */
  lemma ReachedCovers(keys: seq<string>, messages: map<string, Json>)
    requires Sorted(keys) && forall t :: t in keys <==> t in messages
    ensures Sorted(Reached(keys, map[])) && forall t :: t in Reached(keys, map[]) ==> t in messages
    ensures UpTo(NamedKeys(Reached(keys, map[])), messages)
  {
    ReachedMeaning(keys, map[]);
    PrefixCovers(keys, |Reached(keys, map[])|, messages);
  }

  lemma {:induction false} ExistingIsOrdinary(nodes: seq<Node>)
    requires Ordinary(nodes)
    ensures forall t :: t in Existing(nodes) ==> t !in INHERITED
  {
    if nodes != [] {
      ExistingIsOrdinary(nodes[..|nodes| - 1]);
    }
  }

  lemma {:induction false} ReachedAlone(keys: seq<string>, existing: map<string, nat>)
    requires forall t :: t in existing ==> t !in INHERITED
    ensures Reached(keys, existing) == Reached(keys, map[])
  {
    if keys != [] {
      ReachedAlone(keys[1..], existing);
    }
  }

  lemma ReachesAllIff(keys: seq<string>)
    ensures |Reached(keys, map[])| < |keys| <==> exists t :: t in keys && t in INHERITED
    ensures !(|Reached(keys, map[])| < |keys|) ==> Reached(keys, map[]) == keys
  {
    ReachedMeaning(keys, map[]);
    var n := |Reached(keys, map[])|;
    if n < |keys| {
      assert keys[n] in keys;
    } else {
      assert keys[..n] == keys;
    }
  }

  /** A refresh over exactly these keys. */
  function RefreshTo(nodes: seq<Node>, nextId: nat, keys: seq<string>, messages: map<string, Json>, expand: bool): Progress
    requires forall t :: t in keys ==> t in messages
  {
    PlaceAll(Progress(Kept(nodes, messages), None, nextId), keys, Existing(nodes), messages, expand)
  }

  lemma RefreshReaches(nodes: seq<Node>, nextId: nat, keys: seq<string>, messages: map<string, Json>, expand: bool)
    requires Ordinary(nodes) && keys != [] && forall t :: t in keys ==> t in messages
    ensures forall t :: t in Reached(keys, map[]) ==> t in messages
    ensures Refresh(nodes, nextId, keys, messages, expand)
            == (RefreshTo(nodes, nextId, Reached(keys, map[]), messages, expand), |Reached(keys, map[])| < |keys|)
  {
    ExistingIsOrdinary(nodes);
    ReachedAlone(keys, Existing(nodes));
    PlacingStopsAtThrow(Progress(Kept(nodes, messages), None, nextId), keys, Existing(nodes), messages, expand);
  }

  // ---- A refresh does to the cards with a topic what it would do to them alone ---------------------

  lemma {:induction false} ExistingIgnoresBlanks(nodes: seq<Node>)
    ensures Existing(nodes) == Existing(Named(nodes))
  {
    if nodes != [] {
      var before, last := nodes[..|nodes| - 1], nodes[|nodes| - 1];
      ExistingIgnoresBlanks(before);
      NamedSnoc(nodes);
      if last.Card? && !IsBlank(last) {
        ExistingSnoc(Named(before), last);
      }
    }
  }

  lemma NamedSnoc(nodes: seq<Node>)
    requires nodes != []
    ensures var before, last := nodes[..|nodes| - 1], nodes[|nodes| - 1];
            Named(nodes) == if last.Card? && !IsBlank(last) then Named(before) + [last] else Named(before)
  {
    var before, last := nodes[..|nodes| - 1], nodes[|nodes| - 1];
    assert nodes == before + [last];
    NamedAppend(before, [last]);
    NamedOne(last);
    assert Named(before) + [] == Named(before);
  }

  lemma ExistingSnoc(before: seq<Node>, last: Node)
    requires last.Card? && !IsBlank(last)
    ensures Existing(before + [last]) == Existing(before)[last.topic := last.id]
  {
    assert (before + [last])[..|before|] == before;
  }

  lemma {:induction false} NamedAfterDrop(nodes: seq<Node>, existing: map<string, nat>, messages: map<string, Json>)
    requires "" !in existing
    ensures Named(DropStale(nodes, existing, messages)) == DropStale(Named(nodes), existing, messages)
    ensures BlankCards(DropStale(nodes, existing, messages)) == BlankCards(nodes)
    ensures forall n :: n in DropStale(nodes, existing, messages) ==> n in nodes
  {
    if nodes != [] {
      var first, rest := nodes[0], nodes[1..];
      assert nodes == [first] + rest;
      NamedAfterDrop(rest, existing, messages);
      NamedCons(first, rest);
      DropStaleHead(first, rest, existing, messages);
      DropStaleHead(first, Named(rest), existing, messages);
      if !IsStale(first, existing, messages) {
        NamedCons(first, DropStale(rest, existing, messages));
      }
    }
  }

  lemma DropStaleHead(node: Node, rest: seq<Node>, existing: map<string, nat>, messages: map<string, Json>)
    ensures DropStale([node] + rest, existing, messages)
            == if IsStale(node, existing, messages) then DropStale(rest, existing, messages)
               else [node] + DropStale(rest, existing, messages)
  {
    assert ([node] + rest)[1..] == rest;
    assert [] + DropStale(rest, existing, messages) == DropStale(rest, existing, messages);
  }

  lemma {:induction false} NothingToDrop(nodes: seq<Node>)
    requires forall n :: n in nodes ==> n.Card?
    ensures DropPlaceholder(nodes) == nodes
  {
    if nodes != [] {
      assert nodes[0] in nodes;
      NothingToDrop(nodes[1..]);
    }
  }

  /** Each node after a replacement has the id and the topic of one before. */
  predicate Traced(nodes: seq<Node>, n: Node) {
    exists m :: m in nodes && m.Card? && n.Card? && m.id == n.id && m.topic == n.topic
  }

  lemma {:induction false} NamedAfterReplace(nodes: seq<Node>, id: nat, topic: string, message: Json, expand: bool)
    requires forall n :: n in nodes ==> n.Card? && (IsBlank(n) ==> n.id != id)
    ensures Named(Replace(nodes, id, topic, message, expand)) == Replace(Named(nodes), id, topic, message, expand)
    ensures BlankCards(Replace(nodes, id, topic, message, expand)) == BlankCards(nodes)
    ensures forall n :: n in Replace(nodes, id, topic, message, expand) ==> Traced(nodes, n)
  {
    if nodes != [] {
      var first, rest := nodes[0], nodes[1..];
      assert first in nodes;
      NamedAfterReplace(rest, id, topic, message, expand);
      var here := if first.id == id then Refreshed(first, topic, message, expand) else first;
      var after := Replace(rest, id, topic, message, expand);
      assert Replace(nodes, id, topic, message, expand) == [here] + after;
      NamedCons(here, after);
      assert nodes == [first] + rest;
      NamedCons(first, rest);
      if !IsBlank(first) {
        ReplaceHeadOf(first, Named(rest), id, topic, message, expand);
      }
      assert Traced(nodes, here);
      forall n | n in after ensures Traced(nodes, n) {
        assert Traced(rest, n);
      }
    }
  }

  lemma ReplaceHeadOf(first: Node, rest: seq<Node>, id: nat, topic: string, message: Json, expand: bool)
    requires first.Card?
    ensures Replace([first] + rest, id, topic, message, expand)
            == [if first.id == id then Refreshed(first, topic, message, expand) else first]
               + Replace(rest, id, topic, message, expand)
  {
    assert ([first] + rest)[1..] == rest;
  }

  lemma {:induction false} InsertedMembers(nodes: seq<Node>, previous: Option<nat>, card: Node)
    ensures forall n :: n in InsertAfter(nodes, previous, card) <==> n in nodes || n == card
  {
    if previous.Some? && nodes != [] && !(nodes[0].Card? && nodes[0].id == previous.value) {
      InsertedMembers(nodes[1..], previous, card);
    }
    assert nodes != [] ==> nodes == [nodes[0]] + nodes[1..];
  }

  lemma {:induction false} NamedAfterInsert(nodes: seq<Node>, previous: Option<nat>, card: Node)
    requires card.Card? && !IsBlank(card)
    requires forall n :: n in nodes ==> n.Card? && (IsBlank(n) && previous.Some? ==> n.id != previous.value)
    ensures Named(InsertAfter(nodes, previous, card)) == InsertAfter(Named(nodes), previous, card)
    ensures BlankCards(InsertAfter(nodes, previous, card)) == BlankCards(nodes)
  {
    if previous.None? {
      NamedCons(card, nodes);
    } else if nodes == [] {
      NamedOne(card);
    } else {
      var first, rest := nodes[0], nodes[1..];
      assert first in nodes && nodes == [first] + rest;
      NamedCons(first, rest);
      if first.id == previous.value {
        InsertSecond(first, rest, card);
        InsertAtHead(first, Named(rest), card);
      } else {
        NamedAfterInsert(rest, previous, card);
        NamedCons(first, InsertAfter(rest, previous, card));
        if !IsBlank(first) {
          assert ([first] + Named(rest))[1..] == Named(rest);
        }
      }
    }
  }

  lemma InsertAtHead(first: Node, rest: seq<Node>, card: Node)
    requires first.Card?
    ensures InsertAfter([first] + rest, Some(first.id), card) == [first, card] + rest
  {
    assert ([first] + rest)[1..] == rest;
  }

  lemma InsertSecond(first: Node, rest: seq<Node>, card: Node)
    requires first.Card? && card.Card? && !IsBlank(card)
    ensures Named([first, card] + rest)
            == if IsBlank(first) then [card] + Named(rest) else [first, card] + Named(rest)
    ensures BlankCards([first, card] + rest) == BlankCards([first] + rest)
  {
    PairInFront(first, card, rest);
    NamedCons(first, [card] + rest);
    NamedCons(first, rest);
    NamedCons(card, rest);
    PairInFront(first, card, Named(rest));
  }

  /** After a card of the empty topic in front, an insertion goes in front of all cards with a topic. */
  lemma InsertAfterFrontBlank(nodes: seq<Node>, card: Node)
    requires nodes != [] && IsBlank(nodes[0]) && card.Card? && !IsBlank(card)
    ensures Named(InsertAfter(nodes, Some(nodes[0].id), card)) == [card] + Named(nodes)
    ensures BlankCards(InsertAfter(nodes, Some(nodes[0].id), card)) == BlankCards(nodes)
  {
    var first, rest := nodes[0], nodes[1..];
    assert nodes == [first] + rest;
    InsertAtHead(first, rest, card);
    InsertSecond(first, rest, card);
    NamedCons(first, rest);
  }

  /** `q` is the loop over the cards with a topic alone, `p` the loop over all. */
  predicate Projects(p: Progress, q: Progress, existing: map<string, nat>) {
    && q.nodes == Named(p.nodes) && q.nextId == p.nextId && Apart(p.nodes, p.nextId)
    && (forall t :: t in existing ==> BlanksAvoid(p.nodes, existing[t]))
    && (FollowsNamed(p, q) || FollowsFrontBlank(p, q))
  }

  /** The previous card has a topic, or there is none. */
  predicate FollowsNamed(p: Progress, q: Progress) {
    && q.previous == p.previous
    && (p.previous.Some? ==> BlanksAvoid(p.nodes, p.previous.value))
  }

  /** The previous card is the one of the empty topic, and is in front of all. */
  predicate FollowsFrontBlank(p: Progress, q: Progress) {
    && q.previous.None? && p.nodes != [] && IsBlank(p.nodes[0]) && p.previous == Some(p.nodes[0].id)
  }

  lemma ProjectOld(p: Progress, q: Progress, topic: string, existing: map<string, nat>, messages: map<string, Json>, expand: bool)
    requires Projects(p, q, existing) && topic in messages && topic != "" && topic in existing
    ensures Projects(PlaceOne(p, topic, existing, messages, expand), PlaceOne(q, topic, existing, messages, expand), existing)
    ensures BlankCards(PlaceOne(p, topic, existing, messages, expand).nodes) == BlankCards(p.nodes)
  {
    var after := PlaceOne(p, topic, existing, messages, expand);
    NamedAfterReplace(p.nodes, existing[topic], topic, messages[topic], expand);
    TracedStaysApart(p.nodes, after.nodes, p.nextId, existing);
  }

  lemma TracedStaysApart(nodes: seq<Node>, after: seq<Node>, nextId: nat, existing: map<string, nat>)
    requires Apart(nodes, nextId) && forall n :: n in after ==> Traced(nodes, n)
    requires forall t :: t in existing ==> BlanksAvoid(nodes, existing[t])
    ensures Apart(after, nextId)
    ensures forall t :: t in existing ==> BlanksAvoid(after, existing[t])
  {
    forall n | n in after ensures n.Card? && n.id < nextId {
      assert Traced(nodes, n);
    }
    forall b, n | b in after && n in after ensures TellApart(b, n) {
      assert Traced(nodes, b) && Traced(nodes, n);
      var c :| c in nodes && c.Card? && b.Card? && c.id == b.id && c.topic == b.topic;
      var m :| m in nodes && m.Card? && n.Card? && m.id == n.id && m.topic == n.topic;
      assert TellApart(c, m);
    }
    forall t | t in existing ensures BlanksAvoid(after, existing[t]) {
      assert BlanksAvoid(nodes, existing[t]);
      forall b | b in after && IsBlank(b) ensures b.id != existing[t] {
        assert Traced(nodes, b);
      }
    }
  }

  lemma ProjectNew(p: Progress, q: Progress, topic: string, existing: map<string, nat>, messages: map<string, Json>, expand: bool)
    requires Projects(p, q, existing) && topic in messages && topic != "" && topic !in existing
    ensures Projects(PlaceOne(p, topic, existing, messages, expand), PlaceOne(q, topic, existing, messages, expand), existing)
    ensures BlankCards(PlaceOne(p, topic, existing, messages, expand).nodes) == BlankCards(p.nodes)
  {
    var card := Card(p.nextId, topic, [Build(topic, messages[topic], expand)]);
    InsertedMembers(p.nodes, p.previous, card);
    InsertedStaysApart(p.nodes, InsertAfter(p.nodes, p.previous, card), card, p.nextId, existing);
    if FollowsNamed(p, q) {
      NamedAfterInsert(p.nodes, p.previous, card);
    } else {
      InsertAfterFrontBlank(p.nodes, card);
    }
  }

  lemma InsertedStaysApart(nodes: seq<Node>, after: seq<Node>, card: Node, nextId: nat, existing: map<string, nat>)
    requires Apart(nodes, nextId) && forall n :: n in after ==> n in nodes || n == card
    requires card.Card? && !IsBlank(card) && card.id == nextId
    requires forall t :: t in existing ==> BlanksAvoid(nodes, existing[t])
    ensures Apart(after, nextId + 1) && BlanksAvoid(after, nextId)
    ensures forall t :: t in existing ==> BlanksAvoid(after, existing[t])
  {
    forall t | t in existing ensures BlanksAvoid(after, existing[t]) {
      assert BlanksAvoid(nodes, existing[t]);
    }
    forall b, n | b in after && n in after ensures TellApart(b, n) {
      if b in nodes && n in nodes { assert TellApart(b, n); }
    }
  }

  lemma {:induction false} ProjectAll(p: Progress, q: Progress, keys: seq<string>, existing: map<string, nat>, messages: map<string, Json>, expand: bool)
    requires Projects(p, q, existing) && forall t :: t in keys ==> t in messages && t != ""
    ensures Projects(PlaceAll(p, keys, existing, messages, expand), PlaceAll(q, keys, existing, messages, expand), existing)
    ensures BlankCards(PlaceAll(p, keys, existing, messages, expand).nodes) == BlankCards(p.nodes)
    decreases |keys|
  {
    if keys != [] {
      var topic := keys[0];
      assert forall t :: t in keys[1..] ==> t in keys;
      if topic in existing {
        ProjectOld(p, q, topic, existing, messages, expand);
      } else {
        ProjectNew(p, q, topic, existing, messages, expand);
      }
      ProjectAll(PlaceOne(p, topic, existing, messages, expand), PlaceOne(q, topic, existing, messages, expand),
                 keys[1..], existing, messages, expand);
    }
  }

  function Count(topics: seq<string>, topic: string): nat {
    if topics == [] then 0 else (if topics[0] == topic then 1 else 0) + Count(topics[1..], topic)
  }

  lemma {:induction false} ExistingHasNoBlank(nodes: seq<Node>)
    ensures "" !in Existing(nodes)
  {
    if nodes != [] {
      ExistingHasNoBlank(nodes[..|nodes| - 1]);
    }
  }

  lemma {:induction false} BlanksAfterPlaceholder(nodes: seq<Node>)
    ensures BlankCards(DropPlaceholder(nodes)) == BlankCards(nodes)
  {
    if nodes != [] {
      var first, rest := nodes[0], nodes[1..];
      assert nodes == [first] + rest;
      NamedCons(first, rest);
      if first.Card? {
        BlanksAfterPlaceholder(rest);
        NamedCons(first, DropPlaceholder(rest));
      }
    }
  }

  lemma {:induction false} BlanksAfterReplace(nodes: seq<Node>, id: nat, topic: string, message: Json, expand: bool)
    ensures |BlankCards(Replace(nodes, id, topic, message, expand))| == |BlankCards(nodes)|
  {
    if nodes != [] {
      var first, rest := nodes[0], nodes[1..];
      BlanksAfterReplace(rest, id, topic, message, expand);
      assert nodes == [first] + rest;
      NamedCons(first, rest);
      var here := if first.Card? && first.id == id then Refreshed(first, topic, message, expand) else first;
      NamedCons(here, Replace(rest, id, topic, message, expand));
      assert Replace(nodes, id, topic, message, expand) == [here] + Replace(rest, id, topic, message, expand);
    }
  }

  lemma {:induction false} BlanksAfterInsert(nodes: seq<Node>, previous: Option<nat>, card: Node)
    ensures |BlankCards(InsertAfter(nodes, previous, card))| == |BlankCards(nodes)| + |BlankCards([card])|
  {
    if previous.None? {
      BlankAppend([card], nodes);
    } else if nodes != [] {
      var first, rest := nodes[0], nodes[1..];
      assert nodes == [first] + rest;
      NamedCons(first, rest);
      if first.Card? && first.id == previous.value {
        PairInFront(first, card, rest);
        NamedCons(first, [card] + rest);
        BlankAppend([card], rest);
      } else {
        BlanksAfterInsert(rest, previous, card);
        NamedCons(first, InsertAfter(rest, previous, card));
      }
    }
  }

  lemma {:induction false} BlanksAfterPlacing(p: Progress, keys: seq<string>, existing: map<string, nat>, messages: map<string, Json>, expand: bool)
    requires "" !in existing && forall t :: t in keys ==> t in messages
    ensures |BlankCards(PlaceAll(p, keys, existing, messages, expand).nodes)| == |BlankCards(p.nodes)| + Count(keys, "")
    decreases |keys|
  {
    if keys != [] {
      var topic := keys[0];
      BlanksAfterPlacing(PlaceOne(p, topic, existing, messages, expand), keys[1..], existing, messages, expand);
      if topic in existing {
        BlanksAfterReplace(p.nodes, existing[topic], topic, messages[topic], expand);
      } else {
        var card := Card(p.nextId, topic, [Build(topic, messages[topic], expand)]);
        BlanksAfterInsert(p.nodes, p.previous, card);
        NamedOne(card);
      }
    }
  }

  lemma {:induction false} EmptyTopicIsReached(keys: seq<string>, existing: map<string, nat>)
    requires Sorted(keys)
    ensures Count(Reached(keys, existing), "") == Count(keys, "")
  {
    NoneLater(keys);
    if keys != [] && keys[0] == "" {
      ReachedMeaning(keys[1..], existing);
      NotCounted(Reached(keys[1..], existing), "");
      assert Reached(keys, existing)[1..] == Reached(keys[1..], existing);
    } else if keys != [] {
      ReachedMeaning(keys, existing);
      NotCounted(Reached(keys, existing), "");
    }
  }

  lemma NoneLater(keys: seq<string>)
    requires Sorted(keys)
    ensures keys != [] ==> "" !in keys[1..] && Count(keys[1..], "") == 0
    ensures keys != [] && keys[0] != "" ==> "" !in keys && Count(keys, "") == 0
  {
    if keys != [] {
      forall i | 0 < i < |keys| ensures keys[i] != "" {
        SortedAt(keys, 0, i);
      }
      NotCounted(keys[1..], "");
    }
  }

  lemma {:induction false} NotCounted(topics: seq<string>, topic: string)
    requires topic !in topics
    ensures Count(topics, topic) == 0
  {
    if topics != [] {
      assert topics[0] in topics;
      NotCounted(topics[1..], topic);
    }
  }

  /** A card without a topic is never found again: every refresh of any list, one that throws too, keeps
      those there are and, while the messages have the empty topic, adds one more. */
  lemma BlankCardsPileUp(nodes: seq<Node>, nextId: nat, keys: seq<string>, messages: map<string, Json>, expand: bool)
    requires keys != [] && forall t :: t in keys ==> t in messages
    ensures |BlankCards(Refresh(nodes, nextId, keys, messages, expand).0.nodes)|
            == |BlankCards(nodes)| + Count(Reached(keys, Existing(nodes)), "")
    ensures Sorted(keys) ==> Count(Reached(keys, Existing(nodes)), "") == Count(keys, "")
  {
    var existing := Existing(nodes);
    ExistingHasNoBlank(nodes);
    NamedAfterDrop(nodes, existing, messages);
    BlanksAfterPlaceholder(DropStale(nodes, existing, messages));
    PlacingStopsAtThrow(Progress(Kept(nodes, messages), None, nextId), keys, existing, messages, expand);
    BlanksAfterPlacing(Progress(Kept(nodes, messages), None, nextId), Reached(keys, existing), existing, messages, expand);
    if Sorted(keys) { EmptyTopicIsReached(keys, existing); }
  }

  lemma {:induction false} BlanksAreBlankTopics(cards: seq<Node>)
    requires AllCards(cards)
    ensures |BlankCards(cards)| == Count(Topics(cards), "")
  {
    if cards != [] {
      BlanksAreBlankTopics(cards[1..]);
      assert Topics(cards)[1..] == Topics(cards[1..]);
    }
  }

  // ---- From any refresh to the next ---------------------------------------------------------------

  /** The card a refresh makes for the empty topic. */
  function NewBlank(nextId: nat, keys: seq<string>, messages: map<string, Json>, expand: bool): seq<Node>
    requires forall t :: t in keys ==> t in messages
  {
    if keys != [] && keys[0] == "" then [Card(nextId, "", [Build("", messages[""], expand)])] else []
  }

  lemma LaidMeaning(nodes: seq<Node>, nextId: nat)
    requires Laid(nodes, nextId)
    ensures Tidy(Named(nodes), nextId)
  {
    if nodes == [Placeholder] {
      NamedOne(Placeholder);
    }
  }

  /** What is left when stale cards and the placeholder are gone. */
  lemma KeptMeaning(nodes: seq<Node>, nextId: nat, messages: map<string, Json>)
    requires Laid(nodes, nextId)
    ensures var kept := Kept(nodes, messages);
            && Named(kept) == Surviving(Named(nodes), messages) && BlankCards(kept) == BlankCards(nodes)
            && forall n :: n in kept ==> n in nodes && n.Card?
  {
    var cards, existing := Named(nodes), Existing(nodes);
    LaidMeaning(nodes, nextId);
    ExistingIgnoresBlanks(nodes);
    ExistingNames(cards, nextId);
    ExistingHasNoBlank(nodes);
    NamedAfterDrop(nodes, existing, messages);
    DropStaleKeepsSurvivors(cards, existing, messages);
    if nodes == [Placeholder] {
      NamedOne(Placeholder);
      assert DropStale(nodes, existing, messages) == [Placeholder] + DropStale([], existing, messages);
    } else {
      NothingToDrop(DropStale(nodes, existing, messages));
    }
  }

  lemma BlankIdsAreNotNamed(nodes: seq<Node>, nextId: nat)
    requires Laid(nodes, nextId)
    ensures NamesNoBlank(Existing(nodes), nodes, nextId)
  {
    var cards, existing := Named(nodes), Existing(nodes);
    LaidMeaning(nodes, nextId);
    ExistingIgnoresBlanks(nodes);
    ExistingNames(cards, nextId);
    NamedMeaning(nodes);
    forall t | t in existing ensures NamedCardHasId(nodes, existing[t]) {
      var i :| 0 <= i < |cards| && cards[i].Card? && cards[i].topic == t;
      assert cards[i] in cards;
    }
    if nodes != [Placeholder] {
      forall t | t in existing ensures existing[t] < nextId && BlanksAvoid(nodes, existing[t]) {
        NamedIdIsNoBlankId(nodes, nextId, existing[t]);
      }
    }
  }

  predicate NamedCardHasId(nodes: seq<Node>, id: nat) {
    exists n :: n in nodes && n.Card? && !IsBlank(n) && n.id == id
  }

  predicate BlanksAvoid(nodes: seq<Node>, id: nat) {
    forall b :: b in nodes && IsBlank(b) ==> b.id != id
  }

  lemma NamedIdIsNoBlankId(nodes: seq<Node>, nextId: nat, id: nat)
    requires Apart(nodes, nextId) && NamedCardHasId(nodes, id)
    ensures id < nextId && BlanksAvoid(nodes, id)
  {
    var n :| n in nodes && n.Card? && !IsBlank(n) && n.id == id;
    forall b | b in nodes && IsBlank(b) ensures b.id != id {
      assert TellApart(b, n);
    }
  }

  /** `existing` names no card of the empty topic in `nodes`, and none made from now on. */
  predicate NamesNoBlank(existing: map<string, nat>, nodes: seq<Node>, nextId: nat) {
    && (forall t :: t in existing ==> existing[t] < nextId)
    && (forall t :: t in existing ==> BlanksAvoid(nodes, existing[t]))
  }

  lemma KeptStaysApart(nodes: seq<Node>, kept: seq<Node>, nextId: nat, existing: map<string, nat>)
    requires Laid(nodes, nextId) && NamesNoBlank(existing, nodes, nextId)
    requires forall n :: n in kept ==> n in nodes && n.Card?
    ensures Apart(kept, nextId) && NamesNoBlank(existing, kept, nextId)
  {}

  lemma StartWithBlank(kept: seq<Node>, nextId: nat, existing: map<string, nat>, card: Node)
    requires Apart(kept, nextId) && NamesNoBlank(existing, kept, nextId) && IsBlank(card) && card.id == nextId
    ensures Projects(Progress([card] + kept, Some(nextId), nextId + 1), Progress(Named(kept), None, nextId + 1), existing)
    ensures BlankCards([card] + kept) == [card] + BlankCards(kept)
  {
    assert ([card] + kept)[1..] == kept && [] + Named(kept) == Named(kept);
  }

  lemma StartWithoutBlank(kept: seq<Node>, nextId: nat, existing: map<string, nat>)
    requires Apart(kept, nextId) && NamesNoBlank(existing, kept, nextId)
    ensures Projects(Progress(kept, None, nextId), Progress(Named(kept), None, nextId), existing)
  {}

  /** The loop after its turn for the empty topic, if it has one, and the loop over the cards with a topic. */
  function LoopStart(kept: seq<Node>, nextId: nat, blank: seq<Node>): Progress {
    Progress(blank + kept, if blank == [] then None else Some(nextId), nextId + |blank|)
  }

  function LoopAlone(kept: seq<Node>, nextId: nat, blank: seq<Node>): Progress {
    Progress(Named(kept), None, nextId + |blank|)
  }

  lemma RefreshFromStart(nodes: seq<Node>, nextId: nat, keys: seq<string>, messages: map<string, Json>, expand: bool)
    requires forall t :: t in keys ==> t in messages
    ensures forall t :: t in NamedKeys(keys) ==> t in messages
    ensures RefreshTo(nodes, nextId, keys, messages, expand)
            == PlaceAll(LoopStart(Kept(nodes, messages), nextId, NewBlank(nextId, keys, messages, expand)), NamedKeys(keys),
                        Existing(nodes), messages, expand)
  {
    ExistingHasNoBlank(nodes);
    assert [] + Kept(nodes, messages) == Kept(nodes, messages);
  }

  lemma LoopProjects(kept: seq<Node>, nextId: nat, existing: map<string, nat>, keys: seq<string>, messages: map<string, Json>, expand: bool)
    requires Apart(kept, nextId) && NamesNoBlank(existing, kept, nextId)
    requires forall t :: t in keys ==> t in messages
    ensures var blank := NewBlank(nextId, keys, messages, expand);
            && Projects(LoopStart(kept, nextId, blank), LoopAlone(kept, nextId, blank), existing)
            && BlankCards(blank + kept) == blank + BlankCards(kept)
  {
    var blank := NewBlank(nextId, keys, messages, expand);
    if blank == [] {
      assert blank + kept == kept && blank + BlankCards(kept) == BlankCards(kept);
      StartWithoutBlank(kept, nextId, existing);
    } else {
      StartWithBlank(kept, nextId, existing, blank[0]);
      assert blank == [blank[0]];
    }
  }

  /** The cards with a topic are `merged`, those of the empty topic are `blanks`. */
  predicate Split(end: Progress, merged: seq<Node>, blanks: seq<Node>) {
    && Apart(end.nodes, end.nextId) && Named(end.nodes) == merged && BlankCards(end.nodes) == blanks
    && DistinctIds(merged) && IdsBelow(merged, end.nextId)
  }

  /** After a refresh of any container: the cards with a topic are the merge of the surviving ones with
      the messages, and the cards of the empty topic are those there were, behind a new one if the messages
      have that topic. */
  lemma RefreshSplits(nodes: seq<Node>, nextId: nat, keys: seq<string>, messages: map<string, Json>, expand: bool)
    requires Laid(nodes, nextId) && Sorted(keys) && forall t :: t in keys ==> t in messages
    requires UpTo(NamedKeys(keys), messages)
    ensures forall t :: t in NamedKeys(keys) ==> t in messages
    ensures var blank := NewBlank(nextId, keys, messages, expand);
            Split(RefreshTo(nodes, nextId, keys, messages, expand),
                  Merge(Surviving(Named(nodes), messages), NamedKeys(keys), nextId + |blank|, messages, expand),
                  blank + BlankCards(nodes))
  {
    LoopSplits(nodes, nextId, keys, messages, expand);
    RefreshFromStart(nodes, nextId, keys, messages, expand);
  }

  lemma LoopSplits(nodes: seq<Node>, nextId: nat, keys: seq<string>, messages: map<string, Json>, expand: bool)
    requires Laid(nodes, nextId) && Sorted(keys) && forall t :: t in keys ==> t in messages
    requires UpTo(NamedKeys(keys), messages)
    ensures forall t :: t in NamedKeys(keys) ==> t in messages
    ensures var blank := NewBlank(nextId, keys, messages, expand);
            var p := LoopStart(Kept(nodes, messages), nextId, blank);
            Split(PlaceAll(p, NamedKeys(keys), Existing(nodes), messages, expand),
                  Merge(Surviving(Named(nodes), messages), NamedKeys(keys), nextId + |blank|, messages, expand),
                  blank + BlankCards(nodes))
  {
    var blank := NewBlank(nextId, keys, messages, expand);
    var p := LoopStart(Kept(nodes, messages), nextId, blank);
    var q := Progress(Surviving(Named(nodes), messages), None, nextId + |blank|);
    NamedKeysMeaning(keys);
    LoopEnds(nodes, nextId, keys, messages, expand);
    AloneMerges(nodes, nextId, nextId + |blank|, NamedKeys(keys), messages, expand);
    SplitAtEnd(PlaceAll(p, NamedKeys(keys), Existing(nodes), messages, expand),
               PlaceAll(q, NamedKeys(keys), Existing(nodes), messages, expand), blank + BlankCards(nodes));
  }

  lemma SplitAtEnd(end: Progress, alone: Progress, blanks: seq<Node>)
    requires EndsLike(end, alone, blanks) && DistinctIds(alone.nodes) && IdsBelow(alone.nodes, alone.nextId)
    ensures Split(end, alone.nodes, blanks)
  {}

  lemma LoopReady(nodes: seq<Node>, nextId: nat, keys: seq<string>, messages: map<string, Json>, expand: bool)
    requires Laid(nodes, nextId) && forall t :: t in keys ==> t in messages
    ensures var blank := NewBlank(nextId, keys, messages, expand);
            var p := LoopStart(Kept(nodes, messages), nextId, blank);
            && Projects(p, Progress(Surviving(Named(nodes), messages), None, nextId + |blank|), Existing(nodes))
            && BlankCards(p.nodes) == blank + BlankCards(nodes)
  {
    var existing := Existing(nodes);
    var kept := Kept(nodes, messages);
    KeptMeaning(nodes, nextId, messages);
    BlankIdsAreNotNamed(nodes, nextId);
    KeptStaysApart(nodes, kept, nextId, existing);
    LoopProjects(kept, nextId, existing, keys, messages, expand);
  }

  /** Of the cards with a topic, the loop leaves what the loop over them alone leaves. */
  predicate EndsLike(p: Progress, q: Progress, blank: seq<Node>) {
    Apart(p.nodes, p.nextId) && Named(p.nodes) == q.nodes && p.nextId == q.nextId && BlankCards(p.nodes) == blank
  }

  lemma ProjectedEnd(p: Progress, q: Progress, names: seq<string>, existing: map<string, nat>, messages: map<string, Json>, expand: bool)
    requires Projects(p, q, existing) && forall t :: t in names ==> t in messages && t != ""
    ensures EndsLike(PlaceAll(p, names, existing, messages, expand), PlaceAll(q, names, existing, messages, expand), BlankCards(p.nodes))
  {
    ProjectAll(p, q, names, existing, messages, expand);
  }

  lemma LoopEnds(nodes: seq<Node>, nextId: nat, keys: seq<string>, messages: map<string, Json>, expand: bool)
    requires Laid(nodes, nextId) && Sorted(keys) && forall t :: t in keys ==> t in messages
    ensures forall t :: t in NamedKeys(keys) ==> t in messages
    ensures var blank := NewBlank(nextId, keys, messages, expand);
            var p := LoopStart(Kept(nodes, messages), nextId, blank);
            var q := Progress(Surviving(Named(nodes), messages), None, nextId + |blank|);
            EndsLike(PlaceAll(p, NamedKeys(keys), Existing(nodes), messages, expand),
                     PlaceAll(q, NamedKeys(keys), Existing(nodes), messages, expand), blank + BlankCards(nodes))
  {
    var blank := NewBlank(nextId, keys, messages, expand);
    NamedKeysMeaning(keys);
    LoopReady(nodes, nextId, keys, messages, expand);
    ProjectedEnd(LoopStart(Kept(nodes, messages), nextId, blank),
                 Progress(Surviving(Named(nodes), messages), None, nextId + |blank|),
                 NamedKeys(keys), Existing(nodes), messages, expand);
  }

  lemma AloneMerges(nodes: seq<Node>, nextId: nat, first: nat, names: seq<string>, messages: map<string, Json>, expand: bool)
    requires Laid(nodes, nextId) && Sorted(names) && nextId <= first
    requires forall t :: t in names ==> t in messages
    requires UpTo(names, messages)
    ensures var end := PlaceAll(Progress(Surviving(Named(nodes), messages), None, first), names, Existing(nodes), messages, expand);
            && end.nodes == Merge(Surviving(Named(nodes), messages), names, first, messages, expand)
            && DistinctIds(end.nodes) && IdsBelow(end.nodes, end.nextId)
  {
    LaidMeaning(nodes, nextId);
    TidyTail(Named(nodes), nextId, first);
    ExistingIgnoresBlanks(nodes);
    MergeFromStart(Named(nodes), Existing(nodes), first, names, messages, expand);
  }

  /** Card `i` of the merge of the cards with a topic, behind a card of the empty topic or not. */
  lemma MergedCardAt(cards: seq<Node>, names: seq<string>, nextId: nat, first: nat, messages: map<string, Json>, expand: bool, i: nat)
    requires Tidy(cards, nextId) && (first == nextId || first == nextId + 1) && Sorted(names) && i < |names|
    requires UpTo(names, messages) && forall t :: t in names ==> t in messages
    ensures names[i] in names
    ensures |Merge(Surviving(cards, messages), names, first, messages, expand)| >= |names|
    ensures ShowsLatest(cards, Merge(Surviving(cards, messages), names, first, messages, expand)[i],
                        names[i], messages[names[i]], expand, nextId)
  {
    var rest := Surviving(cards, messages);
    TidyTail(cards, nextId, first);
    SurvivingMeaning(cards, messages, first);
    SurvivorsAreNamed(cards, Existing(cards), messages, names, first);
    MergeMeaning(rest, names, first, messages, expand, i);
    assert names[i] in names;
    var n := Merge(rest, names, first, messages, expand)[i];
    if first == nextId + 1 {
      ShowsLatestFromEarlierId(rest, n, names[i], messages[names[i]], expand, nextId);
    }
    SurvivorsSuffice(cards, messages, n, names[i], expand, nextId);
  }

  lemma MergedEnd(cards: seq<Node>, names: seq<string>, nextId: nat, first: nat, messages: map<string, Json>, expand: bool)
    requires Tidy(cards, nextId) && nextId <= first && Sorted(names)
    requires UpTo(names, messages) && forall t :: t in names ==> t in messages
    ensures |Merge(Surviving(cards, messages), names, first, messages, expand)| >= |names|
    ensures Merge(Surviving(cards, messages), names, first, messages, expand)[|names|..]
            == Untouched(Surviving(cards, messages), names)
  {
    TidyTail(cards, nextId, first);
    SurvivingMeaning(cards, messages, first);
    SurvivorsAreNamed(cards, Existing(cards), messages, names, first);
    MergeEnd(Surviving(cards, messages), names, first, messages, expand);
  }

  /** The cards with a topic after a refresh over `names`: one card per name with the latest message, and
      then the cards of later topics, untouched. */
  ghost predicate Updated(before: seq<Node>, after: seq<Node>, names: seq<string>, messages: map<string, Json>, expand: bool, nextId: nat)
  {
    && |names| <= |after|
    && (forall i :: 0 <= i < |names| ==>
          names[i] in messages && ShowsLatest(before, after[i], names[i], messages[names[i]], expand, nextId))
    && after[|names|..] == Untouched(Surviving(before, messages), names)
  }

  lemma MergeUpdates(cards: seq<Node>, names: seq<string>, nextId: nat, first: nat, messages: map<string, Json>, expand: bool)
    requires Tidy(cards, nextId) && (first == nextId || first == nextId + 1) && Sorted(names)
    requires UpTo(names, messages) && forall t :: t in names ==> t in messages
    ensures Updated(cards, Merge(Surviving(cards, messages), names, first, messages, expand), names, messages, expand, nextId)
  {
    MergedEnd(cards, names, nextId, first, messages, expand);
    forall i | 0 <= i < |names|
      ensures names[i] in messages
      ensures ShowsLatest(cards, Merge(Surviving(cards, messages), names, first, messages, expand)[i],
                          names[i], messages[names[i]], expand, nextId)
    {
      MergedCardAt(cards, names, nextId, first, messages, expand, i);
    }
  }

  // ---- Which topics cards have ------------------------------------------------------------------------

  predicate TopicsAll(nodes: seq<Node>, ok: string -> bool) {
    forall n :: n in nodes && n.Card? ==> ok(n.topic)
  }

  lemma {:induction false} ReplaceKeepsTopics(nodes: seq<Node>, id: nat, topic: string, message: Json, expand: bool, ok: string -> bool)
    requires TopicsAll(nodes, ok)
    ensures TopicsAll(Replace(nodes, id, topic, message, expand), ok)
  {
    if nodes != [] {
      ReplaceKeepsTopics(nodes[1..], id, topic, message, expand, ok);
      assert nodes[0] in nodes;
    }
  }

  lemma {:induction false} PlacingKeepsTopics(
      p: Progress, keys: seq<string>, existing: map<string, nat>, messages: map<string, Json>, expand: bool, ok: string -> bool)
    requires forall t :: t in keys ==> t in messages && ok(t)
    requires TopicsAll(p.nodes, ok)
    ensures TopicsAll(PlaceAll(p, keys, existing, messages, expand).nodes, ok)
    decreases |keys|
  {
    if keys != [] {
      var topic := keys[0];
      if topic in existing {
        ReplaceKeepsTopics(p.nodes, existing[topic], topic, messages[topic], expand, ok);
      } else {
        InsertedMembers(p.nodes, p.previous, Card(p.nextId, topic, [Build(topic, messages[topic], expand)]));
      }
      PlacingKeepsTopics(PlaceOne(p, topic, existing, messages, expand), keys[1..], existing, messages, expand, ok);
    }
  }

  lemma {:induction false} DropPlaceholderMembers(nodes: seq<Node>)
    ensures forall n :: n in DropPlaceholder(nodes) ==> n in nodes
  {
    if nodes != [] && nodes[0].Card? {
      DropPlaceholderMembers(nodes[1..]);
    }
  }

  /** Cards have topics that cards had before, or that were reached. */
  lemma RefreshKeepsTopics(nodes: seq<Node>, nextId: nat, keys: seq<string>, messages: map<string, Json>, expand: bool, ok: string -> bool)
    requires forall t :: t in keys ==> t in messages && ok(t)
    requires TopicsAll(nodes, ok)
    ensures TopicsAll(RefreshTo(nodes, nextId, keys, messages, expand).nodes, ok)
  {
    ExistingHasNoBlank(nodes);
    NamedAfterDrop(nodes, Existing(nodes), messages);
    DropPlaceholderMembers(DropStale(nodes, Existing(nodes), messages));
    PlacingKeepsTopics(Progress(Kept(nodes, messages), None, nextId), keys, Existing(nodes), messages, expand, ok);
  }

  // ---- What a refresh leaves of any container -----------------------------------------------------------

  lemma SplitIsContainer(nodes: seq<Node>, nextId: nat)
    requires Apart(nodes, nextId) && Ordinary(nodes) && Tidy(Named(nodes), nextId)
    ensures Container(nodes, nextId) && AllCards(nodes)
  {
    forall i | 0 <= i < |nodes| ensures nodes[i].Card? {
      assert nodes[i] in nodes;
    }
  }

  lemma RefreshToBlanks(nodes: seq<Node>, nextId: nat, keys: seq<string>, messages: map<string, Json>, expand: bool)
    requires Laid(nodes, nextId) && Sorted(keys) && UpTo(NamedKeys(keys), messages)
    requires forall t :: t in keys ==> t in messages
    ensures var end := RefreshTo(nodes, nextId, keys, messages, expand);
            Apart(end.nodes, end.nextId) && BlankCards(end.nodes) == NewBlank(nextId, keys, messages, expand) + BlankCards(nodes)
  {
    RefreshSplits(nodes, nextId, keys, messages, expand);
  }

  lemma RefreshToTidy(nodes: seq<Node>, nextId: nat, keys: seq<string>, messages: map<string, Json>, expand: bool)
    requires Laid(nodes, nextId) && Sorted(keys) && UpTo(NamedKeys(keys), messages)
    requires forall t :: t in keys ==> t in messages
    ensures var end := RefreshTo(nodes, nextId, keys, messages, expand);
            Tidy(Named(end.nodes), end.nextId)
  {
    var blank := NewBlank(nextId, keys, messages, expand);
    RefreshSplits(nodes, nextId, keys, messages, expand);
    NamedKeysMeaning(keys);
    LaidMeaning(nodes, nextId);
    MergeIsTidy(Named(nodes), NamedKeys(keys), nextId, nextId + |blank|, RefreshTo(nodes, nextId, keys, messages, expand),
                messages, expand);
  }

  lemma RefreshToCards(nodes: seq<Node>, nextId: nat, keys: seq<string>, messages: map<string, Json>, expand: bool)
    requires Laid(nodes, nextId) && Sorted(keys) && UpTo(NamedKeys(keys), messages)
    requires forall t :: t in keys ==> t in messages
    ensures Updated(Named(nodes), Named(RefreshTo(nodes, nextId, keys, messages, expand).nodes), NamedKeys(keys), messages,
                    expand, nextId)
  {
    RefreshMerges(nodes, nextId, keys, messages, expand);
    MergedIsUpdated(nodes, nextId, keys, messages, expand);
  }

  lemma RefreshMerges(nodes: seq<Node>, nextId: nat, keys: seq<string>, messages: map<string, Json>, expand: bool)
    requires Laid(nodes, nextId) && Sorted(keys) && UpTo(NamedKeys(keys), messages)
    requires forall t :: t in keys ==> t in messages
    ensures forall t :: t in NamedKeys(keys) ==> t in messages
    ensures Named(RefreshTo(nodes, nextId, keys, messages, expand).nodes)
            == Merge(Surviving(Named(nodes), messages), NamedKeys(keys), nextId + |NewBlank(nextId, keys, messages, expand)|,
                     messages, expand)
  {
    RefreshSplits(nodes, nextId, keys, messages, expand);
  }

  lemma MergedIsUpdated(nodes: seq<Node>, nextId: nat, keys: seq<string>, messages: map<string, Json>, expand: bool)
    requires Laid(nodes, nextId) && Sorted(keys) && UpTo(NamedKeys(keys), messages)
    requires forall t :: t in keys ==> t in messages
    ensures forall t :: t in NamedKeys(keys) ==> t in messages
    ensures Updated(Named(nodes),
                    Merge(Surviving(Named(nodes), messages), NamedKeys(keys), nextId + |NewBlank(nextId, keys, messages, expand)|,
                          messages, expand),
                    NamedKeys(keys), messages, expand, nextId)
  {
    NamedKeysMeaning(keys);
    LaidMeaning(nodes, nextId);
    MergeUpdates(Named(nodes), NamedKeys(keys), nextId, nextId + |NewBlank(nextId, keys, messages, expand)|, messages, expand);
  }

  /** A refresh over `keys`, which are all the topics up to some point and no inherited names. */
  lemma RefreshToUpdates(nodes: seq<Node>, nextId: nat, keys: seq<string>, messages: map<string, Json>, expand: bool)
    requires Container(nodes, nextId) && Sorted(keys) && UpTo(NamedKeys(keys), messages)
    requires forall t :: t in keys ==> t in messages && t !in INHERITED
    ensures var end := RefreshTo(nodes, nextId, keys, messages, expand);
            && Container(end.nodes, end.nextId) && AllCards(end.nodes)
            && Updated(Named(nodes), Named(end.nodes), NamedKeys(keys), messages, expand, nextId)
            && BlankCards(end.nodes) == NewBlank(nextId, keys, messages, expand) + BlankCards(nodes)
  {
    var end := RefreshTo(nodes, nextId, keys, messages, expand);
    RefreshToBlanks(nodes, nextId, keys, messages, expand);
    RefreshToTidy(nodes, nextId, keys, messages, expand);
    RefreshToCards(nodes, nextId, keys, messages, expand);
    RefreshToOrdinary(nodes, nextId, keys, messages, expand);
    SplitIsContainer(end.nodes, end.nextId);
  }

  lemma RefreshToOrdinary(nodes: seq<Node>, nextId: nat, keys: seq<string>, messages: map<string, Json>, expand: bool)
    requires Container(nodes, nextId) && forall t :: t in keys ==> t in messages && t !in INHERITED
    ensures Ordinary(RefreshTo(nodes, nextId, keys, messages, expand).nodes)
  {
    RefreshKeepsTopics(nodes, nextId, keys, messages, expand, t => t !in INHERITED);
  }

  lemma MergeIsTidy(cards: seq<Node>, names: seq<string>, nextId: nat, first: nat, end: Progress, messages: map<string, Json>, expand: bool)
    requires Tidy(cards, nextId) && nextId <= first && Sorted(names)
    requires UpTo(names, messages) && forall t :: t in names ==> t in messages
    requires Named(end.nodes) == Merge(Surviving(cards, messages), names, first, messages, expand)
    requires DistinctIds(Named(end.nodes)) && IdsBelow(Named(end.nodes), end.nextId)
    ensures Tidy(Named(end.nodes), end.nextId)
  {
    TidyTail(cards, nextId, first);
    SurvivingMeaning(cards, messages, first);
    SurvivorsAreNamed(cards, Existing(cards), messages, names, first);
    MergeIsSorted(Surviving(cards, messages), names, first, messages, expand);
    NamedMeaning(end.nodes);
    var named := Named(end.nodes);
    forall i | 0 <= i < |named| ensures named[i].topic != "" {
      assert named[i] in named;
    }
  }

  /** A refresh of any container that refreshes leave, with any messages. It throws exactly when some topic
      is an inherited name. The cards with a topic then are: one per key before the first such name, in
      sorted order, with the latest message, earlier cards still the same elements with the same nodes open;
      and behind them, untouched, the cards of later topics. There are none of those if it does not throw.
      The cards of the empty topic are those there were, behind a new one if there is a message of that
      topic. No card ever has an inherited name for its topic. */
  lemma RefreshOfAnyContainer(nodes: seq<Node>, nextId: nat, keys: seq<string>, messages: map<string, Json>, expand: bool)
    requires Container(nodes, nextId) && Sorted(keys) && keys != []
    requires forall t :: t in keys <==> t in messages
    ensures Refresh(nodes, nextId, keys, messages, expand).1 <==> exists t :: t in keys && t in INHERITED
    ensures !Refresh(nodes, nextId, keys, messages, expand).1 ==> Reached(keys, map[]) == keys
    ensures var (end, threw), reached := Refresh(nodes, nextId, keys, messages, expand), Reached(keys, map[]);
            && (forall t :: t in reached ==> t in messages)
            && Container(end.nodes, end.nextId) && AllCards(end.nodes)
            && Updated(Named(nodes), Named(end.nodes), NamedKeys(reached), messages, expand, nextId)
            && (!threw ==> |Named(end.nodes)| == |NamedKeys(keys)|)
            && BlankCards(end.nodes) == NewBlank(nextId, reached, messages, expand) + BlankCards(nodes)
  {
    var reached := Reached(keys, map[]);
    ReachedCovers(keys, messages);
    ReachedMeaning(keys, map[]);
    ReachesAllIff(keys);
    RefreshReaches(nodes, nextId, keys, messages, expand);
    RefreshToUpdates(nodes, nextId, reached, messages, expand);
    if reached == keys { NothingUntouched(nodes, nextId, keys, messages); }
  }

  lemma NothingUntouched(nodes: seq<Node>, nextId: nat, keys: seq<string>, messages: map<string, Json>)
    requires Laid(nodes, nextId) && Sorted(keys) && forall t :: t in keys <==> t in messages
    ensures Untouched(Surviving(Named(nodes), messages), NamedKeys(keys)) == []
  {
    var rest := Surviving(Named(nodes), messages);
    LaidMeaning(nodes, nextId);
    SurvivingMeaning(Named(nodes), messages, nextId);
    NamedKeysMeaning(keys);
    forall i | 0 <= i < |rest| ensures rest[i].Card? && rest[i].topic in NamedKeys(keys) {
      assert rest[i] in rest;
    }
    NoneUntouched(rest, NamedKeys(keys));
  }

  // ---- Exactly when a refresh shows exactly the topics ----------------------------------------------------

  lemma {:induction false} FrontBlankStays(p: Progress, q: Progress, keys: seq<string>, existing: map<string, nat>, messages: map<string, Json>, expand: bool)
    requires Projects(p, q, existing) && forall t :: t in keys ==> t in messages && t != ""
    requires p.previous.Some? && p.nodes != [] && IsBlank(p.nodes[0])
    ensures PlaceAll(p, keys, existing, messages, expand).nodes != []
    ensures PlaceAll(p, keys, existing, messages, expand).nodes[0] == p.nodes[0]
    decreases |keys|
  {
    if keys != [] {
      var topic := keys[0];
      assert forall t :: t in keys[1..] ==> t in keys;
      if topic in existing {
        assert BlanksAvoid(p.nodes, existing[topic]) && p.nodes[0] in p.nodes;
        ProjectOld(p, q, topic, existing, messages, expand);
      } else {
        ProjectNew(p, q, topic, existing, messages, expand);
      }
      FrontBlankStays(PlaceOne(p, topic, existing, messages, expand), PlaceOne(q, topic, existing, messages, expand),
                      keys[1..], existing, messages, expand);
    }
  }

  /** A new card of the empty topic stays in front. */
  lemma NewBlankIsFirst(nodes: seq<Node>, nextId: nat, keys: seq<string>, messages: map<string, Json>, expand: bool)
    requires Laid(nodes, nextId) && Sorted(keys) && keys != [] && keys[0] == ""
    requires forall t :: t in keys ==> t in messages
    ensures var end := RefreshTo(nodes, nextId, keys, messages, expand);
            end.nodes != [] && [end.nodes[0]] == NewBlank(nextId, keys, messages, expand)
  {
    var blank := NewBlank(nextId, keys, messages, expand);
    var p := LoopStart(Kept(nodes, messages), nextId, blank);
    NamedKeysMeaning(keys);
    LoopReady(nodes, nextId, keys, messages, expand);
    RefreshFromStart(nodes, nextId, keys, messages, expand);
    FrontBlankStays(p, Progress(Surviving(Named(nodes), messages), None, nextId + |blank|), NamedKeys(keys),
                    Existing(nodes), messages, expand);
  }

  lemma OneBlankInFront(nodes: seq<Node>)
    requires AllCards(nodes) && nodes != [] && IsBlank(nodes[0]) && BlankCards(nodes) == [nodes[0]]
    ensures nodes[1..] == Named(nodes)
  {
    var first, rest := nodes[0], nodes[1..];
    assert nodes == [first] + rest;
    NamedCons(first, rest);
    assert BlankCards(rest) == [first][1..] by { assert ([first] + BlankCards(rest))[1..] == BlankCards(rest); }
    assert AllCards(rest);
    NamedMeaning(rest);
  }

  /** Incremental refreshing equals rebuilding, if no topic is an inherited name and the container has no
      card of the empty topic: there is exactly one card per key, in sorted order; each shows the latest
      message; and cards of topics that were shown before are still the same elements with the same nodes
      open. */
  lemma RefreshEqualsRebuild(nodes: seq<Node>, nextId: nat, keys: seq<string>, messages: map<string, Json>, expand: bool)
    requires Container(nodes, nextId) && BlankCards(nodes) == [] && Sorted(keys) && keys != []
    requires forall t :: t in keys <==> t in messages
    requires forall t :: t in keys ==> t !in INHERITED
    ensures var (end, threw) := Refresh(nodes, nextId, keys, messages, expand);
            && !threw && AllCards(end.nodes) && Topics(end.nodes) == keys
            && forall i :: 0 <= i < |keys| ==>
                 ShowsLatest(Named(nodes), end.nodes[i], keys[i], messages[keys[i]], expand, nextId)
  {
    var after := Refresh(nodes, nextId, keys, messages, expand).0.nodes;
    RefreshOfAnyContainer(nodes, nextId, keys, messages, expand);
    if keys[0] == "" {
      FirstIsNewBlank(nodes, nextId, keys, messages, expand);
      OneBlankInFront(after);
      BlankShowsLatest(nodes, nextId, messages, expand);
      ShowsAll(Named(nodes), after, keys, messages, expand, nextId);
    } else {
      NamedMeaning(after);
      ShowsAll(Named(nodes), after, keys, messages, expand, nextId);
    }
  }

  lemma ShowsAll(before: seq<Node>, after: seq<Node>, keys: seq<string>, messages: map<string, Json>, expand: bool, nextId: nat)
    requires keys != [] && (keys[0] == "" ==> "" in messages)
    requires if keys[0] == "" then
               after != [] && ShowsLatest(before, after[0], "", messages[""], expand, nextId)
               && Updated(before, after[1..], keys[1..], messages, expand, nextId) && |after| == |keys|
             else Updated(before, after, keys, messages, expand, nextId) && |after| == |keys|
    ensures AllCards(after) && Topics(after) == keys
    ensures forall i :: 0 <= i < |keys| ==>
              keys[i] in messages && ShowsLatest(before, after[i], keys[i], messages[keys[i]], expand, nextId)
  {
    forall i | 0 <= i < |keys|
      ensures keys[i] in messages && ShowsLatest(before, after[i], keys[i], messages[keys[i]], expand, nextId)
    {
      if keys[0] == "" && i > 0 {
        assert after[i] == after[1..][i - 1] && keys[i] == keys[1..][i - 1];
      }
    }
    assert Topics(after) == keys;
  }

  lemma FirstIsNewBlank(nodes: seq<Node>, nextId: nat, keys: seq<string>, messages: map<string, Json>, expand: bool)
    requires Container(nodes, nextId) && Sorted(keys) && keys != [] && keys[0] == ""
    requires forall t :: t in keys <==> t in messages
    requires forall t :: t in keys ==> t !in INHERITED
    ensures var after := Refresh(nodes, nextId, keys, messages, expand).0.nodes;
            after != [] && [after[0]] == NewBlank(nextId, keys, messages, expand)
  {
    ReachesAllIff(keys);
    RefreshReaches(nodes, nextId, keys, messages, expand);
    NewBlankIsFirst(nodes, nextId, keys, messages, expand);
  }

  lemma BlankShowsLatest(nodes: seq<Node>, nextId: nat, messages: map<string, Json>, expand: bool)
    requires "" in messages
    ensures ShowsLatest(Named(nodes), Card(nextId, "", [Build("", messages[""], expand)]), "", messages[""], expand, nextId)
  {
    var cards := Named(nodes);
    NamedMeaning(nodes);
    forall i | 0 <= i < |cards| ensures cards[i].topic != "" {
      assert cards[i] in cards;
    }
    NewShowsLatest(Named(nodes), "", messages[""], expand, nextId);
  }

  /** A refresh shows exactly the topics, one card each, if and only if no topic is an inherited name and the
      container had no card of the empty topic. */
  lemma RefreshIsExactIff(nodes: seq<Node>, nextId: nat, keys: seq<string>, messages: map<string, Json>, expand: bool)
    requires Container(nodes, nextId) && Sorted(keys) && keys != []
    requires forall t :: t in keys <==> t in messages
    ensures var after := Refresh(nodes, nextId, keys, messages, expand).0.nodes;
            AllCards(after) && Topics(after) == keys
            <==> (forall t :: t in keys ==> t !in INHERITED) && BlankCards(nodes) == []
  {
    var after := Refresh(nodes, nextId, keys, messages, expand).0.nodes;
    if AllCards(after) && Topics(after) == keys {
      ExactMeansOrdinary(nodes, nextId, keys, messages, expand);
      BlankCardsPileUp(nodes, nextId, keys, messages, expand);
      BlanksAreBlankTopics(after);
    } else if (forall t :: t in keys ==> t !in INHERITED) && BlankCards(nodes) == [] {
      RefreshEqualsRebuild(nodes, nextId, keys, messages, expand);
    }
  }

  lemma ExactMeansOrdinary(nodes: seq<Node>, nextId: nat, keys: seq<string>, messages: map<string, Json>, expand: bool)
    requires Container(nodes, nextId) && Sorted(keys) && keys != []
    requires forall t :: t in keys <==> t in messages
    requires var after := Refresh(nodes, nextId, keys, messages, expand).0.nodes;
             AllCards(after) && Topics(after) == keys
    ensures forall t :: t in keys ==> t !in INHERITED
  {
    var after := Refresh(nodes, nextId, keys, messages, expand).0.nodes;
    RefreshOfAnyContainer(nodes, nextId, keys, messages, expand);
    forall t | t in keys ensures t !in INHERITED {
      var i :| 0 <= i < |keys| && keys[i] == t;
      assert after[i].topic == Topics(after)[i] && after[i] in after;
    }
  }

  // ---- What the cards show ---------------------------------------------------------------------------------

  /** The card shows `message`, all of it and nothing else, under the name of `topic`. */
  ghost predicate Displays(n: Node, topic: string, message: Json) {
    && n.Card? && n.topic == topic && |n.tree| == 1 && n.tree[0].caption == topic
    && forall path :: ShowsAt(n.tree[0], message, path)
  }

  lemma SameShapeDisplays(n: Node, topic: string, message: Json, expand: bool)
    requires n.Card? && n.topic == topic && Shape(n.tree) == Shape([Build(topic, message, expand)])
    ensures Displays(n, topic, message)
  {
    var built := Build(topic, message, expand);
    assert |n.tree| == 1 by { assert |Shape(n.tree)| == |Shape([built])| == 1; }
    ShapeAt(n.tree, 0);
    ShapeAt([built], 0);
    BuildRepresents(topic, message, expand);
    forall path ensures ShowsAt(built, message, path) {
      BuildShowsTheValue(topic, message, expand, path);
    }
    forall path ensures ShowsAt(n.tree[0], message, path) {
      SameShapeShows(built, n.tree[0], message, path);
    }
  }

  /** Some card displays the message of `topic`. */
  ghost predicate Displayed(nodes: seq<Node>, topic: string, message: Json) {
    exists n :: n in nodes && Displays(n, topic, message)
  }

  /** After a refresh every topic it got to has a card that shows its latest message in full. */
  lemma RefreshDisplays(nodes: seq<Node>, nextId: nat, keys: seq<string>, messages: map<string, Json>, expand: bool, topic: string)
    requires Container(nodes, nextId) && Sorted(keys) && keys != []
    requires forall t :: t in keys <==> t in messages
    requires topic in Reached(keys, map[])
    ensures topic in messages && Displayed(Refresh(nodes, nextId, keys, messages, expand).0.nodes, topic, messages[topic])
  {
    var after, reached := Refresh(nodes, nextId, keys, messages, expand).0.nodes, Reached(keys, map[]);
    RefreshOfAnyContainer(nodes, nextId, keys, messages, expand);
    ReachedCovers(keys, messages);
    NamedKeysMeaning(reached);
    NamedMeaning(after);
    if topic == "" {
      FirstIsEmpty(reached);
      var card := NewBlank(nextId, reached, messages, expand)[0];
      assert card in BlankCards(after);
      SameShapeDisplays(card, "", messages[""], expand);
    } else {
      var names := NamedKeys(reached);
      var i :| 0 <= i < |names| && names[i] == topic;
      var card := Named(after)[i];
      assert card in Named(after);
      SameShapeDisplays(card, topic, messages[topic], expand);
    }
  }

  ghost predicate AllDisplayed(nodes: seq<Node>, topics: seq<string>, messages: map<string, Json>) {
    forall t :: t in topics ==> t in messages && Displayed(nodes, t, messages[t])
  }

  lemma RefreshDisplaysAll(nodes: seq<Node>, nextId: nat, keys: seq<string>, messages: map<string, Json>, expand: bool)
    requires Container(nodes, nextId) && Sorted(keys) && keys != []
    requires forall t :: t in keys <==> t in messages
    ensures AllDisplayed(Refresh(nodes, nextId, keys, messages, expand).0.nodes, Reached(keys, map[]), messages)
  {
    var after := Refresh(nodes, nextId, keys, messages, expand).0.nodes;
    forall t | t in Reached(keys, map[]) ensures t in messages && Displayed(after, t, messages[t]) {
      RefreshDisplays(nodes, nextId, keys, messages, expand, t);
    }
  }

  lemma FirstIsEmpty(keys: seq<string>)
    requires Sorted(keys) && "" in keys
    ensures keys[0] == ""
  {
    var i :| 0 <= i < |keys| && keys[i] == "";
    if i > 0 { SortedAt(keys, 0, i); }
  }

  /** What a refresh promises about topics alone. */
  lemma RefreshShowsTopics(nodes: seq<Node>, nextId: nat, keys: seq<string>, messages: map<string, Json>, expand: bool)
    requires Container(nodes, nextId) && TopicsAll(nodes, t => t in messages) && Sorted(keys) && keys != []
    requires forall t :: t in keys <==> t in messages
    ensures var (end, threw) := Refresh(nodes, nextId, keys, messages, expand);
            && Container(end.nodes, end.nextId) && AllCards(end.nodes) && TopicsAll(end.nodes, t => t in messages)
            && ShowsTopics(Named(end.nodes), NamedKeys(Reached(keys, map[])))
            && (!threw ==> |Named(end.nodes)| == |NamedKeys(keys)|)
            && (threw <==> exists t :: t in keys && t in INHERITED)
    ensures var after := Refresh(nodes, nextId, keys, messages, expand).0.nodes;
            AllCards(after) && Topics(after) == keys
            <==> (forall t :: t in keys ==> t !in INHERITED) && BlankCards(nodes) == []
  {
    RefreshOfAnyContainer(nodes, nextId, keys, messages, expand);
    RefreshIsExactIff(nodes, nextId, keys, messages, expand);
    RefreshTopicsAreKeys(nodes, nextId, keys, messages, expand);
  }

  lemma RefreshTopicsAreKeys(nodes: seq<Node>, nextId: nat, keys: seq<string>, messages: map<string, Json>, expand: bool)
    requires Container(nodes, nextId) && TopicsAll(nodes, t => t in messages) && keys != []
    requires forall t :: t in keys ==> t in messages
    ensures TopicsAll(Refresh(nodes, nextId, keys, messages, expand).0.nodes, t => t in messages)
  {
    RefreshReaches(nodes, nextId, keys, messages, expand);
    RefreshKeepsTopics(nodes, nextId, Reached(keys, map[]), messages, expand, t => t in messages);
  }

  // ---- The inputs that fail ---------------------------------------------------------------------------------

  /** The first refresh, with one message, throws for exactly these topics, and then it has made no card. */
  lemma InheritedNameThrows(topic: string, message: Json, expand: bool)
    ensures var (end, threw) := Refresh([], 0, [topic], map[topic := message], expand);
            && (threw <==>
                  || topic == "constructor" || topic == "hasOwnProperty" || topic == "isPrototypeOf"
                  || topic == "propertyIsEnumerable" || topic == "toLocaleString" || topic == "toString" || topic == "valueOf"
                  || topic == "__defineGetter__" || topic == "__defineSetter__" || topic == "__lookupGetter__"
                  || topic == "__lookupSetter__" || topic == "__proto__")
            && (threw ==> end == Progress([], None, 0))
            && (!threw ==> end.nodes == [Card(0, topic, [Build(topic, message, expand)])])
  {
    var messages := map[topic := message];
    var p := Progress([], None, 0);
    assert Kept([], messages) == [] && Existing([]) == map[];
    assert [topic][1..] == [];
    assert PlaceUntilThrow(p, [topic], map[], messages, expand)
        == if topic in INHERITED then (p, true) else (PlaceOne(p, topic, map[], messages, expand), false);
    assert [Card(0, topic, [Build(topic, message, expand)])] + [] == [Card(0, topic, [Build(topic, message, expand)])];
  }

  /** The input that fails: an empty container, refreshed twice with one message of the empty topic, has
      two cards of it. */
  lemma EmptyTopicTwice(message: Json, expand: bool)
    ensures var messages := map["" := message];
            var once := Refresh([], 0, [""], messages, expand).0;
            var twice := Refresh(once.nodes, once.nextId, [""], messages, expand).0;
            && AllCards(twice.nodes) && Topics(twice.nodes) == ["", ""] && twice.nodes[0].id != twice.nodes[1].id
  {
    var messages := map["" := message];
    var first := Card(0, "", [Build("", message, expand)]);
    var second := Card(1, "", [Build("", message, expand)]);
    FirstOfTheEmptyTopic([], 0, messages, expand);
    assert [first] + [] == [first];
    FirstOfTheEmptyTopic([first], 1, messages, expand);
    assert Topics([second, first]) == ["", ""];
    assert [second] + [first] == [second, first];
  }

  lemma FirstOfTheEmptyTopic(nodes: seq<Node>, nextId: nat, messages: map<string, Json>, expand: bool)
    requires messages.Keys == {""} && (forall n :: n in nodes ==> IsBlank(n))
    ensures Refresh(nodes, nextId, [""], messages, expand)
            == (Progress([Card(nextId, "", [Build("", messages[""], expand)])] + nodes, Some(nextId), nextId + 1), false)
  {
    ExistingHasNoBlank(nodes);
    BlanksAreKept(nodes, messages);
    OnlyTheEmptyTopic(Progress(nodes, None, nextId), Existing(nodes), messages, expand);
  }

  lemma OnlyTheEmptyTopic(p: Progress, existing: map<string, nat>, messages: map<string, Json>, expand: bool)
    requires "" in messages && "" !in existing
    ensures PlaceUntilThrow(p, [""], existing, messages, expand) == (PlaceOne(p, "", existing, messages, expand), false)
  {
    assert [""][1..] == [];
  }

  lemma BlanksAreKept(nodes: seq<Node>, messages: map<string, Json>)
    requires "" in messages && forall n :: n in nodes ==> IsBlank(n)
    ensures Kept(nodes, messages) == nodes
  {
    forall i | 0 <= i < |nodes| ensures nodes[i].Card? ==> nodes[i].topic in messages {
      assert nodes[i] in nodes;
    }
    NothingIsStale(nodes, Existing(nodes), messages);
    NothingToDrop(nodes);
  }

  lemma {:induction false} NothingIsStale(nodes: seq<Node>, existing: map<string, nat>, messages: map<string, Json>)
    requires forall i :: 0 <= i < |nodes| && nodes[i].Card? ==> nodes[i].topic in messages
    ensures DropStale(nodes, existing, messages) == nodes
  {
    if nodes != [] {
      NothingIsStale(nodes[1..], existing, messages);
    }
  }
}
