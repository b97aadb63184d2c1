/** A refresh of the page's list of message cards, which is updated in place on every message. */
module Cards {
  import opened Common
  import opened TopicOrder
  import opened Trees

  /** A child of the container. `id` tells elements apart; `tree` is the card's content. */
  datatype Node = Placeholder | Card(id: nat, topic: string, tree: seq<Tree>)

  // ---- The steps of a refresh ------------------------------------------------------------

  /** The map from topic to card that the refresh starts with; a card without a topic is not in it. */
  function Existing(nodes: seq<Node>): map<string, nat> {
    if nodes == [] then map[]
    else
      var before, node := Existing(nodes[..|nodes| - 1]), nodes[|nodes| - 1];
      if node.Card? && node.topic != "" then before[node.topic := node.id] else before
  }

  predicate IsStale(node: Node, existing: map<string, nat>, messages: map<string, Json>) {
    node.Card? && node.topic in existing && existing[node.topic] == node.id && node.topic !in messages
  }

  function DropStale(nodes: seq<Node>, existing: map<string, nat>, messages: map<string, Json>): seq<Node> {
    if nodes == [] then []
    else (if IsStale(nodes[0], existing, messages) then [] else [nodes[0]]) + DropStale(nodes[1..], existing, messages)
  }

  function DropPlaceholder(nodes: seq<Node>): seq<Node> {
    if nodes == [] then []
    else if nodes[0].Placeholder? then nodes[1..]
    else [nodes[0]] + DropPlaceholder(nodes[1..])
  }

  /** A card's new content: the new tree, with the flags of the old one. */
  function Refreshed(card: Node, topic: string, message: Json, expand: bool): Node
    requires card.Card?
  {
    card.(tree := RestoreOpenPaths([Build(topic, message, expand)], CollectOpenPaths(card.tree)))
  }

  function Replace(nodes: seq<Node>, id: nat, topic: string, message: Json, expand: bool): seq<Node> {
    if nodes == [] then []
    else
      (if nodes[0].Card? && nodes[0].id == id then [Refreshed(nodes[0], topic, message, expand)] else [nodes[0]])
      + Replace(nodes[1..], id, topic, message, expand)
  }

  /** Right after the element `previous`, or in front if there is none yet. */
  function InsertAfter(nodes: seq<Node>, previous: Option<nat>, card: Node): seq<Node> {
    if previous.None? then [card] + nodes
    else if nodes == [] then [card]
    else if nodes[0].Card? && nodes[0].id == previous.value then [nodes[0], card] + nodes[1..]
    else [nodes[0]] + InsertAfter(nodes[1..], previous, card)
  }

  datatype Progress = Progress(nodes: seq<Node>, previous: Option<nat>, nextId: nat)

  function PlaceOne(p: Progress, topic: string, existing: map<string, nat>, messages: map<string, Json>, expand: bool): Progress
    requires topic in messages
  {
    if topic in existing then
      Progress(Replace(p.nodes, existing[topic], topic, messages[topic], expand), Some(existing[topic]), p.nextId)
    else
      var card := Card(p.nextId, topic, [Build(topic, messages[topic], expand)]);
      Progress(InsertAfter(p.nodes, p.previous, card), Some(p.nextId), p.nextId + 1)
  }

  function PlaceAll(p: Progress, keys: seq<string>, existing: map<string, nat>, messages: map<string, Json>, expand: bool): Progress
    requires forall t :: t in keys ==> t in messages
    decreases |keys|
  {
    if keys == [] then p
    else PlaceAll(PlaceOne(p, keys[0], existing, messages, expand), keys[1..], existing, messages, expand)
  }

  /** What every plain object inherits. Looking up one of these names in the object of existing cards
      finds something that is not a card, unless there is a card of that name. */
  const INHERITED := {
    "constructor", "hasOwnProperty", "isPrototypeOf", "propertyIsEnumerable", "toLocaleString", "toString",
    "valueOf", "__defineGetter__", "__defineSetter__", "__lookupGetter__", "__lookupSetter__", "__proto__" }

  /** Placing `topic` throws: what was found under it has no `querySelector`. */
  predicate Throws(topic: string, existing: map<string, nat>) {
    topic !in existing && topic in INHERITED
  }

  /** The loop as it is coded, and whether it threw. */
  function PlaceUntilThrow(p: Progress, keys: seq<string>, existing: map<string, nat>, messages: map<string, Json>, expand: bool): (Progress, bool)
    requires forall t :: t in keys ==> t in messages
    decreases |keys|
  {
    if keys == [] then (p, false)
    else if Throws(keys[0], existing) then (p, true)
    else PlaceUntilThrow(PlaceOne(p, keys[0], existing, messages, expand), keys[1..], existing, messages, expand)
  }

  /** The children the loop starts with: stale cards and the placeholder are gone. */
  function Kept(nodes: seq<Node>, messages: map<string, Json>): seq<Node> {
    DropPlaceholder(DropStale(nodes, Existing(nodes), messages))
  }

  /** The whole refresh; `keys` are the sorted topics. */
  function Refresh(nodes: seq<Node>, nextId: nat, keys: seq<string>, messages: map<string, Json>, expand: bool): (Progress, bool)
    requires forall t :: t in keys ==> t in messages
  {
    if keys == [] then (Progress([Placeholder], None, nextId), false)
    else PlaceUntilThrow(Progress(Kept(nodes, messages), None, nextId), keys, Existing(nodes), messages, expand)
  }

  /** The keys before the first that throws. */
  function Reached(keys: seq<string>, existing: map<string, nat>): seq<string> {
    if keys == [] || Throws(keys[0], existing) then [] else [keys[0]] + Reached(keys[1..], existing)
  }

  lemma {:induction false} ReachedMeaning(keys: seq<string>, existing: map<string, nat>)
    ensures var n := |Reached(keys, existing)|;
            n <= |keys| && Reached(keys, existing) == keys[..n] && (n < |keys| ==> Throws(keys[n], existing))
    ensures forall t :: t in Reached(keys, existing) ==> t in keys && !Throws(t, existing)
  {
    if keys != [] && !Throws(keys[0], existing) {
      ReachedMeaning(keys[1..], existing);
      var n := |Reached(keys[1..], existing)|;
      assert keys == [keys[0]] + keys[1..] && [keys[0]] + keys[1..][..n] == keys[..n + 1];
    }
  }

  /** The loop does what a loop that never throws does over the keys before the first that throws. */
  lemma {:induction false} PlacingStopsAtThrow(p: Progress, keys: seq<string>, existing: map<string, nat>, messages: map<string, Json>, expand: bool)
    requires forall t :: t in keys ==> t in messages
    ensures forall t :: t in Reached(keys, existing) ==> t in messages
    ensures PlaceUntilThrow(p, keys, existing, messages, expand)
            == (PlaceAll(p, Reached(keys, existing), existing, messages, expand), |Reached(keys, existing)| < |keys|)
    decreases |keys|
  {
    ReachedMeaning(keys, existing);
    if keys != [] && !Throws(keys[0], existing) {
      PlacingStopsAtThrow(PlaceOne(p, keys[0], existing, messages, expand), keys[1..], existing, messages, expand);
      assert Reached(keys, existing)[1..] == Reached(keys[1..], existing);
    }
  }

  // ---- What a refresh should leave ---------------------------------------------------------

  function Topics(cards: seq<Node>): (ts: seq<string>)
    requires forall i :: 0 <= i < |cards| ==> cards[i].Card?
    ensures |ts| == |cards|
  {
    seq(|cards|, i requires 0 <= i < |cards| => cards[i].topic)
  }

  predicate AllCards(nodes: seq<Node>) {
    forall i :: 0 <= i < |nodes| ==> nodes[i].Card?
  }

  /** Cards of earlier refreshes: in strict topic order, each with a topic, made before `nextId`. */
  predicate Tidy(cards: seq<Node>, nextId: nat) {
    && AllCards(cards) && Sorted(Topics(cards))
    && (forall i :: 0 <= i < |cards| ==> cards[i].topic != "" && cards[i].id < nextId)
    && (forall i, j :: 0 <= i < j < |cards| ==> cards[i].id != cards[j].id)
  }

  predicate HasTopic(cards: seq<Node>, topic: string) {
    exists i :: 0 <= i < |cards| && cards[i].Card? && cards[i].topic == topic
  }

  /** The new list written down from the old cards and the messages: one card per key, the old card
      where there is one, and then the old cards of later topics as they are. */
  function Merge(cards: seq<Node>, keys: seq<string>, nextId: nat, messages: map<string, Json>, expand: bool): seq<Node>
    requires forall t :: t in keys ==> t in messages
    decreases |keys|
  {
    if keys == [] then cards
    else if cards != [] && cards[0].Card? && cards[0].topic == keys[0] then
      [Refreshed(cards[0], keys[0], messages[keys[0]], expand)] + Merge(cards[1..], keys[1..], nextId, messages, expand)
    else
      [Card(nextId, keys[0], [Build(keys[0], messages[keys[0]], expand)])]
      + Merge(cards, keys[1..], nextId + 1, messages, expand)
  }

  /** Every topic of `cards` is a key still to come, or comes after all keys. */
  predicate Pending(cards: seq<Node>, keys: seq<string>) {
    forall i :: 0 <= i < |cards| && cards[i].Card? ==> cards[i].topic in keys || Past(cards[i].topic, keys)
  }

  /** `existing` names exactly the cards of `cards`, as far as `keys` go. */
  predicate Names(existing: map<string, nat>, cards: seq<Node>, keys: seq<string>) {
    && (forall i :: 0 <= i < |cards| && cards[i].Card? ==> cards[i].topic in existing && existing[cards[i].topic] == cards[i].id)
    && (forall t :: t in keys && t in existing ==> HasTopic(cards, t))
  }

  predicate NoneHasId(nodes: seq<Node>, id: nat) {
    forall i :: 0 <= i < |nodes| && nodes[i].Card? ==> nodes[i].id != id
  }

  predicate EndsWith(done: seq<Node>, previous: Option<nat>) {
    if done == [] then previous == None
    else
      && done[|done| - 1].Card? && previous == Some(done[|done| - 1].id)
      && NoneHasId(done[..|done| - 1], done[|done| - 1].id)
  }

  lemma {:induction false} ReplaceElsewhere(nodes: seq<Node>, id: nat, topic: string, message: Json, expand: bool)
    requires NoneHasId(nodes, id)
    ensures Replace(nodes, id, topic, message, expand) == nodes
  {
    if nodes != [] {
      ReplaceElsewhere(nodes[1..], id, topic, message, expand);
    }
  }

  lemma {:induction false} ReplaceSplit(a: seq<Node>, b: seq<Node>, id: nat, topic: string, message: Json, expand: bool)
    ensures Replace(a + b, id, topic, message, expand)
            == Replace(a, id, topic, message, expand) + Replace(b, id, topic, message, expand)
  {
    if a == [] {
      assert a + b == b;
    } else {
      assert (a + b)[1..] == a[1..] + b;
      ReplaceSplit(a[1..], b, id, topic, message, expand);
    }
  }

  lemma {:induction false} InsertPast(front: seq<Node>, tail: seq<Node>, id: nat, card: Node)
    requires NoneHasId(front, id)
    ensures InsertAfter(front + tail, Some(id), card) == front + InsertAfter(tail, Some(id), card)
  {
    if front == [] {
      assert front + tail == tail;
    } else {
      assert (front + tail)[1..] == front[1..] + tail;
      InsertPast(front[1..], tail, id, card);
    }
  }

  lemma InsertAtBoundary(done: seq<Node>, rest: seq<Node>, previous: Option<nat>, card: Node)
    requires EndsWith(done, previous)
    ensures InsertAfter(done + rest, previous, card) == done + [card] + rest
  {
    if done == [] {
      assert done + rest == rest;
    } else {
      var front, last := done[..|done| - 1], done[|done| - 1];
      SplitAtLast(done, card, rest);
      InsertPast(front, [last] + rest, last.id, card);
      assert InsertAfter([last] + rest, previous, card) == [last, card] + ([last] + rest)[1..];
    }
  }

  lemma SplitAtLast(done: seq<Node>, card: Node, rest: seq<Node>)
    requires done != []
    ensures var front, last := done[..|done| - 1], done[|done| - 1];
            && done + rest == front + ([last] + rest)
            && ([last] + rest)[1..] == rest
            && done + [card] + rest == front + ([last, card] + rest)
  {}

  /** In a sorted list, the smallest key to come is the first card's topic or no card's at all. */
  lemma NextKeyIsFirst(cards: seq<Node>, keys: seq<string>, nextId: nat)
    requires Tidy(cards, nextId) && Sorted(keys) && keys != [] && Pending(cards, keys)
    ensures HasTopic(cards, keys[0]) ==> cards[0].topic == keys[0]
    ensures forall i :: 0 < i < |cards| ==> cards[i].topic != keys[0]
    ensures var rest := if cards != [] && cards[0].topic == keys[0] then cards[1..] else cards;
            Pending(rest, keys[1..])
  {
    forall i | 0 < i < |cards| ensures cards[i].topic != keys[0] {
      LaterCardIsLater(cards, keys, nextId, i);
    }
    forall i | 0 < i < |cards| || (i == 0 && cards != [] && cards[0].topic != keys[0])
      ensures cards[i].topic in keys[1..] || Past(cards[i].topic, keys[1..])
    {
      assert cards[i].topic in keys || Past(cards[i].topic, keys);
      if cards[i].topic !in keys { PastFirst(cards[i].topic, keys); }
    }
  }

  lemma CardsAt(cards: seq<Node>, nextId: nat, i: nat, j: nat)
    requires Tidy(cards, nextId) && i < j < |cards|
    ensures Less(cards[i].topic, cards[j].topic) && cards[i].topic != cards[j].topic
  {
    SortedAt(Topics(cards), i, j);
  }

  lemma LaterCardIsLater(cards: seq<Node>, keys: seq<string>, nextId: nat, i: nat)
    requires Tidy(cards, nextId) && Sorted(keys) && keys != [] && Pending(cards, keys) && 0 < i < |cards|
    ensures cards[i].topic != keys[0]
  {
    var first, topic := cards[0].topic, cards[i].topic;
    CardsAt(cards, nextId, 0, i);
    if first != keys[0] {
      if first in keys {
        var j :| 0 <= j < |keys| && keys[j] == first;
        SortedAt(keys, 0, j);
      } else {
        PastFirst(first, keys);
      }
      LessIsTransitive(keys[0], first, topic);
      LessIsTotal(topic, topic);
    }
  }

  lemma TidyTail(cards: seq<Node>, nextId: nat, more: nat)
    requires Tidy(cards, nextId) && nextId <= more
    ensures Tidy(cards, more)
    ensures cards != [] ==> Tidy(cards[1..], more)
  {
    if cards != [] {
      assert Topics(cards[1..]) == Topics(cards)[1..];
      SortedTail(Topics(cards));
    }
  }

  predicate DistinctIds(nodes: seq<Node>) {
    forall i, j :: 0 <= i < j < |nodes| && nodes[i].Card? && nodes[j].Card? ==> nodes[i].id != nodes[j].id
  }

  predicate IdsBelow(nodes: seq<Node>, nextId: nat) {
    forall i :: 0 <= i < |nodes| && nodes[i].Card? ==> nodes[i].id < nextId
  }

  /** Cards placed already: distinct ids, none of which is that of a card to come. */
  predicate Settled(done: seq<Node>, rest: seq<Node>, nextId: nat) {
    && AllCards(done) && DistinctIds(done) && IdsBelow(done, nextId)
    && (forall i :: 0 <= i < |done| && done[i].Card? ==> NoneHasId(rest, done[i].id))
  }

  lemma SettledGrows(done: seq<Node>, rest: seq<Node>, remaining: seq<Node>, card: Node, nextId: nat, more: nat)
    requires Settled(done, rest, nextId) && nextId <= more
    requires remaining == rest || (rest != [] && remaining == rest[1..])
    requires card.Card? && card.id < more && NoneHasId(done, card.id) && NoneHasId(remaining, card.id)
    ensures Settled(done + [card], remaining, more) && EndsWith(done + [card], Some(card.id))
  {
    assert (done + [card])[..|done|] == done;
    forall i | 0 <= i < |done| ensures NoneHasId(remaining, done[i].id) {
      assert NoneHasId(rest, done[i].id);
    }
  }

  lemma SettledIsDistinct(done: seq<Node>, rest: seq<Node>, nextId: nat)
    requires Settled(done, rest, nextId) && Tidy(rest, nextId)
    ensures DistinctIds(done + rest) && IdsBelow(done + rest, nextId)
  {
    var all := done + rest;
    forall i, j | 0 <= i < j < |all| && all[i].Card? && all[j].Card? ensures all[i].id != all[j].id {
      if i < |done| <= j { assert NoneHasId(rest, done[i].id) && all[j] == rest[j - |done|]; }
    }
  }

  /** The loop under way: `done` is settled and ends with the previous card, `rest` are the old cards
      still to come, and `existing` knows exactly those. */
  predicate Ready(done: seq<Node>, rest: seq<Node>, p: Progress, keys: seq<string>, existing: map<string, nat>) {
    && p.nodes == done + rest && EndsWith(done, p.previous)
    && Settled(done, rest, p.nextId)
    && Tidy(rest, p.nextId) && Sorted(keys) && Pending(rest, keys) && Names(existing, rest, keys)
  }

  /** What is left when the loop is over. */
  predicate Placed(done: seq<Node>, merged: seq<Node>, end: Progress) {
    end.nodes == done + merged && DistinctIds(end.nodes) && IdsBelow(end.nodes, end.nextId)
  }

  /** The loop places card after card. */
  lemma {:induction false} PlacingMerges(
      done: seq<Node>, rest: seq<Node>, p: Progress, keys: seq<string>,
      existing: map<string, nat>, messages: map<string, Json>, expand: bool)
    requires forall t :: t in keys ==> t in messages
    requires Ready(done, rest, p, keys, existing)
    ensures Placed(done, Merge(rest, keys, p.nextId, messages, expand), PlaceAll(p, keys, existing, messages, expand))
    decreases |keys|, 1
  {
    if keys == [] {
      SettledIsDistinct(done, rest, p.nextId);
    } else {
      NextKeyIsFirst(rest, keys, p.nextId);
      if rest != [] && rest[0].topic == keys[0] {
        PlacingOld(done, rest, p, keys, existing, messages, expand);
      } else {
        PlacingNew(done, rest, p, keys, existing, messages, expand);
      }
    }
  }

  lemma {:induction false} PlacingOld(
      done: seq<Node>, rest: seq<Node>, p: Progress, keys: seq<string>,
      existing: map<string, nat>, messages: map<string, Json>, expand: bool)
    requires forall t :: t in keys ==> t in messages
    requires Ready(done, rest, p, keys, existing)
    requires keys != [] && rest != [] && rest[0].topic == keys[0] && Pending(rest[1..], keys[1..])
    ensures Placed(done, Merge(rest, keys, p.nextId, messages, expand), PlaceAll(p, keys, existing, messages, expand))
    decreases |keys|, 0
  {
    var card := Refreshed(rest[0], keys[0], messages[keys[0]], expand);
    OldIsReady(done, rest, p, keys, existing, messages, expand);
    PlacingMerges(done + [card], rest[1..], PlaceOne(p, keys[0], existing, messages, expand), keys[1..], existing, messages, expand);
    AppendAssoc(done, [card], Merge(rest[1..], keys[1..], p.nextId, messages, expand));
  }

  lemma {:induction false} PlacingNew(
      done: seq<Node>, rest: seq<Node>, p: Progress, keys: seq<string>,
      existing: map<string, nat>, messages: map<string, Json>, expand: bool)
    requires forall t :: t in keys ==> t in messages
    requires Ready(done, rest, p, keys, existing)
    requires keys != [] && !HasTopic(rest, keys[0]) && Pending(rest, keys[1..])
    ensures Placed(done, Merge(rest, keys, p.nextId, messages, expand), PlaceAll(p, keys, existing, messages, expand))
    decreases |keys|, 0
  {
    var card := Card(p.nextId, keys[0], [Build(keys[0], messages[keys[0]], expand)]);
    NewIsReady(done, rest, p, keys, existing, messages, expand);
    PlacingMerges(done + [card], rest, PlaceOne(p, keys[0], existing, messages, expand), keys[1..], existing, messages, expand);
    assert rest != [] ==> rest[0].topic != keys[0];
    AppendAssoc(done, [card], Merge(rest, keys[1..], p.nextId + 1, messages, expand));
  }

  lemma ReplaceHead(done: seq<Node>, rest: seq<Node>, p: Progress, topic: string, message: Json, expand: bool)
    requires p.nodes == done + rest && rest != [] && Tidy(rest, p.nextId)
    requires NoneHasId(done, rest[0].id)
    ensures Replace(p.nodes, rest[0].id, topic, message, expand)
            == done + [Refreshed(rest[0], topic, message, expand)] + rest[1..]
  {
    var id := rest[0].id;
    ReplaceSplit(done, rest, id, topic, message, expand);
    ReplaceElsewhere(done, id, topic, message, expand);
    ReplaceElsewhere(rest[1..], id, topic, message, expand);
  }

  lemma OldIsReady(
      done: seq<Node>, rest: seq<Node>, p: Progress, keys: seq<string>,
      existing: map<string, nat>, messages: map<string, Json>, expand: bool)
    requires forall t :: t in keys ==> t in messages
    requires Ready(done, rest, p, keys, existing)
    requires keys != [] && rest != [] && rest[0].topic == keys[0] && Pending(rest[1..], keys[1..])
    ensures Ready(done + [Refreshed(rest[0], keys[0], messages[keys[0]], expand)], rest[1..],
                  PlaceOne(p, keys[0], existing, messages, expand), keys[1..], existing)
    ensures PlaceOne(p, keys[0], existing, messages, expand).nextId == p.nextId
  {
    var card := Refreshed(rest[0], keys[0], messages[keys[0]], expand);
    ReplaceHead(done, rest, p, keys[0], messages[keys[0]], expand);
    TidyTail(rest, p.nextId, p.nextId);
    SortedTail(keys);
    NamesAfterOld(existing, rest, keys, p.nextId);
    SettledGrows(done, rest, rest[1..], card, p.nextId, p.nextId);
  }

  lemma NamesAfterOld(existing: map<string, nat>, rest: seq<Node>, keys: seq<string>, nextId: nat)
    requires Tidy(rest, nextId) && Sorted(keys) && Names(existing, rest, keys)
    requires keys != [] && rest != [] && rest[0].topic == keys[0]
    ensures Names(existing, rest[1..], keys[1..])
  {
    forall t | t in keys[1..] && t in existing ensures HasTopic(rest[1..], t) {
      var j :| 0 <= j < |keys[1..]| && keys[1..][j] == t;
      SortedAt(keys, 0, j + 1);
      assert t in keys;
      var i :| 0 <= i < |rest| && rest[i].Card? && rest[i].topic == t;
      assert rest[1..][i - 1] == rest[i];
    }
  }

  lemma NewIsReady(
      done: seq<Node>, rest: seq<Node>, p: Progress, keys: seq<string>,
      existing: map<string, nat>, messages: map<string, Json>, expand: bool)
    requires forall t :: t in keys ==> t in messages
    requires Ready(done, rest, p, keys, existing)
    requires keys != [] && !HasTopic(rest, keys[0]) && Pending(rest, keys[1..])
    ensures Ready(done + [Card(p.nextId, keys[0], [Build(keys[0], messages[keys[0]], expand)])], rest,
                  PlaceOne(p, keys[0], existing, messages, expand), keys[1..], existing)
    ensures PlaceOne(p, keys[0], existing, messages, expand).nextId == p.nextId + 1
  {
    var topic := keys[0];
    var card := Card(p.nextId, topic, [Build(topic, messages[topic], expand)]);
    assert topic in keys;
    InsertAtBoundary(done, rest, p.previous, card);
    TidyTail(rest, p.nextId, p.nextId + 1);
    SortedTail(keys);
    SettledGrows(done, rest, rest, card, p.nextId, p.nextId + 1);
    assert forall t :: t in keys[1..] ==> t in keys;
  }

  // ---- From any earlier refresh to the next ---------------------------------------------------

  lemma {:induction false} ExistingNames(cards: seq<Node>, nextId: nat)
    requires Tidy(cards, nextId)
    ensures forall i :: 0 <= i < |cards| ==> cards[i].topic in Existing(cards) && Existing(cards)[cards[i].topic] == cards[i].id
    ensures forall t :: t in Existing(cards) ==> HasTopic(cards, t)
  {
    if cards != [] {
      var before, last := cards[..|cards| - 1], cards[|cards| - 1];
      assert Topics(before) == Topics(cards)[..|cards| - 1];
      SortedFront(Topics(cards));
      ExistingNames(before, nextId);
      forall i | 0 <= i < |before| ensures cards[i].topic != last.topic {
        CardsAt(cards, nextId, i, |cards| - 1);
      }
      forall t | t in Existing(cards) ensures HasTopic(cards, t) {
        if t != last.topic { FrontHasTopic(cards, t); }
      }
    }
  }

  lemma FrontHasTopic(cards: seq<Node>, topic: string)
    requires cards != [] && HasTopic(cards[..|cards| - 1], topic)
    ensures HasTopic(cards, topic)
  {
    var before := cards[..|cards| - 1];
    var i :| 0 <= i < |before| && before[i].Card? && before[i].topic == topic;
    assert cards[i] == before[i];
  }

  /** The old cards whose topic is still there. */
  function Surviving(cards: seq<Node>, messages: map<string, Json>): seq<Node> {
    if cards == [] then []
    else (if cards[0].Card? && cards[0].topic in messages then [cards[0]] else []) + Surviving(cards[1..], messages)
  }

  lemma {:induction false} DropStaleKeepsSurvivors(cards: seq<Node>, existing: map<string, nat>, messages: map<string, Json>)
    requires forall i :: 0 <= i < |cards| ==>
               cards[i].Card? && cards[i].topic in existing && existing[cards[i].topic] == cards[i].id
    ensures DropPlaceholder(DropStale(cards, existing, messages)) == Surviving(cards, messages)
    ensures DropStale(cards, existing, messages) == Surviving(cards, messages)
  {
    if cards != [] {
      DropStaleKeepsSurvivors(cards[1..], existing, messages);
      assert [] + Surviving(cards[1..], messages) == Surviving(cards[1..], messages);
    }
  }

  lemma {:induction false} SurvivingMeaning(cards: seq<Node>, messages: map<string, Json>, nextId: nat)
    requires Tidy(cards, nextId)
    ensures Tidy(Surviving(cards, messages), nextId)
    ensures forall n :: n in Surviving(cards, messages) <==> n in cards && n.topic in messages
  {
    if cards != [] {
      TidyTail(cards, nextId, nextId);
      SurvivingMeaning(cards[1..], messages, nextId);
      var rest := Surviving(cards[1..], messages);
      if cards[0].topic in messages {
        FirstPrecedesSurvivors(cards, messages, nextId);
        TidyCons(cards[0], rest, nextId);
      } else {
        assert [] + rest == rest;
      }
    }
  }

  lemma FirstPrecedesSurvivors(cards: seq<Node>, messages: map<string, Json>, nextId: nat)
    requires Tidy(cards, nextId) && cards != []
    requires forall n :: n in Surviving(cards[1..], messages) ==> n in cards[1..] && n.Card?
    ensures var rest := Surviving(cards[1..], messages);
            forall i :: 0 <= i < |rest| ==>
              rest[i].Card? && Less(cards[0].topic, rest[i].topic) && cards[0].id != rest[i].id
  {
    var rest := Surviving(cards[1..], messages);
    forall i | 0 <= i < |rest|
      ensures rest[i].Card? && Less(cards[0].topic, rest[i].topic) && cards[0].id != rest[i].id
    {
      assert rest[i] in rest;
      var j :| 0 <= j < |cards[1..]| && cards[1..][j] == rest[i];
      assert cards[j + 1] == rest[i];
      CardsAt(cards, nextId, 0, j + 1);
    }
  }

  lemma TidyCons(card: Node, rest: seq<Node>, nextId: nat)
    requires Tidy(rest, nextId) && card.Card? && card.topic != "" && card.id < nextId
    requires forall i :: 0 <= i < |rest| ==> Less(card.topic, rest[i].topic) && card.id != rest[i].id
    ensures Tidy([card] + rest, nextId)
  {
    assert Topics([card] + rest) == [card.topic] + Topics(rest);
    SortedCons(card.topic, Topics(rest));
  }

  /** `keys` are all topics of `messages` but the empty one up to some point. */
  predicate UpTo(keys: seq<string>, messages: map<string, Json>) {
    forall t :: t in messages && t != "" ==> t in keys || Past(t, keys)
  }

  lemma MergeFromStart(cards: seq<Node>, existing: map<string, nat>, nextId: nat, keys: seq<string>, messages: map<string, Json>, expand: bool)
    requires Tidy(cards, nextId) && existing == Existing(cards) && Sorted(keys)
    requires forall t :: t in keys ==> t in messages
    requires UpTo(keys, messages)
    ensures var end := PlaceAll(Progress(Surviving(cards, messages), None, nextId), keys, existing, messages, expand);
            && end.nodes == Merge(Surviving(cards, messages), keys, nextId, messages, expand)
            && DistinctIds(end.nodes) && IdsBelow(end.nodes, end.nextId)
  {
    var rest := Surviving(cards, messages);
    var p := Progress(rest, None, nextId);
    SurvivingMeaning(cards, messages, nextId);
    SurvivorsAreNamed(cards, existing, messages, keys, nextId);
    assert p.nodes == [] + rest;
    PlacingMerges([], rest, p, keys, existing, messages, expand);
    assert [] + Merge(rest, keys, nextId, messages, expand) == Merge(rest, keys, nextId, messages, expand);
  }

  lemma SurvivorsAreNamed(cards: seq<Node>, existing: map<string, nat>, messages: map<string, Json>, keys: seq<string>, nextId: nat)
    requires Tidy(cards, nextId) && existing == Existing(cards)
    requires forall t :: t in keys ==> t in messages
    requires UpTo(keys, messages)
    ensures Pending(Surviving(cards, messages), keys) && Names(existing, Surviving(cards, messages), keys)
  {
    var rest := Surviving(cards, messages);
    SurvivingMeaning(cards, messages, nextId);
    ExistingNames(cards, nextId);
    forall i | 0 <= i < |rest|
      ensures rest[i].topic in keys || Past(rest[i].topic, keys)
      ensures rest[i].topic in existing && existing[rest[i].topic] == rest[i].id
    {
      assert rest[i] in rest;
    }
    forall t | t in keys && t in existing ensures HasTopic(rest, t) {
      var i :| 0 <= i < |cards| && cards[i].Card? && cards[i].topic == t;
      assert cards[i] in rest;
    }
  }

  /** Card `n` shows `message` as the newest state of `topic`: a card that was there before is the same
      element and keeps its open nodes; a new one is as the tree was built. */
  ghost predicate ShowsLatest(cards: seq<Node>, n: Node, topic: string, message: Json, expand: bool, nextId: nat) {
    var built := [Build(topic, message, expand)];
    && n.Card? && n.topic == topic && Shape(n.tree) == Shape(built)
    && (forall c :: c in cards && c.Card? && c.topic == topic ==> n.id == c.id && n.tree == Carry(built, c.tree))
    && (!HasTopic(cards, topic) ==> n.id >= nextId && n.tree == built)
  }

  lemma {:induction false} MergeMeaning(cards: seq<Node>, keys: seq<string>, nextId: nat, messages: map<string, Json>, expand: bool, i: nat)
    requires forall t :: t in keys ==> t in messages
    requires Mergeable(cards, keys, nextId) && i < |keys|
    ensures |Merge(cards, keys, nextId, messages, expand)| >= |keys|
    ensures ShowsLatest(cards, Merge(cards, keys, nextId, messages, expand)[i], keys[i], messages[keys[i]], expand, nextId)
    decreases |keys|, 1
  {
    MergeLength(cards, keys, nextId, messages, expand);
    MergeableTail(cards, keys, nextId);
    if i == 0 {
      MergeHead(cards, keys, nextId, messages, expand);
    } else if cards != [] && cards[0].topic == keys[0] {
      MergeMeaningOld(cards, keys, nextId, messages, expand, i);
    } else {
      MergeMeaningNew(cards, keys, nextId, messages, expand, i);
    }
  }

  lemma {:induction false} MergeMeaningOld(cards: seq<Node>, keys: seq<string>, nextId: nat, messages: map<string, Json>, expand: bool, i: nat)
    requires forall t :: t in keys ==> t in messages
    requires 0 < i < |keys| && cards != [] && cards[0].Card? && cards[0].topic == keys[0] && keys[i] != keys[0]
    requires Mergeable(cards[1..], keys[1..], nextId)
    requires |Merge(cards, keys, nextId, messages, expand)| >= |keys|
    ensures ShowsLatest(cards, Merge(cards, keys, nextId, messages, expand)[i], keys[i], messages[keys[i]], expand, nextId)
    decreases |keys|, 0
  {
    MergeMeaning(cards[1..], keys[1..], nextId, messages, expand, i - 1);
    var n := Merge(cards[1..], keys[1..], nextId, messages, expand)[i - 1];
    assert n == Merge(cards, keys, nextId, messages, expand)[i];
    ShowsLatestWithMore(cards, n, keys[i], messages[keys[i]], expand, nextId);
  }

  lemma {:induction false} MergeMeaningNew(cards: seq<Node>, keys: seq<string>, nextId: nat, messages: map<string, Json>, expand: bool, i: nat)
    requires forall t :: t in keys ==> t in messages
    requires 0 < i < |keys| && Mergeable(cards, keys[1..], nextId + 1)
    requires cards != [] ==> cards[0].topic != keys[0]
    requires |Merge(cards, keys, nextId, messages, expand)| >= |keys|
    ensures ShowsLatest(cards, Merge(cards, keys, nextId, messages, expand)[i], keys[i], messages[keys[i]], expand, nextId)
    decreases |keys|, 0
  {
    MergeMeaning(cards, keys[1..], nextId + 1, messages, expand, i - 1);
    var n := Merge(cards, keys[1..], nextId + 1, messages, expand)[i - 1];
    assert n == Merge(cards, keys, nextId, messages, expand)[i];
    ShowsLatestFromEarlierId(cards, n, keys[i], messages[keys[i]], expand, nextId);
  }

  lemma ShowsLatestFromEarlierId(cards: seq<Node>, n: Node, topic: string, message: Json, expand: bool, nextId: nat)
    requires ShowsLatest(cards, n, topic, message, expand, nextId + 1)
    ensures ShowsLatest(cards, n, topic, message, expand, nextId)
  {}

  /** Old cards and keys still to be merged. */
  predicate Mergeable(cards: seq<Node>, keys: seq<string>, nextId: nat) {
    Tidy(cards, nextId) && Sorted(keys) && Pending(cards, keys)
  }

  lemma MergeableTail(cards: seq<Node>, keys: seq<string>, nextId: nat)
    requires Mergeable(cards, keys, nextId) && keys != []
    ensures HasTopic(cards, keys[0]) ==> cards[0].topic == keys[0]
    ensures if cards != [] && cards[0].topic == keys[0] then Mergeable(cards[1..], keys[1..], nextId)
            else Mergeable(cards, keys[1..], nextId + 1)
    ensures forall i :: 0 < i < |keys| ==> keys[i] != keys[0]
    ensures forall i :: 0 < i < |cards| ==> cards[i].topic != keys[0]
  {
    NextKeyIsFirst(cards, keys, nextId);
    TidyTail(cards, nextId, nextId);
    TidyTail(cards, nextId, nextId + 1);
    SortedTail(keys);
    forall i | 0 < i < |keys| ensures keys[i] != keys[0] {
      SortedAt(keys, 0, i);
    }
  }

  lemma {:induction false} MergeLength(cards: seq<Node>, keys: seq<string>, nextId: nat, messages: map<string, Json>, expand: bool)
    requires forall t :: t in keys ==> t in messages
    ensures |Merge(cards, keys, nextId, messages, expand)| >= |keys|
    decreases |keys|
  {
    if keys == [] {
    } else if cards != [] && cards[0].Card? && cards[0].topic == keys[0] {
      MergeLength(cards[1..], keys[1..], nextId, messages, expand);
    } else {
      MergeLength(cards, keys[1..], nextId + 1, messages, expand);
    }
  }

  /** The cards whose topics are not among `keys`. */
  function Untouched(cards: seq<Node>, keys: seq<string>): seq<Node> {
    if cards == [] then []
    else (if cards[0].Card? && cards[0].topic in keys then [] else [cards[0]]) + Untouched(cards[1..], keys)
  }

  lemma {:induction false} UntouchedTail(cards: seq<Node>, keys: seq<string>)
    requires keys != [] && forall i :: 0 <= i < |cards| && cards[i].Card? ==> cards[i].topic != keys[0]
    ensures Untouched(cards, keys) == Untouched(cards, keys[1..])
  {
    if cards != [] {
      UntouchedTail(cards[1..], keys);
      assert cards[0].Card? ==> (cards[0].topic in keys <==> cards[0].topic in keys[1..]);
    }
  }

  lemma {:induction false} AllUntouched(cards: seq<Node>)
    ensures Untouched(cards, []) == cards
  {
    if cards != [] {
      AllUntouched(cards[1..]);
    }
  }

  lemma {:induction false} NoneUntouched(cards: seq<Node>, keys: seq<string>)
    requires forall i :: 0 <= i < |cards| ==> cards[i].Card? && cards[i].topic in keys
    ensures Untouched(cards, keys) == []
  {
    if cards != [] {
      NoneUntouched(cards[1..], keys);
    }
  }

  lemma {:induction false} MergeEnd(cards: seq<Node>, keys: seq<string>, nextId: nat, messages: map<string, Json>, expand: bool)
    requires forall t :: t in keys ==> t in messages
    requires Mergeable(cards, keys, nextId)
    ensures |Merge(cards, keys, nextId, messages, expand)| >= |keys|
    ensures Merge(cards, keys, nextId, messages, expand)[|keys|..] == Untouched(cards, keys)
    decreases |keys|
  {
    MergeLength(cards, keys, nextId, messages, expand);
    if keys == [] {
      AllUntouched(cards);
    } else {
      MergeableTail(cards, keys, nextId);
      if cards != [] && cards[0].topic == keys[0] {
        MergeEnd(cards[1..], keys[1..], nextId, messages, expand);
        UntouchedTail(cards[1..], keys);
        assert Untouched(cards, keys) == [] + Untouched(cards[1..], keys);
      } else {
        MergeEnd(cards, keys[1..], nextId + 1, messages, expand);
        UntouchedTail(cards, keys);
      }
    }
  }

  lemma MergeHead(cards: seq<Node>, keys: seq<string>, nextId: nat, messages: map<string, Json>, expand: bool)
    requires forall t :: t in keys ==> t in messages
    requires Tidy(cards, nextId) && keys != []
    requires HasTopic(cards, keys[0]) ==> cards[0].topic == keys[0]
    ensures Merge(cards, keys, nextId, messages, expand) != []
    ensures ShowsLatest(cards, Merge(cards, keys, nextId, messages, expand)[0], keys[0], messages[keys[0]], expand, nextId)
  {
    if cards != [] && cards[0].topic == keys[0] {
      OldShowsLatest(cards, keys[0], messages[keys[0]], expand, nextId);
    } else {
      NewShowsLatest(cards, keys[0], messages[keys[0]], expand, nextId);
    }
  }

  lemma SameTopicSameCard(cards: seq<Node>, nextId: nat, i: nat, j: nat)
    requires Tidy(cards, nextId) && i <= j < |cards|
    ensures cards[i].topic == cards[j].topic ==> i == j
  {
    if i < j { CardsAt(cards, nextId, i, j); }
  }

  lemma OldShowsLatest(cards: seq<Node>, topic: string, message: Json, expand: bool, nextId: nat)
    requires Tidy(cards, nextId) && cards != [] && cards[0].topic == topic
    ensures ShowsLatest(cards, Refreshed(cards[0], topic, message, expand), topic, message, expand, nextId)
  {
    var built := [Build(topic, message, expand)];
    RestoringCollectedPathsCarriesFlags(built, cards[0].tree);
    CarryKeepsShape(built, cards[0].tree);
    forall c | c in cards && c.topic == topic ensures c == cards[0] {
      var j :| 0 <= j < |cards| && cards[j] == c;
      SameTopicSameCard(cards, nextId, 0, j);
    }
  }

  lemma NewShowsLatest(cards: seq<Node>, topic: string, message: Json, expand: bool, nextId: nat)
    requires !HasTopic(cards, topic)
    ensures ShowsLatest(cards, Card(nextId, topic, [Build(topic, message, expand)]), topic, message, expand, nextId)
  {
    forall c | c in cards && c.Card? ensures c.topic != topic {
      var j :| 0 <= j < |cards| && cards[j] == c;
    }
  }

  lemma ShowsLatestWithMore(cards: seq<Node>, n: Node, topic: string, message: Json, expand: bool, nextId: nat)
    requires cards != [] && cards[0].Card? && cards[0].topic != topic
    requires ShowsLatest(cards[1..], n, topic, message, expand, nextId)
    ensures ShowsLatest(cards, n, topic, message, expand, nextId)
  {
    var rest := cards[1..];
    assert forall c :: c in cards ==> c == cards[0] || c in rest;
    if HasTopic(rest, topic) { TailHasTopic(cards, topic); }
  }

  lemma TailHasTopic(cards: seq<Node>, topic: string)
    requires cards != [] && HasTopic(cards[1..], topic)
    ensures HasTopic(cards, topic)
  {
    var j :| 0 <= j < |cards[1..]| && cards[1..][j].Card? && cards[1..][j].topic == topic;
    assert cards[j + 1].topic == topic;
  }

  lemma SurvivorsSuffice(cards: seq<Node>, messages: map<string, Json>, n: Node, topic: string, expand: bool, nextId: nat)
    requires Tidy(cards, nextId) && topic in messages
    requires ShowsLatest(Surviving(cards, messages), n, topic, messages[topic], expand, nextId)
    ensures ShowsLatest(cards, n, topic, messages[topic], expand, nextId)
  {
    var rest := Surviving(cards, messages);
    SurvivingMeaning(cards, messages, nextId);
    if HasTopic(rest, topic) {
      var j :| 0 <= j < |rest| && rest[j].Card? && rest[j].topic == topic;
      assert rest[j] in cards;
      var i :| 0 <= i < |cards| && cards[i] == rest[j];
    }
  }

  lemma {:induction false} MergedTopics(cards: seq<Node>, keys: seq<string>, nextId: nat, messages: map<string, Json>, expand: bool)
    requires AllCards(cards) && forall t :: t in keys ==> t in messages
    ensures forall n :: n in Merge(cards, keys, nextId, messages, expand) ==>
              n.Card? && (n.topic in keys || HasTopic(cards, n.topic))
    decreases |keys|
  {
    if keys == [] {
      forall n | n in cards ensures HasTopic(cards, n.topic) {
        var i :| 0 <= i < |cards| && cards[i] == n;
      }
    } else if cards != [] && cards[0].topic == keys[0] {
      var rest := Merge(cards[1..], keys[1..], nextId, messages, expand);
      MergedTopics(cards[1..], keys[1..], nextId, messages, expand);
      forall n | n in rest && HasTopic(cards[1..], n.topic) ensures HasTopic(cards, n.topic) {
        TailHasTopic(cards, n.topic);
      }
    } else {
      MergedTopics(cards, keys[1..], nextId + 1, messages, expand);
    }
  }

  /** What the merge puts behind its first card comes after the first key. */
  lemma FirstKeyIsLeast(cards: seq<Node>, keys: seq<string>, topic: string)
    requires Sorted(keys) && keys != [] && Pending(cards, keys)
    requires topic in keys[1..] || (HasTopic(cards, topic) && topic != keys[0])
    ensures Less(keys[0], topic)
  {
    if topic in keys {
      var j :| 0 <= j < |keys| && keys[j] == topic;
      if j == 0 {
        var k :| 0 <= k < |keys[1..]| && keys[1..][k] == topic;
        SortedAt(keys, 0, k + 1);
      } else {
        SortedAt(keys, 0, j);
      }
    } else {
      PastFirst(topic, keys);
    }
  }

  /** The old cards left after the first key. */
  function Left(cards: seq<Node>, keys: seq<string>): seq<Node>
    requires keys != []
  {
    if cards != [] && cards[0].Card? && cards[0].topic == keys[0] then cards[1..] else cards
  }

  lemma BehindFirst(cards: seq<Node>, keys: seq<string>, rest: seq<Node>)
    requires Sorted(keys) && keys != [] && Pending(cards, keys)
    requires forall i :: 0 < i < |cards| && cards[i].Card? ==> cards[i].topic != keys[0]
    requires forall n :: n in rest ==> n.Card? && (n.topic in keys[1..] || HasTopic(Left(cards, keys), n.topic))
    ensures forall j :: 0 <= j < |rest| ==> rest[j].Card? && Less(keys[0], rest[j].topic)
  {
    forall j | 0 <= j < |rest| ensures rest[j].Card? && Less(keys[0], rest[j].topic) {
      assert rest[j] in rest;
      if rest[j].topic !in keys[1..] { LeftHasTopic(cards, keys, rest[j].topic); }
      FirstKeyIsLeast(cards, keys, rest[j].topic);
    }
  }

  lemma MergeFirst(cards: seq<Node>, keys: seq<string>, nextId: nat, messages: map<string, Json>, expand: bool)
    returns (first: Node, more: nat)
    requires keys != [] && forall t :: t in keys ==> t in messages
    ensures first.Card? && first.topic == keys[0]
    ensures more == if Left(cards, keys) != cards then nextId else nextId + 1
    ensures Merge(cards, keys, nextId, messages, expand) == [first] + Merge(Left(cards, keys), keys[1..], more, messages, expand)
  {
    if cards != [] && cards[0].Card? && cards[0].topic == keys[0] {
      assert |Left(cards, keys)| != |cards|;
      first, more := Refreshed(cards[0], keys[0], messages[keys[0]], expand), nextId;
    } else {
      first, more := Card(nextId, keys[0], [Build(keys[0], messages[keys[0]], expand)]), nextId + 1;
    }
  }

  lemma SortedBehind(first: Node, rest: seq<Node>)
    requires first.Card? && AllCards(rest) && Sorted(Topics(rest))
    requires forall j :: 0 <= j < |rest| ==> Less(first.topic, rest[j].topic)
    ensures AllCards([first] + rest) && Sorted(Topics([first] + rest))
  {
    SortedCons(first.topic, Topics(rest));
    assert Topics([first] + rest) == [first.topic] + Topics(rest);
  }

  lemma {:induction false} MergeIsSorted(cards: seq<Node>, keys: seq<string>, nextId: nat, messages: map<string, Json>, expand: bool)
    requires forall t :: t in keys ==> t in messages
    requires Mergeable(cards, keys, nextId)
    ensures AllCards(Merge(cards, keys, nextId, messages, expand))
    ensures Sorted(Topics(Merge(cards, keys, nextId, messages, expand)))
    decreases |keys|
  {
    if keys != [] {
      MergeableTail(cards, keys, nextId);
      var first, more := MergeFirst(cards, keys, nextId, messages, expand);
      var left := Left(cards, keys);
      var rest := Merge(left, keys[1..], more, messages, expand);
      MergeIsSorted(left, keys[1..], more, messages, expand);
      MergedTopics(left, keys[1..], more, messages, expand);
      BehindFirst(cards, keys, rest);
      SortedBehind(first, rest);
    }
  }

  lemma LeftHasTopic(cards: seq<Node>, keys: seq<string>, topic: string)
    requires keys != [] && HasTopic(Left(cards, keys), topic)
    requires forall i :: 0 < i < |cards| && cards[i].Card? ==> cards[i].topic != keys[0]
    ensures HasTopic(cards, topic) && topic != keys[0]
  {
    var left := Left(cards, keys);
    if left != cards { TailHasTopic(cards, topic); }
    var i :| 0 <= i < |left| && left[i].Card? && left[i].topic == topic;
  }
}
