/** The listening tab of the page: the latest message of each topic, and the cards that show them. */
module ListenTab {
  import opened Common
  import opened TopicOrder
  import opened Trees
  import opened Cards
  import opened Containers

  const PROTO := "__proto__"

  /** After `message` was assigned to the accessor `__proto__` of an object that has it: whether the object
      still has it. A value that is neither an object nor null is ignored; null leaves no prototype at all;
      and an object with a member of that name hides the accessor. */
  predicate KeepsAccessor(message: Json) {
    match message
    case Null => false
    case Object(members) => forall i :: 0 <= i < |members| ==> members[i].name != PROTO
    case _ => true
  }

  class Page {
    var children: seq<Node>
    var nextId: nat
    var listenMessages: map<string, Json>
    var keyOrder: seq<string>
    var expandAll: bool

    /** Whether an assignment to the key `__proto__` of the messages still goes to the accessor. */
    var hasAccessor: bool

    /** `keyOrder` lists the keys of `listenMessages`; the container is as refreshes leave it, and every card
        has a topic that has a message: so nothing is stale, whatever else the messages inherit. */
    ghost predicate Valid()
      reads this
    {
      var messages := listenMessages;
      Renderable() && TopicsAll(children, t => t in messages)
    }

    /** The same, or the messages were just cleared and the container was not refreshed yet. */
    ghost predicate Renderable()
      reads this
    {
      var messages := listenMessages;
      && Distinct(keyOrder) && (forall t :: t in keyOrder <==> t in listenMessages)
      && Container(children, nextId) && (messages == map[] || TopicsAll(children, t => t in messages))
    }

    /** The sorted topics. */
    ghost function Keys(): (keys: seq<string>)
      reads this
      requires Renderable()
      ensures Sorted(keys) && (forall t :: t in keys <==> t in listenMessages)
    {
      SortKeysMeaning(keyOrder);
      SortKeys(keyOrder)
    }

    ghost predicate NoneInherited()
      reads this
    {
      forall t :: t in listenMessages ==> t !in INHERITED
    }

    /** The container shows the messages: the placeholder if there are none; and otherwise one card per
        topic in order, up to the first inherited name, each showing its message in full, and, if there is no such name, no others, but for
        cards of the empty topic. */
    ghost predicate UpToDate()
      reads this
      requires Valid()
    {
      if listenMessages == map[] then children == [Placeholder]
      else
        && AllCards(children) && ShowsTopics(Named(children), NamedKeys(Reached(Keys(), map[])))
        && AllDisplayed(children, Reached(Keys(), map[]), listenMessages)
        && (NoneInherited() ==> Reached(Keys(), map[]) == Keys() && |Named(children)| == |NamedKeys(Keys())|)
    }

    constructor ()
      ensures Valid() && children == [] && listenMessages == map[] && !expandAll && hasAccessor
    {
      children, nextId, listenMessages, keyOrder, expandAll, hasAccessor := [], 0, map[], [], false, true;
    }

    method CollectExisting() returns (existing: map<string, nat>)
      ensures existing == Existing(children)
    {
      existing := map[];
      for i := 0 to |children|
        invariant existing == Existing(children[..i])
      {
        var node := children[i];
        assert children[..i + 1][..i] == children[..i];
        if node.Card? && node.topic != "" {
          existing := existing[node.topic := node.id];
        }
      }
      assert children[..|children|] == children;
    }

    /** The loop that places the cards, key by key, until it throws. */
    method PlaceCards(keys: seq<string>, existing: map<string, nat>) returns (threw: bool)
      requires forall t :: t in keys ==> t in listenMessages
      modifies this`children, this`nextId
      ensures var (p, t) := PlaceUntilThrow(Progress(old(children), None, old(nextId)), keys, existing, listenMessages, expandAll);
              children == p.nodes && nextId == p.nextId && threw == t
    {
      var previous: Option<nat> := None;
      var i := 0;
      assert keys[0..] == keys;
      while i < |keys|
        invariant i <= |keys|
        invariant PlaceUntilThrow(Progress(children, previous, nextId), keys[i..], existing, listenMessages, expandAll)
                  == PlaceUntilThrow(Progress(old(children), None, old(nextId)), keys, existing, listenMessages, expandAll)
      {
        var topic := keys[i];
        assert keys[i..][1..] == keys[i + 1..];
        if topic in existing {
          children := Replace(children, existing[topic], topic, listenMessages[topic], expandAll);
          previous := Some(existing[topic]);
        } else if topic in INHERITED {
          return true;
        } else {
          var card := Card(nextId, topic, [Build(topic, listenMessages[topic], expandAll)]);
          children := InsertAfter(children, previous, card);
          previous := Some(nextId);
          nextId := nextId + 1;
        }
        i := i + 1;
      }
      threw := false;
    }

    method RefreshCards(keys: seq<string>) returns (threw: bool)
      requires keys != [] && forall t :: t in keys ==> t in listenMessages
      modifies this`children, this`nextId
      ensures var (p, t) := Refresh(old(children), old(nextId), keys, listenMessages, expandAll);
              children == p.nodes && nextId == p.nextId && threw == t
    {
      var existing := CollectExisting();
      children := DropStale(children, existing, listenMessages);
      children := DropPlaceholder(children);
      threw := PlaceCards(keys, existing);
    }

    method RenderMessages() returns (threw: bool)
      requires Renderable()
      modifies this`children, this`nextId
      ensures Valid() && UpToDate()
      ensures var (p, t) := Refresh(old(children), old(nextId), Keys(), listenMessages, expandAll);
              children == p.nodes && nextId == p.nextId && threw == t
      ensures threw <==> !NoneInherited()
      ensures listenMessages != map[] ==>
                (AllCards(children) && Topics(children) == Keys() <==> NoneInherited() && BlankCards(old(children)) == [])
    {
      SortKeysMeaning(keyOrder);
      var keys := SortKeys(keyOrder);
      if keys == [] {
        assert listenMessages != map[] ==> exists t :: t in listenMessages;
        children := [Placeholder];
        return false;
      }
      assert keys[0] in listenMessages;
      RefreshShowsTopics(children, nextId, keys, listenMessages, expandAll);
      ReachesAllIff(keys);
      RefreshDisplaysAll(children, nextId, keys, listenMessages, expandAll);
      threw := RefreshCards(keys);
    }

    /** `listenMessages[topic] = message`. */
    method Store(topic: string, message: Json)
      requires Valid()
      modifies this`listenMessages, this`keyOrder, this`hasAccessor
      ensures Valid()
      ensures if topic == "__proto__" && old(hasAccessor) then
                && listenMessages == old(listenMessages) && keyOrder == old(keyOrder)
                && (hasAccessor <==>
                      && !message.Null?
                      && !(message.Object? && exists i :: 0 <= i < |message.members| && message.members[i].name == "__proto__"))
              else listenMessages == old(listenMessages)[topic := message] && hasAccessor == old(hasAccessor)
    {
      if topic == PROTO && hasAccessor {
        hasAccessor := KeepsAccessor(message);
        return;
      }
      if topic !in listenMessages {
        keyOrder := keyOrder + [topic];
      }
      listenMessages := listenMessages[topic := message];
    }

    /** A message comes in on a socket; what a refresh throws is caught and reported. */
    method OnMessage(topic: string, message: Json) returns (complained: bool)
      requires Valid()
      modifies this`children, this`nextId, this`listenMessages, this`keyOrder, this`hasAccessor
      ensures Valid() && UpToDate()
      ensures listenMessages
              == if topic == "__proto__" && old(hasAccessor) then old(listenMessages) else old(listenMessages)[topic := message]
      ensures children == Refresh(old(children), old(nextId), Keys(), listenMessages, expandAll).0.nodes
      ensures complained <==> !NoneInherited()
      ensures !complained && topic in listenMessages ==> Displayed(children, topic, listenMessages[topic])
    {
      Store(topic, message);
      complained := RenderMessages();
    }

    method ToggleExpandAll() returns (threw: bool)
      requires Valid()
      modifies this
      ensures Valid() && UpToDate() && listenMessages == old(listenMessages) && expandAll == !old(expandAll)
      ensures threw <==> !NoneInherited()
    {
      expandAll := !expandAll;
      threw := RenderMessages();
    }

    method ClearMessages()
      requires Valid()
      modifies this
      ensures Valid() && children == [Placeholder] && listenMessages == map[] && hasAccessor
    {
      listenMessages, keyOrder, hasAccessor := map[], [], true;
      var threw := RenderMessages();
    }
  }
}
