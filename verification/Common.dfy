/** Types shared by every part of the bridge model. */
module Common {

  datatype Option<+T> = None | Some(value: T)

  /** A JSON value. Numbers keep their source text: the bridge never computes with them. */
  datatype Json =
    | Null
    | Bool(flag: bool)
    | Number(digits: string)
    | Text(text: string)
    | Array(items: seq<Json>)
    | Object(members: seq<Member>)

  datatype Member = Member(name: string, value: Json)

  /** `BridgeMessage`: a MADS topic and the JSON routed on it. */
  datatype Message = Message(topic: string, body: Json)

  /** The JSON library, left uninterpreted: `parse` is partial, `dump` is total. */
  datatype Codec = Codec(parse: string -> Option<Json>, dump: Json -> string)

  const ALL_TOPICS := "_all"
  const CONTROL_TOPIC := "control"

  /** Does a WebSocket session on `subscription` take messages of `topic`? */
  predicate Takes(subscription: string, topic: string) {
    subscription == ALL_TOPICS || subscription == topic
  }

  /** No string occurs twice. */
  predicate Distinct(items: seq<string>) {
    forall i, j :: 0 <= i < j < |items| ==> items[i] != items[j]
  }

  /** `picked` lists the positions of `chosen`, and no others, in ascending order. */
  ghost predicate Lists(picked: seq<nat>, chosen: set<nat>) {
    && (forall i, j :: 0 <= i < j < |picked| ==> picked[i] < picked[j])
    && (forall i :: i in picked <==> i in chosen)
  }

  lemma ListsNext(picked: seq<nat>, chosen: set<nat>, n: nat)
    requires Lists(picked, chosen) && forall i :: i in chosen ==> i < n
    ensures Lists(picked + [n], chosen + {n})
  {
    forall i | 0 <= i < |picked| ensures picked[i] < n {
      assert picked[i] in picked;
    }
  }

  lemma PairInFront<T>(a: T, b: T, rest: seq<T>)
    ensures [a, b] + rest == [a] + ([b] + rest)
  {}

  lemma AppendAssoc<T>(a: seq<T>, b: seq<T>, c: seq<T>)
    ensures a + b + c == a + (b + c)
  {}
}
