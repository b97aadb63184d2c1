/** The page's list of recently used publish topics. */
module History {
  import opened Common

  const LIMIT := 12

  /** `history.filter(t => t !== topic)`. */
  function Without(history: seq<string>, topic: string): seq<string> {
    if history == [] then []
    else (if history[0] == topic then [] else [history[0]]) + Without(history[1..], topic)
  }

  function Take(history: seq<string>, n: nat): (r: seq<string>)
    ensures |r| <= n && r <= history
  {
    if |history| <= n then history else history[..n]
  }

  function Remember(history: seq<string>, topic: string): seq<string> {
    Take([topic] + Without(history, topic), LIMIT)
  }

  /** The history after a sequence of sends. */
  function AfterSends(history: seq<string>, sends: seq<string>): seq<string> {
    if sends == [] then history
    else Remember(AfterSends(history, sends[..|sends| - 1]), sends[|sends| - 1])
  }

  // ---- The recency list, with nothing truncated --------------------------------------

  function Reverse(s: seq<string>): seq<string> {
    if s == [] then [] else Reverse(s[1..]) + [s[0]]
  }

  /** Each topic once, where it first occurs. */
  function Firsts(s: seq<string>): seq<string> {
    if s == [] then [] else [s[0]] + Without(Firsts(s[1..]), s[0])
  }

  /** The distinct topics, most recently sent first, then those of the stored history. */
  function Recency(history: seq<string>, sends: seq<string>): seq<string> {
    Firsts(Reverse(sends) + history)
  }

  lemma DistinctCons(t: string, rest: seq<string>)
    requires t !in rest && Distinct(rest)
    ensures Distinct([t] + rest)
  {}

  lemma {:induction false} WithoutMeaning(history: seq<string>, topic: string)
    ensures topic !in Without(history, topic)
    ensures forall t :: t in Without(history, topic) <==> t in history && t != topic
    ensures Distinct(history) ==> Distinct(Without(history, topic))
    ensures topic !in history ==> Without(history, topic) == history
  {
    if history != [] {
      WithoutMeaning(history[1..], topic);
      assert history == [history[0]] + history[1..];
      if Distinct(history) && history[0] != topic {
        assert history[0] !in history[1..];
        DistinctCons(history[0], Without(history[1..], topic));
      }
      assert forall t :: t in history <==> t == history[0] || t in history[1..];
    }
  }

  lemma {:induction false} FirstsMeaning(s: seq<string>)
    ensures Distinct(Firsts(s))
    ensures forall t :: t in Firsts(s) <==> t in s
    ensures Distinct(s) ==> Firsts(s) == s
  {
    if s != [] {
      FirstsMeaning(s[1..]);
      WithoutMeaning(Firsts(s[1..]), s[0]);
      DistinctCons(s[0], Without(Firsts(s[1..]), s[0]));
      assert s == [s[0]] + s[1..];
    }
  }

  lemma {:induction false} ReverseSnoc(s: seq<string>, t: string)
    ensures Reverse(s + [t]) == [t] + Reverse(s)
  {
    if s != [] {
      assert (s + [t])[1..] == s[1..] + [t];
      ReverseSnoc(s[1..], t);
    } else {
      assert ([] + [t])[1..] == [];
    }
  }

  lemma WithoutCons(head: string, rest: seq<string>, topic: string)
    ensures Without([head] + rest, topic) == if head == topic then Without(rest, topic) else [head] + Without(rest, topic)
  {
    assert ([head] + rest)[1..] == rest && [] + Without(rest, topic) == Without(rest, topic);
  }

  lemma TakeCons(head: string, rest: seq<string>, n: nat)
    requires n > 0
    ensures Take([head] + rest, n) == [head] + Take(rest, n - 1)
  {}

  predicate Commutes(full: seq<string>, topic: string, n: nat) {
    Take(Without(full, topic), n) == Take(Without(Take(full, n + 1), topic), n)
  }

  lemma CommutesAtTopic(topic: string, rest: seq<string>, n: nat)
    requires topic !in rest
    ensures Commutes([topic] + rest, topic, n)
  {
    TakeCons(topic, rest, n + 1);
    WithoutCons(topic, rest, topic);
    WithoutCons(topic, Take(rest, n), topic);
    WithoutMeaning(rest, topic);
    WithoutMeaning(Take(rest, n), topic);
  }

  lemma CommutesPast(head: string, rest: seq<string>, topic: string, n: nat)
    requires head != topic && (n > 0 ==> Commutes(rest, topic, n - 1))
    ensures Commutes([head] + rest, topic, n)
  {
    if n > 0 {
      TakeCons(head, rest, n + 1);
      WithoutCons(head, rest, topic);
      WithoutCons(head, Take(rest, n), topic);
      TakeCons(head, Without(rest, topic), n);
      TakeCons(head, Without(Take(rest, n), topic), n);
    }
  }

  /** Remembering looks only at the first entries it can keep. */
  lemma {:induction false} TruncationCommutes(full: seq<string>, topic: string, n: nat)
    requires Distinct(full)
    ensures Commutes(full, topic, n)
  {
    if full != [] {
      var head, rest := full[0], full[1..];
      assert full == [head] + rest;
      if head == topic {
        CommutesAtTopic(topic, rest, n);
      } else {
        if n > 0 { TruncationCommutes(rest, topic, n - 1); }
        CommutesPast(head, rest, topic, n);
      }
    }
  }

  lemma RememberTruncates(full: seq<string>, topic: string)
    requires Distinct(full)
    ensures Remember(Take(full, LIMIT), topic) == Take([topic] + Without(full, topic), LIMIT)
  {
    TruncationCommutes(full, topic, LIMIT - 1);
    TakeCons(topic, Without(full, topic), LIMIT);
    TakeCons(topic, Without(Take(full, LIMIT), topic), LIMIT);
  }

  lemma FirstsCons(topic: string, s: seq<string>)
    ensures Firsts([topic] + s) == [topic] + Without(Firsts(s), topic)
  {
    assert ([topic] + s)[1..] == s;
  }

  /** One more send puts its topic in front of the recency list and takes it out of the rest. */
  lemma RecencySnoc(history: seq<string>, before: seq<string>, topic: string)
    ensures Recency(history, before + [topic]) == [topic] + Without(Recency(history, before), topic)
  {
    ReverseSnoc(before, topic);
    assert [topic] + Reverse(before) + history == [topic] + (Reverse(before) + history);
    FirstsCons(topic, Reverse(before) + history);
  }

  lemma RecencyDistinct(history: seq<string>, sends: seq<string>)
    requires Distinct(history)
    ensures Distinct(Recency(history, sends))
    ensures sends == [] ==> Recency(history, sends) == history
  {
    FirstsMeaning(Reverse(sends) + history);
    assert Reverse([]) + history == history;
  }

  /** After any sends from a duplicate-free history, the history is the first twelve of the true recency
      list; so it has no duplicates and at most twelve entries. Only a stored history that was too long
      to begin with is longer, until the first send. */
  lemma {:induction false} HistoryIsTruncatedRecency(history: seq<string>, sends: seq<string>)
    requires Distinct(history)
    requires sends == [] ==> |history| <= LIMIT
    ensures AfterSends(history, sends) == Take(Recency(history, sends), LIMIT)
    ensures AfterSends(history, sends) == var all := Recency(history, sends); if |all| <= 12 then all else all[..12]
    ensures Distinct(AfterSends(history, sends)) && |AfterSends(history, sends)| <= 12
  {
    RecencyDistinct(history, sends);
    if sends != [] {
      var before, topic := sends[..|sends| - 1], sends[|sends| - 1];
      assert sends == before + [topic];
      RecencySnoc(history, before, topic);
      RecencyDistinct(history, before);
      if before != [] {
        HistoryIsTruncatedRecency(history, before);
        RememberTruncates(Recency(history, before), topic);
      }
    }
  }

  // ---- The page --------------------------------------------------------------------------

  class Publisher {
    var publishHistory: seq<string>

    /** The history found in the saved state, and the topics sent to since. */
    ghost const stored: seq<string>
    ghost var sends: seq<string>

    /** From a stored history without duplicates: the first twelve of the recency list of all that was
        sent, once something was. */
    ghost predicate Valid()
      reads this
    {
      && publishHistory == AfterSends(stored, sends)
      && (Distinct(stored) && sends != [] ==> publishHistory == Take(Recency(stored, sends), LIMIT))
    }

    constructor (stored: seq<string>)
      ensures Valid() && publishHistory == stored && this.stored == stored && sends == []
    {
      publishHistory, this.stored, sends := stored, stored, [];
    }

    /** The part of `handleSend` that keeps the history. */
    method RecordSend(topic: string)
      requires Valid()
      modifies this
      ensures Valid() && sends == old(sends) + [topic]
      ensures publishHistory != [] && publishHistory[0] == topic && |publishHistory| <= 12
      ensures forall t :: t in publishHistory ==> t == topic || t in old(publishHistory)
      ensures Distinct(stored) ==>
                var all := Recency(stored, sends);
                Distinct(publishHistory) && publishHistory == if |all| <= 12 then all else all[..12]
    {
      WithoutMeaning(publishHistory, topic);
      publishHistory := Take([topic] + Without(publishHistory, topic), LIMIT);
      sends := sends + [topic];
      assert sends[..|sends| - 1] == old(sends);
      if Distinct(stored) {
        HistoryIsTruncatedRecency(stored, sends);
      }
    }
  }
}
