/** The order in which the page sorts topics. */
module TopicOrder {
  import opened Common

  /** The UTF-16 code units of a character and of a string. */
  function Units(c: char): seq<nat> {
    var n := c as int;
    if n < 0x1_0000 then [n] else [0xD800 + (n - 0x1_0000) / 0x400, 0xDC00 + (n - 0x1_0000) % 0x400]
  }

  function Utf16(s: string): seq<nat> {
    if s == "" then [] else Units(s[0]) + Utf16(s[1..])
  }

  predicate UnitsLess(a: seq<nat>, b: seq<nat>) {
    if b == [] then false
    else if a == [] then true
    else a[0] < b[0] || (a[0] == b[0] && UnitsLess(a[1..], b[1..]))
  }

  /** Where a character stands in the order of code units: characters that take two units come before
      those from U+E000 on that take one. */
  function Rank(c: char): nat {
    var n := c as int;
    if 0xE000 <= n < 0x1_0000 then n + 0x11_0000 else n
  }

  /** The order `sort()` puts topics in. */
  predicate Less(a: string, b: string) {
    if b == "" then false
    else if a == "" then true
    else Rank(a[0]) < Rank(b[0]) || (a[0] == b[0] && Less(a[1..], b[1..]))
  }

  lemma {:induction false} UnitsLessPastPrefix(p: seq<nat>, a: seq<nat>, b: seq<nat>)
    ensures UnitsLess(p + a, p + b) <==> UnitsLess(a, b)
  {
    if p == [] {
      assert p + a == a && p + b == b;
    } else {
      assert (p + a)[1..] == p[1..] + a && (p + b)[1..] == p[1..] + b;
      UnitsLessPastPrefix(p[1..], a, b);
    }
  }

  lemma UnitsLessByFirst(c: char, d: char, a: seq<nat>, b: seq<nat>)
    requires c != d
    ensures UnitsLess(Units(c) + a, Units(d) + b) <==> Rank(c) < Rank(d)
  {
    var x, y := Units(c) + a, Units(d) + b;
    assert x[0] == Units(c)[0] && y[0] == Units(d)[0];
    if |Units(c)| == 2 && |Units(d)| == 2 {
      assert x[1..][0] == Units(c)[1] && y[1..][0] == Units(d)[1];
    }
  }

  /** Comparing character by character in that order is comparing code unit by code unit. */
  lemma {:induction false} LessComparesCodeUnits(a: string, b: string)
    ensures Less(a, b) <==> UnitsLess(Utf16(a), Utf16(b))
  {
    if a != "" && b != "" {
      if a[0] == b[0] {
        UnitsLessPastPrefix(Units(a[0]), Utf16(a[1..]), Utf16(b[1..]));
        LessComparesCodeUnits(a[1..], b[1..]);
      } else {
        UnitsLessByFirst(a[0], b[0], Utf16(a[1..]), Utf16(b[1..]));
      }
    }
  }

  lemma {:induction false} LessIsTransitive(a: string, b: string, c: string)
    requires Less(a, b) && Less(b, c)
    ensures Less(a, c)
  {
    if a != "" && a[0] == b[0] && b[0] == c[0] {
      LessIsTransitive(a[1..], b[1..], c[1..]);
    }
  }

  lemma {:induction false} LessIsTotal(a: string, b: string)
    ensures (Less(a, b) || Less(b, a) || a == b) && !(Less(a, b) && Less(b, a)) && !Less(a, a)
  {
    if a != "" && b != "" {
      LessIsTotal(a[1..], b[1..]);
      LessIsTotal(a[1..], a[1..]);
      assert a == [a[0]] + a[1..] && b == [b[0]] + b[1..];
    } else if a != "" {
      LessIsTotal(a[1..], "");
    }
  }

  predicate Ordered(topics: seq<string>, i: nat, j: nat) {
    i < j < |topics| ==> Less(topics[i], topics[j])
  }

  predicate Sorted(topics: seq<string>) {
    forall i, j :: 0 <= i < |topics| && 0 <= j < |topics| ==> Ordered(topics, i, j)
  }

  lemma SortedAt(topics: seq<string>, i: nat, j: nat)
    requires Sorted(topics) && i < j < |topics|
    ensures Less(topics[i], topics[j]) && topics[i] != topics[j]
  {
    assert Ordered(topics, i, j);
    LessIsTotal(topics[i], topics[i]);
  }

  lemma SortedTail(topics: seq<string>)
    requires Sorted(topics) && topics != []
    ensures Sorted(topics[1..])
  {
    forall i, j | 0 <= i < |topics| - 1 && 0 <= j < |topics| - 1 ensures Ordered(topics[1..], i, j) {
      assert Ordered(topics, i + 1, j + 1);
    }
  }

  lemma SortedFront(topics: seq<string>)
    requires Sorted(topics) && topics != []
    ensures Sorted(topics[..|topics| - 1])
  {
    var front := topics[..|topics| - 1];
    forall i, j | 0 <= i < |front| && 0 <= j < |front| ensures Ordered(front, i, j) {
      assert Ordered(topics, i, j);
    }
  }

  lemma SortedCons(topic: string, topics: seq<string>)
    requires Sorted(topics) && forall j :: 0 <= j < |topics| ==> Less(topic, topics[j])
    ensures Sorted([topic] + topics)
  {
    forall i, j | 0 <= i <= |topics| && 0 <= j <= |topics| ensures Ordered([topic] + topics, i, j) {
      if 0 < i < j { assert Ordered(topics, i - 1, j - 1); }
    }
  }

  function Insert(topics: seq<string>, topic: string): seq<string> {
    if topics == [] || Less(topic, topics[0]) then [topic] + topics
    else [topics[0]] + Insert(topics[1..], topic)
  }

  /** `Object.keys(messages).sort()`, whatever order the keys come in. */
  function SortKeys(keys: seq<string>): seq<string> {
    if keys == [] then [] else Insert(SortKeys(keys[1..]), keys[0])
  }

  lemma {:induction false} InsertMeaning(topics: seq<string>, topic: string)
    requires Sorted(topics) && topic !in topics
    ensures Sorted(Insert(topics, topic))
    ensures forall t :: t in Insert(topics, topic) <==> t == topic || t in topics
  {
    if topics != [] {
      LessIsTotal(topic, topics[0]);
      if Less(topic, topics[0]) {
        forall j | 0 <= j < |topics| ensures Less(topic, topics[j]) {
          if j > 0 {
            SortedAt(topics, 0, j);
            LessIsTransitive(topic, topics[0], topics[j]);
          }
        }
        SortedCons(topic, topics);
      } else {
        assert topics[0] in topics;
        var rest := Insert(topics[1..], topic);
        SortedTail(topics);
        InsertMeaning(topics[1..], topic);
        forall j | 0 <= j < |rest| ensures Less(topics[0], rest[j]) {
          assert rest[j] in rest;
          if rest[j] != topic {
            var k :| 0 <= k < |topics[1..]| && topics[1..][k] == rest[j];
            SortedAt(topics, 0, k + 1);
          }
        }
        SortedCons(topics[0], rest);
      }
    }
  }

  lemma {:induction false} SortKeysIsSorted(keys: seq<string>)
    requires Distinct(keys)
    ensures Sorted(SortKeys(keys))
    ensures forall t :: t in SortKeys(keys) <==> t in keys
  {
    if keys != [] {
      SortKeysIsSorted(keys[1..]);
      assert keys[0] !in keys[1..];
      InsertMeaning(SortKeys(keys[1..]), keys[0]);
    }
  }

  /** Sorting leaves the same keys, strictly ascending by their code units. */
  lemma SortKeysMeaning(keys: seq<string>)
    requires Distinct(keys)
    ensures Sorted(SortKeys(keys))
    ensures forall t :: t in SortKeys(keys) <==> t in keys
    ensures forall i, j :: 0 <= i < j < |SortKeys(keys)| ==> UnitsLess(Utf16(SortKeys(keys)[i]), Utf16(SortKeys(keys)[j]))
  {
    SortKeysIsSorted(keys);
    var sorted := SortKeys(keys);
    forall i, j | 0 <= i < j < |sorted| ensures UnitsLess(Utf16(sorted[i]), Utf16(sorted[j])) {
      SortedAt(sorted, i, j);
      LessComparesCodeUnits(sorted[i], sorted[j]);
    }
  }

  // ---- Keys before a given point -----------------------------------------------------

  lemma SortedPrefix(topics: seq<string>, n: nat)
    requires Sorted(topics) && n <= |topics|
    ensures Sorted(topics[..n])
  {
    var front := topics[..n];
    forall i, j | 0 <= i < |front| && 0 <= j < |front| ensures Ordered(front, i, j) {
      assert Ordered(topics, i, j);
    }
  }

  /** `topic` comes after all of `keys`, which are sorted. */
  predicate Past(topic: string, keys: seq<string>) {
    keys == [] || Less(keys[|keys| - 1], topic)
  }

  lemma PastFirst(topic: string, keys: seq<string>)
    requires Sorted(keys) && keys != [] && Past(topic, keys)
    ensures Less(keys[0], topic) && Past(topic, keys[1..])
  {
    if |keys| > 1 {
      SortedAt(keys, 0, |keys| - 1);
      LessIsTransitive(keys[0], keys[|keys| - 1], topic);
    }
  }
}
