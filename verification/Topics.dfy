/** The page's topic lists: what the subscription box parses to, and how the list is shown. */
module Topics {
  import opened Common
  import TopicPath

  /** `split(",")`: always at least one piece. */
  function Split(s: string): (pieces: seq<string>)
    ensures pieces != []
  {
    if s == "" then [""]
    else if s[0] == ',' then [""] + Split(s[1..])
    else
      var rest := Split(s[1..]);
      [[s[0]] + rest[0]] + rest[1..]
  }

  function TrimStart(s: string): string {
    if s != "" && TopicPath.IsSpace(s[0]) then TrimStart(s[1..]) else s
  }

  function TrimEnd(s: string): string {
    if s != "" && TopicPath.IsSpace(s[|s| - 1]) then TrimEnd(s[..|s| - 1]) else s
  }

  function Trim(s: string): string {
    TrimEnd(TrimStart(s))
  }

  function TrimAll(pieces: seq<string>): seq<string> {
    if pieces == [] then [] else [Trim(pieces[0])] + TrimAll(pieces[1..])
  }

  /** The non-empty items that occur for the first time where they stand. */
  function FirstOccurrences(items: seq<string>): seq<string> {
    if items == [] then []
    else
      var before, item := items[..|items| - 1], items[|items| - 1];
      FirstOccurrences(before) + if item != "" && item !in before then [item] else []
  }

  function ParseTopics(input: string): seq<string> {
    var items := FirstOccurrences(TrimAll(Split(input)));
    if items == [] || ALL_TOPICS in items then [ALL_TOPICS] else items
  }

  /** `join(", ")`. */
  function Join(items: seq<string>): string {
    if items == [] then ""
    else if |items| == 1 then items[0]
    else items[0] + ", " + Join(items[1..])
  }

  // ---- What a parsed list looks like -----------------------------------------------

  predicate NoComma(s: string) {
    ',' !in s
  }

  predicate Trimmed(s: string) {
    s == "" || (!TopicPath.IsSpace(s[0]) && !TopicPath.IsSpace(s[|s| - 1]))
  }

  /** A name a list can hold: not empty, without comma, without surrounding white space. */
  predicate IsName(s: string) {
    s != "" && NoComma(s) && Trimmed(s)
  }

  lemma {:induction false} SplitHasNoCommas(s: string, i: nat)
    requires i < |Split(s)|
    ensures NoComma(Split(s)[i])
  {
    if s != "" {
      if s[0] == ',' {
        if i > 0 { SplitHasNoCommas(s[1..], i - 1); }
      } else {
        SplitHasNoCommas(s[1..], i);
      }
    }
  }

  lemma {:induction false} SplitAtComma(a: string, b: string)
    requires NoComma(a)
    ensures Split(a + "," + b) == [a] + Split(b)
  {
    if a == "" {
      assert a + "," + b == "," + b;
    } else {
      assert (a + "," + b)[1..] == a[1..] + "," + b;
      SplitAtComma(a[1..], b);
      assert [a[0]] + a[1..] == a;
    }
  }

  lemma {:induction false} SplitWithoutComma(a: string)
    requires NoComma(a)
    ensures Split(a) == [a]
  {
    if a != "" {
      SplitWithoutComma(a[1..]);
      assert [a[0]] + a[1..] == a;
    }
  }

  function Glue(c: char, pieces: seq<string>): seq<string>
    requires pieces != []
  {
    if c == ',' then [""] + pieces else [[c] + pieces[0]] + pieces[1..]
  }

  lemma SplitCons(c: char, s: string)
    ensures Split([c] + s) == Glue(c, Split(s))
  {
    assert ([c] + s)[1..] == s;
  }

  lemma GlueAppends(c: char, x: seq<string>, y: seq<string>)
    requires x != []
    ensures Glue(c, x + y) == Glue(c, x) + y
  {
    assert (x + y)[1..] == x[1..] + y;
  }

  lemma {:induction false} SplitAppends(a: string, b: string)
    ensures Split(a + "," + b) == Split(a) + Split(b)
  {
    if a == "" {
      assert a + "," + b == "," + b;
      SplitCons(',', b);
    } else {
      var c, less := a[0], a[1..];
      assert a == [c] + less;
      SplitAppends(less, b);
      AppendAssoc([c], less, ",");
      AppendAssoc([c], less + ",", b);
      SplitCons(c, less + "," + b);
      SplitCons(c, less);
      GlueAppends(c, Split(less), Split(b));
    }
  }

  /** Nothing, or something that ends with a comma; and nothing, or something that begins with one. */
  predicate EndsAtComma(a: string) {
    a == "" || a[|a| - 1] == ','
  }

  predicate BeginsAtComma(b: string) {
    b == "" || b[0] == ','
  }

  /** `piece` stands in `input` between two commas, or between a comma and an end. */
  predicate IsPieceAt(input: string, a: string, piece: string, b: string) {
    input == a + piece + b && NoComma(piece) && EndsAtComma(a) && BeginsAtComma(b)
  }

  lemma {:induction false} SplitGivesPieces(s: string, i: nat) returns (a: string, b: string)
    requires i < |Split(s)|
    ensures IsPieceAt(s, a, Split(s)[i], b) && (i == 0 <==> a == "")
  {
    if s == "" {
      a, b := "", "";
    } else if s[0] == ',' {
      if i == 0 {
        a, b := "", s;
      } else {
        a, b := SplitGivesPieces(s[1..], i - 1);
        a := "," + a;
        assert s == [s[0]] + s[1..];
      }
    } else {
      a, b := SplitGivesPieces(s[1..], i);
      assert s == [s[0]] + s[1..];
      if i > 0 { a := [s[0]] + a; }
    }
  }

  lemma FirstPiece(piece: string, b: string)
    requires NoComma(piece) && BeginsAtComma(b)
    ensures piece in Split(piece + b)
  {
    if b == "" {
      assert piece + b == piece;
      SplitWithoutComma(piece);
    } else {
      var more := b[1..];
      assert b == "," + more;
      assert piece + b == piece + "," + more;
      SplitAtComma(piece, more);
    }
  }

  lemma PieceBehind(a: string, rest: string, piece: string)
    requires EndsAtComma(a) && piece in Split(rest)
    ensures piece in Split(a + rest)
  {
    if a == "" {
      assert a + rest == rest;
    } else {
      var front := a[..|a| - 1];
      assert a == front + ",";
      SplitAppends(front, rest);
    }
  }

  lemma SplitFindsPiece(input: string, a: string, piece: string, b: string)
    requires IsPieceAt(input, a, piece, b)
    ensures piece in Split(input)
  {
    FirstPiece(piece, b);
    PieceBehind(a, piece + b, piece);
    AppendAssoc(a, piece, b);
  }

  /** White space in front of blank text, and behind it. */
  lemma BlankGrows(c: char, blank: string, s: string)
    requires TopicPath.IsSpace(c) && TopicPath.IsBlank(blank)
    ensures TopicPath.IsBlank([c] + blank) && TopicPath.IsBlank(blank + [c])
    ensures [c] + (blank + s) == ([c] + blank) + s && (s + blank) + [c] == s + (blank + [c])
  {}

  lemma {:induction false} TrimStartMeaning(s: string) returns (pre: string)
    ensures TopicPath.IsBlank(pre) && s == pre + TrimStart(s)
    ensures TrimStart(s) == "" || !TopicPath.IsSpace(TrimStart(s)[0])
  {
    if s != "" && TopicPath.IsSpace(s[0]) {
      var blank := TrimStartMeaning(s[1..]);
      BlankGrows(s[0], blank, TrimStart(s));
      pre := [s[0]] + blank;
      assert s == [s[0]] + s[1..];
    } else {
      pre := "";
      assert s == pre + s;
    }
  }

  lemma {:induction false} TrimEndMeaning(s: string) returns (post: string)
    ensures TopicPath.IsBlank(post) && s == TrimEnd(s) + post
    ensures TrimEnd(s) == "" || !TopicPath.IsSpace(TrimEnd(s)[|TrimEnd(s)| - 1])
  {
    if s != "" && TopicPath.IsSpace(s[|s| - 1]) {
      var blank := TrimEndMeaning(s[..|s| - 1]);
      BlankGrows(s[|s| - 1], blank, TrimEnd(s));
      post := blank + [s[|s| - 1]];
      assert s == s[..|s| - 1] + [s[|s| - 1]];
    } else {
      post := "";
      assert s == s + post;
    }
  }

  /** `s` is `t` with white space, or nothing, on both sides. */
  ghost predicate Surrounds(s: string, t: string) {
    exists pre: string, post: string :: TopicPath.IsBlank(pre) && TopicPath.IsBlank(post) && s == pre + t + post
  }

  lemma SurroundedBy(s: string, pre: string, start: string, t: string, post: string)
    requires TopicPath.IsBlank(pre) && TopicPath.IsBlank(post) && s == pre + start && start == t + post
    ensures Surrounds(s, t) && (NoComma(s) ==> NoComma(t))
  {
    assert s == pre + t + post;
  }

  lemma TrimIsTrimmed(s: string)
    ensures Trimmed(Trim(s))
  {
    var pre := TrimStartMeaning(s);
    var post := TrimEndMeaning(TrimStart(s));
    assert Trim(s) != "" ==> Trim(s)[0] == TrimStart(s)[0];
  }

  lemma TrimSurrounds(s: string)
    ensures Surrounds(s, Trim(s)) && (NoComma(s) ==> NoComma(Trim(s)))
  {
    var pre := TrimStartMeaning(s);
    var post := TrimEndMeaning(TrimStart(s));
    SurroundedBy(s, pre, TrimStart(s), Trim(s), post);
  }

  /** Trimming takes away white space only, and all of it at both ends. */
  lemma TrimMeaning(s: string)
    ensures Trimmed(Trim(s)) && Surrounds(s, Trim(s))
    ensures NoComma(s) ==> NoComma(Trim(s))
  {
    TrimIsTrimmed(s);
    TrimSurrounds(s);
  }

  lemma TrimKeepsTrimmed(s: string)
    requires Trimmed(s)
    ensures Trim(s) == s
  {}

  lemma {:induction false} TrimStartDrops(pre: string, s: string)
    requires TopicPath.IsBlank(pre) && (s == "" || !TopicPath.IsSpace(s[0]))
    ensures TrimStart(pre + s) == s
  {
    if pre == "" {
      assert pre + s == s;
    } else {
      assert (pre + s)[1..] == pre[1..] + s && (pre + s)[0] == pre[0];
      TrimStartDrops(pre[1..], s);
    }
  }

  lemma {:induction false} TrimEndDrops(s: string, post: string)
    requires TopicPath.IsBlank(post) && (s == "" || !TopicPath.IsSpace(s[|s| - 1]))
    ensures TrimEnd(s + post) == s
  {
    if post == "" {
      assert s + post == s;
    } else {
      var n := |post| - 1;
      assert (s + post)[..|s| + n] == s + post[..n] && (s + post)[|s| + n] == post[n];
      TrimEndDrops(s, post[..n]);
    }
  }

  /** There is only one way to take the white space away. */
  lemma TrimIsUnique(s: string, t: string)
    requires Surrounds(s, t) && Trimmed(t) && t != ""
    ensures Trim(s) == t
  {
    var pre: string, post: string :| TopicPath.IsBlank(pre) && TopicPath.IsBlank(post) && s == pre + t + post;
    assert s == pre + (t + post) && (t + post)[0] == t[0];
    TrimStartDrops(pre, t + post);
    TrimEndDrops(t, post);
  }

  lemma {:induction false} TrimAllAt(pieces: seq<string>, i: nat)
    requires i < |pieces|
    ensures |TrimAll(pieces)| == |pieces| && TrimAll(pieces)[i] == Trim(pieces[i])
  {
    if i > 0 {
      TrimAllAt(pieces[1..], i - 1);
    } else if |pieces| > 1 {
      TrimAllAt(pieces[1..], 0);
    }
  }

  lemma {:induction false} FirstOccurrencesMeaning(items: seq<string>)
    ensures Distinct(FirstOccurrences(items))
    ensures forall t :: t in FirstOccurrences(items) <==> t in items && t != ""
  {
    if items != [] {
      var before, item := items[..|items| - 1], items[|items| - 1];
      FirstOccurrencesMeaning(before);
      assert items == before + [item];
    }
  }

  lemma ItemsAreNames(input: string, t: string)
    requires t in TrimAll(Split(input)) && t != ""
    ensures IsName(t)
  {
    var pieces := Split(input);
    var named := TrimAll(pieces);
    TrimAllAt(pieces, 0);
    var i :| 0 <= i < |named| && named[i] == t;
    TrimAllAt(pieces, i);
    SplitHasNoCommas(input, i);
    TrimMeaning(pieces[i]);
  }

  /** The box names `t`: some text between commas is `t` with white space, or nothing, on both sides. */
  ghost predicate Names(input: string, t: string) {
    t != "" && Trimmed(t) && exists a, piece, b :: IsPieceAt(input, a, piece, b) && Surrounds(piece, t)
  }

  lemma NamedExactly(input: string, t: string)
    ensures t in TrimAll(Split(input)) && t != "" <==> Names(input, t)
  {
    var pieces := Split(input);
    var named := TrimAll(pieces);
    TrimAllAt(pieces, 0);
    if t in named && t != "" {
      var i :| 0 <= i < |named| && named[i] == t;
      TrimAllAt(pieces, i);
      TrimMeaning(pieces[i]);
      var a, b := SplitGivesPieces(input, i);
    }
    if Names(input, t) {
      var a, piece, b :| IsPieceAt(input, a, piece, b) && Surrounds(piece, t);
      SplitFindsPiece(input, a, piece, b);
      TrimIsUnique(piece, t);
      var i :| 0 <= i < |pieces| && pieces[i] == piece;
      TrimAllAt(pieces, i);
    }
  }

  /** Every topic named in the box is in the list and nothing else is, unless `_all` swallows them. */
  lemma ParseTopicsMeaning(input: string)
    ensures if Names(input, "_all") || (forall t :: !Names(input, t)) then ParseTopics(input) == ["_all"]
            else forall t :: t in ParseTopics(input) <==> Names(input, t)
  {
    var named := TrimAll(Split(input));
    var items := FirstOccurrences(named);
    FirstOccurrencesMeaning(named);
    forall t ensures t in items <==> Names(input, t) {
      NamedExactly(input, t);
    }
    if items != [] {
      assert items[0] in items;
    }
  }

  /** Where an item that is not empty stands for the first time. */
  function FirstAt(items: seq<string>): set<nat> {
    set i: nat | i < |items| && items[i] != "" && items[i] !in items[..i]
  }

  /** The list keeps the order in which the box names its topics first. */
  lemma ParseTopicsOrder(input: string) returns (picked: seq<nat>)
    requires !Names(input, "_all") && exists t :: Names(input, t)
    ensures var named := TrimAll(Split(input));
            && Lists(picked, FirstAt(named)) && |picked| == |ParseTopics(input)|
            && forall k :: 0 <= k < |picked| ==> picked[k] < |named| && ParseTopics(input)[k] == named[picked[k]]
  {
    var named := TrimAll(Split(input));
    picked := FirstOccurrencesInOrder(named);
    FirstOccurrencesMeaning(named);
    NamedExactly(input, "_all");
    var t :| Names(input, t);
    NamedExactly(input, t);
  }

  lemma {:induction false} FirstOccurrencesInOrder(items: seq<string>) returns (picked: seq<nat>)
    ensures Lists(picked, FirstAt(items)) && |picked| == |FirstOccurrences(items)|
    ensures forall k :: 0 <= k < |picked| ==> picked[k] < |items| && FirstOccurrences(items)[k] == items[picked[k]]
  {
    if items == [] {
      picked := [];
    } else {
      var n := |items| - 1;
      var before := items[..n];
      picked := FirstOccurrencesInOrder(before);
      FirstAtNext(items, n);
      if items[n] != "" && items[n] !in before {
        ListsNext(picked, FirstAt(before), n);
        picked := picked + [n];
      }
    }
  }

  lemma FirstAtNext(items: seq<string>, n: nat)
    requires |items| == n + 1
    ensures FirstAt(items) == FirstAt(items[..n]) + if items[n] != "" && items[n] !in items[..n] then {n} else {}
  {
    forall i: nat | i < n ensures items[..n][i] == items[i] && items[..n][..i] == items[..i] {
    }
  }

  lemma AllIsAName()
    ensures IsName("_all")
  {
    assert "_all"[0] == '_' && "_all"[1] == 'a' && "_all"[2] == 'l' && "_all"[3] == 'l';
  }

  lemma ParsedAreNames(input: string, t: string)
    requires t in ParseTopics(input)
    ensures IsName(t)
  {
    if t == "_all" {
      AllIsAName();
    } else {
      FirstOccurrencesMeaning(TrimAll(Split(input)));
      ItemsAreNames(input, t);
    }
  }

  /** The list is never empty, has no duplicates, is `_all` alone or free of it, and holds names only. */
  lemma ParseTopicsShape(input: string)
    ensures var topics := ParseTopics(input);
            && topics != [] && Distinct(topics)
            && (topics == ["_all"] || "_all" !in topics)
            && (forall t :: t in topics ==> IsName(t))
  {
    FirstOccurrencesMeaning(TrimAll(Split(input)));
    forall t | t in ParseTopics(input) ensures IsName(t) {
      ParsedAreNames(input, t);
    }
  }

  // ---- Printing and parsing again ----------------------------------------------------

  lemma LeadingSpaceIsTrimmed(s: string)
    ensures TrimAll(Split(" " + s)) == TrimAll(Split(s))
  {
    var pieces := Split(s);
    assert (" " + s)[1..] == s;
    assert Split(" " + s) == [" " + pieces[0]] + pieces[1..];
    assert (" " + pieces[0])[1..] == pieces[0];
    assert Trim(" " + pieces[0]) == Trim(pieces[0]);
  }

  lemma {:induction false} JoinSplits(items: seq<string>)
    requires items != [] && forall t :: t in items ==> IsName(t)
    ensures TrimAll(Split(Join(items))) == items
  {
    var first, rest := items[0], items[1..];
    assert first in items;
    TrimKeepsTrimmed(first);
    if rest == [] {
      SplitWithoutComma(first);
      assert TrimAll([first]) == [first] + TrimAll([]);
    } else {
      JoinSplits(rest);
      var tail := " " + Join(rest);
      assert Join(items) == first + "," + tail;
      SplitAtComma(first, tail);
      LeadingSpaceIsTrimmed(Join(rest));
      assert ([first] + Split(tail))[1..] == Split(tail);
    }
  }

  lemma {:induction false} FirstOccurrencesOfDistinct(items: seq<string>)
    requires Distinct(items) && forall t :: t in items ==> t != ""
    ensures FirstOccurrences(items) == items
  {
    if items != [] {
      var before, item := items[..|items| - 1], items[|items| - 1];
      assert items == before + [item];
      assert item in items && item !in before;
      assert forall t :: t in before ==> t in items;
      FirstOccurrencesOfDistinct(before);
    }
  }

  /** The list is shown with a comma and a space between its items, and nothing else. */
  lemma {:induction false} JoinSnoc(items: seq<string>, item: string)
    ensures Join(items + [item]) == if items == [] then item else Join(items) + ", " + item
  {
    var all := items + [item];
    if items != [] {
      assert all[1..] == items[1..] + [item];
      JoinSnoc(items[1..], item);
      if |items| == 1 {
        assert items == [items[0]];
      } else {
        AppendAssoc(items[0] + ", ", Join(items[1..]), ", " + item);
        AppendAssoc(items[0] + ", " + Join(items[1..]), ", ", item);
        AppendAssoc(Join(items[1..]), ", ", item);
      }
    }
  }

  /** Showing a parsed list and parsing what is shown gives the list back, for every input. */
  lemma PrintedListParsesBack(input: string)
    ensures ParseTopics(Join(ParseTopics(input))) == ParseTopics(input)
  {
    var topics := ParseTopics(input);
    ParseTopicsShape(input);
    JoinSplits(topics);
    FirstOccurrencesOfDistinct(topics);
  }
}
