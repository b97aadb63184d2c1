/** The page's collapsible JSON trees, and how their open nodes survive a refresh. */
module Trees {
  import opened Common

  /** What `buildTree` produces: a leaf for a scalar, a `<details>` element for an array or an object. */
  datatype Tree = Leaf(caption: string, value: Json) | Details(caption: string, open: bool, kids: seq<Tree>)

  // ---- Paths ---------------------------------------------------------------------

  function Digit(d: nat): char
    requires d < 10
  {
    '0' + d as char
  }

  function Decimal(n: nat): (s: string)
    ensures s != ""
  {
    if n < 10 then [Digit(n)] else Decimal(n / 10) + [Digit(n % 10)]
  }

  function ChildPath(path: string, index: nat): string {
    path + "/" + Decimal(index)
  }

  lemma {:induction false} DecimalHasNoSlash(n: nat)
    ensures '/' !in Decimal(n)
  {
    if n >= 10 {
      DecimalHasNoSlash(n / 10);
    }
  }

  lemma {:induction false} DecimalInjective(m: nat, n: nat)
    requires Decimal(m) == Decimal(n)
    ensures m == n
  {
    var s := Decimal(m);
    assert s[|s| - 1] == Digit(m % 10) == Digit(n % 10);
    if m >= 10 && n >= 10 {
      assert s[..|s| - 1] == Decimal(m / 10) == Decimal(n / 10);
      DecimalInjective(m / 10, n / 10);
    }
  }

  // ---- Collecting and restoring ------------------------------------------------------

  /** The paths of open `<details>` elements among `kids`, the first of them being number `index`
      below `path`. */
  function Collect(kids: seq<Tree>, index: nat, path: string): set<string> {
    if kids == [] then {}
    else match kids[0]
      case Leaf(_, _) => Collect(kids[1..], index, path)
      case Details(_, open, below) =>
        var here := ChildPath(path, index);
        (if open then {here} else {}) + Collect(below, 0, here) + Collect(kids[1..], index + 1, path)
  }

  function Restore(kids: seq<Tree>, index: nat, path: string, paths: set<string>): seq<Tree> {
    if kids == [] then []
    else match kids[0]
      case Leaf(_, _) => [kids[0]] + Restore(kids[1..], index, path, paths)
      case Details(caption, _, below) =>
        var here := ChildPath(path, index);
        [Details(caption, here in paths, Restore(below, 0, here, paths))] + Restore(kids[1..], index + 1, path, paths)
  }

  function CollectOpenPaths(root: seq<Tree>): set<string> {
    Collect(root, 0, "")
  }

  function RestoreOpenPaths(root: seq<Tree>, paths: set<string>): seq<Tree> {
    Restore(root, 0, "", paths)
  }

  /** `collectOpenPaths` as the page runs it: one set that every level adds to. */
  method CollectInto(kids: seq<Tree>, path: string, found: set<string>) returns (open: set<string>)
    ensures open == found + Collect(kids, 0, path)
    decreases kids
  {
    open := found;
    var index, i := 0, 0;
    assert kids[0..] == kids;
    while i < |kids|
      invariant i <= |kids|
      invariant open + Collect(kids[i..], index, path) == found + Collect(kids, 0, path)
    {
      assert kids[i..][1..] == kids[i + 1..] && kids[i..][0] == kids[i];
      match kids[i] {
        case Leaf(_, _) =>
        case Details(_, isOpen, below) =>
          var here := ChildPath(path, index);
          if isOpen {
            open := open + {here};
          }
          open := CollectInto(below, here, open);
          index := index + 1;
      }
      i := i + 1;
    }
  }

  // ---- What a refresh should do --------------------------------------------------------

  function SkipLeaves(kids: seq<Tree>): (r: seq<Tree>)
    ensures r != [] ==> r[0].Details?
  {
    if kids == [] || kids[0].Details? then kids else SkipLeaves(kids[1..])
  }

  /** The new elements with the flags of the old ones: the n-th `<details>` element of a node is open if
      the n-th one of the corresponding old node was. No paths are involved. */
  function Carry(kids: seq<Tree>, prior: seq<Tree>): (r: seq<Tree>)
    ensures |r| == |kids|
    decreases kids
  {
    if kids == [] then []
    else match kids[0]
      case Leaf(_, _) => [kids[0]] + Carry(kids[1..], prior)
      case Details(caption, _, below) =>
        var rest := SkipLeaves(prior);
        if rest == [] then [Details(caption, false, Carry(below, []))] + Carry(kids[1..], [])
        else [Details(caption, rest[0].open, Carry(below, rest[0].kids))] + Carry(kids[1..], rest[1..])
  }

  function Shape(kids: seq<Tree>): (r: seq<Tree>)
    ensures |r| == |kids|
  {
    if kids == [] then []
    else
      (match kids[0]
       case Leaf(_, _) => [kids[0]]
       case Details(caption, _, below) => [Details(caption, false, Shape(below))]) + Shape(kids[1..])
  }

  /** `x` is the path of an element at or below one of number `index` or more, under `path`. */
  ghost predicate Under(x: string, path: string, index: nat) {
    exists j: nat, rest: string :: j >= index && At(x, path, j, rest)
  }

  /** `x` is child `j` of `path`, or lies below it by `rest`. */
  predicate At(x: string, path: string, j: nat, rest: string) {
    x == ChildPath(path, j) + rest && (rest == "" || rest[0] == '/')
  }

  lemma ChildPathsSplit(path: string, i: nat, r: string, j: nat, s: string)
    requires ChildPath(path, i) + r == ChildPath(path, j) + s
    requires r == "" || r[0] == '/'
    requires s == "" || s[0] == '/'
    ensures i == j && r == s
  {
    var a, b := Decimal(i), Decimal(j);
    assert (path + "/" + a + r)[|path| + 1..] == a + r;
    assert (path + "/" + b + s)[|path| + 1..] == b + s;
    DecimalHasNoSlash(i);
    DecimalHasNoSlash(j);
    SlashEndsFirst(a, r, b, s);
    DecimalInjective(i, j);
  }

  lemma SlashEndsFirst(a: string, r: string, b: string, s: string)
    requires a + r == b + s && '/' !in a && '/' !in b
    requires r == "" || r[0] == '/'
    requires s == "" || s[0] == '/'
    ensures a == b && r == s
  {
    var x := a + r;
    assert x[..|a|] == a && x[|a|..] == r && x[..|b|] == b && x[|b|..] == s;
  }

  lemma Regroup(a: string, b: string, c: string, d: string)
    ensures a + b + c + d == a + (b + c + d)
  {}

  lemma UnderChild(x: string, path: string, index: nat)
    requires Under(x, ChildPath(path, index), 0)
    ensures Under(x, path, index) && x != ChildPath(path, index) && !Under(x, path, index + 1)
  {
    var here := ChildPath(path, index);
    var j: nat, rest: string :| At(x, here, j, rest);
    var tail := "/" + Decimal(j) + rest;
    Regroup(here, "/", Decimal(j), rest);
    assert At(x, path, index, tail);
    if Under(x, path, index + 1) {
      var k: nat, more: string :| k >= index + 1 && At(x, path, k, more);
      ChildPathsSplit(path, index, tail, k, more);
      assert false;
    }
  }

  lemma HereIsNotFurther(path: string, index: nat)
    ensures !Under(ChildPath(path, index), path, index + 1)
    ensures Under(ChildPath(path, index), path, index)
  {
    var here := ChildPath(path, index);
    assert here == here + "";
    assert At(here, path, index, "");
    if Under(here, path, index + 1) {
      var k: nat, more: string :| k >= index + 1 && At(here, path, k, more);
      ChildPathsSplit(path, index, "", k, more);
      assert false;
    }
  }

  lemma UnderWeaker(x: string, path: string, index: nat)
    requires Under(x, path, index + 1)
    ensures Under(x, path, index)
  {
    var j: nat, rest: string :| j >= index + 1 && At(x, path, j, rest);
  }

  lemma {:induction false} CollectedIsUnder(kids: seq<Tree>, index: nat, path: string, x: string)
    requires x in Collect(kids, index, path)
    ensures Under(x, path, index)
    decreases kids
  {
    match kids[0]
    case Leaf(_, _) => CollectedIsUnder(kids[1..], index, path, x);
    case Details(_, open, below) =>
      var here := ChildPath(path, index);
      if x == here {
        HereIsNotFurther(path, index);
      } else if x in Collect(below, 0, here) {
        CollectedIsUnder(below, 0, here, x);
        UnderChild(x, path, index);
      } else {
        CollectedIsUnder(kids[1..], index + 1, path, x);
        UnderWeaker(x, path, index);
      }
  }

  /** `paths` tells the truth about everything under `path` from number `index` on. */
  ghost predicate Agrees(paths: set<string>, kids: seq<Tree>, index: nat, path: string) {
    forall x :: Under(x, path, index) ==> (x in paths <==> x in Collect(kids, index, path))
  }

  lemma {:induction false} CollectSkipsLeaves(kids: seq<Tree>, index: nat, path: string)
    ensures Collect(SkipLeaves(kids), index, path) == Collect(kids, index, path)
  {
    if kids != [] && kids[0].Leaf? {
      CollectSkipsLeaves(kids[1..], index, path);
    }
  }

  lemma AgreesBelow(paths: set<string>, kids: seq<Tree>, index: nat, path: string)
    requires kids != [] && kids[0].Details? && Agrees(paths, kids, index, path)
    ensures var here := ChildPath(path, index);
            && (here in paths <==> kids[0].open)
            && Agrees(paths, kids[0].kids, 0, here)
            && Agrees(paths, kids[1..], index + 1, path)
  {
    var here, below := ChildPath(path, index), kids[0].kids;
    HereIsNotFurther(path, index);
    if here in Collect(below, 0, here) {
      CollectedIsUnder(below, 0, here, here);
      UnderChild(here, path, index);
      assert false;
    }
    if here in Collect(kids[1..], index + 1, path) {
      CollectedIsUnder(kids[1..], index + 1, path, here);
    }
    forall x | Under(x, here, 0) ensures x in paths <==> x in Collect(below, 0, here) {
      UnderChild(x, path, index);
      if x in Collect(kids[1..], index + 1, path) {
        CollectedIsUnder(kids[1..], index + 1, path, x);
      }
    }
    forall x | Under(x, path, index + 1) ensures x in paths <==> x in Collect(kids[1..], index + 1, path) {
      UnderWeaker(x, path, index);
      if x in Collect(below, 0, here) {
        CollectedIsUnder(below, 0, here, x);
        UnderChild(x, path, index);
      }
    }
  }

  lemma AgreesWithNothing(paths: set<string>, index: nat, path: string)
    requires Agrees(paths, [], index, path)
    ensures ChildPath(path, index) !in paths
    ensures Agrees(paths, [], 0, ChildPath(path, index)) && Agrees(paths, [], index + 1, path)
  {
    HereIsNotFurther(path, index);
    forall x | Under(x, ChildPath(path, index), 0) ensures x !in paths {
      UnderChild(x, path, index);
    }
    forall x | Under(x, path, index + 1) ensures x !in paths {
      UnderWeaker(x, path, index);
    }
  }

  lemma {:induction false} RestoreCarries(kids: seq<Tree>, prior: seq<Tree>, index: nat, path: string, paths: set<string>)
    requires Agrees(paths, prior, index, path)
    ensures Restore(kids, index, path, paths) == Carry(kids, prior)
    decreases kids
  {
    if kids != [] {
      match kids[0]
      case Leaf(_, _) => RestoreCarries(kids[1..], prior, index, path, paths);
      case Details(_, _, below) =>
        var here, rest := ChildPath(path, index), SkipLeaves(prior);
        CollectSkipsLeaves(prior, index, path);
        if rest == [] {
          AgreesWithNothing(paths, index, path);
          RestoreCarries(below, [], 0, here, paths);
          RestoreCarries(kids[1..], [], index + 1, path, paths);
        } else {
          AgreesBelow(paths, rest, index, path);
          RestoreCarries(below, rest[0].kids, 0, here, paths);
          RestoreCarries(kids[1..], rest[1..], index + 1, path, paths);
        }
    }
  }

  /** Saving the open elements of one tree as path strings and restoring them on any other carries the
      flags over position by position: the strings never confuse two elements, however deep or wide. */
  lemma RestoringCollectedPathsCarriesFlags(renewed: seq<Tree>, prior: seq<Tree>)
    ensures RestoreOpenPaths(renewed, CollectOpenPaths(prior)) == Carry(renewed, prior)
  {
    RestoreCarries(renewed, prior, 0, "", CollectOpenPaths(prior));
  }

  lemma {:induction false} CarryKeepsShape(kids: seq<Tree>, prior: seq<Tree>)
    ensures Shape(Carry(kids, prior)) == Shape(kids)
    decreases kids
  {
    if kids != [] {
      var all := Carry(kids, prior);
      match kids[0]
      case Leaf(_, _) =>
        CarryKeepsShape(kids[1..], prior);
        assert all[1..] == Carry(kids[1..], prior);
      case Details(_, _, below) =>
        var rest := SkipLeaves(prior);
        if rest == [] {
          CarryKeepsShape(below, []);
          CarryKeepsShape(kids[1..], []);
          assert all[1..] == Carry(kids[1..], []);
        } else {
          CarryKeepsShape(below, rest[0].kids);
          CarryKeepsShape(kids[1..], rest[1..]);
          assert all[1..] == Carry(kids[1..], rest[1..]);
        }
    }
  }

  lemma ShapeTail(kids: seq<Tree>)
    requires kids != []
    ensures Shape(kids)[1..] == Shape(kids[1..])
    ensures Shape(kids)[0].Details? == kids[0].Details?
  {}

  /** Leaves in front of the old elements do not matter to what is carried. */
  lemma {:induction false} CarryIgnoresLeaves(kids: seq<Tree>, prior: seq<Tree>)
    requires prior != [] && prior[0].Leaf?
    ensures Carry(kids, prior) == Carry(kids, prior[1..])
    decreases kids
  {
    if kids != [] && kids[0].Leaf? {
      CarryIgnoresLeaves(kids[1..], prior);
    }
  }

  lemma {:induction false} CarryOntoSameShape(kids: seq<Tree>, prior: seq<Tree>)
    requires Shape(kids) == Shape(prior)
    ensures Carry(kids, prior) == prior
    decreases kids
  {
    if kids != [] {
      ShapeTail(kids);
      ShapeTail(prior);
      CarryOntoSameShape(kids[1..], prior[1..]);
      match kids[0]
      case Leaf(_, _) => CarryIgnoresLeaves(kids[1..], prior);
      case Details(_, _, below) => CarryOntoSameShape(below, prior[0].kids);
    }
  }

  /** On any tree of the same shape, restoring what was collected gives the original flags exactly. */
  lemma SavingAndRestoringIsLossless(tree: seq<Tree>, original: seq<Tree>)
    requires Shape(tree) == Shape(original)
    ensures RestoreOpenPaths(tree, CollectOpenPaths(original)) == original
  {
    RestoringCollectedPathsCarriesFlags(tree, original);
    CarryOntoSameShape(tree, original);
  }

  // ---- Building a tree ------------------------------------------------------------------

  function Build(caption: string, value: Json, open: bool): Tree
    decreases value
  {
    match value
    case Array(items) => Details(caption, open, BuildItems(items, 0, open))
    case Object(members) => Details(caption, open, BuildMembers(members, open))
    case _ => Leaf(caption, value)
  }

  function BuildItems(items: seq<Json>, index: nat, open: bool): seq<Tree>
    decreases items
  {
    if items == [] then []
    else [Build("[" + Decimal(index) + "]", items[0], open)] + BuildItems(items[1..], index + 1, open)
  }

  function BuildMembers(members: seq<Member>, open: bool): seq<Tree>
    decreases members
  {
    if members == [] then []
    else [Build(members[0].name, members[0].value, open)] + BuildMembers(members[1..], open)
  }

  // ---- What a tree shows -----------------------------------------------------------------

  /** What lies in `value` where `path` leads, going down by the positions of items and members. */
  function JsonAt(value: Json, path: seq<nat>): Option<Json> {
    if path == [] then Some(value)
    else match value
      case Array(items) => if path[0] < |items| then JsonAt(items[path[0]], path[1..]) else None
      case Object(members) => if path[0] < |members| then JsonAt(members[path[0]].value, path[1..]) else None
      case _ => None
  }

  function TreeAt(tree: Tree, path: seq<nat>): Option<Tree> {
    if path == [] then Some(tree)
    else if tree.Leaf? || path[0] >= |tree.kids| then None
    else TreeAt(tree.kids[path[0]], path[1..])
  }

  /** `tree` shows `value` itself: a scalar as it is; an array with its items numbered in brackets, and an
      object with its members named. */
  predicate Represents(tree: Tree, value: Json) {
    match value
    case Array(items) =>
      && tree.Details? && |tree.kids| == |items|
      && forall i :: 0 <= i < |items| ==> tree.kids[i].caption == "[" + Decimal(i) + "]"
    case Object(members) =>
      && tree.Details? && |tree.kids| == |members|
      && forall i :: 0 <= i < |members| ==> tree.kids[i].caption == members[i].name
    case _ => tree.Leaf? && tree.value == value
  }

  /** `tree` shows at `path` what `value` has there, or neither has anything. */
  predicate ShowsAt(tree: Tree, value: Json, path: seq<nat>) {
    match JsonAt(value, path)
    case None => TreeAt(tree, path).None?
    case Some(v) => TreeAt(tree, path).Some? && Represents(TreeAt(tree, path).value, v)
  }

  lemma {:induction false} BuildItemsAt(items: seq<Json>, index: nat, open: bool, i: nat)
    requires i < |items|
    ensures |BuildItems(items, index, open)| == |items|
    ensures BuildItems(items, index, open)[i] == Build("[" + Decimal(index + i) + "]", items[i], open)
  {
    if i > 0 {
      BuildItemsAt(items[1..], index + 1, open, i - 1);
    } else if |items| > 1 {
      BuildItemsAt(items[1..], index + 1, open, 0);
    }
  }

  lemma {:induction false} BuildMembersAt(members: seq<Member>, open: bool, i: nat)
    requires i < |members|
    ensures |BuildMembers(members, open)| == |members|
    ensures BuildMembers(members, open)[i] == Build(members[i].name, members[i].value, open)
  {
    if i > 0 {
      BuildMembersAt(members[1..], open, i - 1);
    } else if |members| > 1 {
      BuildMembersAt(members[1..], open, 0);
    }
  }

  lemma BuildRepresents(caption: string, value: Json, open: bool)
    ensures var tree := Build(caption, value, open);
            tree.caption == caption && Represents(tree, value) && (tree.Details? ==> tree.open == open)
  {
    match value
    case Array(items) =>
      forall i | 0 <= i < |items| ensures |BuildItems(items, 0, open)| == |items|
        ensures BuildItems(items, 0, open)[i].caption == "[" + Decimal(i) + "]"
      {
        BuildItemsAt(items, 0, open, i);
      }
    case Object(members) =>
      forall i | 0 <= i < |members| ensures |BuildMembers(members, open)| == |members|
        ensures BuildMembers(members, open)[i].caption == members[i].name
      {
        BuildMembersAt(members, open, i);
      }
    case _ =>
  }

  /** A built tree shows the whole value it was built from, and nothing else, with every node as open as
      asked for. */
  lemma {:induction false} BuildShowsTheValue(caption: string, value: Json, open: bool, path: seq<nat>)
    ensures ShowsAt(Build(caption, value, open), value, path)
    ensures var t := TreeAt(Build(caption, value, open), path); t.Some? && t.value.Details? ==> t.value.open == open
    decreases |path|
  {
    BuildRepresents(caption, value, open);
    if path != [] {
      var i := path[0];
      match value
      case Array(items) =>
        if i < |items| {
          BuildItemsAt(items, 0, open, i);
          BuildShowsTheValue("[" + Decimal(i) + "]", items[i], open, path[1..]);
        }
      case Object(members) =>
        if i < |members| {
          BuildMembersAt(members, open, i);
          BuildShowsTheValue(members[i].name, members[i].value, open, path[1..]);
        }
      case _ =>
    }
  }

  lemma {:induction false} ShapeAt(kids: seq<Tree>, i: nat)
    requires i < |kids|
    ensures Shape(kids)[i] == ShapeOf(kids[i])
  {
    if i > 0 {
      ShapeAt(kids[1..], i - 1);
    }
  }

  function ShapeOf(tree: Tree): Tree {
    if tree.Leaf? then tree else Details(tree.caption, false, Shape(tree.kids))
  }

  lemma SameShapeRepresents(a: Tree, b: Tree, value: Json)
    requires ShapeOf(a) == ShapeOf(b) && Represents(a, value)
    ensures Represents(b, value)
  {
    if a.Details? {
      forall i | 0 <= i < |a.kids| ensures a.kids[i].caption == b.kids[i].caption {
        ShapeAt(a.kids, i);
        ShapeAt(b.kids, i);
      }
    }
  }

  /** Which nodes are open does not matter to what is shown. */
  lemma {:induction false} SameShapeShows(a: Tree, b: Tree, value: Json, path: seq<nat>)
    requires ShapeOf(a) == ShapeOf(b) && forall p :: ShowsAt(a, value, p)
    ensures ShowsAt(b, value, path)
    decreases |path|
  {
    assert ShowsAt(a, value, []);
    SameShapeRepresents(a, b, value);
    if path != [] && a.Details? && path[0] < |a.kids| {
      var i := path[0];
      var below := if value.Array? then value.items[i] else value.members[i].value;
      ShapeAt(a.kids, i);
      ShapeAt(b.kids, i);
      forall p: seq<nat> ensures ShowsAt(a.kids[i], below, p) {
        assert ShowsAt(a, value, [i] + p);
        assert ([i] + p)[1..] == p;
      }
      SameShapeShows(a.kids[i], b.kids[i], below, path[1..]);
    }
  }

  /** The number a decimal numeral stands for. */
  function NumberOf(s: string): nat
    requires forall i :: 0 <= i < |s| ==> '0' <= s[i] <= '9'
  {
    if s == "" then 0 else 10 * NumberOf(s[..|s| - 1]) + (s[|s| - 1] - '0') as nat
  }

  lemma {:induction false} DecimalIsTheNumber(n: nat)
    ensures forall i :: 0 <= i < |Decimal(n)| ==> '0' <= Decimal(n)[i] <= '9'
    ensures NumberOf(Decimal(n)) == n && (Decimal(n)[0] == '0' ==> n == 0)
  {
    if n >= 10 {
      DecimalIsTheNumber(n / 10);
      assert Decimal(n)[..|Decimal(n)| - 1] == Decimal(n / 10);
    } else {
      assert Decimal(n)[..0] == "";
    }
  }
}
