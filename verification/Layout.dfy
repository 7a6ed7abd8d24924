/**
 The resource graph's placement algorithm (ui/src/components/ResourceGraph.tsx).

 `Layout.Walk` is the source's recursive closure with its three captured variables as fields.
 `Cards`, `Ys` and `Leaves` say where everything ends up without any mutable counter; the geometry
 (no two cards overlap, everything inside the canvas, parents centred) is proved of those.
 */
module Layout {
  import opened Common

  const CARD_W := 218
  const CARD_H := 46
  const COL_GAP := 66
  const ROW_H := 62

  datatype Node = Node(kind: string, name: string, health: string, children: seq<Node>)

  datatype Card = Card(id: string, parent: Option<string>, node: Node, depth: nat, y: real)

  function NodeId(path: string, node: Node): string {
    path + "/" + node.kind + ":" + node.name
  }

  // ----- where a subtree lands when the next free row is `row` -----

  function Leaves(n: Node): nat
    decreases n, 1
  {
    if n.children == [] then 1 else LeavesAll(n.children)
  }

  function LeavesAll(ns: seq<Node>): nat
    decreases ns, 0
  {
    if ns == [] then 0 else Leaves(ns[0]) + LeavesAll(ns[1..])
  }

  function Size(n: Node): nat
    decreases n, 1
  {
    1 + SizeAll(n.children)
  }

  function SizeAll(ns: seq<Node>): nat
    decreases ns, 0
  {
    if ns == [] then 0 else Size(ns[0]) + SizeAll(ns[1..])
  }

  /** The column of the deepest node of a subtree whose root sits in column `depth`. */
  function Deepest(n: Node, depth: nat): nat
    decreases n, 1
  {
    Max(depth, DeepestAll(n.children, depth + 1))
  }

  function DeepestAll(ns: seq<Node>, depth: nat): nat
    decreases ns, 0
  {
    if ns == [] then 0 else Max(Deepest(ns[0], depth), DeepestAll(ns[1..], depth))
  }

  function Y(n: Node, row: nat): real
    decreases n, 1
  {
    if n.children == [] then (row * ROW_H) as real
    else
      var ys := Ys(n.children, row);
      (ys[0] + ys[|ys| - 1]) / 2.0
  }

  function Ys(ns: seq<Node>, row: nat): (ys: seq<real>)
    ensures |ys| == |ns|
    decreases ns, 0
  {
    if ns == [] then [] else [Y(ns[0], row)] + Ys(ns[1..], row + Leaves(ns[0]))
  }

  function Cards(n: Node, depth: nat, parent: Option<string>, path: string, row: nat): seq<Card>
    decreases n, 1
  {
    var id := NodeId(path, n);
    CardsAll(n.children, depth + 1, id, row) + [Card(id, parent, n, depth, Y(n, row))]
  }

  function CardsAll(ns: seq<Node>, depth: nat, parent: string, row: nat): seq<Card>
    decreases ns, 0
  {
    if ns == [] then []
    else Cards(ns[0], depth, Some(parent), parent, row) + CardsAll(ns[1..], depth, parent, row + Leaves(ns[0]))
  }

  // ----- geometry -----

  function Left(c: Card): int { c.depth * (CARD_W + COL_GAP) }

  /** The open rectangles of two drawn cards intersect. */
  predicate Overlap(a: Card, b: Card) {
    && Left(a) < Left(b) + CARD_W && Left(b) < Left(a) + CARD_W
    && a.y < b.y + CARD_H as real && b.y < a.y + CARD_H as real
  }

  /** Cards of one column are at least a row apart. */
  ghost predicate Spaced(cards: seq<Card>) {
    forall i, j :: 0 <= i < j < |cards| && cards[i].depth == cards[j].depth ==>
      cards[i].y + ROW_H as real <= cards[j].y || cards[j].y + ROW_H as real <= cards[i].y
  }

  /** Every card lies on the leaf rows lo, lo+1, ..., hi-1 and no further left than `depth`. */
  ghost predicate Band(cards: seq<Card>, depth: nat, lo: nat, hi: nat) {
    forall c <- cards :: depth <= c.depth && (lo * ROW_H) as real <= c.y <= ((hi - 1) * ROW_H) as real
  }

  /** A parent sits exactly midway between its first and its last child, one column to their left. */
  ghost predicate Centred(p: Card, cards: seq<Card>) {
    p.node.children != [] ==>
      exists a, b :: a in cards && b in cards && Midway(p, a, b)
  }

  predicate Midway(p: Card, a: Card, b: Card)
    requires p.node.children != []
  {
    && a.parent == b.parent == Some(p.id)
    && a.depth == b.depth == p.depth + 1
    && a.node == p.node.children[0] && b.node == p.node.children[|p.node.children| - 1]
    && a.y <= p.y <= b.y && p.y == (a.y + b.y) / 2.0
  }

  ghost predicate AllCentred(part: seq<Card>, cards: seq<Card>) {
    forall p <- part :: Centred(p, cards)
  }

  // ----- a subtree owns a contiguous interval of leaf rows -----

  lemma {:induction false} LeavesPositive(n: Node)
    ensures Leaves(n) >= 1
    decreases n
  {
    if n.children != [] { LeavesPositive(n.children[0]); }
  }

  lemma {:induction false} SubtreeBand(n: Node, depth: nat, parent: Option<string>, path: string, row: nat)
    ensures (row * ROW_H) as real <= Y(n, row) <= ((row + Leaves(n) - 1) * ROW_H) as real
    ensures Band(Cards(n, depth, parent, path, row), depth, row, row + Leaves(n))
    decreases n, 1
  {
    LeavesPositive(n);
    if n.children != [] {
      ForestBand(n.children, depth + 1, NodeId(path, n), row);
      var ys := Ys(n.children, row);
      assert ys[0] in ys && ys[|ys| - 1] in ys;
    }
  }

  lemma {:induction false} ForestBand(ns: seq<Node>, depth: nat, parent: string, row: nat)
    ensures forall y <- Ys(ns, row) :: (row * ROW_H) as real <= y <= ((row + LeavesAll(ns) - 1) * ROW_H) as real
    ensures Band(CardsAll(ns, depth, parent, row), depth, row, row + LeavesAll(ns))
    decreases ns, 0
  {
    if ns != [] {
      LeavesPositive(ns[0]);
      SubtreeBand(ns[0], depth, Some(parent), parent, row);
      ForestBand(ns[1..], depth, parent, row + Leaves(ns[0]));
    }
  }

  /** Two bands stacked one below the other stay spaced. */
  lemma SpacedStack(a: seq<Card>, b: seq<Card>, depth: nat, lo: nat, mid: nat, hi: nat)
    requires Spaced(a) && Spaced(b) && Band(a, depth, lo, mid) && Band(b, depth, mid, hi)
    ensures Spaced(a + b)
  {
    forall i, j | 0 <= i < j < |a + b| && (a + b)[i].depth == (a + b)[j].depth
      ensures (a + b)[i].y + ROW_H as real <= (a + b)[j].y || (a + b)[j].y + ROW_H as real <= (a + b)[i].y
    {
      if i < |a| <= j {
        assert a[i] in a && b[j - |a|] in b;
        assert (a + b)[i] == a[i] && (a + b)[j] == b[j - |a|];
      }
    }
  }

  lemma {:induction false} SubtreeSpaced(n: Node, depth: nat, parent: Option<string>, path: string, row: nat)
    ensures Spaced(Cards(n, depth, parent, path, row))
    decreases n, 1
  {
    ForestSpaced(n.children, depth + 1, NodeId(path, n), row);
    ForestBand(n.children, depth + 1, NodeId(path, n), row);
    var below := CardsAll(n.children, depth + 1, NodeId(path, n), row);
    assert forall i :: 0 <= i < |below| ==> below[i] in below;
  }

  lemma {:induction false} ForestSpaced(ns: seq<Node>, depth: nat, parent: string, row: nat)
    ensures Spaced(CardsAll(ns, depth, parent, row))
    decreases ns, 0
  {
    if ns != [] {
      var mid := row + Leaves(ns[0]);
      SubtreeSpaced(ns[0], depth, Some(parent), parent, row);
      SubtreeBand(ns[0], depth, Some(parent), parent, row);
      ForestSpaced(ns[1..], depth, parent, mid);
      ForestBand(ns[1..], depth, parent, mid);
      SpacedStack(Cards(ns[0], depth, Some(parent), parent, row), CardsAll(ns[1..], depth, parent, mid),
                  depth, row, mid, mid + LeavesAll(ns[1..]));
    }
  }

  // ----- siblings are placed in order, and their cards are where Ys says -----

  lemma {:induction false} SiblingsOrdered(ns: seq<Node>, row: nat)
    ensures forall i, j :: 0 <= i < j < |ns| ==> Ys(ns, row)[i] + ROW_H as real <= Ys(ns, row)[j]
    decreases ns
  {
    if ns != [] {
      var mid := row + Leaves(ns[0]);
      SubtreeBand(ns[0], 0, None, "", row);
      ForestBand(ns[1..], 0, "", mid);
      SiblingsOrdered(ns[1..], mid);
      forall j | 0 < j < |ns| ensures Ys(ns, row)[0] + ROW_H as real <= Ys(ns, row)[j] {
        assert Ys(ns, row)[j] == Ys(ns[1..], mid)[j - 1];
        assert Ys(ns[1..], mid)[j - 1] in Ys(ns[1..], mid);
      }
    }
  }

  lemma {:induction false} SiblingCard(ns: seq<Node>, depth: nat, parent: string, row: nat, i: nat)
    requires i < |ns|
    ensures Card(NodeId(parent, ns[i]), Some(parent), ns[i], depth, Ys(ns, row)[i]) in CardsAll(ns, depth, parent, row)
    decreases ns
  {
    if i > 0 { SiblingCard(ns[1..], depth, parent, row + Leaves(ns[0]), i - 1); }
  }

  lemma {:induction false} SubtreeCentred(n: Node, depth: nat, parent: Option<string>, path: string, row: nat)
    ensures AllCentred(Cards(n, depth, parent, path, row), Cards(n, depth, parent, path, row))
    decreases n, 1
  {
    var id, kids, cards := NodeId(path, n), n.children, Cards(n, depth, parent, path, row);
    ForestCentred(kids, depth + 1, id, row);
    var below := CardsAll(kids, depth + 1, id, row);
    forall p | p in cards ensures Centred(p, cards) {
      if p in below {
        if p.node.children != [] {
          var a, b :| a in below && b in below && Midway(p, a, b);
          assert a in cards && b in cards;
        }
      } else if kids != [] {
        var ys := Ys(kids, row);
        SiblingsOrdered(kids, row);
        SiblingCard(kids, depth + 1, id, row, 0);
        SiblingCard(kids, depth + 1, id, row, |kids| - 1);
        var a := Card(NodeId(id, kids[0]), Some(id), kids[0], depth + 1, ys[0]);
        var b := Card(NodeId(id, kids[|kids| - 1]), Some(id), kids[|kids| - 1], depth + 1, ys[|kids| - 1]);
        assert a in cards && b in cards && Midway(p, a, b);
      }
    }
  }

  lemma {:induction false} ForestCentred(ns: seq<Node>, depth: nat, parent: string, row: nat)
    ensures AllCentred(CardsAll(ns, depth, parent, row), CardsAll(ns, depth, parent, row))
    decreases ns, 0
  {
    if ns != [] {
      var mid := row + Leaves(ns[0]);
      SubtreeCentred(ns[0], depth, Some(parent), parent, row);
      ForestCentred(ns[1..], depth, parent, mid);
      var first, rest := Cards(ns[0], depth, Some(parent), parent, row), CardsAll(ns[1..], depth, parent, mid);
      CentredWidens(first, first, first + rest);
      CentredWidens(rest, rest, first + rest);
    }
  }

  lemma CentredWidens(part: seq<Card>, cards: seq<Card>, more: seq<Card>)
    requires AllCentred(part, cards) && forall c <- cards :: c in more
    ensures AllCentred(part, more)
  {
    forall p | p in part && p.node.children != [] ensures Centred(p, more) {
      var a, b :| a in cards && b in cards && Midway(p, a, b);
      assert a in more && b in more;
    }
  }

  // ----- no row is wasted -----

  /** Where the childless cards stand, in the order they are placed. */
  function LeafYs(cards: seq<Card>): seq<real> {
    if cards == [] then []
    else
      var c := cards[|cards| - 1];
      LeafYs(cards[..|cards| - 1]) + if c.node.children == [] then [c.y] else []
  }

  /** n successive rows. */
  function RowYs(row: nat, n: nat): seq<real> {
    seq(n, i requires 0 <= i < n => ((row + i) * ROW_H) as real)
  }

  lemma {:induction false} LeafYsSplit(a: seq<Card>, b: seq<Card>)
    ensures LeafYs(a + b) == LeafYs(a) + LeafYs(b)
    decreases |b|
  {
    if b == [] {
      assert a + b == a;
    } else {
      assert (a + b)[..|a + b| - 1] == a + b[..|b| - 1];
      LeafYsSplit(a, b[..|b| - 1]);
    }
  }

  lemma RowsJoin(row: nat, m: nat, n: nat)
    ensures RowYs(row, m) + RowYs(row + m, n) == RowYs(row, m + n)
  {
  }

  /** The leaves of a subtree take exactly its rows, one after the other. */
  lemma {:induction false} SubtreeRows(n: Node, depth: nat, parent: Option<string>, path: string, row: nat)
    ensures LeafYs(Cards(n, depth, parent, path, row)) == RowYs(row, Leaves(n))
    decreases n, 1
  {
    var cards, below := Cards(n, depth, parent, path, row), CardsAll(n.children, depth + 1, NodeId(path, n), row);
    assert cards[..|below|] == below && |cards| == |below| + 1 && cards[|below|].node == n;
    if n.children == [] {
      assert below == [] && RowYs(row, 1) == [cards[0].y];
    } else {
      ForestRows(n.children, depth + 1, NodeId(path, n), row);
      assert LeafYs(cards) == LeafYs(below) + [];
    }
  }

  lemma {:induction false} ForestRows(ns: seq<Node>, depth: nat, parent: string, row: nat)
    ensures LeafYs(CardsAll(ns, depth, parent, row)) == RowYs(row, LeavesAll(ns))
    decreases ns, 0
  {
    if ns != [] {
      var mid := row + Leaves(ns[0]);
      SubtreeRows(ns[0], depth, Some(parent), parent, row);
      ForestRows(ns[1..], depth, parent, mid);
      LeafYsSplit(Cards(ns[0], depth, Some(parent), parent, row), CardsAll(ns[1..], depth, parent, mid));
      RowsJoin(row, Leaves(ns[0]), LeavesAll(ns[1..]));
    }
  }

  // ----- the edges are those of the forest -----

  /** c hangs below p, one column to its right, as one of `kids`, under p's name and its own. */
  predicate Edge(p: Card, c: Card, kids: seq<Node>) {
    && c.parent == Some(p.id) && c.depth == p.depth + 1 && c.node in kids
    && c.id == p.id + "/" + c.node.kind + ":" + c.node.name
  }

  ghost predicate Linked(c: Card, cards: seq<Card>) {
    exists p :: p in cards && Edge(p, c, p.node.children)
  }

  /** What a card of the list ns knows about the parent it is drawn under. */
  predicate Top(c: Card, ns: seq<Node>, depth: nat, parent: string) {
    && c.parent == Some(parent) && c.depth == depth && c.node in ns
    && c.id == parent + "/" + c.node.kind + ":" + c.node.name
  }

  lemma LinkWidens(c: Card, a: seq<Card>, b: seq<Card>)
    ensures Linked(c, a) || Linked(c, b) ==> Linked(c, a + b)
  {
    if Linked(c, a) {
      var p :| p in a && Edge(p, c, p.node.children);
      assert p in a + b;
    } else if Linked(c, b) {
      var p :| p in b && Edge(p, c, p.node.children);
      assert p in a + b;
    }
  }

  ghost predicate LinkedUnder(cards: seq<Card>, ns: seq<Node>, depth: nat, parent: string) {
    forall c <- cards :: Top(c, ns, depth, parent) || Linked(c, cards)
  }

  lemma LinkedJoin(a: seq<Card>, b: seq<Card>, ns: seq<Node>, ms: seq<Node>, depth: nat, parent: string)
    requires LinkedUnder(a, ns, depth, parent) && LinkedUnder(b, ms, depth, parent)
    ensures LinkedUnder(a + b, ns + ms, depth, parent)
  {
    forall c | c in a + b ensures Top(c, ns + ms, depth, parent) || Linked(c, a + b) {
      LinkWidens(c, a, b);
      if c in a { assert Top(c, ns, depth, parent) || Linked(c, a); }
      if c in b { assert Top(c, ms, depth, parent) || Linked(c, b); }
    }
  }

  lemma LinkedOnTop(below: seq<Card>, top: Card)
    requires LinkedUnder(below, top.node.children, top.depth + 1, top.id)
    ensures forall c <- below :: Linked(c, below + [top])
  {
    forall c | c in below ensures Linked(c, below + [top]) {
      LinkWidens(c, below, [top]);
      assert top in below + [top];
      if Top(c, top.node.children, top.depth + 1, top.id) { assert Edge(top, c, top.node.children); }
    }
  }

  lemma {:induction false} SubtreeLinked(n: Node, depth: nat, path: string, row: nat)
    ensures LinkedUnder(Cards(n, depth, Some(path), path, row), [n], depth, path)
    decreases n, 1
  {
    var id, cards := NodeId(path, n), Cards(n, depth, Some(path), path, row);
    ForestLinked(n.children, depth + 1, id, row);
    LinkedOnTop(CardsAll(n.children, depth + 1, id, row), cards[|cards| - 1]);
    assert Top(cards[|cards| - 1], [n], depth, path);
  }

  /** Every card hangs below its own parent, the top ones below `parent`. */
  lemma {:induction false} ForestLinked(ns: seq<Node>, depth: nat, parent: string, row: nat)
    ensures LinkedUnder(CardsAll(ns, depth, parent, row), ns, depth, parent)
    decreases ns, 0
  {
    if ns != [] {
      var mid := row + Leaves(ns[0]);
      SubtreeLinked(ns[0], depth, parent, row);
      ForestLinked(ns[1..], depth, parent, mid);
      LinkedJoin(Cards(ns[0], depth, Some(parent), parent, row), CardsAll(ns[1..], depth, parent, mid),
                 [ns[0]], ns[1..], depth, parent);
      assert [ns[0]] + ns[1..] == ns;
    }
  }

  // ----- counting and the deepest column -----

  lemma {:induction false} SubtreeCount(n: Node, depth: nat, parent: Option<string>, path: string, row: nat)
    ensures |Cards(n, depth, parent, path, row)| == Size(n)
    decreases n, 1
  {
    ForestCount(n.children, depth + 1, NodeId(path, n), row);
  }

  lemma {:induction false} ForestCount(ns: seq<Node>, depth: nat, parent: string, row: nat)
    ensures |CardsAll(ns, depth, parent, row)| == SizeAll(ns)
    decreases ns, 0
  {
    if ns != [] {
      SubtreeCount(ns[0], depth, Some(parent), parent, row);
      ForestCount(ns[1..], depth, parent, row + Leaves(ns[0]));
    }
  }

  /** The nodes of a forest, each as often as it occurs. */
  function Members(n: Node): multiset<Node>
    decreases n, 1
  {
    multiset{n} + MembersAll(n.children)
  }

  function MembersAll(ns: seq<Node>): multiset<Node>
    decreases ns, 0
  {
    if ns == [] then multiset{} else Members(ns[0]) + MembersAll(ns[1..])
  }

  /** The nodes on the cards. */
  function Drawn(cards: seq<Card>): multiset<Node> {
    if cards == [] then multiset{} else Drawn(cards[..|cards| - 1]) + multiset{cards[|cards| - 1].node}
  }

  lemma {:induction false} DrawnSplit(a: seq<Card>, b: seq<Card>)
    ensures Drawn(a + b) == Drawn(a) + Drawn(b)
    decreases |b|
  {
    if b == [] {
      assert a + b == a;
    } else {
      assert (a + b)[..|a + b| - 1] == a + b[..|b| - 1];
      DrawnSplit(a, b[..|b| - 1]);
    }
  }

  lemma {:induction false} SubtreeDrawn(n: Node, depth: nat, parent: Option<string>, path: string, row: nat)
    ensures Drawn(Cards(n, depth, parent, path, row)) == Members(n)
    decreases n, 1
  {
    var below := CardsAll(n.children, depth + 1, NodeId(path, n), row);
    ForestDrawn(n.children, depth + 1, NodeId(path, n), row);
    assert Cards(n, depth, parent, path, row)[..|below|] == below;
  }

  lemma {:induction false} ForestDrawn(ns: seq<Node>, depth: nat, parent: string, row: nat)
    ensures Drawn(CardsAll(ns, depth, parent, row)) == MembersAll(ns)
    decreases ns, 0
  {
    if ns != [] {
      SubtreeDrawn(ns[0], depth, Some(parent), parent, row);
      ForestDrawn(ns[1..], depth, parent, row + Leaves(ns[0]));
      DrawnSplit(Cards(ns[0], depth, Some(parent), parent, row), CardsAll(ns[1..], depth, parent, row + Leaves(ns[0])));
    }
  }

  ghost predicate DepthAttained(cards: seq<Card>, depth: nat) {
    (forall c <- cards :: c.depth <= depth) && exists c <- cards :: c.depth == depth
  }

  lemma {:induction false} SubtreeDepth(n: Node, depth: nat, parent: Option<string>, path: string, row: nat)
    ensures DepthAttained(Cards(n, depth, parent, path, row), Deepest(n, depth))
    decreases n, 1
  {
    var cards := Cards(n, depth, parent, path, row);
    assert cards[|cards| - 1] in cards;
    if n.children != [] { ForestDepth(n.children, depth + 1, NodeId(path, n), row); }
  }

  lemma {:induction false} ForestDepth(ns: seq<Node>, depth: nat, parent: string, row: nat)
    requires ns != []
    ensures DepthAttained(CardsAll(ns, depth, parent, row), DeepestAll(ns, depth))
    decreases ns, 0
  {
    SubtreeDepth(ns[0], depth, Some(parent), parent, row);
    if ns[1..] != [] { ForestDepth(ns[1..], depth, parent, row + Leaves(ns[0])); }
  }

  // ----- the main theorem -----

  /** What the synthetic root shows: the program gives it no children of its own. */
  function RootNode(appName: string, appHealth: string): Node {
    Node("Application", appName, appHealth, [])
  }

  /** The cards of a whole graph, the synthetic root last. */
  function Graph(appName: string, appHealth: string, nodes: seq<Node>): seq<Card> {
    var ys := Ys(nodes, 0);
    var rootY := if ys == [] then 0.0 else (ys[0] + ys[|ys| - 1]) / 2.0;
    CardsAll(nodes, 1, "app", 0) + [Card("app", None, RootNode(appName, appHealth), 0, rootY)]
  }

  /** The root stands in the first column midway between the first and the last top-level card. */
  ghost predicate RootCentred(cards: seq<Card>, nodes: seq<Node>) {
    && cards != [] && cards[|cards| - 1].depth == 0 && cards[|cards| - 1].parent == None
    && (nodes == [] ==> cards[|cards| - 1].y == 0.0)
    && (nodes != [] ==> exists a, b :: a in cards && b in cards && RootMidway(cards[|cards| - 1], a, b, nodes))
  }

  predicate RootMidway(root: Card, a: Card, b: Card, nodes: seq<Node>)
    requires nodes != []
  {
    && a.parent == b.parent == Some(root.id) && a.depth == b.depth == root.depth + 1
    && a.node == nodes[0] && b.node == nodes[|nodes| - 1]
    && a.y <= root.y <= b.y && root.y == (a.y + b.y) / 2.0
  }

  lemma GraphRoot(appName: string, appHealth: string, nodes: seq<Node>)
    ensures RootCentred(Graph(appName, appHealth, nodes), nodes)
  {
    var cards, ys, last := Graph(appName, appHealth, nodes), Ys(nodes, 0), |nodes| - 1;
    if nodes != [] {
      SiblingsOrdered(nodes, 0);
      SiblingCard(nodes, 1, "app", 0, 0);
      SiblingCard(nodes, 1, "app", 0, last);
      var a := Card(NodeId("app", nodes[0]), Some("app"), nodes[0], 1, ys[0]);
      var b := Card(NodeId("app", nodes[last]), Some("app"), nodes[last], 1, ys[last]);
      assert a in cards && b in cards && RootMidway(cards[|cards| - 1], a, b, nodes);
    }
  }

  ghost predicate InsideCanvas(cards: seq<Card>, width: int, height: int) {
    forall c <- cards ::
      0 <= Left(c) && Left(c) + CARD_W <= width && 0.0 <= c.y && c.y + CARD_H as real <= height as real
  }

  ghost predicate NoOverlap(cards: seq<Card>) {
    forall i, j :: 0 <= i < j < |cards| ==> !Overlap(cards[i], cards[j])
  }

  ghost predicate Drawable(cards: seq<Card>, deepest: nat, rows: nat) {
    && Spaced(cards) && NoOverlap(cards)
    && DepthAttained(cards, deepest)
    && InsideCanvas(cards, (deepest + 1) * CARD_W + deepest * COL_GAP, rows * ROW_H)
    && AllCentred(cards, cards)
  }

  /** Every card but the root hangs below its parent: below the root as a top-level node, or below its own parent. */
  ghost predicate AllLinked(cards: seq<Card>, nodes: seq<Node>)
    requires cards != []
  {
    forall c <- cards[..|cards| - 1] :: Edge(cards[|cards| - 1], c, nodes) || Linked(c, cards)
  }

  /**
   The root is last and over the top-level cards; it and every node are drawn exactly as often as they occur, each
   below its parent, and the leaves take the rows one after the other.
   */
  ghost predicate Complete(cards: seq<Card>, root: Node, nodes: seq<Node>) {
    && RootCentred(cards, nodes) && cards[|cards| - 1].node == root && cards[|cards| - 1].id == "app"
    && Drawn(cards) == MembersAll(nodes) + multiset{root}
    && AllLinked(cards, nodes)
    && LeafYs(cards[..|cards| - 1]) == RowYs(0, LeavesAll(nodes))
  }

  lemma GraphLinked(appName: string, appHealth: string, nodes: seq<Node>)
    ensures AllLinked(Graph(appName, appHealth, nodes), nodes)
    ensures var cards := Graph(appName, appHealth, nodes);
            LeafYs(cards[..|cards| - 1]) == RowYs(0, LeavesAll(nodes))
  {
    var cards, below := Graph(appName, appHealth, nodes), CardsAll(nodes, 1, "app", 0);
    assert cards[..|cards| - 1] == below;
    ForestRows(nodes, 1, "app", 0);
    ForestLinked(nodes, 1, "app", 0);
    forall c | c in below ensures Edge(cards[|cards| - 1], c, nodes) || Linked(c, cards) {
      assert Top(c, nodes, 1, "app") || Linked(c, below);
      LinkWidens(c, below, cards[|below|..]);
      assert cards == below + cards[|below|..];
    }
  }

  lemma ColumnsApart(a: Card, b: Card)
    ensures a.depth < b.depth ==> Left(a) + CARD_W + COL_GAP <= Left(b)
  {
    if a.depth < b.depth {
      assert (b.depth - a.depth) * (CARD_W + COL_GAP) >= CARD_W + COL_GAP;
    }
  }

  lemma SpacedMeansNoOverlap(cards: seq<Card>)
    requires Spaced(cards)
    ensures NoOverlap(cards)
  {
    forall i, j | 0 <= i < j < |cards| ensures !Overlap(cards[i], cards[j]) {
      ColumnsApart(cards[i], cards[j]);
      ColumnsApart(cards[j], cards[i]);
    }
  }

  lemma GraphBand(appName: string, appHealth: string, nodes: seq<Node>)
    ensures Band(Graph(appName, appHealth, nodes), 0, 0, Max(LeavesAll(nodes), 1))
  {
    ForestBand(nodes, 1, "app", 0);
    if nodes != [] {
      var ys := Ys(nodes, 0);
      assert ys[0] in ys && ys[|ys| - 1] in ys;
      LeavesPositive(nodes[0]);
    }
  }

  lemma BandInsideCanvas(cards: seq<Card>, deepest: nat, rows: nat)
    requires Band(cards, 0, 0, rows) && forall c <- cards :: c.depth <= deepest
    ensures InsideCanvas(cards, (deepest + 1) * CARD_W + deepest * COL_GAP, rows * ROW_H)
  {
    forall c | c in cards
      ensures 0 <= Left(c) && Left(c) + CARD_W <= (deepest + 1) * CARD_W + deepest * COL_GAP
    {
      assert (deepest - c.depth) * (CARD_W + COL_GAP) >= 0;
    }
  }

  lemma GraphSpaced(appName: string, appHealth: string, nodes: seq<Node>)
    ensures Spaced(Graph(appName, appHealth, nodes))
  {
    ForestSpaced(nodes, 1, "app", 0);
    ForestBand(nodes, 1, "app", 0);
    var below := CardsAll(nodes, 1, "app", 0);
    assert forall i :: 0 <= i < |below| ==> below[i] in below;
  }

  lemma GraphDepth(appName: string, appHealth: string, nodes: seq<Node>)
    ensures DepthAttained(Graph(appName, appHealth, nodes), DeepestAll(nodes, 1))
  {
    var cards := Graph(appName, appHealth, nodes);
    assert cards[|cards| - 1] in cards;
    if nodes != [] { ForestDepth(nodes, 1, "app", 0); }
  }

  /**
   For every forest: no two drawn cards overlap, one column's cards are a full row apart, every card is
   inside the canvas, every parent is centred over its children and the root over the top-level cards, and what is
   drawn is the root and every node of the forest exactly as often as it occurs.
   */
  lemma GraphIsDrawable(appName: string, appHealth: string, nodes: seq<Node>)
    ensures Drawable(Graph(appName, appHealth, nodes), DeepestAll(nodes, 1), Max(LeavesAll(nodes), 1))
    ensures Complete(Graph(appName, appHealth, nodes), RootNode(appName, appHealth), nodes)
    ensures |Graph(appName, appHealth, nodes)| == SizeAll(nodes) + 1
  {
    var cards, below := Graph(appName, appHealth, nodes), CardsAll(nodes, 1, "app", 0);
    GraphSpaced(appName, appHealth, nodes);
    SpacedMeansNoOverlap(cards);
    GraphDepth(appName, appHealth, nodes);
    GraphBand(appName, appHealth, nodes);
    BandInsideCanvas(cards, DeepestAll(nodes, 1), Max(LeavesAll(nodes), 1));
    ForestCentred(nodes, 1, "app", 0);
    CentredWidens(below, below, cards);
    ForestCount(nodes, 1, "app", 0);
    GraphRoot(appName, appHealth, nodes);
    GraphDrawn(appName, appHealth, nodes);
    GraphLinked(appName, appHealth, nodes);
  }

  lemma GraphDrawn(appName: string, appHealth: string, nodes: seq<Node>)
    ensures Drawn(Graph(appName, appHealth, nodes)) == MembersAll(nodes) + multiset{RootNode(appName, appHealth)}
  {
    var below := CardsAll(nodes, 1, "app", 0);
    ForestDrawn(nodes, 1, "app", 0);
    assert Graph(appName, appHealth, nodes)[..|below|] == below;
  }

  /** `Math.min(...ys)` and `Math.max(...ys)` of a non-empty list. */
  function Least(ys: seq<real>): real
    requires ys != []
  {
    if |ys| == 1 then ys[0] else if ys[0] <= Least(ys[1..]) then ys[0] else Least(ys[1..])
  }

  function Greatest(ys: seq<real>): real
    requires ys != []
  {
    if |ys| == 1 then ys[0] else if ys[0] >= Greatest(ys[1..]) then ys[0] else Greatest(ys[1..])
  }

  lemma RootCentre(nodes: seq<Node>)
    ensures var ys := Ys(nodes, 0); ys != [] ==> Least(ys) == ys[0] && Greatest(ys) == ys[|ys| - 1]
  {
    if nodes != [] {
      SiblingsOrdered(nodes, 0);
      OrderedExtremes(Ys(nodes, 0));
    }
  }

  lemma {:induction false} OrderedExtremes(ys: seq<real>)
    requires ys != [] && forall i, j :: 0 <= i < j < |ys| ==> ys[i] < ys[j]
    ensures Least(ys) == ys[0] && Greatest(ys) == ys[|ys| - 1]
  {
    if |ys| > 1 { OrderedExtremes(ys[1..]); }
  }

  /** `layout` with its captured variables; `Walk` is the inner closure. */
  class Layout {
    var placed: seq<Card>
    var row: nat
    var maxDepth: nat

    constructor ()
      ensures placed == [] && row == 0 && maxDepth == 0
    {
      placed, row, maxDepth := [], 0, 0;
    }

    method Walk(node: Node, depth: nat, parent: Option<string>, path: string) returns (y: real)
      modifies this
      ensures y == Y(node, old(row)) && row == old(row) + Leaves(node)
      ensures placed == old(placed) + Cards(node, depth, parent, path, old(row))
      ensures maxDepth == Max(old(maxDepth), Deepest(node, depth))
      decreases node, 1
    {
      var id := NodeId(path, node);
      maxDepth := Max(maxDepth, depth);
      var kids := node.children;
      if |kids| == 0 {
        y := (row * ROW_H) as real;
        row := row + 1;
      } else {
        var ys := WalkAll(kids, depth + 1, id);
        y := (ys[0] + ys[|ys| - 1]) / 2.0;
      }
      placed := placed + [Card(id, parent, node, depth, y)];
    }

    /** `kids.map(k => walk(k, depth, parent, parent))` */
    method WalkAll(kids: seq<Node>, depth: nat, parent: string) returns (ys: seq<real>)
      modifies this
      ensures ys == Ys(kids, old(row)) && row == old(row) + LeavesAll(kids)
      ensures placed == old(placed) + CardsAll(kids, depth, parent, old(row))
      ensures maxDepth == Max(old(maxDepth), DeepestAll(kids, depth))
      decreases kids, 0
    {
      ys := [];
      for i := 0 to |kids|
        invariant ys + Ys(kids[i..], row) == Ys(kids, old(row))
        invariant row + LeavesAll(kids[i..]) == old(row) + LeavesAll(kids)
        invariant placed + CardsAll(kids[i..], depth, parent, row)
               == old(placed) + CardsAll(kids, depth, parent, old(row))
        invariant Max(maxDepth, DeepestAll(kids[i..], depth)) == Max(old(maxDepth), DeepestAll(kids, depth))
      {
        assert kids[i..][1..] == kids[i + 1..];
        var y := Walk(kids[i], depth, Some(parent), parent);
        ys := ys + [y];
      }
    }

    /** The forest, and the synthetic root over it. */
    method PlaceAll(appName: string, appHealth: string, nodes: seq<Node>)
      requires placed == [] && row == 0 && maxDepth == 0
      modifies this
      ensures placed == Graph(appName, appHealth, nodes)
      ensures row == LeavesAll(nodes) && maxDepth == DeepestAll(nodes, 1)
    {
      var rootId := "app";
      var ys := WalkAll(nodes, 1, rootId);
      var rootY := 0.0;
      if |ys| > 0 {
        RootCentre(nodes);
        rootY := (Least(ys) + Greatest(ys)) / 2.0;
      }
      placed := placed + [Card(rootId, None, RootNode(appName, appHealth), 0, rootY)];
    }

    /** The whole of `layout`: the result is drawable, whatever the tree. */
    method Run(appName: string, appHealth: string, nodes: seq<Node>) returns (width: int, height: int)
      requires placed == [] && row == 0 && maxDepth == 0
      modifies this
      ensures placed == Graph(appName, appHealth, nodes)
      ensures Drawable(placed, maxDepth, Max(row, 1)) && Complete(placed, RootNode(appName, appHealth), nodes)
      ensures |placed| == SizeAll(nodes) + 1
      ensures width == (maxDepth + 1) * CARD_W + maxDepth * COL_GAP && height == Max(row, 1) * ROW_H
    {
      PlaceAll(appName, appHealth, nodes);
      width := (maxDepth + 1) * CARD_W + maxDepth * COL_GAP;
      height := Max(row, 1) * ROW_H;
      GraphIsDrawable(appName, appHealth, nodes);
    }
  }
}
