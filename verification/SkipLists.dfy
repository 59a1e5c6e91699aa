/** The skip list of the key-value store: towers of forward pointers, kept sorted by key on level 0. */
module SkipLists {
  import opened Types

  // ---------------------------------------------------------------- keys

  /** The order of std::string. */
  predicate Less(a: string, b: string) {
    if b == "" then false
    else if a == "" then true
    else a[0] < b[0] || (a[0] == b[0] && Less(a[1..], b[1..]))
  }

  lemma {:induction false} LessIrreflexive(a: string)
    ensures !Less(a, a)
  {
    if a != "" { LessIrreflexive(a[1..]); }
  }

  lemma {:induction false} LessTransitive(a: string, b: string, c: string)
    requires Less(a, b) && Less(b, c)
    ensures Less(a, c)
  {
    if a != "" && a[0] == b[0] == c[0] { LessTransitive(a[1..], b[1..], c[1..]); }
  }

  lemma {:induction false} LessTotal(a: string, b: string)
    ensures Less(a, b) || a == b || Less(b, a)
  {
    if a != "" && b != "" && a[0] == b[0] {
      LessTotal(a[1..], b[1..]);
      assert a == [a[0]] + a[1..] && b == [b[0]] + b[1..];
    }
  }

  // ---------------------------------------------------------------- heights

  /** The first position after p whose tower reaches level i. */
  function Next(h: seq<nat>, p: nat, i: nat): (q: nat)
    requires p < |h|
    ensures p < q <= |h|
    ensures q < |h| ==> h[q] >= i
    decreases |h| - p
  {
    if p + 1 == |h| || h[p + 1] >= i then p + 1 else Next(h, p + 1, i)
  }

  lemma NextSkips(h: seq<nat>, p: nat, i: nat)
    requires p < |h|
    ensures forall x | p < x < Next(h, p, i) :: h[x] < i
    decreases |h| - p
  {
    if p + 1 < |h| && h[p + 1] < i { NextSkips(h, p + 1, i); }
  }

  lemma {:induction false} NextIs(h: seq<nat>, p: nat, i: nat, q: nat)
    requires p < q <= |h| && (q < |h| ==> h[q] >= i) && forall x | p < x < q :: h[x] < i
    ensures Next(h, p, i) == q
    decreases |h| - p
  {
    if p + 1 < q { NextIs(h, p + 1, i, q); }
  }

  /** The last position up to p whose tower reaches level i. */
  function Prev(h: seq<nat>, p: nat, i: nat): (q: nat)
    requires p < |h| && h[0] >= i
    ensures q <= p && h[q] >= i
  {
    if h[p] >= i then p else Prev(h, p - 1, i)
  }

  lemma PrevSkips(h: seq<nat>, p: nat, i: nat)
    requires p < |h| && h[0] >= i
    ensures forall x | Prev(h, p, i) < x <= p :: h[x] < i
  {
    if h[p] < i { PrevSkips(h, p - 1, i); }
  }

  /** Of the towers up to p that reach level i, only the last leads over p. */
  lemma PrevLeadsOver(h: seq<nat>, p: nat, i: nat, q: nat)
    requires q <= p < |h| && h[0] >= i && h[q] >= i
    ensures Next(h, Prev(h, p, i), i) == Next(h, p, i)
    ensures Next(h, q, i) > p <==> q == Prev(h, p, i)
  {
    PrevSkips(h, p, i);
    NextSkips(h, p, i);
    NextSkips(h, q, i);
    NextIs(h, Prev(h, p, i), i, Next(h, p, i));
    assert q < Prev(h, p, i) ==> Next(h, q, i) <= Prev(h, p, i);
  }

  function Inserted<T>(s: seq<T>, at: nat, x: T): seq<T>
    requires at <= |s|
  {
    s[..at] + [x] + s[at..]
  }

  lemma InsertedAt<T>(s: seq<T>, at: nat, x: T)
    requires at <= |s|
    ensures var t := Inserted(s, at, x);
            |t| == |s| + 1 && forall k {:trigger t[k]} | 0 <= k < |t| ::
              t[k] == if k < at then s[k] else if k == at then x else s[k - 1]
  {
  }

  /** Towers that lead over the place of insertion now lead to the new one, if it is tall enough. */
  lemma NextBeforeInserted(h: seq<nat>, at: nat, r: nat, q: nat, i: nat)
    requires 1 <= at <= |h| && q < at
    ensures Next(Inserted(h, at, r), q, i) ==
            if Next(h, q, i) < at then Next(h, q, i) else if r >= i then at else Next(h, q, i) + 1
  {
    hide Inserted;
    InsertedAt(h, at, r);
    NextSkips(h, q, i);
    NextIs(Inserted(h, at, r), q, i,
           if Next(h, q, i) < at then Next(h, q, i) else if r >= i then at else Next(h, q, i) + 1);
  }

  lemma NextAfterInserted(h: seq<nat>, at: nat, r: nat, q: nat, i: nat)
    requires 1 <= at <= q + 1 && q < |h|
    ensures q + 1 < |Inserted(h, at, r)| && Next(Inserted(h, at, r), q + 1, i) == Next(h, q, i) + 1
  {
    hide Inserted;
    InsertedAt(h, at, r);
    NextSkips(h, q, i);
    NextIs(Inserted(h, at, r), q + 1, i, Next(h, q, i) + 1);
  }

  lemma InsertedMembers<T>(s: seq<T>, at: nat, x: T)
    requires at <= |s|
    ensures forall y | y in Inserted(s, at, x) :: y in s || y == x
  {
  }

  function Removed<T>(s: seq<T>, at: nat): seq<T>
    requires at < |s|
  {
    s[..at] + s[at + 1..]
  }

  lemma RemovedAt<T>(s: seq<T>, at: nat)
    requires at < |s|
    ensures var t := Removed(s, at);
            |t| == |s| - 1 && forall k {:trigger t[k]} | 0 <= k < |t| :: t[k] == if k < at then s[k] else s[k + 1]
  {
  }

  /** Towers that led to the removed one lead where it led. */
  lemma NextBeforeRemoved(h: seq<nat>, at: nat, q: nat, i: nat)
    requires 1 <= at < |h| && q < at
    ensures Next(Removed(h, at), q, i) ==
            if Next(h, q, i) < at then Next(h, q, i)
            else if Next(h, q, i) == at then Next(h, at, i) - 1 else Next(h, q, i) - 1
  {
    hide Removed;
    RemovedAt(h, at);
    NextSkips(h, q, i);
    NextSkips(h, at, i);
    NextIs(Removed(h, at), q, i, if Next(h, q, i) < at then Next(h, q, i)
                                 else if Next(h, q, i) == at then Next(h, at, i) - 1 else Next(h, q, i) - 1);
  }

  lemma NextAfterRemoved(h: seq<nat>, at: nat, q: nat, i: nat)
    requires 1 <= at < q < |h|
    ensures Next(Removed(h, at), q - 1, i) == Next(h, q, i) - 1
  {
    hide Removed;
    RemovedAt(h, at);
    NextSkips(h, q, i);
    NextIs(Removed(h, at), q - 1, i, Next(h, q, i) - 1);
  }

  // ---------------------------------------------------------------- nodes

  class Node {
    const key: string
    const level: nat
    const forward: array<Node?>
    var value: string

    constructor (key: string, value: string, level: nat)
      ensures this.key == key && this.value == value && this.level == level
      ensures fresh(forward) && forward.Length == level + 1 && forall i | 0 <= i <= level :: forward[i] == null
    {
      this.key, this.value, this.level := key, value, level;
      this.forward := new Node?[level + 1](_ => null);
    }
  }

  /** The towers' heights, header first. */
  ghost function Heights(nodes: seq<Node>): (h: seq<nat>)
    ensures |h| == |nodes| && forall k | 0 <= k < |nodes| :: h[k] == nodes[k].level
  {
    seq(|nodes|, k requires 0 <= k < |nodes| => nodes[k].level)
  }

  ghost function At(nodes: seq<Node>, k: nat): Node? {
    if k < |nodes| then nodes[k] else null
  }

  ghost function Arrays(nodes: seq<Node>): set<object> {
    set n | n in nodes :: n.forward
  }

  /** The header is a tower of full height and none is higher. */
  ghost predicate Shape(nodes: seq<Node>, maxLevel: nat) {
    && |nodes| > 0 && nodes[0].level == maxLevel
    && (forall k | 0 <= k < |nodes| :: nodes[k].level <= maxLevel && nodes[k].forward.Length == nodes[k].level + 1)
  }

  /** No two nodes share their pointers. */
  ghost predicate Apart(nodes: seq<Node>) {
    forall j, k | 0 <= j < k < |nodes| :: nodes[j].forward != nodes[k].forward
  }

  ghost predicate Sorted(nodes: seq<Node>) {
    forall j, k | 1 <= j < k < |nodes| :: Less(nodes[j].key, nodes[k].key)
  }

  /** Every pointer of level i leads to the next tower that reaches level i. */
  ghost predicate Linked(nodes: seq<Node>, maxLevel: nat)
    requires Shape(nodes, maxLevel)
    reads Arrays(nodes)
  {
    forall q: nat, i: nat | q < |nodes| && i <= nodes[q].level ::
      nodes[q].forward[i] == At(nodes, Next(Heights(nodes), q, i))
  }

  /** The nodes after the header are the entries of the map. */
  ghost predicate Represents(nodes: seq<Node>, contents: map<string, string>)
    reads nodes
  {
    && (forall k | 1 <= k < |nodes| :: nodes[k].key in contents && contents[nodes[k].key] == nodes[k].value)
    && (forall x | x in contents :: exists k :: 1 <= k < |nodes| && nodes[k].key == x)
  }

  /** The last node whose key comes before key; the header comes before all. */
  ghost predicate IsRank(nodes: seq<Node>, key: string, p: nat) {
    && p < |nodes|
    && (forall k | 1 <= k <= p :: Less(nodes[k].key, key))
    && (forall k | p < k < |nodes| :: !Less(nodes[k].key, key))
  }

  lemma {:induction false} RankExists(nodes: seq<Node>, key: string) returns (p: nat)
    requires |nodes| > 0 && Sorted(nodes)
    ensures IsRank(nodes, key, p)
  {
    var last := |nodes| - 1;
    if last == 0 {
      p := 0;
      assert IsRank(nodes, key, 0);
    } else if Less(nodes[last].key, key) {
      p := last;
      forall k | 1 <= k <= p ensures Less(nodes[k].key, key) {
        if k < last { LessTransitive(nodes[k].key, nodes[last].key, key); }
      }
    } else {
      p := RankExists(nodes[..last], key);
      forall k | p < k < |nodes| ensures !Less(nodes[k].key, key) {
        assert k < last ==> nodes[..last][k] == nodes[k];
      }
    }
  }

  /** Only the node after the rank can have the key. */
  lemma KeyAfterRank(nodes: seq<Node>, key: string, p: nat, k: nat)
    requires Sorted(nodes) && IsRank(nodes, key, p) && 1 <= k < |nodes|
    ensures nodes[k].key == key ==> k == p + 1
  {
    LessIrreflexive(key);
    assert p + 1 < k ==> Less(nodes[p + 1].key, nodes[k].key);
  }

  // ---------------------------------------------------------------- relinking

  /** The new node, of height r, hangs between p and what follows on each level up to r. */
  ghost predicate Relinked(nodes: seq<Node>, maxLevel: nat, node: Node, p: nat)
    requires Shape(nodes, maxLevel) && p < |nodes| && node.level <= maxLevel && node.forward.Length == node.level + 1
    reads Arrays(nodes), node.forward
  {
    var h := Heights(nodes);
    && (forall q: nat, i: nat | q < |nodes| && i <= nodes[q].level ::
          nodes[q].forward[i] == if i <= node.level && q == Prev(h, p, i) then node else At(nodes, Next(h, q, i)))
    && (forall i: nat | i <= node.level :: node.forward[i] == At(nodes, Next(h, p, i)))
  }

  /** The same, with only the levels below k done. */
  ghost predicate Linking(nodes: seq<Node>, maxLevel: nat, node: Node, p: nat, k: nat)
    requires Shape(nodes, maxLevel) && p < |nodes| && k <= node.level + 1 && node.level <= maxLevel
    requires node.forward.Length == node.level + 1
    reads Arrays(nodes), node.forward
  {
    var h := Heights(nodes);
    && (forall q: nat, i: nat | q < |nodes| && i <= nodes[q].level ::
          nodes[q].forward[i] == if i < k && q == Prev(h, p, i) then node else At(nodes, Next(h, q, i)))
    && (forall i: nat | i < k :: node.forward[i] == At(nodes, Next(h, p, i)))
  }

  lemma InsertedShape(nodes: seq<Node>, maxLevel: nat, node: Node, at: nat)
    requires Shape(nodes, maxLevel) && 1 <= at <= |nodes|
    requires node.level <= maxLevel && node.forward.Length == node.level + 1
    ensures Shape(Inserted(nodes, at, node), maxLevel)
    ensures Heights(Inserted(nodes, at, node)) == Inserted(Heights(nodes), at, node.level)
  {
    InsertedAt(nodes, at, node);
    InsertedAt(Heights(nodes), at, node.level);
  }

  lemma AtInserted(nodes: seq<Node>, at: nat, node: Node, k: nat)
    requires at <= |nodes|
    ensures k < at ==> At(Inserted(nodes, at, node), k) == At(nodes, k)
    ensures At(Inserted(nodes, at, node), at) == node
    ensures at <= k ==> At(Inserted(nodes, at, node), k + 1) == At(nodes, k)
  {
    InsertedAt(nodes, at, node);
  }

  lemma BeforeInsertedValue(nodes: seq<Node>, node: Node, p: nat, q: nat, i: nat, n: nat)
    requires q <= p < |nodes| && n == Next(Heights(nodes), q, i)
    ensures At(Inserted(nodes, p + 1, node), Next(Inserted(Heights(nodes), p + 1, node.level), q, i)) ==
            if n <= p then At(nodes, n) else if i <= node.level then node else At(nodes, n)
  {
    NextBeforeInserted(Heights(nodes), p + 1, node.level, q, i);
    hide Inserted, At, Next, Heights;
    AtInserted(nodes, p + 1, node, n);
  }

  lemma BeforeInserted(nodes: seq<Node>, maxLevel: nat, node: Node, p: nat, q: nat, i: nat)
    requires Shape(nodes, maxLevel) && node.level <= maxLevel && node.forward.Length == node.level + 1
    requires q <= p < |nodes| && i <= nodes[q].level && Relinked(nodes, maxLevel, node, p)
    ensures nodes[q].forward[i] ==
            At(Inserted(nodes, p + 1, node), Next(Inserted(Heights(nodes), p + 1, node.level), q, i))
  {
    var h := Heights(nodes);
    assert nodes[q].forward[i] == if i <= node.level && q == Prev(h, p, i) then node else At(nodes, Next(h, q, i));
    PrevLeadsOver(h, p, i, q);
    hide Inserted, Next, Heights, Relinked, Prev;
    BeforeInsertedValue(nodes, node, p, q, i, Next(h, q, i));
  }

  lemma AfterInserted(nodes: seq<Node>, maxLevel: nat, node: Node, p: nat, q: nat, i: nat)
    requires Shape(nodes, maxLevel) && node.level <= maxLevel && node.forward.Length == node.level + 1
    requires p < q < |nodes| && i <= nodes[q].level && Relinked(nodes, maxLevel, node, p)
    ensures q + 1 < |Inserted(Heights(nodes), p + 1, node.level)|
    ensures nodes[q].forward[i] ==
            At(Inserted(nodes, p + 1, node), Next(Inserted(Heights(nodes), p + 1, node.level), q + 1, i))
  {
    var h := Heights(nodes);
    assert Prev(h, p, i) <= p;
    assert nodes[q].forward[i] == At(nodes, Next(h, q, i));
    hide Relinked, Inserted, At, Shape, Next, Prev, Heights;
    NextAfterInserted(h, p + 1, node.level, q, i);
    AtInserted(nodes, p + 1, node, Next(h, q, i));
  }

  lemma AtTheInserted(nodes: seq<Node>, maxLevel: nat, node: Node, p: nat, i: nat)
    requires Shape(nodes, maxLevel) && node.level <= maxLevel && node.forward.Length == node.level + 1
    requires p < |nodes| && i <= node.level && Relinked(nodes, maxLevel, node, p)
    ensures p + 1 < |Inserted(Heights(nodes), p + 1, node.level)|
    ensures node.forward[i] ==
            At(Inserted(nodes, p + 1, node), Next(Inserted(Heights(nodes), p + 1, node.level), p + 1, i))
  {
    var h := Heights(nodes);
    assert node.forward[i] == At(nodes, Next(h, p, i));
    InsertedAt(h, p + 1, node.level);
    hide Relinked, Inserted, At, Shape, Next, Prev, Heights;
    NextOfInserted(h, p + 1, node.level, i);
    AtInserted(nodes, p + 1, node, Next(h, p, i));
  }

  lemma NextOfInserted(h: seq<nat>, at: nat, r: nat, i: nat)
    requires 1 <= at <= |h|
    ensures Next(Inserted(h, at, r), at, i) == Next(h, at - 1, i) + 1
  {
    hide Inserted;
    InsertedAt(h, at, r);
    NextSkips(h, at - 1, i);
    NextIs(Inserted(h, at, r), at, i, Next(h, at - 1, i) + 1);
  }

  lemma InsertedLinked(nodes: seq<Node>, maxLevel: nat, node: Node, p: nat)
    requires Shape(nodes, maxLevel) && p < |nodes| && node.level <= maxLevel && node.forward.Length == node.level + 1
    requires Relinked(nodes, maxLevel, node, p)
    ensures Shape(Inserted(nodes, p + 1, node), maxLevel) && Linked(Inserted(nodes, p + 1, node), maxLevel)
  {
    InsertedShape(nodes, maxLevel, node, p + 1);
    InsertedAt(nodes, p + 1, node);
    var g := Inserted(nodes, p + 1, node);
    hide Relinked, Inserted, At, Next, Prev;
    forall q: nat, i: nat | q < |g| && i <= g[q].level ensures g[q].forward[i] == At(g, Next(Heights(g), q, i)) {
      if q <= p {
        BeforeInserted(nodes, maxLevel, node, p, q, i);
      } else if q == p + 1 {
        AtTheInserted(nodes, maxLevel, node, p, i);
      } else {
        AfterInserted(nodes, maxLevel, node, p, q - 1, i);
      }
    }
  }

  lemma InsertedSorted(nodes: seq<Node>, node: Node, p: nat)
    requires Sorted(nodes) && IsRank(nodes, node.key, p)
    requires p + 1 < |nodes| ==> nodes[p + 1].key != node.key
    ensures Sorted(Inserted(nodes, p + 1, node))
  {
    InsertedAt(nodes, p + 1, node);
    var g := Inserted(nodes, p + 1, node);
    forall k | p < k < |nodes| ensures Less(node.key, nodes[k].key) {
      LessTotal(node.key, nodes[k].key);
      KeyAfterRank(nodes, node.key, p, k);
    }
    forall j, k | 1 <= j < k < |g| ensures Less(g[j].key, g[k].key) {
      assert g[j] == (if j <= p then nodes[j] else if j == p + 1 then node else nodes[j - 1]);
      assert g[k] == (if k <= p then nodes[k] else if k == p + 1 then node else nodes[k - 1]);
    }
  }

  lemma ApartNodes(nodes: seq<Node>, at: nat)
    requires Apart(nodes) && at < |nodes|
    ensures forall k | 0 <= k < |nodes| && k != at :: nodes[k] != nodes[at]
  {
  }

  lemma ApartAll(nodes: seq<Node>, at: nat)
    requires Apart(nodes) && at < |nodes|
    ensures forall q | 0 <= q < |nodes| && q != at :: nodes[q].forward != nodes[at].forward
  {
  }

  /** On a level that position p + 1 reaches, only the predecessor leads to it. */
  lemma OnlyPrevLeadsTo(h: seq<nat>, p: nat, q: nat, k: nat)
    requires p + 1 < |h| && q < |h| && q != p + 1 && h[0] >= k && h[p + 1] >= k
    ensures h[q] >= k ==> (Next(h, q, k) == p + 1 <==> q == Prev(h, p, k))
  {
    if q <= p && h[q] >= k { PrevLeadsOver(h, p, k, q); }
  }

  lemma ApartFrom(nodes: seq<Node>, node: Node, at: nat)
    requires Apart(nodes) && at < |nodes| && node.forward !in Arrays(nodes)
    ensures forall q | 0 <= q < |nodes| && q != at :: nodes[q].forward != nodes[at].forward
    ensures forall q | 0 <= q < |nodes| :: nodes[q].forward != node.forward
  {
    assert forall q | 0 <= q < |nodes| :: nodes[q] in nodes && nodes[q].forward in Arrays(nodes);
  }

  lemma InsertedApart(nodes: seq<Node>, node: Node, at: nat)
    requires Apart(nodes) && at <= |nodes| && node.forward !in Arrays(nodes)
    ensures Apart(Inserted(nodes, at, node))
  {
    InsertedAt(nodes, at, node);
    var g := Inserted(nodes, at, node);
    assert forall k | 0 <= k < |nodes| :: nodes[k] in nodes && nodes[k].forward in Arrays(nodes);
    forall j, k | 0 <= j < k < |g| ensures g[j].forward != g[k].forward {
      assert g[j] == (if j < at then nodes[j] else if j == at then node else nodes[j - 1]);
      assert g[k] == (if k < at then nodes[k] else if k == at then node else nodes[k - 1]);
    }
  }

  lemma RemovedApart(nodes: seq<Node>, d: nat)
    requires Apart(nodes) && d < |nodes|
    ensures Apart(Removed(nodes, d))
  {
    RemovedAt(nodes, d);
    var g := Removed(nodes, d);
    forall j, k | 0 <= j < k < |g| ensures g[j].forward != g[k].forward {
      assert g[j] == nodes[if j < d then j else j + 1] && g[k] == nodes[if k < d then k else k + 1];
    }
  }

  /** Node d is bypassed on every level. */
  ghost predicate Bypassed(nodes: seq<Node>, maxLevel: nat, d: nat)
    requires Shape(nodes, maxLevel) && d < |nodes|
    reads Arrays(nodes)
  {
    var h := Heights(nodes);
    forall q: nat, i: nat | q < |nodes| && q != d && i <= nodes[q].level ::
      nodes[q].forward[i] == At(nodes, if Next(h, q, i) == d then Next(h, d, i) else Next(h, q, i))
  }

  /** The same, with only the levels below k done. */
  ghost predicate Unlinking(nodes: seq<Node>, maxLevel: nat, d: nat, k: nat)
    requires Shape(nodes, maxLevel) && d < |nodes|
    reads Arrays(nodes)
  {
    var h := Heights(nodes);
    && (forall q: nat, i: nat | q < |nodes| && q != d && i <= nodes[q].level ::
          nodes[q].forward[i] == At(nodes, if i < k && Next(h, q, i) == d then Next(h, d, i) else Next(h, q, i)))
    && (forall i: nat | i <= nodes[d].level :: nodes[d].forward[i] == At(nodes, Next(h, d, i)))
  }

  lemma LinkedUnlinking(nodes: seq<Node>, maxLevel: nat, d: nat)
    requires Shape(nodes, maxLevel) && d < |nodes| && Linked(nodes, maxLevel)
    ensures Unlinking(nodes, maxLevel, d, 0)
  {
  }

  /** A level that is not done yet still leads on as before. */
  lemma NotYetUnlinked(nodes: seq<Node>, maxLevel: nat, p: nat, k: nat)
    requires Shape(nodes, maxLevel) && p + 1 < |nodes| && k <= maxLevel && Unlinking(nodes, maxLevel, p + 1, k)
    ensures var q := Prev(Heights(nodes), p, k); nodes[q].forward[k] == At(nodes, Next(Heights(nodes), q, k))
  {
  }

  /** Above its own height nothing leads to d. */
  lemma UnlinkedAll(nodes: seq<Node>, maxLevel: nat, d: nat, k: nat)
    requires Shape(nodes, maxLevel) && d < |nodes| && Unlinking(nodes, maxLevel, d, k) && nodes[d].level < k
    ensures Bypassed(nodes, maxLevel, d)
  {
  }

  /** The predecessor of d on a level that d reaches leads to d, on a higher level it does not. */
  lemma LeadsToNext(nodes: seq<Node>, maxLevel: nat, p: nat, k: nat)
    requires Shape(nodes, maxLevel) && p + 1 < |nodes| && k <= maxLevel && Apart(nodes)
    ensures var h := Heights(nodes);
            Next(h, Prev(h, p, k), k) == Next(h, p, k)
            && (At(nodes, Next(h, p, k)) == nodes[p + 1] <==> k <= nodes[p + 1].level)
  {
    ApartNodes(nodes, p + 1);
    PrevLeadsOver(Heights(nodes), p, k, Prev(Heights(nodes), p, k));
  }

  lemma RemovedShape(nodes: seq<Node>, maxLevel: nat, d: nat)
    requires Shape(nodes, maxLevel) && 1 <= d < |nodes|
    ensures Shape(Removed(nodes, d), maxLevel) && Heights(Removed(nodes, d)) == Removed(Heights(nodes), d)
  {
    RemovedAt(nodes, d);
    RemovedAt(Heights(nodes), d);
  }

  lemma AtRemoved(nodes: seq<Node>, at: nat, k: nat)
    requires at < |nodes|
    ensures k < at ==> At(Removed(nodes, at), k) == At(nodes, k)
    ensures at < k ==> At(Removed(nodes, at), k - 1) == At(nodes, k)
  {
    RemovedAt(nodes, at);
  }

  lemma BeforeRemoved(nodes: seq<Node>, maxLevel: nat, d: nat, q: nat, i: nat)
    requires Shape(nodes, maxLevel) && q < d < |nodes| && i <= nodes[q].level && Bypassed(nodes, maxLevel, d)
    requires q < |Removed(Heights(nodes), d)|
    ensures nodes[q].forward[i] == At(Removed(nodes, d), Next(Removed(Heights(nodes), d), q, i))
  {
    var h := Heights(nodes);
    assert nodes[q].forward[i] == At(nodes, if Next(h, q, i) == d then Next(h, d, i) else Next(h, q, i));
    hide Bypassed, Removed, At, Shape, Next, Heights;
    NextBeforeRemoved(h, d, q, i);
    AtRemoved(nodes, d, if Next(h, q, i) == d then Next(h, d, i) else Next(h, q, i));
  }

  lemma AfterRemoved(nodes: seq<Node>, maxLevel: nat, d: nat, q: nat, i: nat)
    requires Shape(nodes, maxLevel) && 1 <= d < q < |nodes| && i <= nodes[q].level && Bypassed(nodes, maxLevel, d)
    requires q - 1 < |Removed(Heights(nodes), d)|
    ensures nodes[q].forward[i] == At(Removed(nodes, d), Next(Removed(Heights(nodes), d), q - 1, i))
  {
    var h := Heights(nodes);
    assert nodes[q].forward[i] == At(nodes, Next(h, q, i));
    hide Bypassed, Removed, At, Shape, Next, Heights;
    NextAfterRemoved(h, d, q, i);
    AtRemoved(nodes, d, Next(h, q, i));
  }

  lemma RemovedLinked(nodes: seq<Node>, maxLevel: nat, d: nat)
    requires Shape(nodes, maxLevel) && 1 <= d < |nodes| && Bypassed(nodes, maxLevel, d)
    ensures Shape(Removed(nodes, d), maxLevel) && Linked(Removed(nodes, d), maxLevel)
  {
    RemovedShape(nodes, maxLevel, d);
    RemovedAt(nodes, d);
    var g := Removed(nodes, d);
    hide Bypassed, Removed, At, Next;
    forall q: nat, i: nat | q < |g| && i <= g[q].level ensures g[q].forward[i] == At(g, Next(Heights(g), q, i)) {
      if q < d {
        BeforeRemoved(nodes, maxLevel, d, q, i);
      } else {
        AfterRemoved(nodes, maxLevel, d, q + 1, i);
      }
    }
  }

  lemma RemovedSorted(nodes: seq<Node>, d: nat)
    requires Sorted(nodes) && 1 <= d < |nodes|
    ensures Sorted(Removed(nodes, d))
  {
    RemovedAt(nodes, d);
    var g := Removed(nodes, d);
    forall j, k | 1 <= j < k < |g| ensures Less(g[j].key, g[k].key) {
      assert g[j] == nodes[if j < d then j else j + 1] && g[k] == nodes[if k < d then k else k + 1];
    }
  }

  // ---------------------------------------------------------------- entries

  /** The map has the key exactly if the node after the rank does, and then the value is that node's. */
  lemma Lookup(nodes: seq<Node>, contents: map<string, string>, key: string, p: nat)
    requires |nodes| > 0 && Sorted(nodes) && Represents(nodes, contents) && IsRank(nodes, key, p)
    ensures key in contents <==> p + 1 < |nodes| && nodes[p + 1].key == key
    ensures key in contents ==> contents[key] == nodes[p + 1].value
  {
    if key in contents {
      var k :| 1 <= k < |nodes| && nodes[k].key == key;
      KeyAfterRank(nodes, key, p, k);
    }
  }

  lemma InsertedRepresents(nodes: seq<Node>, contents: map<string, string>, node: Node, p: nat)
    requires p < |nodes| && Represents(nodes, contents) && node.key !in contents
    ensures Represents(Inserted(nodes, p + 1, node), contents[node.key := node.value])
    ensures |contents[node.key := node.value]| == |contents| + 1
  {
    InsertedAt(nodes, p + 1, node);
    var g, m := Inserted(nodes, p + 1, node), contents[node.key := node.value];
    forall x | x in m ensures exists k :: 1 <= k < |g| && g[k].key == x {
      if x == node.key {
        assert g[p + 1].key == x;
      } else {
        var k :| 1 <= k < |nodes| && nodes[k].key == x;
        assert g[if k <= p then k else k + 1].key == x;
      }
    }
    MapGrows(contents, node.key, node.value);
  }

  lemma MapGrows(m: map<string, string>, x: string, v: string)
    requires x !in m
    ensures |m[x := v]| == |m| + 1
  {
    assert m[x := v].Keys == m.Keys + {x};
  }

  lemma MapShrinks(m: map<string, string>, x: string)
    requires x in m
    ensures |m - {x}| == |m| - 1
  {
    assert (m - {x}).Keys == m.Keys - {x};
  }

  lemma RemovedRepresents(nodes: seq<Node>, contents: map<string, string>, d: nat)
    requires 1 <= d < |nodes| && Sorted(nodes) && Represents(nodes, contents)
    ensures Represents(Removed(nodes, d), contents - {nodes[d].key})
  {
    RemovedAt(nodes, d);
    var g, m := Removed(nodes, d), contents - {nodes[d].key};
    forall k | 1 <= k < |g| ensures g[k].key in m && m[g[k].key] == g[k].value {
      LessIrreflexive(nodes[d].key);
      assert g[k] == nodes[if k < d then k else k + 1];
    }
    forall x | x in m ensures exists k :: 1 <= k < |g| && g[k].key == x {
      var k :| 1 <= k < |nodes| && nodes[k].key == x;
      assert g[if k < d then k else k - 1].key == x;
    }
  }

  /** The values that are not node d's. */
  ghost predicate OthersRepresent(nodes: seq<Node>, contents: map<string, string>, d: nat)
    reads nodes
  {
    && (forall k | 1 <= k < |nodes| && k != d :: nodes[k].key in contents && contents[nodes[k].key] == nodes[k].value)
    && (forall x | x in contents :: exists k :: 1 <= k < |nodes| && nodes[k].key == x)
  }

  lemma UpdatedRepresents(nodes: seq<Node>, contents: map<string, string>, d: nat)
    requires 1 <= d < |nodes| && Sorted(nodes) && nodes[d].key in contents && OthersRepresent(nodes, contents, d)
    ensures Represents(nodes, contents[nodes[d].key := nodes[d].value])
    ensures |contents[nodes[d].key := nodes[d].value]| == |contents|
  {
    LessIrreflexive(nodes[d].key);
    var after := contents[nodes[d].key := nodes[d].value];
    forall x | x in after ensures x in contents {}
    assert after.Keys == contents.Keys;
  }

  /** level is the height of the highest tower besides the header. */
  ghost predicate Top(nodes: seq<Node>, level: nat) {
    && (forall k | 1 <= k < |nodes| :: nodes[k].level <= level)
    && (level > 0 ==> exists k :: 1 <= k < |nodes| && nodes[k].level == level)
  }

  lemma InsertedTop(nodes: seq<Node>, node: Node, at: nat, level: nat)
    requires 1 <= at <= |nodes| && Top(nodes, level)
    ensures Top(Inserted(nodes, at, node), if level < node.level then node.level else level)
  {
    InsertedAt(nodes, at, node);
    var g := Inserted(nodes, at, node);
    assert g[at] == node;
    if level > 0 {
      var k :| 1 <= k < |nodes| && nodes[k].level == level;
      assert g[if k < at then k else k + 1].level == level;
    }
  }

  lemma RemovedMembers<T>(s: seq<T>, at: nat)
    requires at < |s|
    ensures forall y | y in Removed(s, at) :: y in s
  {
  }

  lemma RemovedLevels(nodes: seq<Node>, d: nat, level: nat)
    requires 1 <= d < |nodes| && Top(nodes, level)
    ensures forall k | 1 <= k < |Removed(nodes, d)| :: Removed(nodes, d)[k].level <= level
  {
    RemovedAt(nodes, d);
  }

  // ---------------------------------------------------------------- the list

  class SkipList {
    const maxLevel: nat
    const header: Node
    var curLevel: nat
    var elementCount: int
    ghost var nodes: seq<Node>
    ghost var contents: map<string, string>
    ghost var Repr: set<object>

    ghost predicate Valid()
      reads this, Repr
    {
      && this in Repr && (forall n | n in nodes :: n in Repr && n.forward in Repr)
      && Shape(nodes, maxLevel) && Apart(nodes) && Sorted(nodes) && header == nodes[0]
      && Linked(nodes, maxLevel)
      && Represents(nodes, contents)
      && elementCount == |nodes| - 1 == |contents|
      && curLevel <= maxLevel && Top(nodes, curLevel)
    }

    constructor (maxLevel: nat)
      ensures Valid() && fresh(Repr) && contents == map[] && this.maxLevel == maxLevel
    {
      this.maxLevel, curLevel, elementCount := maxLevel, 0, 0;
      var head := new Node("", "", maxLevel);
      header := head;
      nodes, contents, Repr := [head], map[], {this, head, head.forward};
    }

    /** One level of the search: go right while the next key is smaller. */
    method WalkRight(start: Node, ghost c: nat, key: string, i: nat, ghost p: nat) returns (r: Node)
      requires Valid() && IsRank(nodes, key, p) && c <= p && start == nodes[c] && i <= start.level
      ensures i <= maxLevel && r == nodes[Prev(Heights(nodes), p, i)]
    {
      r := start;
      ghost var h, d := Heights(nodes), c;
      while r.forward[i] != null && Less(r.forward[i].key, key)
        invariant c <= d <= p && r == nodes[d] && i <= r.level
        decreases p - d
      {
        d := Next(h, d, i);
        r := r.forward[i];
      }
      PrevLeadsOver(h, p, i, d);
    }

    /** The search of insert and erase: the predecessor on every level in use, and the one on level 0. */
    method Predecessors(key: string, ghost p: nat) returns (update: seq<Node?>, current: Node)
      requires Valid() && IsRank(nodes, key, p)
      ensures |update| == maxLevel + 1
      ensures forall i: nat | i <= curLevel :: update[i] == nodes[Prev(Heights(nodes), p, i)]
      ensures current == nodes[p]
    {
      hide Sorted, Apart, Less, Represents, Linked;
      update := seq(maxLevel + 1, _ => null);
      current := header;
      ghost var c: nat := 0;
      var i: nat := curLevel + 1;
      while i > 0
        invariant i <= curLevel + 1 && c <= p && current == nodes[c] && |update| == maxLevel + 1
        invariant current.level + 1 >= i && (i == 0 ==> c == p)
        invariant forall j: nat | i <= j <= curLevel :: update[j] == nodes[Prev(Heights(nodes), p, j)]
      {
        i := i - 1;
        current := WalkRight(current, c, key, i, p);
        c := Prev(Heights(nodes), p, i);
        update := update[i := current];
      }
    }

    /** The search of get and find. */
    method Descend(key: string, ghost p: nat) returns (next: Node?)
      requires Valid() && IsRank(nodes, key, p)
      ensures next == At(nodes, p + 1)
    {
      hide Sorted, Apart, Less, Represents;
      var current := header;
      ghost var c: nat := 0;
      var i: nat := curLevel + 1;
      while i > 0
        invariant i <= curLevel + 1 && c <= p && current == nodes[c]
        invariant current.level + 1 >= i
        invariant i == 0 ==> c == p
      {
        i := i - 1;
        current := WalkRight(current, c, key, i, p);
        c := Prev(Heights(nodes), p, i);
      }
      next := current.forward[0];
    }

    method Get(key: string) returns (r: Option<string>)
      requires Valid()
      ensures r == if key in contents then Some(contents[key]) else None
    {
      ghost var p := RankExists(nodes, key);
      var current := Descend(key, p);
      Lookup(nodes, contents, key, p);
      if current != null && current.key == key {
        return Some(current.value);
      }
      return None;
    }

    method Find(key: string) returns (found: bool)
      requires Valid()
      ensures found <==> key in contents
    {
      ghost var p := RankExists(nodes, key);
      var current := Descend(key, p);
      Lookup(nodes, contents, key, p);
      found := current != null && current.key == key;
    }

    /** Levels above those in use start at the header. */
    method RaiseTo(update: seq<Node?>, height: nat, ghost p: nat) returns (raised: seq<Node?>)
      requires Valid() && p < |nodes| && |update| == maxLevel + 1 && height <= maxLevel
      requires forall i: nat | i <= curLevel :: update[i] == nodes[Prev(Heights(nodes), p, i)]
      modifies this`curLevel
      ensures curLevel == (if old(curLevel) < height then height else old(curLevel)) && |raised| == maxLevel + 1
      ensures forall i: nat | i <= height :: raised[i] == nodes[Prev(Heights(nodes), p, i)]
    {
      hide Sorted, Apart, Less, Represents, Linked;
      raised := update;
      if height > curLevel {
        var i := curLevel + 1;
        while i <= height
          invariant curLevel < i <= height + 1 && |raised| == maxLevel + 1
          invariant forall j: nat | j < i :: raised[j] == nodes[Prev(Heights(nodes), p, j)]
        {
          raised := raised[i := header];
          i := i + 1;
        }
        curLevel := height;
      }
    }

    /** Hang the node in on one level, behind its predecessor there. */
    method LinkLevel(node: Node, prev: Node, ghost p: nat, k: nat)
      requires Shape(nodes, maxLevel) && Apart(nodes) && p < |nodes| && node.forward !in Arrays(nodes)
      requires k <= node.level <= maxLevel && node.forward.Length == node.level + 1
      requires prev == nodes[Prev(Heights(nodes), p, k)] && Linking(nodes, maxLevel, node, p, k)
      modifies prev.forward, node.forward
      ensures Linking(nodes, maxLevel, node, p, k + 1)
    {
      hide Apart, Prev, Next;
      ghost var h := Heights(nodes);
      ghost var at := Prev(h, p, k);
      PrevLeadsOver(h, p, k, at);
      ApartFrom(nodes, node, at);
      assert prev.forward[k] == At(nodes, Next(h, p, k));
      node.forward[k] := prev.forward[k];
      prev.forward[k] := node;
      forall q: nat, i: nat | q < |nodes| && i <= nodes[q].level
        ensures nodes[q].forward[i] == if i < k + 1 && q == Prev(h, p, i) then node else At(nodes, Next(h, q, i))
      {
        assert i != k ==> nodes[q].forward[i] == old(nodes[q].forward[i]);
      }
    }

    /** Hang the node into every level it reaches, from level 0 up. */
    method LinkIn(node: Node, update: seq<Node?>, ghost p: nat)
      requires Shape(nodes, maxLevel) && Apart(nodes) && Linked(nodes, maxLevel) && p < |nodes|
      requires node.level <= maxLevel && node.forward.Length == node.level + 1 && node.forward !in Arrays(nodes)
      requires |update| > node.level
      requires forall i: nat | i <= node.level :: update[i] == nodes[Prev(Heights(nodes), p, i)]
      modifies Arrays(nodes), node.forward
      ensures Relinked(nodes, maxLevel, node, p)
    {
      hide Apart;
      var k: nat := 0;
      while k <= node.level
        invariant k <= node.level + 1 && Linking(nodes, maxLevel, node, p, k)
      {
        LinkLevel(node, update[k], p, k);
        k := k + 1;
      }
    }

    /** The height of a new tower: as many tosses as came up heads, but no more than the header has. */
    method RandomLevel(tosses: nat) returns (counter: nat)
      ensures counter == if tosses < maxLevel then tosses else maxLevel
    {
      counter := 0;
      while counter < tosses
        invariant counter <= tosses
      {
        counter := counter + 1;
      }
      counter := if counter < maxLevel then counter else maxLevel;
    }

    /** The key is there: only the value changes. */
    method SetValue(node: Node, value: string, ghost p: nat)
      requires Valid() && IsRank(nodes, node.key, p) && p + 1 < |nodes| && node == nodes[p + 1]
      modifies node`value, this`contents
      ensures Valid() && contents == old(contents)[node.key := value]
    {
      hide Sorted, Apart, Less, Linked, Shape, Top, Represents;
      Lookup(nodes, contents, node.key, p);
      ghost var m := contents;
      Assign(node, value, p + 1);
      UpdatedRepresents(nodes, m, p + 1);
      assert this !in Arrays(nodes) && node !in Arrays(nodes);
      contents := m[node.key := value];
    }

    method Assign(node: Node, value: string, ghost at: nat)
      requires Apart(nodes) && 1 <= at < |nodes| && node == nodes[at] && Represents(nodes, contents)
      modifies node`value
      ensures node.value == value && OthersRepresent(nodes, contents, at)
    {
      ApartNodes(nodes, at);
      hide Apart;
      node.value := value;
    }

    /** The list has become after, which holds one node more. */
    method Grow(node: Node, ghost after: seq<Node>, ghost m: map<string, string>)
      requires this in Repr && forall n | n in after :: n == node || (n in Repr && n.forward in Repr)
      requires Shape(after, maxLevel) && Apart(after) && Sorted(after) && header == after[0] && Linked(after, maxLevel)
      requires Represents(after, m) && elementCount + 1 == |after| - 1 == |m| && curLevel <= maxLevel
      requires Top(after, curLevel)
      modifies this`nodes, this`contents, this`Repr, this`elementCount
      ensures Valid() && contents == m && Repr == old(Repr) + {node, node.forward}
    {
      hide Sorted, Apart, Less, Linked, Represents, Top;
      assert this !in Arrays(after);
      nodes, contents := after, m;
      Repr := Repr + {node, node.forward};
      elementCount := elementCount + 1;
      forall n | n in nodes ensures n in Repr && n.forward in Repr {}
    }

    /** A new tower after position p. */
    method AddNode(key: string, value: string, height: nat, update: seq<Node?>, ghost p: nat)
      requires Valid() && IsRank(nodes, key, p) && key !in contents && height <= maxLevel
      requires |update| == maxLevel + 1
      requires forall i: nat | i <= curLevel :: update[i] == nodes[Prev(Heights(nodes), p, i)]
      modifies this, Repr
      ensures Valid() && fresh(Repr - old(Repr)) && contents == old(contents)[key := value]
    {
      hide Sorted, Apart, Less, Linked, Relinked, Represents, Inserted, Top, Prev, Next;
      var raised := RaiseTo(update, height, p);
      var node := new Node(key, value, height);
      Lookup(nodes, contents, key, p);
      LinkIn(node, raised, p);
      InsertedShape(nodes, maxLevel, node, p + 1);
      InsertedLinked(nodes, maxLevel, node, p);
      InsertedApart(nodes, node, p + 1);
      InsertedSorted(nodes, node, p);
      InsertedTop(nodes, node, p + 1, old(curLevel));
      InsertedRepresents(nodes, contents, node, p);
      InsertedAt(nodes, p + 1, node);
      InsertedMembers(nodes, p + 1, node);
      Grow(node, Inserted(nodes, p + 1, node), contents[key := value]);
    }

    /** tosses decide the height of a new tower. */
    method Insert(key: string, value: string, tosses: nat) returns (ok: bool)
      requires Valid()
      modifies this, Repr
      ensures Valid() && fresh(Repr - old(Repr)) && ok && contents == old(contents)[key := value]
    {
      hide Sorted, Apart, Less, Represents, Top;
      ghost var p := RankExists(nodes, key);
      var update, current := Predecessors(key, p);
      assert current.forward[0] == At(nodes, p + 1);
      var next := current.forward[0];
      Lookup(nodes, contents, key, p);
      if next != null && next.key == key {
        SetValue(next, value, p);
        return true;
      }
      var height := RandomLevel(tosses);
      AddNode(key, value, height, update, p);
      ok := true;
    }

    /** Bypass node d on one level. */
    method UnlinkLevel(current: Node, prev: Node, ghost p: nat, k: nat)
      requires Shape(nodes, maxLevel) && Apart(nodes) && p + 1 < |nodes| && current == nodes[p + 1]
      requires k <= current.level && prev == nodes[Prev(Heights(nodes), p, k)] && Unlinking(nodes, maxLevel, p + 1, k)
      modifies prev.forward
      ensures Unlinking(nodes, maxLevel, p + 1, k + 1)
    {
      hide Apart, Prev, Next;
      ghost var h, d := Heights(nodes), p + 1;
      ghost var at := Prev(h, p, k);
      LeadsToNext(nodes, maxLevel, p, k);
      ApartAll(nodes, at);
      assert current.forward[k] == At(nodes, Next(h, d, k));
      prev.forward[k] := current.forward[k];
      forall q: nat, i: nat | q < |nodes| && q != d && i <= nodes[q].level
        ensures nodes[q].forward[i] ==
                At(nodes, if i < k + 1 && Next(h, q, i) == d then Next(h, d, i) else Next(h, q, i))
      {
        if i == k {
          OnlyPrevLeadsTo(h, p, q, k);
        } else {
          assert nodes[q].forward[i] == old(nodes[q].forward[i]);
        }
      }
    }

    /** From level 0 up, until a level that does not lead to the node. */
    method Unlink(current: Node, update: seq<Node?>, ghost p: nat)
      requires Shape(nodes, maxLevel) && Apart(nodes) && Linked(nodes, maxLevel) && p + 1 < |nodes|
      requires current == nodes[p + 1] && current.level <= curLevel <= maxLevel && |update| == maxLevel + 1
      requires forall i: nat | i <= curLevel :: update[i] == nodes[Prev(Heights(nodes), p, i)]
      modifies Arrays(nodes)
      ensures Bypassed(nodes, maxLevel, p + 1)
    {
      hide Apart, Prev, Next, Bypassed, Linked, Unlinking;
      LinkedUnlinking(nodes, maxLevel, p + 1);
      var i: nat := 0;
      while i <= curLevel
        invariant i <= current.level + 1 && Unlinking(nodes, maxLevel, p + 1, i)
      {
        LeadsToNext(nodes, maxLevel, p, i);
        NotYetUnlinked(nodes, maxLevel, p, i);
        if update[i].forward[i] != current {
          break;
        }
        UnlinkLevel(current, update[i], p, i);
        i := i + 1;
      }
      UnlinkedAll(nodes, maxLevel, p + 1, i);
    }

    /** Give up the levels that hold no tower any more. */
    method Lower(ghost after: seq<Node>)
      requires Shape(after, maxLevel) && Linked(after, maxLevel) && header == after[0] && curLevel <= maxLevel
      requires forall k | 1 <= k < |after| :: after[k].level <= curLevel
      modifies this`curLevel
      ensures curLevel <= maxLevel && Top(after, curLevel)
    {
      ghost var h := Heights(after);
      while curLevel > 0 && header.forward[curLevel] == null
        invariant curLevel <= maxLevel && forall k | 1 <= k < |after| :: after[k].level <= curLevel
      {
        NextSkips(h, 0, curLevel);
        curLevel := curLevel - 1;
      }
      if curLevel > 0 {
        assert after[Next(h, 0, curLevel)].level == curLevel;
      }
    }

    /** The list has become after, which holds one node less. */
    method Shrink(ghost after: seq<Node>, ghost m: map<string, string>)
      requires this in Repr && forall n | n in after :: n in Repr && n.forward in Repr
      requires Shape(after, maxLevel) && Apart(after) && Sorted(after) && header == after[0] && Linked(after, maxLevel)
      requires Represents(after, m) && elementCount - 1 == |after| - 1 == |m| && curLevel <= maxLevel
      requires Top(after, curLevel)
      modifies this`nodes, this`contents, this`elementCount
      ensures Valid() && contents == m
    {
      hide Sorted, Apart, Less, Linked, Represents, Top;
      assert this !in Arrays(after);
      nodes, contents := after, m;
      elementCount := elementCount - 1;
      forall n | n in nodes ensures n in Repr && n.forward in Repr {}
    }

    method RemoveNode(current: Node, update: seq<Node?>, ghost p: nat)
      requires Valid() && IsRank(nodes, current.key, p) && p + 1 < |nodes| && current == nodes[p + 1]
      requires |update| == maxLevel + 1
      requires forall i: nat | i <= curLevel :: update[i] == nodes[Prev(Heights(nodes), p, i)]
      modifies this, Repr
      ensures Valid() && Repr == old(Repr) && contents == old(contents) - {current.key}
    {
      hide Sorted, Apart, Less, Linked, Bypassed, Represents, Removed, Prev, Next;
      Lookup(nodes, contents, current.key, p);
      RemovedLevels(nodes, p + 1, curLevel);
      RemovedAt(nodes, p + 1);
      RemovedMembers(nodes, p + 1);
      Unlink(current, update, p);
      RemovedShape(nodes, maxLevel, p + 1);
      RemovedLinked(nodes, maxLevel, p + 1);
      RemovedApart(nodes, p + 1);
      RemovedSorted(nodes, p + 1);
      ghost var after := Removed(nodes, p + 1);
      Lower(after);
      RemovedRepresents(nodes, contents, p + 1);
      MapShrinks(contents, current.key);
      assert this !in Arrays(after);
      Shrink(after, contents - {current.key});
    }

    method Erase(key: string) returns (ok: bool)
      requires Valid()
      modifies this, Repr
      ensures Valid() && Repr == old(Repr) && (ok <==> key in old(contents)) && contents == old(contents) - {key}
    {
      hide Sorted, Apart, Less, Represents, Top;
      ghost var p := RankExists(nodes, key);
      var update, current := Predecessors(key, p);
      assert current.forward[0] == At(nodes, p + 1);
      var next := current.forward[0];
      Lookup(nodes, contents, key, p);
      if next != null && next.key == key {
        RemoveNode(next, update, p);
        return true;
      }
      assert contents - {key} == contents;
      ok := false;
    }

    method Size() returns (n: int)
      requires Valid()
      ensures n == |contents|
    {
      n := elementCount;
    }
  }
  // ---------------------------------------------------------------- comparing lists

  lemma {:induction false} SameKeys(a: seq<Node>, b: seq<Node>, m: map<string, string>, k: nat)
    requires |a| == |b| && Sorted(a) && Sorted(b) && Represents(a, m) && Represents(b, m) && 1 <= k < |a|
    ensures a[k].key == b[k].key && a[k].value == b[k].value
    decreases k
  {
    forall j | 1 <= j < k ensures a[j].key == b[j].key {
      SameKeys(a, b, m, j);
    }
    NotBefore(a, b, m, k);
    NotBefore(b, a, m, k);
    LessTotal(a[k].key, b[k].key);
  }

  lemma SortedAt(nodes: seq<Node>, j: nat, k: nat)
    requires Sorted(nodes) && 1 <= j < |nodes| && 1 <= k < |nodes|
    ensures j < k ==> Less(nodes[j].key, nodes[k].key)
  {
  }

  /** If the keys before k are the same, b[k] is no smaller than a[k]: where else would b have a's key? */
  lemma NotBefore(a: seq<Node>, b: seq<Node>, m: map<string, string>, k: nat)
    requires |a| == |b| && Sorted(a) && Sorted(b) && Represents(a, m) && Represents(b, m) && 1 <= k < |a|
    requires forall j | 1 <= j < k :: a[j].key == b[j].key
    ensures !Less(a[k].key, b[k].key)
  {
    var x := a[k].key;
    assert x in m;
    var j :| 1 <= j < |b| && b[j].key == x;
    LessIrreflexive(x);
    SortedAt(a, j, k);
    SortedAt(b, k, j);
    if Less(x, b[k].key) && k < j { LessTransitive(x, b[k].key, x); }
  }

  /** The same keys with the same values make the same map. */
  lemma SameMap(a: seq<Node>, m: map<string, string>, b: seq<Node>, m': map<string, string>)
    requires |a| == |b| && Represents(a, m) && Represents(b, m')
    requires forall k | 1 <= k < |a| :: a[k].key == b[k].key && a[k].value == b[k].value
    ensures m == m'
  {
    forall x | x in m ensures x in m' && m'[x] == m[x] {
      var k :| 1 <= k < |a| && a[k].key == x;
      assert b[k].key == x;
    }
    forall x | x in m' ensures x in m {
      var k :| 1 <= k < |b| && b[k].key == x;
      assert a[k].key == x;
    }
  }

  lemma LevelZero(nodes: seq<Node>, maxLevel: nat, k: nat)
    requires Shape(nodes, maxLevel) && Linked(nodes, maxLevel) && k < |nodes|
    ensures nodes[k].forward[0] == At(nodes, k + 1)
  {
  }

  /** The walk along level 0 that compares two lists finds them equal exactly if they hold the same map. */
  method Equals(list1: SkipList, list2: SkipList) returns (same: bool)
    requires list1.Valid() && list2.Valid()
    ensures same <==> list1.contents == list2.contents
  {
    hide Sorted, Apart, Less, Top, Linked, Represents, Next;
    ghost var a, b := list1.nodes, list2.nodes;
    if list1.elementCount != list2.elementCount {
      return false;
    }
    LevelZero(a, list1.maxLevel, 0);
    LevelZero(b, list2.maxLevel, 0);
    var ele1, ele2 := list1.header.forward[0], list2.header.forward[0];
    ghost var k: nat := 1;
    same := true;
    while ele1 != null && ele2 != null
      invariant list1.Valid() && list2.Valid()
      invariant 1 <= k <= |a| && ele1 == At(a, k) && ele2 == At(b, k)
      invariant same && forall j | 1 <= j < k :: a[j].key == b[j].key && a[j].value == b[j].value
      decreases |a| - k
    {
      if ele1.key != ele2.key || ele1.value != ele2.value {
        if list1.contents == list2.contents { SameKeys(a, b, list1.contents, k); }
        same := false;
        return;
      }
      LevelZero(a, list1.maxLevel, k);
      LevelZero(b, list2.maxLevel, k);
      ele1, ele2 := ele1.forward[0], ele2.forward[0];
      k := k + 1;
    }
    SameMap(a, list1.contents, b, list2.contents);
  }
}
