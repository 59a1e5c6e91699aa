/** The levels of a skip list, as its pointers have them. */
module SkipListLevels {
  import opened SkipLists

  /** The nodes, in order, that are tall enough for level i. */
  ghost function Reaching(nodes: seq<Node>, i: nat): seq<Node> {
    if nodes == [] then []
    else (if nodes[0].level >= i then [nodes[0]] else []) + Reaching(nodes[1..], i)
  }

  lemma {:induction false} ReachingMembers(nodes: seq<Node>, i: nat)
    ensures forall n | n in Reaching(nodes, i) :: n in nodes && n.level >= i
    ensures forall n | n in nodes && n.level >= i :: n in Reaching(nodes, i)
  {
    if nodes != [] { ReachingMembers(nodes[1..], i); }
  }

  lemma {:induction false} ReachingZero(nodes: seq<Node>)
    ensures Reaching(nodes, 0) == nodes
  {
    if nodes != [] { ReachingZero(nodes[1..]); }
  }

  lemma {:induction false} ReachingSkips(nodes: seq<Node>, n: nat, i: nat)
    requires n <= |nodes| && (forall k | 0 <= k < n :: nodes[k].level < i) && (n < |nodes| ==> nodes[n].level >= i)
    ensures Reaching(nodes, i) == if n == |nodes| then [] else [nodes[n]] + Reaching(nodes[n + 1..], i)
  {
    if n > 0 {
      ReachingSkips(nodes[1..], n - 1, i);
      assert n < |nodes| ==> nodes[1..][n..] == nodes[n + 1..];
    }
  }

  lemma ReachingNext(nodes: seq<Node>, p: nat, i: nat, n: nat)
    requires p < n <= |nodes| && n == Next(Heights(nodes), p, i)
    ensures Reaching(nodes[p + 1..], i) == if n == |nodes| then [] else [nodes[n]] + Reaching(nodes[n + 1..], i)
  {
    var rest, m := nodes[p + 1..], n - p - 1;
    NextSkips(Heights(nodes), p, i);
    assert forall k | 0 <= k < m :: rest[k].level == Heights(nodes)[p + 1 + k] < i;
    assert m < |rest| ==> rest[m].level == Heights(nodes)[n] >= i && rest[m + 1..] == nodes[n + 1..];
    hide Next, Reaching, Heights;
    ReachingSkips(rest, m, i);
  }

  /** The pointers of level i lead from start to the first of these towers, from each to the next, and then nowhere. */
  ghost predicate Threads(start: Node, i: nat, towers: seq<Node>)
    reads start.forward, Arrays(towers)
    decreases |towers|
  {
    && i < start.forward.Length
    && if towers == [] then start.forward[i] == null
       else start.forward[i] == towers[0] && Threads(towers[0], i, towers[1..])
  }

  lemma {:induction false} LevelThreads(nodes: seq<Node>, maxLevel: nat, p: nat, i: nat)
    requires Shape(nodes, maxLevel) && Linked(nodes, maxLevel) && p < |nodes| && i <= nodes[p].level
    ensures Threads(nodes[p], i, Reaching(nodes[p + 1..], i))
    decreases |nodes| - p
  {
    var n := Next(Heights(nodes), p, i);
    ReachingNext(nodes, p, i, n);
    assert nodes[p].forward[i] == At(nodes, n);
    if n < |nodes| {
      LevelThreads(nodes, maxLevel, n, i);
      hide Linked, Reaching, Next, Heights;
      var towers := [nodes[n]] + Reaching(nodes[n + 1..], i);
      assert towers[1..] == Reaching(nodes[n + 1..], i);
    }
  }

  /**
   * Following the pointers of level i from the header meets exactly the nodes tall enough for it, in the order of level
   * 0, and level 0 has them all.
   */
  lemma LevelIsSubsequence(list: SkipList, i: nat)
    requires list.Valid() && i <= list.maxLevel
    ensures Threads(list.header, i, Reaching(list.nodes[1..], i))
    ensures Reaching(list.nodes[1..], 0) == list.nodes[1..]
  {
    LevelThreads(list.nodes, list.maxLevel, 0, i);
    ReachingZero(list.nodes[1..]);
  }

  /** curLevel is the greatest level in use: the header's pointers above it are null, its own is not unless it is 0. */
  lemma LevelsAboveEmpty(list: SkipList, i: nat)
    requires list.Valid() && i <= list.maxLevel
    ensures list.curLevel < i ==> list.header.forward[i] == null
    ensures i == list.curLevel > 0 ==> list.header.forward[i] != null
  {
    var n := Next(Heights(list.nodes), 0, i);
    NextSkips(Heights(list.nodes), 0, i);
    assert list.header.forward[i] == At(list.nodes, n);
  }
}
