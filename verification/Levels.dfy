/** What the links of a valid skip list look like level by level, seen by following pointers. */
module Levels {
  import opened StringOrder
  import opened Tower
  import opened SkipLists

  /** The nodes from position `from` on that reach level l. */
  function Reaching(cells: seq<Node>, from: nat, l: nat): seq<Node>
    requires from <= |cells|
    decreases |cells| - from
  {
    if from == |cells| then []
    else if cells[from].level >= l then [cells[from]] + Reaching(cells, from + 1, l)
    else Reaching(cells, from + 1, l)
  }

  /** Those of the nodes that reach level l. */
  function Tall(nodes: seq<Node>, l: nat): seq<Node>
  {
    if nodes == [] then []
    else if nodes[0].level >= l then [nodes[0]] + Tall(nodes[1..], l)
    else Tall(nodes[1..], l)
  }

  /** Following `forward[l]` from `first` visits exactly these nodes and ends in null. */
  ghost predicate Chain(first: Node?, nodes: seq<Node>, l: nat)
    reads Links(nodes)
    decreases nodes
  {
    if nodes == [] then first == null
    else first == nodes[0] && l < nodes[0].forward.Length && Chain(nodes[0].forward[l], nodes[1..], l)
  }

  lemma ReachingIn(cells: seq<Node>, from: nat, l: nat)
    requires from <= |cells|
    ensures forall n | n in Reaching(cells, from, l) :: n in cells[from..] && n.level >= l
    decreases |cells| - from
  {
    if from < |cells| {
      ReachingIn(cells, from + 1, l);
      assert cells[from..] == [cells[from]] + cells[from + 1..];
    }
  }

  /** A level walked by pointers is the list of the nodes that reach it. */
  lemma {:induction false} LevelIsChain(cells: seq<Node>, from: nat, l: nat)
    requires Sized(cells) && Linked(cells) && from <= |cells|
    ensures Chain(NextAt(cells, from, l), Reaching(cells, from, l), l)
    decreases |cells| - from
  {
    if from < |cells| {
      LevelIsChain(cells, from + 1, l);
      if cells[from].level >= l {
        var nodes := Reaching(cells, from, l);
        assert nodes[0] == cells[from] && nodes[1..] == Reaching(cells, from + 1, l);
        assert cells[from].forward[l] == NextAt(cells, from + 1, l);
        HereFirst(cells, from, l);
        hide NextAt, Reaching, Linked;
      }
    }
  }

  lemma HereFirst(cells: seq<Node>, from: nat, l: nat)
    requires from < |cells| && cells[from].level >= l
    ensures NextAt(cells, from, l) == cells[from]
  {
  }

  /** Each level is the level below it, thinned out. */
  lemma {:induction false} LevelInLevelBelow(cells: seq<Node>, from: nat, l: nat)
    requires from <= |cells|
    ensures Reaching(cells, from, l + 1) == Tall(Reaching(cells, from, l), l + 1)
    decreases |cells| - from
  {
    if from < |cells| {
      LevelInLevelBelow(cells, from + 1, l);
      if cells[from].level >= l {
        assert Reaching(cells, from, l)[1..] == Reaching(cells, from + 1, l);
      }
    }
  }

  /** Level 0 has them all. */
  lemma {:induction false} BottomHasAll(cells: seq<Node>, from: nat)
    requires from <= |cells|
    ensures Reaching(cells, from, 0) == cells[from..]
    decreases |cells| - from
  {
    if from < |cells| {
      BottomHasAll(cells, from + 1);
      assert cells[from..] == [cells[from]] + cells[from + 1..];
    }
  }

  ghost predicate Ascending(nodes: seq<Node>)
  {
    forall j, k | 0 <= j < k < |nodes| :: Less(nodes[j].key, nodes[k].key)
  }

  /** The keys on a level ascend strictly. */
  lemma {:induction false} LevelSorted(cells: seq<Node>, from: nat, l: nat)
    requires Sorted(cells) && 1 <= from <= |cells|
    ensures Ascending(Reaching(cells, from, l))
    decreases |cells| - from
  {
    hide Less;
    if from < |cells| {
      LevelSorted(cells, from + 1, l);
      ReachingIn(cells, from + 1, l);
      var rest := Reaching(cells, from + 1, l);
      if cells[from].level >= l {
        var nodes := [cells[from]] + rest;
        assert nodes == Reaching(cells, from, l);
        forall j, k | 0 <= j < k < |nodes| ensures Less(nodes[j].key, nodes[k].key) {
          assert rest[k - 1] in cells[from + 1..];
          assert j > 0 ==> nodes[j] == rest[j - 1];
        }
      }
    }
  }

  /** A valid list, level by level: walked by pointers from the header, level l is the nodes that reach
      it, in ascending order, every one of them on the level below; above the current level there is
      nothing, on it there is something, and a node is on the levels up to its own and no others. */
  lemma LevelsOf(list: SkipList, l: nat)
    requires list.Valid() && l <= list.maxLevel
    ensures list.header.forward.Length == list.maxLevel + 1
    ensures var nodes := Reaching(list.cells, 1, l);
      && Chain(list.header.forward[l], nodes, l)
      && Ascending(nodes)
      && Reaching(list.cells, 1, l + 1) == Tall(nodes, l + 1)
      && (forall n | n in list.cells[1..] :: n in nodes <==> l <= n.level)
      && (l == 0 ==> nodes == list.cells[1..])
    ensures l > list.curLevel ==> list.header.forward[l] == null
    ensures l == list.curLevel > 0 ==> list.header.forward[l] != null
  {
    hide Chain, Reaching, Tall, Sorted, Separate, Ascending;
    LevelIsChain(list.cells, 1, l);
    LinkAt(list.cells, 0, l);
    LevelSorted(list.cells, 1, l);
    LevelInLevelBelow(list.cells, 1, l);
    BottomHasAll(list.cells, 1);
    forall n | n in list.cells[1..] ensures n in Reaching(list.cells, 1, l) <==> l <= n.level {
      Membership(list.cells, 1, l, n);
    }
    if l == list.curLevel && l > 0 {
      var k :| 1 <= k < |list.cells| && list.cells[k].level == l;
      assert NextIndex(list.cells, 1, l) <= k;
    }
  }

  lemma {:induction false} Membership(cells: seq<Node>, from: nat, l: nat, n: Node)
    requires from <= |cells| && n in cells[from..]
    ensures n in Reaching(cells, from, l) <==> l <= n.level
    decreases |cells| - from
  {
    ReachingIn(cells, from, l);
    if cells[from] != n {
      assert cells[from..] == [cells[from]] + cells[from + 1..];
      Membership(cells, from + 1, l, n);
    }
  }
}
