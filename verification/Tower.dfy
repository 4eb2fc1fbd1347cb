/** The nodes of a skip list in key order, header first, and what their links must be: on every level a
    node points to the next node that reaches that level. Keys, values and heights never change, so all
    of this is about values; only the links live on the heap. */
module Tower {
  import opened StringOrder

  class Node {
    const key: string
    const value: string
    const level: nat
    const forward: array<Node?>

    constructor (key: string, value: string, level: nat)
      ensures this.key == key && this.value == value && this.level == level
      ensures fresh(forward) && forward.Length == level + 1 && forall l | 0 <= l <= level :: forward[l] == null
    {
      this.key, this.value, this.level := key, value, level;
      forward := new Node?[level + 1](_ => null);
    }
  }

  /** The first position from `from` on whose node reaches level l, or |cells|. */
  function NextIndex(cells: seq<Node>, from: nat, l: nat): (j: nat)
    requires from <= |cells|
    ensures from <= j <= |cells| && (j < |cells| ==> cells[j].level >= l)
    ensures forall i | from <= i < j :: cells[i].level < l
    decreases |cells| - from
  {
    if from == |cells| || cells[from].level >= l then from else NextIndex(cells, from + 1, l)
  }

  lemma {:induction false} NextIs(cells: seq<Node>, from: nat, l: nat, x: nat)
    requires from <= x <= |cells| && (x < |cells| ==> cells[x].level >= l)
    requires forall i | from <= i < x :: cells[i].level < l
    ensures NextIndex(cells, from, l) == x
    decreases |cells| - from
  {
    if from < x {
      NextIs(cells, from + 1, l, x);
    }
  }

  function NextAt(cells: seq<Node>, from: nat, l: nat): Node?
    requires from <= |cells|
  {
    var j := NextIndex(cells, from, l);
    if j < |cells| then cells[j] else null
  }

  /** The keys after the header ascend strictly. */
  ghost predicate Sorted(cells: seq<Node>)
  {
    forall j, k | 1 <= j < k < |cells| :: Less(cells[j].key, cells[k].key)
  }

  /** No two nodes, and no two link arrays, are the same. */
  ghost predicate Separate(cells: seq<Node>)
  {
    forall j, k | 0 <= j < k < |cells| :: cells[j] != cells[k] && cells[j].forward != cells[k].forward
  }

  ghost predicate Sized(cells: seq<Node>)
  {
    forall k | 0 <= k < |cells| :: cells[k].forward.Length == cells[k].level + 1
  }

  /** Only the header may be taller than `top`. */
  ghost predicate Below(cells: seq<Node>, top: nat)
  {
    forall k | 1 <= k < |cells| :: cells[k].level <= top
  }

  /** The current level is no higher than the tallest node. */
  ghost predicate Topped(cells: seq<Node>, top: nat)
  {
    top == 0 || exists k :: 1 <= k < |cells| && cells[k].level == top
  }

  ghost function Links(cells: seq<Node>): set<object>
  {
    set n | n in cells :: n.forward
  }

  /** Every link of every node leads to the next node of its level. */
  ghost predicate Linked(cells: seq<Node>)
    requires Sized(cells)
    reads Links(cells)
  {
    forall k, l | 0 <= k < |cells| && 0 <= l <= cells[k].level :: cells[k].forward[l] == NextAt(cells, k + 1, l)
  }

  // ---------- searching ----------

  /** The first position after the header whose key is not below `key`: where a scan of level 0 stops. */
  function Rank(cells: seq<Node>, from: nat, key: string): (r: nat)
    requires 1 <= from <= |cells|
    ensures from <= r <= |cells| && (r < |cells| ==> !Less(cells[r].key, key))
    ensures forall j | from <= j < r :: Less(cells[j].key, key)
    decreases |cells| - from
  {
    if from == |cells| || !Less(cells[from].key, key) then from else Rank(cells, from + 1, key)
  }

  /** Everything up to a node with a smaller key is before the rank. */
  lemma BeforeRank(cells: seq<Node>, q: nat, key: string)
    requires Sorted(cells) && 1 <= q < |cells| && Less(cells[q].key, key)
    ensures q < Rank(cells, 1, key)
  {
    var r := Rank(cells, 1, key);
    if r <= q {
      if r < q {
        Transitive(cells[r].key, cells[q].key, key);
      }
    }
  }

  lemma AfterRank(cells: seq<Node>, q: nat, key: string)
    requires Sorted(cells) && 1 <= q < |cells| && !Less(cells[q].key, key)
    ensures q >= Rank(cells, 1, key)
  {
  }

  /** A key is in the list only at its rank. */
  lemma FoundAtRank(cells: seq<Node>, j: nat, key: string)
    requires Sorted(cells) && 1 <= j < |cells| && cells[j].key == key
    ensures j == Rank(cells, 1, key)
  {
    Irreflexive(key);
    AfterRank(cells, j, key);
  }

  /** Position p is where level l crosses position r: p reaches l and nothing between them does. */
  predicate Brackets(cells: seq<Node>, p: nat, r: nat, l: nat)
  {
    p < r <= |cells| && cells[p].level >= l && forall j | p < j < r :: cells[j].level < l
  }

  lemma BracketNext(cells: seq<Node>, p: nat, r: nat, l: nat)
    requires Brackets(cells, p, r, l)
    ensures NextAt(cells, p + 1, l) == NextAt(cells, r, l)
  {
    var j := NextIndex(cells, p + 1, l);
    assert j >= r;
    assert NextIndex(cells, r, l) == j;
  }

  // ---------- inserting and removing ----------

  function Inserted(cells: seq<Node>, r: nat, n: Node): seq<Node>
    requires r <= |cells|
  {
    cells[..r] + [n] + cells[r..]
  }

  function Removed(cells: seq<Node>, r: nat): seq<Node>
    requires r < |cells|
  {
    cells[..r] + cells[r + 1..]
  }

  /** The links after an insertion: the new node takes over at the node before it on each of its levels. */
  lemma NextInserted(cells: seq<Node>, r: nat, n: Node, k: nat, l: nat)
    requires 1 <= r <= |cells| && k < |cells| && l <= cells[k].level
    ensures var now := Inserted(cells, r, n);
      NextAt(now, (if k < r then k else k + 1) + 1, l) ==
        if l <= n.level && Brackets(cells, k, r, l) then n else NextAt(cells, k + 1, l)
  {
    var now := Inserted(cells, r, n);
    assert forall i | 0 <= i < |now| :: now[i] == if i < r then cells[i] else if i == r then n else cells[i - 1];
    var j := NextIndex(cells, k + 1, l);
    if k < r {
      var j' := NextIndex(now, k + 1, l);
      if l <= n.level && Brackets(cells, k, r, l) {
        assert now[r].level >= l;
        assert j' == r;
      } else if j < r {
        assert now[j].level >= l && j' == j;
      } else {
        assert j < |cells| ==> now[j + 1] == cells[j];
        assert j' == j + 1;
      }
    } else {
      var j' := NextIndex(now, k + 2, l);
      assert j < |cells| ==> now[j + 1] == cells[j];
      assert j' == j + 1;
    }
  }

  lemma NextOfInserted(cells: seq<Node>, r: nat, n: Node, l: nat)
    requires r <= |cells|
    ensures NextAt(Inserted(cells, r, n), r + 1, l) == NextAt(cells, r, l)
  {
    var now := Inserted(cells, r, n);
    assert forall i | 0 <= i < |now| :: now[i] == if i < r then cells[i] else if i == r then n else cells[i - 1];
    var j := NextIndex(cells, r, l);
    assert j < |cells| ==> now[j + 1] == cells[j];
    assert NextIndex(now, r + 1, l) == j + 1;
  }

  /** The links after a removal: who pointed to the node points past it. */
  lemma NextRemoved(cells: seq<Node>, r: nat, k: nat, l: nat)
    requires 1 <= r < |cells| && k < |cells| && k != r && l <= cells[k].level
    ensures var now := Removed(cells, r);
      NextAt(now, (if k < r then k else k - 1) + 1, l) ==
        if l <= cells[r].level && Brackets(cells, k, r, l) then NextAt(cells, r + 1, l) else NextAt(cells, k + 1, l)
  {
    hide NextIndex;
    var now := Removed(cells, r);
    var j := NextIndex(cells, k + 1, l);
    if k > r {
      ShiftedNext(cells, now, r, k, l);
    } else if j < r {
      forall i | k + 1 <= i <= j ensures now[i] == cells[i] {
      }
      NextIs(now, k + 1, l, j);
    } else {
      forall i | k + 1 <= i < r ensures now[i] == cells[i] && now[i].level < l {
      }
      ShiftedNext(cells, now, r, r, l);
      var i := NextIndex(now, r, l);
      NextIs(now, k + 1, l, i);
      if j > r {
        NextIs(cells, k + 1, l, NextIndex(cells, r + 1, l));
      }
    }
  }

  /** Behind the removed node everything is one position earlier. */
  lemma ShiftedNext(cells: seq<Node>, now: seq<Node>, r: nat, k: nat, l: nat)
    requires r <= k < |cells| && now == Removed(cells, r)
    ensures NextIndex(now, k, l) == NextIndex(cells, k + 1, l) - 1
  {
    hide NextIndex;
    var j := NextIndex(cells, k + 1, l);
    forall i | k <= i < |now| ensures now[i] == cells[i + 1] {
    }
    NextIs(now, k, l, j - 1);
  }

  // ---------- rewriting links ----------

  lemma BracketUnique(cells: seq<Node>, p: nat, q: nat, r: nat, l: nat)
    requires Brackets(cells, p, r, l) && Brackets(cells, q, r, l)
    ensures p == q
  {
  }

  lemma LinkedInserted(cells: seq<Node>, r: nat, n: Node, at: seq<nat>)
    requires 1 <= r <= |cells| && Sized(cells) && n.forward.Length == n.level + 1 && |at| > n.level
    requires forall l | 0 <= l <= n.level :: Brackets(cells, at[l], r, l) && n.forward[l] == NextAt(cells, r, l)
    requires forall k, l | 0 <= k < |cells| && 0 <= l <= cells[k].level ::
      cells[k].forward[l] == if l <= n.level && k == at[l] then n else NextAt(cells, k + 1, l)
    ensures Sized(Inserted(cells, r, n)) && Linked(Inserted(cells, r, n))
  {
    hide NextAt;
    var now := Inserted(cells, r, n);
    forall k, l | 0 <= k < |now| && 0 <= l <= now[k].level
      ensures now[k].forward.Length == now[k].level + 1 && now[k].forward[l] == NextAt(now, k + 1, l)
    {
      if k == r {
        NextOfInserted(cells, r, n, l);
      } else {
        var was := if k < r then k else k - 1;
        assert now[k] == cells[was];
        NextInserted(cells, r, n, was, l);
        assert l <= n.level ==> Brackets(cells, at[l], r, l);
        if l <= n.level && Brackets(cells, was, r, l) {
          BracketUnique(cells, was, at[l], r, l);
        }
      }
    }
  }

  /** Put n between position r - 1 and r on each of its levels. */
  method Link(ghost cells: seq<Node>, ghost r: nat, n: Node, update: array<Node?>, ghost at: seq<nat>)
    requires 1 <= r <= |cells| && Sized(cells) && Separate(cells) && Linked(cells)
    requires n.forward.Length == n.level + 1 && n.forward !in Links(cells)
    requires update !in Links(cells) && update != n.forward && update.Length > n.level && |at| > n.level
    requires forall l | 0 <= l <= n.level :: Brackets(cells, at[l], r, l) && update[l] == cells[at[l]]
    modifies Links(cells), n.forward
    ensures Sized(Inserted(cells, r, n)) && Linked(Inserted(cells, r, n))
  {
    hide NextAt;
    for i := 0 to n.level + 1
      invariant forall l | 0 <= l <= n.level :: update[l] == cells[at[l]]
      invariant forall l | 0 <= l < i :: n.forward[l] == NextAt(cells, r, l)
      invariant forall k, l | 0 <= k < |cells| && 0 <= l <= cells[k].level ::
        cells[k].forward[l] == if l < i && k == at[l] then n else NextAt(cells, k + 1, l)
    {
      var before := update[i];
      assert before == cells[at[i]] && before.forward in Links(cells);
      BracketNext(cells, at[i], r, i);
      n.forward[i] := before.forward[i];
      before.forward[i] := n;
    }
    LinkedInserted(cells, r, n, at);
  }

  lemma LinkedRemoved(cells: seq<Node>, r: nat, at: seq<nat>)
    requires 1 <= r < |cells| && Sized(cells) && |at| > cells[r].level
    requires forall l | 0 <= l <= cells[r].level :: Brackets(cells, at[l], r, l)
    requires forall k, l | 0 <= k < |cells| && 0 <= l <= cells[k].level ::
      cells[k].forward[l] ==
        if l <= cells[r].level && k == at[l] then NextAt(cells, r + 1, l) else NextAt(cells, k + 1, l)
    ensures Sized(Removed(cells, r)) && Linked(Removed(cells, r))
  {
    hide NextAt;
    var now := Removed(cells, r);
    forall k, l | 0 <= k < |now| && 0 <= l <= now[k].level
      ensures now[k].forward.Length == now[k].level + 1 && now[k].forward[l] == NextAt(now, k + 1, l)
    {
      var was := if k < r then k else k + 1;
      assert now[k] == cells[was];
      NextRemoved(cells, r, was, l);
      if l <= cells[r].level && Brackets(cells, was, r, l) {
        BracketUnique(cells, was, at[l], r, l);
      }
    }
  }

  /** Take the node at position r out of every level it is on. */
  method Unlink(ghost cells: seq<Node>, ghost r: nat, cur: Node, update: array<Node?>, top: nat, ghost at: seq<nat>)
    requires 1 <= r < |cells| && cells[r] == cur && Sized(cells) && Separate(cells) && Linked(cells)
    requires Below(cells, top)
    requires update !in Links(cells) && update.Length > top && |at| > top
    requires forall l | 0 <= l <= top :: Brackets(cells, at[l], r, l) && update[l] == cells[at[l]]
    modifies Links(cells)
    ensures Sized(Removed(cells, r)) && Linked(Removed(cells, r))
  {
    hide NextAt;
    var i := 0;
    while i <= top
      invariant 0 <= i <= cur.level + 1
      invariant forall l | 0 <= l <= top :: update[l] == cells[at[l]]
      invariant forall k, l | 0 <= k < |cells| && 0 <= l <= cells[k].level ::
        cells[k].forward[l] == if l < i && k == at[l] then NextAt(cells, r + 1, l) else NextAt(cells, k + 1, l)
    {
      var before := update[i];
      assert before == cells[at[i]] && before.forward in Links(cells);
      BracketNext(cells, at[i], r, i);
      StandsAt(cells, r, i);
      if before.forward[i] != cur {
        break;
      }
      before.forward[i] := cur.forward[i];
      i := i + 1;
    }
    assert i == cur.level + 1;
    assert forall k, l | 0 <= k < |cells| && 0 <= l <= cells[k].level ::
      cells[k].forward[l] == if l <= cur.level && k == at[l] then NextAt(cells, r + 1, l) else NextAt(cells, k + 1, l);
    LinkedRemoved(cells, r, at);
  }

  lemma StandsAt(cells: seq<Node>, r: nat, l: nat)
    requires r < |cells| && Separate(cells)
    ensures NextAt(cells, r, l) == cells[r] <==> l <= cells[r].level
  {
  }
}
