/** The skip list of skipList.h, nodes and link arrays on the heap, proved to be a finite map from keys
    to values for every sequence of calls and every outcome of the coin tosses. */
module SkipLists {
  import opened StringOrder
  import opened Entries
  import opened Tower

  function EntriesOf(cells: seq<Node>): seq<Entry>
    requires cells != []
  {
    seq(|cells| - 1, k requires 0 <= k < |cells| - 1 => (cells[k + 1].key, cells[k + 1].value))
  }

  lemma EntriesOrdered(cells: seq<Node>)
    requires cells != [] && Sorted(cells)
    ensures Ordered(EntriesOf(cells)) && Distinct(EntriesOf(cells))
  {
    OrderedDistinct(EntriesOf(cells));
  }

  lemma InsertedSorted(cells: seq<Node>, n: Node)
    requires cells != [] && Sorted(cells)
    requires var r := Rank(cells, 1, n.key); r < |cells| ==> cells[r].key != n.key
    ensures Sorted(Inserted(cells, Rank(cells, 1, n.key), n))
  {
    var r := Rank(cells, 1, n.key);
    forall k | r <= k < |cells| ensures Less(n.key, cells[k].key) {
      Total(n.key, cells[r].key);
      if k > r {
        Transitive(n.key, cells[r].key, cells[k].key);
      }
    }
    BetweenSorted(cells, r, n);
  }

  lemma BetweenSorted(cells: seq<Node>, r: nat, n: Node)
    requires 1 <= r <= |cells| && Sorted(cells)
    requires forall j | 1 <= j < r :: Less(cells[j].key, n.key)
    requires forall k | r <= k < |cells| :: Less(n.key, cells[k].key)
    ensures Sorted(Inserted(cells, r, n))
  {
    hide Less;
    var now := Inserted(cells, r, n);
    forall j, k | 1 <= j < k < |now| ensures Less(now[j].key, now[k].key) {
      assert j == r || now[j] == cells[if j < r then j else j - 1];
      assert k == r || now[k] == cells[if k < r then k else k - 1];
    }
  }

  lemma RemovedSorted(cells: seq<Node>, r: nat)
    requires 1 <= r < |cells| && Sorted(cells)
    ensures Sorted(Removed(cells, r))
  {
    var now := Removed(cells, r);
    forall j, k | 1 <= j < k < |now| ensures Less(now[j].key, now[k].key) {
      assert now[j] == cells[if j < r then j else j + 1] && now[k] == cells[if k < r then k else k + 1];
    }
  }

  lemma InsertedMapOf(cells: seq<Node>, r: nat, n: Node)
    requires cells != [] && 1 <= r <= |cells| && Sorted(cells) && n.key !in ToMap(EntriesOf(cells))
    ensures ToMap(EntriesOf(Inserted(cells, r, n))) == ToMap(EntriesOf(cells))[n.key := n.value]
  {
    hide ToMap, Sorted, Inserted, EntriesOf, Distinct;
    EntriesOrdered(cells);
    EntriesInserted(cells, r, n);
    InsertedMap(EntriesOf(cells), r - 1, (n.key, n.value));
  }

  lemma EntriesInserted(cells: seq<Node>, r: nat, n: Node)
    requires cells != [] && 1 <= r <= |cells|
    ensures var es := EntriesOf(cells);
      |es| == |cells| - 1 && EntriesOf(Inserted(cells, r, n)) == es[..r - 1] + [(n.key, n.value)] + es[r - 1..]
  {
    var now := Inserted(cells, r, n);
    var es, fs := EntriesOf(cells), EntriesOf(now);
    forall j | 0 <= j < |fs| ensures fs[j] == (es[..r - 1] + [(n.key, n.value)] + es[r - 1..])[j] {
      assert now[j + 1] == if j + 1 < r then cells[j + 1] else if j + 1 == r then n else cells[j];
    }
  }

  lemma RemovedMapOf(cells: seq<Node>, r: nat)
    requires 1 <= r < |cells| && Sorted(cells)
    ensures ToMap(EntriesOf(Removed(cells, r))) == ToMap(EntriesOf(cells)) - {cells[r].key}
  {
    EntriesOrdered(cells);
    var es := EntriesOf(cells);
    RemovedMap(es, r - 1);
    assert EntriesOf(Removed(cells, r)) == es[..r - 1] + es[r..];
  }

  /** Membership and lookup are decided at the rank. */
  lemma RankDecides(cells: seq<Node>, key: string)
    requires cells != [] && Sorted(cells)
    ensures var r, m := Rank(cells, 1, key), ToMap(EntriesOf(cells));
      && (key in m <==> r < |cells| && cells[r].key == key)
      && (key in m ==> m[key] == cells[r].value)
  {
    hide Sorted, Ordered, ToMap, Distinct;
    var r, es := Rank(cells, 1, key), EntriesOf(cells);
    EntriesOrdered(cells);
    MapKeys(es);
    if key in KeysOf(es) {
      var j :| 0 <= j < |es| && es[j].0 == key;
      FoundAtRank(cells, j + 1, key);
    }
    if r < |cells| && cells[r].key == key {
      MapAt(es, r - 1);
    }
  }

  lemma LinkAt(cells: seq<Node>, k: nat, l: nat)
    requires Sized(cells) && Linked(cells) && k < |cells| && l <= cells[k].level
    ensures cells[k].forward.Length == cells[k].level + 1 && cells[k].forward[l] == NextAt(cells, k + 1, l)
  {
  }

  lemma NextOnBottom(cells: seq<Node>, r: nat)
    requires r <= |cells|
    ensures NextAt(cells, r, 0) == if r < |cells| then cells[r] else null
  {
  }

  /** The coins that come up 1 before the first 0. */
  function Heads(coins: seq<bool>): nat
  {
    if coins != [] && coins[0] then 1 + Heads(coins[1..]) else 0
  }

  function LevelFor(coins: seq<bool>, maxLevel: nat): nat
  {
    if 1 + Heads(coins) < maxLevel then 1 + Heads(coins) else maxLevel
  }

  /** The first coin that shows no head decides. */
  lemma {:induction false} LevelOfCoins(coins: seq<bool>, maxLevel: nat, k: nat)
    requires k <= |coins| && (forall j | 0 <= j < k :: coins[j]) && (k < |coins| ==> !coins[k])
    ensures LevelFor(coins, maxLevel) == if k + 1 < maxLevel then k + 1 else maxLevel
  {
    HeadsOf(coins, k);
  }

  lemma {:induction false} HeadsOf(coins: seq<bool>, k: nat)
    requires k <= |coins| && (forall j | 0 <= j < k :: coins[j]) && (k < |coins| ==> !coins[k])
    ensures Heads(coins) == k
    decreases k
  {
    if k > 0 {
      assert forall j | 0 <= j < k - 1 :: coins[1..][j] == coins[j + 1];
      HeadsOf(coins[1..], k - 1);
    }
  }

  class SkipList {
    const maxLevel: nat
    const header: Node
    var curLevel: nat
    var elementCount: nat
    ghost var cells: seq<Node>   // the header, then the nodes in key order

    ghost predicate Valid()
      reads this, Links(cells)
    {
      && cells != [] && cells[0] == header && header.level == maxLevel && curLevel <= maxLevel
      && elementCount == |cells| - 1
      && Sorted(cells) && Separate(cells) && Sized(cells) && Below(cells, curLevel) && Linked(cells)
      && Topped(cells, curLevel)
    }

    /** The map the list stands for. */
    ghost function Contents(): map<string, string>
      reads this
      requires cells != []
    {
      ToMap(EntriesOf(cells))
    }

    constructor (maxLevel: nat)
      ensures Valid() && fresh(Links(cells)) && Contents() == map[] && this.maxLevel == maxLevel
    {
      this.maxLevel, curLevel, elementCount := maxLevel, 0, 0;
      header := new Node("", "", maxLevel);
      new;
      cells := [header];
    }

    /** Along level i as far as the keys stay below `key`. */
    method Advance(start: Node, i: nat, key: string, ghost from: nat) returns (cur: Node, ghost p: nat)
      requires Valid() && from < Rank(cells, 1, key) && start == cells[from] && i <= start.level
      ensures from <= p < |cells| && cur == cells[p] && Brackets(cells, p, Rank(cells, 1, key), i)
      ensures NextIndex(cells, p + 1, i) >= Rank(cells, 1, key)
    {
      cur, p := start, from;
      while cur.forward[i] != null && Less(cur.forward[i].key, key)
        invariant from <= p < Rank(cells, 1, key) && cur == cells[p] && i <= cur.level
        decreases |cells| - p
      {
        var q := NextIndex(cells, p + 1, i);
        BeforeRank(cells, q, key);
        cur, p := cur.forward[i], q;
      }
      ghost var q := NextIndex(cells, p + 1, i);
      if q < |cells| {
        AfterRank(cells, q, key);
      }
    }

    /** From the top level down; update[l] is where level l crosses the place of `key`. */
    method Descend(key: string) returns (update: array<Node?>, cur: Node, ghost at: seq<nat>)
      requires Valid()
      ensures fresh(update) && update.Length == maxLevel + 1 && |at| == curLevel + 1
      ensures forall l | 0 <= l <= curLevel ::
        Brackets(cells, at[l], Rank(cells, 1, key), l) && update[l] == cells[at[l]]
      ensures cur == cells[Rank(cells, 1, key) - 1]
    {
      update := new Node?[maxLevel + 1](_ => null);
      ghost var r, p := Rank(cells, 1, key), 0;
      cur, at := header, seq(curLevel + 1, _ => 0);
      var i: int := curLevel;
      while i >= 0
        invariant -1 <= i <= curLevel && p < r && cur == cells[p] && i <= cur.level && |at| == curLevel + 1
        invariant forall l | i < l <= curLevel :: Brackets(cells, at[l], r, l) && update[l] == cells[at[l]]
        invariant i == -1 ==> p == r - 1
      {
        cur, p := Advance(cur, i, key, p);
        update[i] := cur;
        at := at[i := p];
        if i == 0 {
          assert NextIndex(cells, p + 1, 0) == p + 1;
        }
        i := i - 1;
      }
    }

    method SearchElement(key: string) returns (found: bool, value: string)
      requires Valid()
      ensures found == (key in Contents()) && (found ==> value == Contents()[key])
    {
      RankDecides(cells, key);
      ghost var r, p := Rank(cells, 1, key), 0;
      var cur := header;
      var i: int := curLevel;
      while i >= 0
        invariant -1 <= i <= curLevel && p < r && cur == cells[p] && i <= cur.level
        invariant i == -1 ==> p == r - 1
      {
        cur, p := Advance(cur, i, key, p);
        if i == 0 {
          assert NextIndex(cells, p + 1, 0) == p + 1;
        }
        i := i - 1;
      }
      var next := cur.forward[0];
      assert next == NextAt(cells, r, 0);
      if next != null && next.key == key {
        return true, next.value;
      }
      return false, "";
    }

    method GetRandomLevel(coins: seq<bool>) returns (level: nat)
      ensures level == LevelFor(coins, maxLevel)
    {
      var k := 1;
      while k <= |coins| && coins[k - 1]
        invariant 1 <= k <= |coins| + 1 && Heads(coins) == k - 1 + Heads(coins[k - 1..])
      {
        k := k + 1;
      }
      level := if k < maxLevel then k else maxLevel;
    }

    /** Open the levels up to `level`; on the new ones only the header stands before the place. */
    method RaiseTo(level: nat, update: array<Node?>, ghost at: seq<nat>, ghost r: nat) returns (ghost at': seq<nat>)
      requires Valid() && level <= maxLevel && 1 <= r <= |cells|
      requires update.Length == maxLevel + 1 && update !in Links(cells) && |at| == curLevel + 1
      requires forall l | 0 <= l <= curLevel :: Brackets(cells, at[l], r, l) && update[l] == cells[at[l]]
      modifies this`curLevel, update
      ensures curLevel == if level > old(curLevel) then level else old(curLevel)
      ensures |at'| == curLevel + 1
      ensures forall l | 0 <= l <= curLevel :: Brackets(cells, at'[l], r, l) && update[l] == cells[at'[l]]
    {
      at' := at;
      if level > curLevel {
        for i := curLevel + 1 to level + 1
          invariant |at'| == i
          invariant forall l | 0 <= l < i :: Brackets(cells, at'[l], r, l) && update[l] == cells[at'[l]]
        {
          update[i] := header;
          at' := at' + [0];
          assert Brackets(cells, 0, r, i);
        }
        curLevel := level;
      }
    }

    /** 1 and no change when the key is there already. */
    method InsertElementNoBlock(key: string, value: string, coins: seq<bool>) returns (code: int)
      requires Valid()
      modifies this, Links(cells)
      ensures Valid() && fresh(Links(cells) - old(Links(cells)))
      ensures code == if key in old(Contents()) then 1 else 0
      ensures Contents() == if key in old(Contents()) then old(Contents()) else old(Contents())[key := value]
      ensures curLevel == if code == 0 && LevelFor(coins, maxLevel) > old(curLevel) then LevelFor(coins, maxLevel)
                          else old(curLevel)
    {
      hide Sorted, Separate, Below, Linked, Topped, Sized, ToMap, EntriesOf, NextIndex, Rank, Brackets, Inserted;
      hide Removed;
      RankDecides(cells, key);
      ghost var r := Rank(cells, 1, key);
      var update, cur, at := Descend(key);
      LinkAt(cells, r - 1, 0);
      var next := cur.forward[0];
      NextOnBottom(cells, r);
      if next != null && next.key == key {
        return 1;
      }
      var level := GetRandomLevel(coins);
      AddNode(key, value, level, update, at);
      return 0;
    }

    method AddNode(key: string, value: string, level: nat, update: array<Node?>, ghost at: seq<nat>)
      requires Valid() && level <= maxLevel && key !in Contents()
      requires update.Length == maxLevel + 1 && update !in Links(cells) && |at| == curLevel + 1
      requires forall l | 0 <= l <= curLevel ::
        Brackets(cells, at[l], Rank(cells, 1, key), l) && update[l] == cells[at[l]]
      modifies this, Links(cells), update
      ensures Valid() && fresh(Links(cells) - old(Links(cells)))
      ensures curLevel == if level > old(curLevel) then level else old(curLevel)
      ensures Contents() == old(Contents())[key := value]
    {
      hide Sorted, Separate, Below, Linked, Topped, Sized, ToMap, EntriesOf, NextIndex, Rank, Brackets, Inserted;
      hide Removed;
      RankDecides(cells, key);
      ghost var r := Rank(cells, 1, key);
      ghost var upTo := RaiseTo(level, update, at, r);
      var n := new Node(key, value, level);
      Link(cells, r, n, update, upTo);
      InsertedSorted(cells, n);
      InsertedMapOf(cells, r, n);
      InsertedShape(cells, r, n, old(curLevel), curLevel);
      cells := Inserted(cells, r, n);
      elementCount := elementCount + 1;
    }

    /** The node goes, and with it every level it alone was on. */
    method DeleteElement(key: string)
      requires Valid()
      modifies this, Links(cells)
      ensures Valid() && Links(cells) <= old(Links(cells))
      ensures Contents() == old(Contents()) - {key}
    {
      hide Sorted, Separate, Below, Linked, Topped, Sized, ToMap, EntriesOf, NextIndex, Rank, Brackets, Inserted;
      hide Removed;
      RankDecides(cells, key);
      ghost var r := Rank(cells, 1, key);
      var update, cur, at := Descend(key);
      LinkAt(cells, r - 1, 0);
      var next := cur.forward[0];
      NextOnBottom(cells, r);
      if next != null && next.key == key {
        Unlink(cells, r, next, update, curLevel, at);
        RemovedSorted(cells, r);
        RemovedMapOf(cells, r);
        RemovedShape(cells, r, curLevel);
        cells := Removed(cells, r);
        elementCount := elementCount - 1;
        LowerLevel();
      } else {
        assert Contents() - {key} == Contents();
      }
    }

    method LowerLevel()
      requires cells != [] && cells[0] == header && header.level == maxLevel && curLevel <= maxLevel
      requires Sized(cells) && Below(cells, curLevel) && Linked(cells)
      modifies this`curLevel
      ensures curLevel <= old(curLevel) && Below(cells, curLevel) && Topped(cells, curLevel)
    {
      while curLevel > 0 && header.forward[curLevel] == null
        invariant curLevel <= old(curLevel) && Below(cells, curLevel)
      {
        assert NextAt(cells, 1, curLevel) == null;
        curLevel := curLevel - 1;
      }
      if curLevel > 0 {
        assert cells[NextIndex(cells, 1, curLevel)].level == curLevel;
      }
    }

    /** Delete, then insert again: the new value wins. */
    method InsertSetElement(key: string, value: string, coins: seq<bool>)
      requires Valid()
      modifies this, Links(cells)
      ensures Valid() && fresh(Links(cells) - old(Links(cells)))
      ensures Contents() == old(Contents())[key := value]
    {
      hide Sorted, Separate, Below, Linked, Topped, Sized, ToMap, EntriesOf;
      var found, _ := SearchElement(key);
      if found {
        DeleteElement(key);
      }
      var _ := InsertElementNoBlock(key, value, coins);
    }

    method Size() returns (n: nat)
      requires Valid()
      ensures n == |Contents()|
    {
      EntriesOrdered(cells);
      MapSize(EntriesOf(cells));
      return elementCount;
    }

    /** All pairs in key order, read off level 0. */
    method DumpFile() returns (dump: seq<Entry>)
      requires Valid()
      ensures dump == EntriesOf(cells) && Ordered(dump) && ToMap(dump) == Contents()
    {
      EntriesOrdered(cells);
      dump := [];
      var cur, k := header.forward[0], 1;
      while cur != null
        invariant 1 <= k <= |cells| && cur == NextAt(cells, k, 0)
        invariant dump == EntriesOf(cells)[..k - 1]
        decreases |cells| - k
      {
        assert cur == cells[k];
        dump := dump + [(cur.key, cur.value)];
        cur, k := cur.forward[0], k + 1;
      }
      assert k == |cells|;
    }

    /** Insert what was dumped, pair by pair; keys already there stay as they are. */
    method LoadFile(dump: seq<Entry>, coins: nat -> seq<bool>)
      requires Valid()
      modifies this, Links(cells)
      ensures Valid() && fresh(Links(cells) - old(Links(cells)))
      ensures Contents() == Loaded(old(Contents()), dump)
      ensures Distinct(dump) ==> Contents() == ToMap(dump) + old(Contents())
    {
      for i := 0 to |dump|
        invariant Valid() && fresh(Links(cells) - old(Links(cells)))
        invariant Contents() == Loaded(old(Contents()), dump[..i])
      {
        assert dump[..i + 1][..i] == dump[..i];
        var _ := InsertElementNoBlock(dump[i].0, dump[i].1, coins(i));
      }
      assert dump[..|dump|] == dump;
      if Distinct(dump) {
        LoadedOverridden(old(Contents()), dump);
      }
    }
  }

  lemma InsertedShape(cells: seq<Node>, r: nat, n: Node, was: nat, top: nat)
    requires 1 <= r <= |cells| && Separate(cells) && Below(cells, was) && Topped(cells, was)
    requires n !in cells && n.forward !in Links(cells) && top == if n.level > was then n.level else was
    ensures var now := Inserted(cells, r, n);
      && |now| == |cells| + 1 && now[0] == cells[0]
      && Separate(now) && Below(now, top) && Topped(now, top)
      && Links(now) == Links(cells) + {n.forward}
  {
    InsertedLinks(cells, r, n);
    InsertedSeparate(cells, r, n);
    var now := Inserted(cells, r, n);
    assert now[r] == n;
    if top == was && was > 0 {
      var k :| 1 <= k < |cells| && cells[k].level == was;
      assert now[if k < r then k else k + 1].level == was;
    }
    hide Separate, Links;
    assert forall i | 0 <= i < |now| :: now[i] == if i < r then cells[i] else if i == r then n else cells[i - 1];
  }

  lemma InsertedSeparate(cells: seq<Node>, r: nat, n: Node)
    requires r <= |cells| && Separate(cells) && n !in cells && n.forward !in Links(cells)
    ensures Separate(Inserted(cells, r, n))
  {
    var now := Inserted(cells, r, n);
    forall j, k | 0 <= j < k < |now| ensures now[j] != now[k] && now[j].forward != now[k].forward {
      var x, y := if j < r then j else j - 1, if k < r then k else k - 1;
      assert j != r ==> now[j] == cells[x] && now[j] in cells;
      assert k != r ==> now[k] == cells[y] && now[k] in cells;
    }
  }

  lemma InsertedLinks(cells: seq<Node>, r: nat, n: Node)
    requires r <= |cells|
    ensures Links(Inserted(cells, r, n)) == Links(cells) + {n.forward}
  {
    var now := Inserted(cells, r, n);
    assert cells == cells[..r] + cells[r..];
    assert forall c :: c in now <==> c in cells || c == n;
  }

  lemma RemovedShape(cells: seq<Node>, r: nat, top: nat)
    requires 1 <= r < |cells| && Separate(cells) && Below(cells, top)
    ensures var now := Removed(cells, r);
      && |now| == |cells| - 1 && now[0] == cells[0]
      && Separate(now) && Below(now, top) && Links(now) <= Links(cells)
  {
    var now := Removed(cells, r);
    assert forall i | 0 <= i < |now| :: now[i] == if i < r then cells[i] else cells[i + 1];
  }
}
