/** Sorted key-value lists and the finite maps they stand for. */
module Entries {
  import opened StringOrder

  type Entry = (string, string)

  ghost predicate Ordered(es: seq<Entry>)
  {
    forall j, k | 0 <= j < k < |es| :: Less(es[j].0, es[k].0)
  }

  ghost predicate Distinct(es: seq<Entry>)
  {
    forall j, k | 0 <= j < k < |es| :: es[j].0 != es[k].0
  }

  function ToMap(es: seq<Entry>): map<string, string>
  {
    if es == [] then map[] else ToMap(es[..|es| - 1])[es[|es| - 1].0 := es[|es| - 1].1]
  }

  lemma OrderedDistinct(es: seq<Entry>)
    requires Ordered(es)
    ensures Distinct(es)
  {
    forall j, k | 0 <= j < k < |es| ensures es[j].0 != es[k].0 {
      Irreflexive(es[j].0);
    }
  }

  function KeysOf(es: seq<Entry>): set<string>
  {
    set j | 0 <= j < |es| :: es[j].0
  }

  lemma {:induction false} MapKeys(es: seq<Entry>)
    ensures ToMap(es).Keys == KeysOf(es)
  {
    if es != [] {
      var before := es[..|es| - 1];
      MapKeys(before);
      assert es == before + [es[|es| - 1]];
      KeysAdd(before, [es[|es| - 1]]);
    }
  }

  lemma KeysAdd(es: seq<Entry>, fs: seq<Entry>)
    ensures KeysOf(es + fs) == KeysOf(es) + KeysOf(fs)
  {
    forall j | 0 <= j < |es| ensures es[j].0 in KeysOf(es + fs) {
      assert (es + fs)[j].0 == es[j].0;
    }
    forall j | 0 <= j < |fs| ensures fs[j].0 in KeysOf(es + fs) {
      assert (es + fs)[|es| + j].0 == fs[j].0;
    }
  }

  /** Every listed pair is in the map. */
  lemma {:induction false} MapAt(es: seq<Entry>, j: nat)
    requires Distinct(es) && j < |es|
    ensures es[j].0 in ToMap(es) && ToMap(es)[es[j].0] == es[j].1
  {
    if j < |es| - 1 {
      MapAt(es[..|es| - 1], j);
      assert es[j].0 != es[|es| - 1].0;
    }
  }

  lemma {:induction false} MapSize(es: seq<Entry>)
    requires Distinct(es)
    ensures |ToMap(es)| == |es|
  {
    if es != [] {
      var before := es[..|es| - 1];
      MapSize(before);
      MapKeys(before);
      assert ToMap(es).Keys == ToMap(before).Keys + {es[|es| - 1].0};
    }
  }

  lemma SameMap(es: seq<Entry>, m: map<string, string>)
    requires Distinct(es) && m.Keys == KeysOf(es)
    requires forall j | 0 <= j < |es| :: m[es[j].0] == es[j].1
    ensures ToMap(es) == m
  {
    MapKeys(es);
    forall k | k in m ensures ToMap(es)[k] == m[k] {
      var j :| 0 <= j < |es| && es[j].0 == k;
      MapAt(es, j);
    }
  }

  lemma InsertedMap(es: seq<Entry>, r: nat, e: Entry)
    requires Distinct(es) && r <= |es| && e.0 !in ToMap(es)
    ensures var now := es[..r] + [e] + es[r..]; Distinct(now) && ToMap(now) == ToMap(es)[e.0 := e.1]
  {
    MapKeys(es);
    var now, m := es[..r] + [e] + es[r..], ToMap(es)[e.0 := e.1];
    hide ToMap;
    InsertedKeys(es, r, e);
    forall j, k | 0 <= j < k < |now| ensures now[j].0 != now[k].0 {
      InsertedApart(es, r, e, j, k);
    }
    forall j | 0 <= j < |now| ensures now[j].0 in m && m[now[j].0] == now[j].1 {
      InsertedAt(es, r, e, j);
    }
    hide Distinct, KeysOf;
    SameMap(now, m);
  }

  lemma InsertedKeys(es: seq<Entry>, r: nat, e: Entry)
    requires r <= |es|
    ensures KeysOf(es[..r] + [e] + es[r..]) == KeysOf(es) + {e.0}
  {
    KeysAdd(es[..r] + [e], es[r..]);
    KeysAdd(es[..r], [e]);
    KeysAdd(es[..r], es[r..]);
    assert es == es[..r] + es[r..];
    assert [e][0].0 in KeysOf([e]);
    assert KeysOf([e]) == {e.0};
  }

  lemma InsertedAt(es: seq<Entry>, r: nat, e: Entry, j: nat)
    requires Distinct(es) && r <= |es| && e.0 !in KeysOf(es) && j < |es| + 1
    ensures var now, m := es[..r] + [e] + es[r..], ToMap(es)[e.0 := e.1];
      now[j].0 in m && m[now[j].0] == now[j].1
  {
    if j != r {
      MapAt(es, if j < r then j else j - 1);
    }
  }

  lemma InsertedApart(es: seq<Entry>, r: nat, e: Entry, j: nat, k: nat)
    requires Distinct(es) && r <= |es| && e.0 !in KeysOf(es)
    requires j < k < |es| + 1
    ensures var now := es[..r] + [e] + es[r..]; now[j].0 != now[k].0
  {
    var now := es[..r] + [e] + es[r..];
    assert j != r ==> now[j] == es[if j < r then j else j - 1];
    assert k != r ==> now[k] == es[if k < r then k else k - 1];
  }

  lemma RemovedMap(es: seq<Entry>, r: nat)
    requires Distinct(es) && r < |es|
    ensures var now := es[..r] + es[r + 1..]; Distinct(now) && ToMap(now) == ToMap(es) - {es[r].0}
  {
    MapKeys(es);
    var now, m := es[..r] + es[r + 1..], ToMap(es) - {es[r].0};
    hide ToMap;
    RemovedKeys(es, r);
    forall j, k | 0 <= j < k < |now| ensures now[j].0 != now[k].0 {
      assert now[j] == es[if j < r then j else j + 1] && now[k] == es[if k < r then k else k + 1];
    }
    forall j | 0 <= j < |now| ensures now[j].0 in m && m[now[j].0] == now[j].1 {
      RemovedAt(es, r, j);
    }
    hide Distinct, KeysOf;
    SameMap(now, m);
  }

  lemma RemovedKeys(es: seq<Entry>, r: nat)
    requires Distinct(es) && r < |es|
    ensures KeysOf(es[..r] + es[r + 1..]) == KeysOf(es) - {es[r].0}
  {
    var now := es[..r] + es[r + 1..];
    KeysAdd(es[..r] + [es[r]], es[r + 1..]);
    KeysAdd(es[..r], [es[r]]);
    KeysAdd(es[..r], es[r + 1..]);
    assert es == es[..r] + [es[r]] + es[r + 1..];
    assert [es[r]][0].0 in KeysOf([es[r]]);
    assert KeysOf([es[r]]) == {es[r].0};
    forall j | 0 <= j < |now| ensures now[j].0 != es[r].0 {
      assert now[j] == es[if j < r then j else j + 1];
    }
    assert es[r].0 !in KeysOf(now);
  }

  lemma RemovedAt(es: seq<Entry>, r: nat, j: nat)
    requires Distinct(es) && r < |es| && j < |es| - 1
    ensures var now, m := es[..r] + es[r + 1..], ToMap(es) - {es[r].0};
      now[j].0 in m && m[now[j].0] == now[j].1
  {
    var i := if j < r then j else j + 1;
    MapAt(es, i);
    assert (es[..r] + es[r + 1..])[j] == es[i] && es[i].0 != es[r].0;
  }

  // ---------- dumps ----------

  /** What loading a dump makes of a map: keys already there keep their value, and of several entries
      with one key the first counts. */
  function Loaded(m: map<string, string>, dump: seq<Entry>): map<string, string>
  {
    if dump == [] then m
    else
      var before := Loaded(m, dump[..|dump| - 1]);
      var e := dump[|dump| - 1];
      if e.0 in before then before else before[e.0 := e.1]
  }

  /** Loading a dump D of a map into a list that holds M gives D overridden by M. */
  lemma {:induction false} LoadedOverridden(m: map<string, string>, dump: seq<Entry>)
    requires Distinct(dump)
    ensures Loaded(m, dump) == ToMap(dump) + m
  {
    if dump == [] {
      assert ToMap(dump) + m == m;
    } else {
      var before := dump[..|dump| - 1];
      LoadedOverridden(m, before);
      MapKeys(before);
      var e := dump[|dump| - 1];
      assert e.0 !in KeysOf(before);
      assert ToMap(dump) + m == if e.0 in m then ToMap(before) + m else (ToMap(before) + m)[e.0 := e.1];
    }
  }

  /** A dump in key order, loaded into an empty list, gives back the map it was taken of. */
  lemma DumpRestores(dump: seq<Entry>)
    requires Ordered(dump)
    ensures Loaded(map[], dump) == ToMap(dump)
  {
    OrderedDistinct(dump);
    LoadedOverridden(map[], dump);
    assert ToMap(dump) + map[] == ToMap(dump);
  }
}
