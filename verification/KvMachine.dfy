/** The replicated state machine of KvServer.cpp as a function: a table and, per client, the id of its last
    write. A write whose id is not above its client's last is dropped. */
module KvMachine {
  import opened RaftTypes
  import opened Entries

  datatype State = State(table: map<string, string>, last: map<string, int>)

  const EMPTY := State(map[], map[])

  predicate IsWrite(op: Op) { op.operation == "Put" || op.operation == "Append" }

  predicate Duplicate(last: map<string, int>, clientId: string, requestId: int)
  {
    clientId in last && requestId <= last[clientId]
  }

  /** The table after one write, whether or not it was seen before. */
  function Written(table: map<string, string>, op: Op): map<string, string>
  {
    if op.operation == "Append" && op.key in table then table[op.key := table[op.key] + op.value]
    else if IsWrite(op) then table[op.key := op.value]
    else table
  }

  function Applied(s: State, op: Op): State
  {
    if Duplicate(s.last, op.clientId, op.requestId) || !IsWrite(op) then s
    else State(Written(s.table, op), s.last[op.clientId := op.requestId])
  }

  function Run(s: State, ops: seq<Op>): State
  {
    if ops == [] then s else Applied(Run(s, ops[..|ops| - 1]), ops[|ops| - 1])
  }

  // ---------- what a command does ----------

  /** A command has been seen if the server knows an id of its client at least as high. */
  predicate Seen(s: State, op: Op) { op.clientId in s.last && op.requestId <= s.last[op.clientId] }

  /** A new Put sets the key; a new Append puts its value behind the old one, or behind nothing; either registers the
      id. Anything else, and anything seen before, changes nothing. */
  lemma OneCommand(s: State, op: Op)
    ensures op.operation == "Put" && !Seen(s, op) ==>
      Applied(s, op) == State(s.table[op.key := op.value], s.last[op.clientId := op.requestId])
    ensures op.operation == "Append" && !Seen(s, op) ==>
      var had := if op.key in s.table then s.table[op.key] else "";
      Applied(s, op) == State(s.table[op.key := had + op.value], s.last[op.clientId := op.requestId])
    ensures Seen(s, op) || op.operation !in {"Put", "Append"} ==> Applied(s, op) == s
  {
    if op.operation == "Append" && op.key !in s.table {
      assert "" + op.value == op.value;
    }
  }

  /** The values the writes from position `from` on append to a key, one behind the other. */
  function AppendedTo(kept: seq<Op>, key: string, from: nat): string
    requires from <= |kept|
    decreases |kept|
  {
    if from == |kept| then ""
    else
      var op := kept[|kept| - 1];
      AppendedTo(kept[..|kept| - 1], key, from) + if op.operation == "Append" && op.key == key then op.value else ""
  }

  predicate PutsOn(op: Op, key: string) { op.operation == "Put" && op.key == key }

  /** No write from position `from` on puts the key. */
  predicate NoPut(kept: seq<Op>, key: string, from: nat)
  {
    forall k | from <= k < |kept| :: !PutsOn(kept[k], key)
  }

  /** The value of a key in the table: what the last of the kept writes to put it gave it, or else what it started with,
      and behind it what the kept appends since have added, in order. It is there exactly if it was, or if one of them
      wrote it. */
  ghost predicate Explained(s: State, kept: seq<Op>, table: map<string, string>, key: string)
  {
    && (key in table <==> key in s.table || Writes(kept, key))
    && (forall p | 0 <= p < |kept| && PutsOn(kept[p], key) && NoPut(kept, key, p + 1) ::
          key in table && table[key] == kept[p].value + AppendedTo(kept, key, p + 1))
    && (NoPut(kept, key, 0) && key in table ==>
          table[key] == (if key in s.table then s.table[key] else "") + AppendedTo(kept, key, 0))
  }

  ghost predicate Writes(kept: seq<Op>, key: string) { exists k :: 0 <= k < |kept| && kept[k].key == key }

  /** What any commands make of a key, whatever it was. */
  lemma {:induction false} ValueOfKey(s: State, ops: seq<Op>, key: string)
    ensures Explained(s, Effective(s, ops), Run(s, ops).table, key)
  {
    if ops == [] {
      assert key in s.table ==> s.table[key] + "" == s.table[key];
    } else {
      var before, op := ops[..|ops| - 1], ops[|ops| - 1];
      ValueOfKey(s, before, key);
      LastEffective(s, ops);
      OneCommand(Run(s, before), op);
      hide Effective, Run, Applied, Explained;
      if op.operation in {"Put", "Append"} && !Seen(Run(s, before), op) {
        ValueStep(s, Effective(s, before), Run(s, before).table, op, Run(s, ops).table, key);
      } else {
        assert Effective(s, ops) == Effective(s, before);
      }
    }
  }

  /** The last command joins the effective ones exactly if it is a write that was not seen. */
  lemma LastEffective(s: State, ops: seq<Op>)
    requires ops != []
    ensures var before, op := ops[..|ops| - 1], ops[|ops| - 1];
      && Run(s, ops) == Applied(Run(s, before), op)
      && Effective(s, ops) == Effective(s, before)
           + if op.operation in {"Put", "Append"} && !Seen(Run(s, before), op) then [op] else []
  {
  }

  /** What one more write adds to a key. */
  function Added(op: Op, key: string): string { if op.operation == "Append" && op.key == key then op.value else "" }

  lemma AppendedMore(kept: seq<Op>, op: Op, key: string, p: nat)
    requires p <= |kept|
    ensures AppendedTo(kept + [op], key, p) == AppendedTo(kept, key, p) + Added(op, key)
    ensures NoPut(kept + [op], key, p) <==> NoPut(kept, key, p) && !PutsOn(op, key)
  {
    var now := kept + [op];
    assert now[..|kept|] == kept && now[|kept|] == op;
  }

  lemma WritesMore(kept: seq<Op>, op: Op, key: string)
    ensures Writes(kept + [op], key) <==> Writes(kept, key) || op.key == key
  {
    var now := kept + [op];
    assert now[|kept|] == op;
    if Writes(kept, key) {
      var k :| 0 <= k < |kept| && kept[k].key == key;
      assert now[k].key == key;
    }
  }

  /** One more effective write, and what is in the table then. */
  predicate Wrote(table: map<string, string>, op: Op, table': map<string, string>)
  {
    && op.operation in {"Put", "Append"}
    && table' == table[op.key := if op.operation == "Put" then op.value
                                 else (if op.key in table then table[op.key] else "") + op.value]
  }

  lemma ValueStep(s: State, kept: seq<Op>, table: map<string, string>, op: Op, table': map<string, string>, key: string)
    requires Explained(s, kept, table, key) && Wrote(table, op, table')
    ensures Explained(s, kept + [op], table', key)
  {
    var now := kept + [op];
    WritesMore(kept, op, key);
    forall p | 0 <= p < |now| && PutsOn(now[p], key) && NoPut(now, key, p + 1)
      ensures key in table' && table'[key] == now[p].value + AppendedTo(now, key, p + 1)
    {
      hide AppendedTo, NoPut, Writes;
      if p < |kept| {
        PutBefore(s, kept, table, op, table', key, p);
      } else {
        NoneAfter(now, key);
      }
    }
    if NoPut(now, key, 0) && key in table' {
      hide AppendedTo, NoPut;
      NeverPut(s, kept, table, op, table', key);
    }
  }

  lemma PutBefore(s: State, kept: seq<Op>, table: map<string, string>, op: Op, table': map<string, string>, key: string,
                  p: nat)
    requires Explained(s, kept, table, key) && Wrote(table, op, table')
    requires p < |kept| && PutsOn(kept[p], key) && NoPut(kept + [op], key, p + 1)
    ensures key in table' && table'[key] == kept[p].value + AppendedTo(kept + [op], key, p + 1)
  {
    hide AppendedTo, NoPut, Writes;
    AppendedMore(kept, op, key, p + 1);
    SameKey(table, op, table', key);
  }

  lemma NeverPut(s: State, kept: seq<Op>, table: map<string, string>, op: Op, table': map<string, string>, key: string)
    requires Explained(s, kept, table, key) && Wrote(table, op, table')
    requires NoPut(kept + [op], key, 0) && key in table'
    ensures table'[key] == (if key in s.table then s.table[key] else "") + AppendedTo(kept + [op], key, 0)
  {
    hide AppendedTo, NoPut, Writes;
    AppendedMore(kept, op, key, 0);
    if key in table {
      SameKey(table, op, table', key);
    } else {
      NothingAppended(kept, key, 0);
    }
  }

  lemma NoneAfter(kept: seq<Op>, key: string)
    ensures AppendedTo(kept, key, |kept|) == ""
  {
  }

  /** A write that does not put the key adds to it what it appends. */
  lemma SameKey(table: map<string, string>, op: Op, table': map<string, string>, key: string)
    requires Wrote(table, op, table') && !PutsOn(op, key) && key in table
    ensures key in table' && table'[key] == table[key] + Added(op, key)
  {
  }

  lemma {:induction false} NothingAppended(kept: seq<Op>, key: string, from: nat)
    requires from <= |kept| && !Writes(kept, key)
    ensures AppendedTo(kept, key, from) == ""
    decreases |kept|
  {
    if from < |kept| {
      var before := kept[..|kept| - 1];
      assert forall k | 0 <= k < |before| :: before[k] == kept[k];
      NothingAppended(before, key, from);
      assert kept[|kept| - 1].key != key;
    }
  }

  // ---------- at most once ----------

  /** The writes that take effect, in order. */
  function Effective(s: State, ops: seq<Op>): seq<Op>
  {
    if ops == [] then []
    else
      var before, op := ops[..|ops| - 1], ops[|ops| - 1];
      Effective(s, before) +
      if IsWrite(op) && !Duplicate(Run(s, before).last, op.clientId, op.requestId) then [op] else []
  }

  /** The table after writes that are all carried out. */
  function WriteAll(table: map<string, string>, ops: seq<Op>): map<string, string>
  {
    if ops == [] then table else Written(WriteAll(table, ops[..|ops| - 1]), ops[|ops| - 1])
  }

  /** The machine does to the table what the effective writes do, and nothing else. */
  lemma {:induction false} RunIsEffective(s: State, ops: seq<Op>)
    ensures Run(s, ops).table == WriteAll(s.table, Effective(s, ops))
  {
    if ops != [] {
      var before, op := ops[..|ops| - 1], ops[|ops| - 1];
      RunIsEffective(s, before);
      var kept := Effective(s, before);
      hide Written;
      if IsWrite(op) && !Duplicate(Run(s, before).last, op.clientId, op.requestId) {
        assert Effective(s, ops) == kept + [op];
        WriteAllOne(s.table, kept, op);
      } else {
        assert Effective(s, ops) == kept;
      }
    }
  }

  lemma WriteAllOne(table: map<string, string>, ops: seq<Op>, op: Op)
    ensures WriteAll(table, ops + [op]) == Written(WriteAll(table, ops), op)
  {
    assert (ops + [op])[..|ops|] == ops;
  }

  predicate SameClientWrite(a: Op, b: Op) { IsWrite(a) && a.clientId == b.clientId }

  /** The table of last ids is exact: an id is a duplicate if and only if the start knew one as high for
      that client, or an earlier write of that client had one. */
  lemma {:induction false} DuplicateExactly(s: State, ops: seq<Op>, op: Op)
    ensures Duplicate(Run(s, ops).last, op.clientId, op.requestId) <==>
      || Duplicate(s.last, op.clientId, op.requestId)
      || exists j :: 0 <= j < |ops| && SameClientWrite(ops[j], op) && op.requestId <= ops[j].requestId
  {
    if ops != [] {
      var before, last := ops[..|ops| - 1], ops[|ops| - 1];
      DuplicateExactly(s, before, op);
      DuplicateExactly(s, before, last);
      if Duplicate(Run(s, ops).last, op.clientId, op.requestId)
        && !Duplicate(Run(s, before).last, op.clientId, op.requestId) {
        assert SameClientWrite(ops[|ops| - 1], op) && op.requestId <= ops[|ops| - 1].requestId;
      }
      if j :| 0 <= j < |ops| && SameClientWrite(ops[j], op) && op.requestId <= ops[j].requestId {
        if j < |before| {
          assert before[j] == ops[j];
        }
      }
    }
  }

  ghost predicate Increasing(kept: seq<Op>)
  {
    forall a, b | 0 <= a < b < |kept| && kept[a].clientId == kept[b].clientId :: kept[a].requestId < kept[b].requestId
  }

  predicate Registered(last: map<string, int>, op: Op) { Duplicate(last, op.clientId, op.requestId) }

  /** New to the start, a write of the run, and known at its end. */
  ghost predicate TookEffect(s: State, ops: seq<Op>, op: Op)
  {
    IsWrite(op) && op in ops && !Registered(s.last, op) && Registered(Run(s, ops).last, op)
  }

  /** Effective writes of one client have strictly increasing ids, all above the one it started with: no
      request takes effect twice. */
  lemma {:induction false} AtMostOnce(s: State, ops: seq<Op>)
    ensures Increasing(Effective(s, ops))
    ensures forall a | 0 <= a < |Effective(s, ops)| :: TookEffect(s, ops, Effective(s, ops)[a])
  {
    if ops != [] {
      var before, op := ops[..|ops| - 1], ops[|ops| - 1];
      AtMostOnce(s, before);
      DuplicateExactly(s, before, op);
      LastGrows(Run(s, before), op);
      var kept := Effective(s, before);
      assert ops == before + [op];
      forall a | 0 <= a < |kept| ensures TookEffect(s, ops, kept[a]) {
        assert TookEffect(s, before, kept[a]);
      }
      if IsWrite(op) && !Registered(Run(s, before).last, op) {
        assert Effective(s, ops) == kept + [op];
        assert TookEffect(s, ops, op);
        forall a | 0 <= a < |kept| && kept[a].clientId == op.clientId ensures kept[a].requestId < op.requestId {
          assert TookEffect(s, before, kept[a]);
        }
      } else {
        assert Effective(s, ops) == kept;
      }
    }
  }

  lemma LastGrows(s: State, op: Op)
    ensures forall c, i | Duplicate(s.last, c, i) :: Duplicate(Applied(s, op).last, c, i)
  {
  }

  // ---------- snapshots ----------

  /** What a snapshot carries: the dumped table and the last ids. */
  datatype Image = Image(dump: seq<Entry>, last: map<string, int>)

  predicate ImageOf(s: State, image: Image)
  {
    image.last == s.last && ToMap(image.dump) == s.table
  }

  /** What a server makes of an image it loads: the last ids are replaced, keys it has keep their value. */
  function Restored(s: State, image: Image): State
  {
    State(Loaded(s.table, image.dump), image.last)
  }

  lemma {:induction false} RunAdd(s: State, ops: seq<Op>, more: seq<Op>)
    ensures Run(s, ops + more) == Run(Run(s, ops), more)
  {
    if more == [] {
      assert ops + more == ops;
    } else {
      RunAdd(s, ops, more[..|more| - 1]);
      assert (ops + more)[..|ops + more| - 1] == ops + more[..|more| - 1];
    }
  }

  /** A fresh server that loads the image taken after the first i commands and then applies the rest ends
      up where one that applied them all does. */
  lemma RestoreAndReplay(ops: seq<Op>, i: nat, image: Image)
    requires i <= |ops| && Ordered(image.dump) && ImageOf(Run(EMPTY, ops[..i]), image)
    ensures Run(Restored(EMPTY, image), ops[i..]) == Run(EMPTY, ops)
  {
    DumpRestores(image.dump);
    assert ops == ops[..i] + ops[i..];
    RunAdd(EMPTY, ops[..i], ops[i..]);
  }

  /** A server that already holds a table gets the image's table if and only if all it holds is in the
      image with the same value; otherwise its stale values survive. */
  lemma RestoredExactly(s: State, image: Image)
    requires Ordered(image.dump)
    ensures Restored(s, image).table == ToMap(image.dump) <==>
      forall k | k in s.table :: k in ToMap(image.dump) && s.table[k] == ToMap(image.dump)[k]
  {
    OrderedDistinct(image.dump);
    LoadedOverridden(s.table, image.dump);
    var d := ToMap(image.dump);
    if d + s.table == d {
      forall k | k in s.table ensures k in d && s.table[k] == d[k] {
        assert (d + s.table)[k] == s.table[k];
      }
    }
  }

  // ---------- what a server is handed ----------

  /** What Raft hands its server: a committed command, or a snapshot it has installed. */
  datatype Handed = Command(msg: ApplyMsg) | Load(index: nat, image: Option<Image>)

  /** What the apply thread works on; commands up to `upTo` are covered by a snapshot it has loaded. */
  datatype Progress = Progress(state: State, upTo: nat)

  /** Start-up: from the snapshot on disk if there is one. The index of the snapshot is not read back. */
  function Begun(saved: Option<Image>): Progress
  {
    Progress(if saved.Some? then Restored(EMPTY, saved.value) else EMPTY, 0)
  }

  predicate Executes(p: Progress, h: Handed) { h.Command? && h.msg.index > p.upTo }

  function Handle(p: Progress, h: Handed): Progress
  {
    match h
    case Command(m) => if m.index > p.upTo then p.(state := Applied(p.state, m.command)) else p
    case Load(index, image) => Progress(if image.Some? then Restored(p.state, image.value) else p.state, index)
  }

  function HandleAll(p: Progress, hs: seq<Handed>): Progress
  {
    if hs == [] then p else Handle(HandleAll(p, hs[..|hs| - 1]), hs[|hs| - 1])
  }

  // ---------- when states agree ----------

  /** Commands change nothing if and only if none of them takes effect. */
  lemma UnchangedExactly(s: State, ops: seq<Op>)
    ensures Run(s, ops) == s <==> Effective(s, ops) == []
  {
    if Effective(s, ops) == [] {
      Ineffective(s, ops);
    } else {
      AtMostOnce(s, ops);
      assert TookEffect(s, ops, Effective(s, ops)[0]);
    }
  }

  lemma {:induction false} Ineffective(s: State, ops: seq<Op>)
    requires Effective(s, ops) == []
    ensures Run(s, ops) == s
  {
    if ops != [] {
      Ineffective(s, ops[..|ops| - 1]);
    }
  }

  lemma {:induction false} KeysStay(s: State, ops: seq<Op>)
    ensures s.table.Keys <= Run(s, ops).table.Keys
  {
    if ops != [] {
      KeysStay(s, ops[..|ops| - 1]);
    }
  }

  /** An image of a later state, loaded, gives that state if and only if every pair held is in the image. */
  lemma LoadAhead(s: State, later: State, image: Image)
    requires Ordered(image.dump) && ImageOf(later, image)
    ensures Restored(s, image) == later <==> forall k | k in s.table :: k in later.table && s.table[k] == later.table[k]
  {
    RestoredExactly(s, image);
  }

  /** An image of an earlier state, loaded, changes no value and takes the ids back: the state stays if and
      only if the ids have not moved since. */
  lemma LoadBehind(earlier: State, ops: seq<Op>, image: Image)
    requires Ordered(image.dump) && ImageOf(earlier, image)
    ensures var s := Run(earlier, ops);
      && Restored(s, image) == State(s.table, earlier.last)
      && (Restored(s, image) == s <==> earlier.last == s.last)
  {
    var s := Run(earlier, ops);
    KeysStay(earlier, ops);
    OrderedDistinct(image.dump);
    LoadedOverridden(s.table, image.dump);
    assert ToMap(image.dump) + s.table == s.table;
  }
}
