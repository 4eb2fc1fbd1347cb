/** When a server is in the state that the log says, and which messages keep it there. */
module ServerStates {
  import opened RaftTypes
  import opened RaftNode
  import opened RaftCluster
  import opened LogAlgebra
  import opened Shadows
  import opened Entries
  import opened KvMachine
  import opened Services

  // ---------- states and images of a log ----------

  /** The commands of a log. */
  function Ops(log: Log): seq<Op> { seq(|log|, i requires 0 <= i < |log| => log[i].command) }

  /** The state after the first k commands of the log. */
  function StateOf(log: Log, k: nat): State
    requires k <= |log|
  {
    Run(EMPTY, Ops(log[..k]))
  }

  ghost predicate ImageAt(image: Image, log: Log, index: nat)
  {
    index <= |log| && Ordered(image.dump) && ImageOf(StateOf(log, index), image)
  }

  lemma OpsSplit(log: Log, a: nat, b: nat)
    requires a <= b <= |log|
    ensures Ops(log[..b]) == Ops(log[..a]) + Ops(log[a..b])
    ensures StateOf(log, b) == Run(StateOf(log, a), Ops(log[a..b]))
  {
    assert Ops(log[..b]) == Ops(log[..a]) + Ops(log[a..b]);
    RunAdd(EMPTY, Ops(log[..a]), Ops(log[a..b]));
  }

  lemma OneMore(log: Log, k: nat)
    requires 1 <= k <= |log|
    ensures StateOf(log, k) == Applied(StateOf(log, k - 1), log[k - 1].command)
  {
    assert Ops(log[..k])[..k - 1] == Ops(log[..k - 1]);
  }

  lemma SameStates(log: Log, log': Log, x: nat)
    requires x <= |log| && x <= |log'| && log[..x] == log'[..x]
    ensures forall k: nat | k <= x :: StateOf(log', k) == StateOf(log, k)
  {
    forall k: nat | k <= x ensures StateOf(log', k) == StateOf(log, k) {
      assert log'[..k] == log[..x][..k] == log[..k];
    }
  }

  /** Nothing between the two indices takes effect. */
  ghost predicate Idle(log: Log, a: nat, b: nat)
    requires a <= |log| && b <= |log|
  {
    var lo, hi := if a <= b then a else b, if a <= b then b else a;
    Effective(StateOf(log, lo), Ops(log[lo..hi])) == []
  }

  lemma IdleExactly(log: Log, a: nat, b: nat)
    requires a <= |log| && b <= |log|
    ensures Idle(log, a, b) <==> StateOf(log, a) == StateOf(log, b)
  {
    var lo, hi := if a <= b then a else b, if a <= b then b else a;
    OpsSplit(log, lo, hi);
    UnchangedExactly(StateOf(log, lo), Ops(log[lo..hi]));
  }

  // ---------- servers in the right state ----------

  ghost predicate Right(s: Service, sh: Shadow)
  {
    && |s.servers| == |s.c.nodes| == |sh.full.nodes|
    && (forall i | 0 <= i < |s.servers| :: RightServer(s.servers[i], s.c.nodes[i], sh.full.nodes[i].log))
    && ParcelsRight(s.c.sn.installs, s.parcels, sh.payloads)
  }

  ghost predicate RightServer(v: Server, n: Node, log: Log)
  {
    RightState(v, n, log) && HandedRight(v, n, log) && SavedRight(v.saved, n.snapIndex, log)
  }

  /** The server is in the state of the log up to its position. */
  ghost predicate RightState(v: Server, n: Node, log: Log)
  {
    && v.progress.upTo <= v.position <= n.lastApplied <= |log| && n.snapIndex <= n.lastApplied
    && v.progress.state == StateOf(log, v.position)
  }

  /** What is on its way to the server, or from it to Raft, is the log's. */
  ghost predicate HandedRight(v: Server, n: Node, log: Log)
  {
    && (forall h | h in v.channel :: Genuine(h, n, log))
    && (forall m | m in v.outbox :: Genuine(Command(m), n, log))
    && (forall h | h in v.loads :: Genuine(h, n, log))
    && (v.offer.Some? ==>
      v.offer.value.index <= n.lastApplied && ImageAt(v.offer.value.image, log, v.offer.value.index))
  }

  ghost predicate Genuine(h: Handed, n: Node, log: Log)
  {
    match h
    case Command(m) => 1 <= m.index <= n.lastApplied && m.index <= |log| && log[m.index - 1].command == m.command
    case Load(index, image) => index <= n.snapIndex && image.Some? && ImageAt(image.value, log, index)
  }

  ghost predicate SavedRight(saved: Option<Image>, snapIndex: nat, log: Log)
  {
    if saved.Some? then ImageAt(saved.value, log, snapIndex) else snapIndex == 0
  }

  ghost predicate ParcelsRight(installs: seq<InstallCall>, parcels: seq<Option<Image>>, payloads: seq<Log>)
  {
    && |parcels| == |installs| == |payloads|
    && forall k | 0 <= k < |parcels| :: SavedRight(parcels[k], installs[k].args.snapIndex, payloads[k])
  }

  // ---------- one message ----------

  /** The server does what the log says: it carries out a command on the state of the log in front of it,
      and a snapshot leaves it in the state of the log as far as it has come. */
  ghost predicate Proper(v: Server, h: Handed, log: Log)
  {
    match h
    case Command(m) =>
      Executes(v.progress, h) ==> 1 <= m.index <= |log| && v.progress.state == StateOf(log, m.index - 1)
    case Load(index, image) =>
      Max(v.position, index) <= |log| && Handle(v.progress, h).state == StateOf(log, Max(v.position, index))
  }

  /** What it takes. For a command: nothing between the server's position and the command takes effect, above
      all when it is the next one. For a snapshot further on: every pair the server holds is in it. For one
      the server has passed: no id was registered since. */
  ghost predicate Fits(v: Server, h: Handed, log: Log)
  {
    match h
    case Command(m) =>
      Executes(v.progress, h) ==> 1 <= m.index <= |log| && v.position <= |log| && Idle(log, v.position, m.index - 1)
    case Load(index, image) =>
      image.Some? && if index >= v.position then Holds(image.value, v.progress.state.table)
                     else image.value.last == v.progress.state.last
  }

  /** Every pair of the table is in the image. */
  predicate Holds(image: Image, table: map<string, string>)
  {
    forall k | k in table :: k in ToMap(image.dump) && ToMap(image.dump)[k] == table[k]
  }

  lemma NextFits(v: Server, n: Node, log: Log, m: ApplyMsg)
    requires RightState(v, n, log) && 1 <= m.index <= |log| && m.index == v.position + 1
    ensures Fits(v, Command(m), log)
  {
  }

  /** A message the server does right is exactly one that fits. */
  lemma ProperExactly(v: Server, n: Node, log: Log, h: Handed)
    requires RightState(v, n, log) && Genuine(h, n, log)
    ensures Proper(v, h, log) <==> Fits(v, h, log)
  {
    match h
    case Command(m) => IdleExactly(log, v.position, m.index - 1);
    case Load(index, image) => LoadExactly(v, n, log, index, image.value);
  }

  lemma LoadExactly(v: Server, n: Node, log: Log, index: nat, image: Image)
    requires RightState(v, n, log) && ImageAt(image, log, index)
    ensures Proper(v, Load(index, Some(image)), log) <==> Fits(v, Load(index, Some(image)), log)
  {
    hide StateOf, Restored, Ops;
    if index >= v.position {
      LoadAhead(v.progress.state, StateOf(log, index), image);
    } else {
      OpsSplit(log, index, v.position);
      LoadBehind(StateOf(log, index), Ops(log[index..v.position]), image);
    }
  }

  lemma ServeKeeps(v: Server, n: Node, log: Log, image: Option<Image>)
    requires RightServer(v, n, log) && v.channel != [] && v.offer.None? && Proper(v, v.channel[0], log)
    requires CanShow(v.progress, v.channel[0], image)
    ensures RightServer(AfterServing(v, image), n, log)
  {
    hide StateOf;
    var h := v.channel[0];
    assert Genuine(h, n, log);
    if Executes(v.progress, h) {
      OneMore(log, h.msg.index);
      if h.msg.index <= v.position {
        IdleExactly(log, h.msg.index - 1, v.position);
        FirstIdle(log, h.msg.index - 1, v.position);
      }
    }
  }

  /** Where nothing takes effect, the first command does not either. */
  lemma FirstIdle(log: Log, a: nat, b: nat)
    requires a < b <= |log| && Idle(log, a, b)
    ensures StateOf(log, a + 1) == StateOf(log, a)
  {
    NoneFirst(StateOf(log, a), Ops(log[a..b]), 1);
    assert Ops(log[a..b])[..1] == Ops(log[a..a + 1]);
    IdleExactly(log, a, a + 1);
  }

  lemma {:induction false} NoneFirst(s: State, ops: seq<Op>, k: nat)
    requires Effective(s, ops) == [] && k <= |ops|
    ensures Effective(s, ops[..k]) == []
  {
    if k < |ops| {
      NoneFirst(s, ops[..|ops| - 1], k);
      assert ops[..|ops| - 1][..k] == ops[..k];
    } else {
      assert ops[..k] == ops;
    }
  }
}
