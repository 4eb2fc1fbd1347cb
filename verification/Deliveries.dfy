/** What the nodes hand to their state machines, in every run, clean or not: between two starts a node
    delivers indices in strictly increasing order, leaves out only indices its snapshot covers, and
    delivers only commands that some leader put at that index. */
module Deliveries {
  import opened RaftTypes
  import opened RaftNode
  import opened NodeInvariants
  import opened RaftCluster
  import opened ElectionSafety
  import opened EntryIdentity

  // ---------- the invariant ----------

  ghost predicate Delivering(c: Cluster)
  {
    |c.past.delivered| == |c.nodes|
    && forall i | 0 <= i < |c.nodes| ::
         && Orderly(c.nodes[i], c.past.delivered[i]) && Proposed(c.past.delivered[i], c.past.created)
         && Recorded(c.past.delivered[i], c.past.applied)
  }

  predicate Recorded(given: seq<ApplyMsg>, applied: set<ApplyMsg>) { forall m | m in given :: m in applied }

  /** Everything above the snapshot up to lastApplied was delivered, one after the other, last. */
  ghost predicate Orderly(n: Node, given: seq<ApplyMsg>)
  {
    && n.snapIndex <= n.lastApplied <= Max(n.commitIndex, n.snapIndex)
    && Ascending(given)
    && (given != [] ==> given[|given| - 1].index <= n.lastApplied)
    && EndsWith(given, n.snapIndex, n.lastApplied)
  }

  ghost predicate Ascending(given: seq<ApplyMsg>)
  {
    forall a, b | 0 <= a < b < |given| :: given[a].index < given[b].index
  }

  /** The last messages are those for the indices after `from` up to `to`. */
  ghost predicate EndsWith(given: seq<ApplyMsg>, from: nat, to: nat)
    requires from <= to
  {
    && to - from <= |given|
    && forall a | |given| - (to - from) <= a < |given| :: given[a].index == to - (|given| - 1 - a)
  }

  ghost predicate Proposed(given: seq<ApplyMsg>, created: map<(nat, nat), Op>)
  {
    forall a | 0 <= a < |given| :: WasProposed(given[a], created)
  }

  ghost predicate WasProposed(m: ApplyMsg, created: map<(nat, nat), Op>)
  {
    exists t: nat :: (m.index, t) in created && created[(m.index, t)] == m.command
  }

  // ---------- one node ----------

  /** Only a newer snapshot moves lastApplied, and then no further than itself. */
  predicate Paced(n: Node, n': Node)
  {
    && n.commitIndex <= n'.commitIndex
    && (|| (n'.snapIndex == n.snapIndex && n'.lastApplied == n.lastApplied)
        || (n'.snapIndex > n.snapIndex && n'.lastApplied == Max(n.lastApplied, n'.snapIndex)))
  }

  ghost predicate AllPaced(nodes: seq<Node>, nodes': seq<Node>)
  {
    |nodes'| == |nodes| && forall i | 0 <= i < |nodes| :: Paced(nodes[i], nodes'[i])
  }

  lemma PacedKeeps(n: Node, n': Node, given: seq<ApplyMsg>)
    requires Orderly(n, given) && Paced(n, n')
    ensures Orderly(n', given)
  {
  }

  lemma ApplyKeepsOrder(n: Node, given: seq<ApplyMsg>)
    requires n.Valid() && Orderly(n, given)
    ensures var (n', msgs) := ApplyLogs(n); Orderly(n', given + msgs)
  {
    var (n', msgs) := ApplyLogs(n);
    var all := given + msgs;
    forall a, b | 0 <= a < b < |all| ensures all[a].index < all[b].index {
      assert a < |given| ==> given[a].index <= given[|given| - 1].index;
    }
    forall a | |all| - (n'.lastApplied - n'.snapIndex) <= a < |all|
      ensures all[a].index == n'.lastApplied - (|all| - 1 - a)
    {
      assert a < |given| ==> all[a] == given[a];
    }
  }

  lemma ApplyProposed(n: Node, created: map<(nat, nat), Op>)
    requires n.Valid() && AllKnown(n.log, created)
    ensures Proposed(ApplyLogs(n).1, created)
  {
    var msgs := ApplyLogs(n).1;
    forall a | 0 <= a < |msgs| ensures WasProposed(msgs[a], created) {
      var e := n.log[n.lastApplied + a - n.snapIndex];
      assert Known(e, created) && e.logIndex == msgs[a].index;
      assert (msgs[a].index, e.logTerm) in created;
    }
  }

  // ---------- every step keeps it ----------

  lemma ElectionPaced(n: Node, args: VoteArgs, count: nat, reply: VoteReply, command: Op)
    ensures Paced(n, DoElection(n)) && Paced(n, RequestVote(n, args).0)
    ensures Paced(n, VoteReplied(n, count, reply).0) && Paced(n, Start(n, command))
  {
  }

  lemma HaltPaced(n: Node, a: Assertion)
    ensures Paced(n, n.Halt(a))
  {
  }

  lemma AppendPaced(n: Node, args: AppendArgs)
    requires n.Valid()
    ensures Paced(n, AppendEntries(n, args).0)
  {
  }

  lemma AnswerPaced(n: Node, p: nat, args: AppendArgs, count: nat, reply: AppendReply)
    requires p < |n.nextIndex| == |n.matchIndex|
    ensures Paced(n, AppendReplied(n, p, args, count, reply).0)
  {
  }

  lemma SnapshotPaced(n: Node, index: int, args: InstallArgs)
    requires n.Valid()
    ensures Paced(n, Snapshot(n, index)) && Paced(n, InstallSnapshot(n, args).0)
  {
  }

  lemma SnapshotAnswerPaced(n: Node, p: nat, args: InstallArgs, replyTerm: nat)
    requires p < |n.nextIndex| == |n.matchIndex|
    ensures Paced(n, SnapshotReplied(n, p, args, replyTerm))
  {
  }

  lemma OnePaced(nodes: seq<Node>, i: nat, n: Node)
    requires i < |nodes| && Paced(nodes[i], n)
    ensures AllPaced(nodes, nodes[i := n])
  {
  }

  lemma NonePaced(nodes: seq<Node>)
    ensures AllPaced(nodes, nodes)
  {
  }

  predicate SameGiven(c: Cluster, c': Cluster)
  {
    c'.past.delivered == c.past.delivered && c'.past.applied == c.past.applied
  }

  lemma StepPaced(c: Cluster, e: Event)
    requires Wf(c) && !e.Apply? && !e.Crash?
    ensures AllPaced(c.nodes, Step(c, e).nodes) && SameGiven(c, Step(c, e))
  {
    if e.Elect? || e.DeliverVote? || e.VoteAnswered? || e.ClientStart? {
      ElectionStepPaced(c, e);
    } else if e.HeartBeat? || e.DeliverAppend? || e.AppendAnswered? {
      ReplicationStepPaced(c, e);
    } else {
      SnapshotStepPaced(c, e);
    }
  }

  lemma ElectionStepPaced(c: Cluster, e: Event)
    requires Wf(c) && (e.Elect? || e.DeliverVote? || e.VoteAnswered? || e.ClientStart?)
    ensures AllPaced(c.nodes, Step(c, e).nodes) && SameGiven(c, Step(c, e))
  {
    hide Wf, Paced, AllPaced, DoElection, RequestVote, VoteReplied, Start;
    var noArgs, noReply, noOp := VoteArgs(0, 0, 0, 0), VoteReply(0, false, Normal), Op("", "", "", "", 0);
    NonePaced(c.nodes);
    match e
    case Elect(i) => if Alive(c, i) {
      ElectionPaced(c.nodes[i], noArgs, 0, noReply, noOp);
      OnePaced(c.nodes, i, DoElection(c.nodes[i]));
    }
    case DeliverVote(k) => if CanDeliverVote(c, k) {
      ElectionPaced(c.nodes[k.voter], c.el.ballots[k.ballot], 0, noReply, noOp);
      OnePaced(c.nodes, k.voter, RequestVote(c.nodes[k.voter], c.el.ballots[k.ballot]).0);
    }
    case VoteAnswered(k) => if CanHandleVote(c, k) {
      var i, count := k.ballot.candidate, c.el.counts[k.ballot];
      ElectionPaced(c.nodes[i], noArgs, count, c.el.replies[k], noOp);
      OnePaced(c.nodes, i, VoteReplied(c.nodes[i], count, c.el.replies[k]).0);
    }
    case ClientStart(i, command) => if Alive(c, i) {
      ElectionPaced(c.nodes[i], noArgs, 0, noReply, command);
      OnePaced(c.nodes, i, Start(c.nodes[i], command));
    }
  }

  lemma ReplicationStepPaced(c: Cluster, e: Event)
    requires Wf(c) && (e.HeartBeat? || e.DeliverAppend? || e.AppendAnswered?)
    ensures AllPaced(c.nodes, Step(c, e).nodes) && SameGiven(c, Step(c, e))
  {
    hide WfVotes, WfBeats, WfInstalls, Paced, AllPaced, AppendEntries, AppendReplied, FirstBeatFault, Keeps, NoCoup;
    hide Contiguous, Node.Durable;
    hide AllKeep, NoCoups, AllTrim, AllSame;
    NonePaced(c.nodes);
    match e
    case HeartBeat(i) => if Alive(c, i) && FirstBeatFault(c.nodes[i], 0).Some? {
      var a := FirstBeatFault(c.nodes[i], 0).value;
      HaltPaced(c.nodes[i], a);
      OnePaced(c.nodes, i, c.nodes[i].Halt(a));
    }
    case DeliverAppend(k) => if CanDeliverAppend(c, k) {
      DeliverAppendMoves(c, k);
      AppendPaced(c.nodes[k.peer], c.re.beats[k.round].sent[k.peer]);
      OnePaced(c.nodes, k.peer, AppendEntries(c.nodes[k.peer], c.re.beats[k.round].sent[k.peer]).0);
    }
    case AppendAnswered(k) => if CanHandleAppend(c, k) {
      AppendAnsweredMoves(c, k);
      var b := c.re.beats[k.round];
      AnswerPaced(c.nodes[b.leader], k.peer, b.sent[k.peer], c.re.counts[k.round], c.re.replies[k]);
      OnePaced(c.nodes, b.leader,
               AppendReplied(c.nodes[b.leader], k.peer, b.sent[k.peer], c.re.counts[k.round], c.re.replies[k]).0);
    }
  }

  lemma SnapshotStepPaced(c: Cluster, e: Event)
    requires Wf(c) && (e.TakeSnapshot? || e.SendSnapshot? || e.DeliverInstall? || e.InstallAnswered?)
    ensures AllPaced(c.nodes, Step(c, e).nodes) && SameGiven(c, Step(c, e))
  {
    hide WfVotes, WfBeats, Paced, AllPaced, Snapshot, InstallSnapshot, SnapshotReplied, Contiguous, Node.Durable;
    NonePaced(c.nodes);
    match e
    case TakeSnapshot(i, index) => if Alive(c, i) {
      SnapshotPaced(c.nodes[i], index, InstallArgs(0, 0, 0, 0));
      OnePaced(c.nodes, i, Snapshot(c.nodes[i], index));
    }
    case SendSnapshot(i, p) =>
    case DeliverInstall(k) => if CanDeliverInstall(c, k) {
      var call := c.sn.installs[k];
      SnapshotPaced(c.nodes[call.peer], 0, call.args);
      OnePaced(c.nodes, call.peer, InstallSnapshot(c.nodes[call.peer], call.args).0);
    }
    case InstallAnswered(k) => if CanHandleInstall(c, k) {
      var call := c.sn.installs[k];
      SnapshotAnswerPaced(c.nodes[call.sender], call.peer, call.args, c.sn.replies[k]);
      OnePaced(c.nodes, call.sender, SnapshotReplied(c.nodes[call.sender], call.peer, call.args, c.sn.replies[k]));
    }
  }

  lemma PacedQuiet(c: Cluster, c': Cluster)
    requires Delivering(c) && AllPaced(c.nodes, c'.nodes) && SameGiven(c, c')
    requires CreatedGrow(c.past.created, c'.past.created)
    ensures Delivering(c')
  {
    hide Orderly, Proposed, Paced, CreatedGrow, Recorded;
    forall i | 0 <= i < |c'.nodes| ensures Orderly(c'.nodes[i], c'.past.delivered[i]) {
      PacedKeeps(c.nodes[i], c'.nodes[i], c.past.delivered[i]);
    }
    forall i | 0 <= i < |c'.nodes| ensures Proposed(c'.past.delivered[i], c'.past.created) {
      ProposedGrow(c.past.delivered[i], c.past.created, c'.past.created);
    }
  }

  lemma ProposedGrow(given: seq<ApplyMsg>, created: map<(nat, nat), Op>, created': map<(nat, nat), Op>)
    requires Proposed(given, created) && CreatedGrow(created, created')
    ensures Proposed(given, created')
  {
    forall a | 0 <= a < |given| ensures WasProposed(given[a], created') {
      assert WasProposed(given[a], created);
      var t: nat :| (given[a].index, t) in created && created[(given[a].index, t)] == given[a].command;
      assert (given[a].index, t) in created';
    }
  }

  lemma ApplyStepKeeps(c: Cluster, i: nat)
    requires Wf(c) && Traced(c) && Delivering(c) && Alive(c, i)
    ensures Delivering(ApplyStep(c, i))
  {
    hide Orderly, Proposed, ApplyLogs, WfVotes, WfBeats, WfInstalls, Origins, BeatsKnown, AllKnown, Contiguous;
    var n, given := c.nodes[i], c.past.delivered[i];
    ApplyKeepsOrder(n, given);
    ApplyProposed(n, c.past.created);
    ProposedJoin(given, ApplyLogs(n).1, c.past.created);
  }

  lemma ProposedJoin(given: seq<ApplyMsg>, msgs: seq<ApplyMsg>, created: map<(nat, nat), Op>)
    requires Proposed(given, created) && Proposed(msgs, created)
    ensures Proposed(given + msgs, created)
  {
    hide WasProposed;
  }

  lemma StepKeepsDelivering(c: Cluster, e: Event)
    requires Wf(c) && Elected(c) && Traced(c) && Delivering(c)
    ensures Delivering(Step(c, e))
  {
    hide Wf, Elected, Traced, Orderly, Proposed, AllPaced, CreatedGrow;
    match e
    case Apply(i) => if Alive(c, i) { ApplyStepKeeps(c, i); }
    case Crash(i) => if i < |c.nodes| { CrashStepKeeps(c, i); }
    case _ =>
      hide Step, Delivering;
      StepPaced(c, e);
      StepKeepsTraced(c, e);
      PacedQuiet(c, Step(c, e));
  }

  lemma CrashStepKeeps(c: Cluster, i: nat)
    requires Wf(c) && Delivering(c) && i < |c.nodes|
    ensures Delivering(CrashStep(c, i))
  {
    assert Orderly(Restart(c.nodes[i]), []) && Proposed([], c.past.created);
  }

  lemma {:induction false} RunDelivering(n: nat, events: seq<Event>)
    ensures Delivering(Exec(Init(n), events))
  {
    if events == [] {
    } else {
      hide Wf, Elected, Traced, Delivering, Step, Init;
      RunDelivering(n, events[..|events| - 1]);
      RunElected(n, events[..|events| - 1]);
      RunTraced(n, events[..|events| - 1]);
      StepKeepsDelivering(Exec(Init(n), events[..|events| - 1]), events[|events| - 1]);
    }
  }

  /** The message for index x was delivered. */
  ghost predicate Given(given: seq<ApplyMsg>, x: nat)
  {
    exists a :: 0 <= a < |given| && given[a].index == x
  }

  /** Neighbouring messages have neighbouring indices, unless a snapshot covers the indices between. */
  ghost predicate GapsCovered(given: seq<ApplyMsg>, snapIndex: nat)
  {
    forall a, b | 0 <= a && b == a + 1 && b < |given| ::
      given[b].index == given[a].index + 1 || given[b].index - 1 <= snapIndex
  }

  /** What node i has delivered since its last start, at any time of any run. */
  lemma DeliveryOrder(n: nat, events: seq<Event>, k: nat, i: nat)
    requires k <= |events| && i < n
    ensures var c := At(n, events, k);
      && |c.past.delivered| == n
      && var given, node := c.past.delivered[i], c.nodes[i];
      && Ascending(given) && GapsCovered(given, node.snapIndex)
      && (forall x | node.snapIndex < x <= node.lastApplied :: Given(given, x))
      && (forall a | 0 <= a < |given| :: given[a].index <= node.lastApplied && WasProposed(given[a], c.past.created))
  {
    hide At, Wf, WasProposed, Given, GapsCovered;
    DeliveringAt(n, events, k, i);
    var c := At(n, events, k);
    NoGaps(c.nodes[i], c.past.delivered[i]);
  }

  lemma DeliveringAt(n: nat, events: seq<Event>, k: nat, i: nat)
    requires k <= |events| && i < n
    ensures var c := At(n, events, k);
      && |c.past.delivered| == n
      && Orderly(c.nodes[i], c.past.delivered[i]) && Proposed(c.past.delivered[i], c.past.created)
      && Recorded(c.past.delivered[i], c.past.applied)
  {
    hide Orderly, Proposed, Recorded, Wf, Exec, Init;
    RunDelivering(n, events[..k]);
  }

  lemma NoGaps(node: Node, given: seq<ApplyMsg>)
    requires Orderly(node, given)
    ensures GapsCovered(given, node.snapIndex)
    ensures forall x | node.snapIndex < x <= node.lastApplied :: Given(given, x)
    ensures forall a | 0 <= a < |given| :: given[a].index <= node.lastApplied
  {
    var from, to, size := node.snapIndex, node.lastApplied, |given|;
    forall a | 0 <= a < size ensures given[a].index <= to {
      assert a < size - 1 ==> given[a].index < given[size - 1].index;
    }
    forall x | from < x <= to ensures Given(given, x) {
      assert given[size - 1 - (to - x)].index == x;
    }
    forall a, b | 0 <= a && b == a + 1 && b < size && given[b].index - 1 > from
      ensures given[b].index == given[a].index + 1
    {
      var x := given[b].index;
      var at := size - 1 - (to - x);
      assert given[at].index == x;
      assert at == b;
    }
  }
}
