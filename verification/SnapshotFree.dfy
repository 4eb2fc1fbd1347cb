/** Runs in which no node takes a snapshot, clean or not: no assertion ever fails in them, and from any
    point of them a leader left alone with a follower brings it up to date. */
module SnapshotFree {
  import opened RaftTypes
  import opened RaftNode
  import opened NodeInvariants
  import opened RaftCluster
  import E = ElectionSafety
  import T = EntryIdentity
  import R = Commitment
  import opened CleanRuns
  import opened CatchUp

  predicate SnapshotFreeRun(events: seq<Event>)
  {
    forall k | 0 <= k < |events| :: !events[k].TakeSnapshot?
  }

  // ---------- the invariant ----------

  ghost predicate Reaching(c: Cluster)
  {
    Plain(c) && AllLow(c.nodes) && HintsLow(c.re)
  }

  /** Running, and as a leader never past the end of its own log. */
  predicate Low(n: Node)
  {
    n.halted.None? && (n.status == Leader ==> forall p | 0 <= p < |n.nextIndex| :: n.nextIndex[p] <= n.Last() + 1)
  }

  ghost predicate AllLow(nodes: seq<Node>)
  {
    forall i | 0 <= i < |nodes| :: Low(nodes[i])
  }

  /** No refusal points past the end of what the request covered. */
  ghost predicate HintsLow(re: Replication)
  {
    forall k | k in re.replies :: k.round < |re.beats| ==> re.replies[k].updateNext <= re.beats[k.round].last + 1
  }

  // ---------- single nodes ----------

  lemma OwnLow(n: Node, args: VoteArgs, command: Op)
    requires Low(n)
    ensures Low(DoElection(n)) && Low(RequestVote(n, args).0) && Low(Start(n, command))
  {
  }

  lemma RestartLow(n: Node)
    ensures Low(Restart(n))
  {
  }

  lemma CrownLow(n: Node, count: nat, reply: VoteReply)
    requires Low(n) && VoteReplied(n, count, reply).0.halted.None?
    ensures Low(VoteReplied(n, count, reply).0)
  {
  }

  lemma ApplyLow(n: Node)
    requires n.Valid() && Low(n)
    ensures Low(ApplyLogs(n).0)
  {
  }

  lemma AppendLow(n: Node, args: AppendArgs)
    requires Low(n) && AppendEntries(n, args).0.halted.None?
    ensures Low(AppendEntries(n, args).0)
  {
  }

  lemma AnswerLow(n: Node, p: nat, args: AppendArgs, count: nat, reply: AppendReply)
    requires n.Valid() && Low(n) && p < n.peers && args.End() <= n.Last()
    requires n.status == Leader && reply.term == n.term ==> reply.updateNext <= n.Last() + 1
    ensures Low(AppendReplied(n, p, args, count, reply).0)
  {
  }

  lemma HintLow(n: Node, args: AppendArgs)
    requires n.Valid() && n.snapIndex == 0
    ensures AppendEntries(n, args).1.updateNext <= args.prevIndex + 1
  {
    var m := Followed(n, args);
    if args.prevIndex <= n.Last() {
      BackOffBounds(m, args.prevIndex, m.TermAt(args.prevIndex), args.prevIndex);
    }
  }

  lemma OneLow(nodes: seq<Node>, i: nat, n: Node)
    requires AllLow(nodes) && i < |nodes| && Low(n)
    ensures AllLow(nodes[i := n])
  {
  }

  // ---------- all steps ----------

  lemma ElectionStepLow(c: Cluster, e: Event)
    requires Wf(c) && E.Elected(c) && AllLow(c.nodes)
      && (e.Elect? || e.DeliverVote? || e.VoteAnswered? || e.ClientStart?)
    ensures AllLow(Step(c, e).nodes) && Step(c, e).re == c.re
  {
    hide Wf, E.Elected, AllLow, Low, DoElection, RequestVote, VoteReplied, Start;
    var noArgs, noOp := VoteArgs(0, 0, 0, 0), Op("", "", "", "", 0);
    match e
    case Elect(i) => if Alive(c, i) {
      LowAt(c.nodes, i);
      OwnLow(c.nodes[i], noArgs, noOp);
      OneLow(c.nodes, i, DoElection(c.nodes[i]));
    }
    case DeliverVote(k) => if CanDeliverVote(c, k) {
      LowAt(c.nodes, k.voter);
      OwnLow(c.nodes[k.voter], c.el.ballots[k.ballot], noOp);
      OneLow(c.nodes, k.voter, RequestVote(c.nodes[k.voter], c.el.ballots[k.ballot]).0);
    }
    case VoteAnswered(k) => if CanHandleVote(c, k) {
      var i, count := k.ballot.candidate, c.el.counts[k.ballot];
      E.VoteAnsweredKeeps(c, k);
      LowAt(c.nodes, i);
      CrownLow(c.nodes[i], count, c.el.replies[k]);
      OneLow(c.nodes, i, VoteReplied(c.nodes[i], count, c.el.replies[k]).0);
    }
    case ClientStart(i, command) => if Alive(c, i) {
      LowAt(c.nodes, i);
      OwnLow(c.nodes[i], noArgs, command);
      OneLow(c.nodes, i, Start(c.nodes[i], command));
    }
  }

  lemma LowAt(nodes: seq<Node>, i: nat)
    requires AllLow(nodes) && i < |nodes|
    ensures Low(nodes[i])
  {
  }

  lemma HeartBeatLow(c: Cluster, i: nat)
    requires Wf(c) && R.Replicating(c) && Reaching(c) && Alive(c, i)
    ensures AllLow(HeartBeatStep(c, i).nodes) && HintsLow(HeartBeatStep(c, i).re)
  {
    var n := c.nodes[i];
    if n.status == Leader {
      assert R.Steady(n) && Low(n) && Sound(n);
      NoBeatFault(n, 0);
      var b := BeatOf(n);
      hide *;
      BeatShape(c, i, b);
      MoreBeats(c.re, HeartBeatStep(c, i).re, b);
    }
  }

  lemma BeatShape(c: Cluster, i: nat, b: Beat)
    requires Wf(c) && Alive(c, i) && c.nodes[i].status == Leader && FirstBeatFault(c.nodes[i], 0).None?
    requires b == BeatOf(c.nodes[i])
    ensures var c' := HeartBeatStep(c, i);
      c'.nodes == c.nodes && c'.re.beats == c.re.beats + [b] && c'.re.replies == c.re.replies
  {
    hide WfVotes, WfBeats, WfInstalls, FirstBeatFault, BeatOf;
  }

  lemma MoreBeats(re: Replication, re': Replication, b: Beat)
    requires HintsLow(re) && re'.beats == re.beats + [b] && re'.replies == re.replies
    requires forall k | k in re.replies :: k.round < |re.beats|
    ensures HintsLow(re')
  {
  }

  lemma DeliverAppendLow(c: Cluster, k: AppendKey)
    requires Wf(c) && T.Traced(c) && Reaching(c) && CanDeliverAppend(c, k)
    ensures AllLow(DeliverAppendStep(c, k).nodes) && HintsLow(DeliverAppendStep(c, k).re)
  {
    hide T.Traced, WfVotes, WfInstalls, Contiguous, Node.Durable, AppendEntries, AllLow, Low;
    var n, args := c.nodes[k.peer], c.re.beats[k.round].sent[k.peer];
    assert WfBeat(c.nodes, c.re.beats[k.round]);
    T.DeliverAppendKeeps(c, k);
    LowAt(c.nodes, k.peer);
    AppendLow(n, args);
    HintLow(n, args);
    OneLow(c.nodes, k.peer, AppendEntries(n, args).0);
  }

  lemma AppendAnsweredLow(c: Cluster, k: AppendKey)
    requires Wf(c) && Reaching(c) && CanHandleAppend(c, k)
    ensures AllLow(AppendAnsweredStep(c, k).nodes) && HintsLow(AppendAnsweredStep(c, k).re)
  {
    hide WfVotes, WfInstalls, Contiguous, Node.Durable, AppendReplied, AllLow, Low;
    var b := c.re.beats[k.round];
    assert WfBeat(c.nodes, b);
    var n := c.nodes[b.leader];
    LowAt(c.nodes, b.leader);
    AnswerLow(n, k.peer, b.sent[k.peer], c.re.counts[k.round], c.re.replies[k]);
    OneLow(c.nodes, b.leader, AppendReplied(n, k.peer, b.sent[k.peer], c.re.counts[k.round], c.re.replies[k]).0);
  }

  lemma OtherStepLow(c: Cluster, e: Event)
    requires Wf(c) && Reaching(c) && (e.SendSnapshot? || e.DeliverInstall? || e.InstallAnswered? || e.Apply?
      || e.Crash?)
    ensures AllLow(Step(c, e).nodes) && HintsLow(Step(c, e).re)
  {
    hide WfVotes, WfBeats, WfInstalls, Contiguous, Node.Durable, ApplyLogs, Restart, AllLow, Low;
    match e
    case SendSnapshot(i, p) =>
    case DeliverInstall(k) => assert !CanDeliverInstall(c, k);
    case InstallAnswered(k) => assert !CanHandleInstall(c, k);
    case Apply(i) => if Alive(c, i) {
      LowAt(c.nodes, i);
      ApplyLow(c.nodes[i]);
      OneLow(c.nodes, i, ApplyLogs(c.nodes[i]).0);
    }
    case Crash(i) => if i < |c.nodes| {
      RestartLow(c.nodes[i]);
      OneLow(c.nodes, i, Restart(c.nodes[i]));
    }
  }

  lemma StepKeepsReaching(c: Cluster, e: Event)
    requires Wf(c) && E.Elected(c) && T.Traced(c) && R.Replicating(c) && Reaching(c) && !e.TakeSnapshot?
    ensures Reaching(Step(c, e))
  {
    hide Wf, E.Elected, T.Traced, R.Replicating, Plain, AllLow, HintsLow, AllSame;
    StepKeepsPlain(c, e);
    if e.HeartBeat? {
      if Alive(c, e.i) { HeartBeatLow(c, e.i); }
    } else if e.DeliverAppend? {
      if CanDeliverAppend(c, e.append) { DeliverAppendLow(c, e.append); }
    } else if e.AppendAnswered? {
      if CanHandleAppend(c, e.append) { AppendAnsweredLow(c, e.append); }
    } else if e.Elect? || e.DeliverVote? || e.VoteAnswered? || e.ClientStart? {
      ElectionStepLow(c, e);
    } else {
      OtherStepLow(c, e);
    }
  }

  lemma {:induction false} RunReaching(n: nat, events: seq<Event>)
    requires SnapshotFreeRun(events)
    ensures Reaching(Exec(Init(n), events))
  {
    if events == [] {
    } else {
      hide Wf, E.Elected, T.Traced, R.Replicating, Reaching, Step, Init;
      var before := events[..|events| - 1];
      RunReaching(n, before);
      E.RunElected(n, before);
      T.RunTraced(n, before);
      R.RunReplicating(n, before);
      StepKeepsReaching(Exec(Init(n), before), events[|events| - 1]);
    }
  }

  lemma AtReaching(n: nat, events: seq<Event>, k: nat)
    requires k <= |events| && SnapshotFreeRun(events)
    ensures Reaching(At(n, events, k))
  {
    RunReaching(n, events[..k]);
  }

  /** Without snapshots no assertion of any node ever fails, so no node ever dies of one. */
  lemma NoAssertionFails(n: nat, events: seq<Event>, k: nat, i: nat)
    requires k <= |events| && SnapshotFreeRun(events) && i < n
    ensures At(n, events, k).nodes[i].halted.None?
  {
    hide At, Wf;
    AtReaching(n, events, k);
    assert Low(At(n, events, k).nodes[i]);
  }

  /** Stop the run anywhere and leave a leader alone with one follower of no newer term: heartbeats
      bring the follower to the leader's last entry in nextIndex + 2 rounds. */
  lemma FollowersCatchUp(n: nat, events: seq<Event>, k: nat, i: nat, j: nat, counts: seq<nat>)
    requires k <= |events| && SnapshotFreeRun(events) && i < n && j < n && i != j
    requires At(n, events, k).nodes[i].status == Leader
    requires At(n, events, k).nodes[j].term <= At(n, events, k).nodes[i].term
    ensures var s := Pair(At(n, events, k).nodes[i], At(n, events, k).nodes[j]);
      s.follower.id < |s.leader.nextIndex| && (|counts| >= s.Next() + 2 ==> InStep(Rounds(s, counts)))
  {
    hide At, InStep, Rounds, Wf, T.Traced, R.Replicating, Reaching, SnapshotFreeRun;
    var c := At(n, events, k);
    AtReaching(n, events, k);
    T.AtTraced(n, events, k);
    R.AtReplicating(n, events, k);
    ReadyToCatchUp(c, i, j);
    if |counts| >= Pair(c.nodes[i], c.nodes[j]).Next() + 2 {
      CatchesUp(Pair(c.nodes[i], c.nodes[j]), counts, c.past.created);
    }
  }

  lemma ReadyToCatchUp(c: Cluster, i: nat, j: nat)
    requires Wf(c) && T.Traced(c) && R.Replicating(c) && Reaching(c)
    requires i < |c.nodes| && j < |c.nodes| && i != j && c.nodes[i].status == Leader
    requires c.nodes[j].term <= c.nodes[i].term
    ensures var s := Pair(c.nodes[i], c.nodes[j]);
      && s.follower.id < |s.leader.nextIndex| && Still(s, c.past.created) && AgreeAtBoundary(s)
  {
    assert Sound(c.nodes[i]) && Sound(c.nodes[j]) && Low(c.nodes[i]) && Low(c.nodes[j]) && R.Steady(c.nodes[i]);
  }
}
