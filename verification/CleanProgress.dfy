/** Clean runs make progress: in them no run-time assertion ever fails, snapshots or not, and from any point
    a leader left alone with a follower brings it up to date. */
module CleanProgress {
  import opened RaftTypes
  import opened RaftNode
  import opened NodeInvariants
  import opened RaftCluster
  import opened ElectionSafety
  import opened EntryIdentity
  import opened Commitment
  import opened CleanRuns
  import opened LogAlgebra
  import opened MatchingSteps
  import opened SafetySteps
  import opened FullLogs
  import opened Shadows
  import opened ShadowRuns
  import opened CleanShadows
  import opened Agreement
  import F = SnapshotFree
  import opened CatchUp

  // ---------- the invariant ----------

  ghost predicate Within(c: Cluster, s: Shadow)
  {
    F.AllLow(c.nodes) && HintsFit(c.re, s.full.past.termLogs)
  }

  /** A refusal points at most one past the end of the log of the leader it was sent to. */
  ghost predicate HintsFit(re: Replication, termLogs: map<nat, Log>)
  {
    forall k | k in re.replies && k.round < |re.beats| ::
      re.beats[k.round].term in termLogs && HintFits(re.replies[k], termLogs[re.beats[k.round].term])
  }

  predicate HintFits(reply: AppendReply, log: Log) { reply.updateNext <= |log| + 1 }

  lemma HintsGrow(re: Replication, re': Replication, termLogs: map<nat, Log>, termLogs': map<nat, Log>)
    requires HintsFit(re, termLogs) && Extends(termLogs, termLogs') && re'.replies == re.replies
      && re.beats <= re'.beats
    requires forall k | k in re.replies :: k.round < |re.beats|
    ensures HintsFit(re', termLogs')
  {
    forall k | k in re.replies
      ensures re'.beats[k.round].term in termLogs'
      ensures HintFits(re.replies[k], termLogs'[re'.beats[k.round].term])
    {
      assert re'.beats[k.round] == re.beats[k.round];
    }
  }

  // ---------- refusals ----------

  /** Every entry a node's snapshot stands for is in the log of any leader it answers. */
  lemma SnapshotInLeader(c: Cluster, s: Shadow, i: nat, u: nat)
    requires Wf(c) && Wf(s.full) && Follows(c, s) && Sane(s) && Settled(c, s) && i < |c.nodes|
    requires u in s.full.past.termLogs && c.nodes[i].term <= u
    ensures var n, m, whole := c.nodes[i], s.full.nodes[i], s.full.past.termLogs[u];
      && IsFull(n, m.log) && n.snapIndex <= |m.log| && m.log[..n.snapIndex] <= whole
      && n.snapIndex <= |whole| && TermOf(whole, n.snapIndex) == n.snapTerm
  {
    hide Follows, Elected, Traced, Replicating, Matching, CompletenessSteps.Remembering, Applying, Waiting;
    hide PayloadsBacked, PayloadsKnown, Complete, Shaped, Backed;
    var n, m, d := c.nodes[i], s.full.nodes[i], s.full;
    NodeMirror(c, s, i);
    CommitsComplete(d);
    BackedInLeader(m.log, n.snapIndex, n.disk.term, u, d.re.commits, d.past.electLogs, d.past.termLogs);
    assert n.snapIndex > 0 ==> m.log[..n.snapIndex][n.snapIndex - 1] == d.past.termLogs[u][n.snapIndex - 1];
  }

  lemma HintBound(n: Node, args: AppendArgs)
    requires n.Valid()
    ensures var hint := AppendEntries(n, args).1.updateNext;
      hint <= args.prevIndex + 1 || (hint <= n.snapIndex + 1 && n.term <= args.term)
  {
    var m := Followed(n, args);
    if InWindow(m, args) {
      BackOffBounds(m, args.prevIndex, m.TermAt(args.prevIndex), args.prevIndex);
    }
  }

  lemma RequestWithin(c: Cluster, s: Shadow, k: AppendKey)
    requires Wf(c) && Follows(c, s) && Settled(c, s) && CanDeliverAppend(c, k)
    ensures var b, tl := c.re.beats[k.round], s.full.past.termLogs; var args := b.sent[k.peer];
      && args.term == b.term && b.term in tl && args.prevIndex <= |tl[b.term]|
  {
    hide WfNodes, WfVotes, WfInstalls, Contiguous, NodesMirror, PayloadsFit, HoldersMirror, TermLogsOk, NodesAnchored;
    hide LeadersOnTop, TermsPast, Stood, CandidatesAnchored, Heirs, CompletenessSteps.Remembering, Applying, Waiting;
    hide SnapsBacked, PayloadsBacked;
    SentMirror(c, s, k);
    assert MirrorBeat(c.re.beats[k.round], s.full.re.beats[k.round]);
    assert BeatSliced(s.full.re.beats[k.round], s.full.past.termLogs);
  }

  lemma DeliverAppendWithin(c: Cluster, s: Shadow, k: AppendKey)
    requires Wf(c) && Wf(s.full) && Follows(c, s) && Traced(c) && Sane(s) && Settled(c, s) && Within(c, s)
    requires CanDeliverAppend(c, k)
    ensures F.AllLow(DeliverAppendStep(c, k).nodes)
    ensures HintsFit(DeliverAppendStep(c, k).re, s.full.past.termLogs)
  {
    hide Wf, Traced, Follows, Sane, Settled, AppendEntries, F.Low, F.AllLow;
    var n, b := c.nodes[k.peer], c.re.beats[k.round];
    EntryIdentity.DeliverAppendKeeps(c, k);
    NodeAt(c, k.peer);
    F.LowAt(c.nodes, k.peer);
    F.AppendLow(n, b.sent[k.peer]);
    F.OneLow(c.nodes, k.peer, AppendEntries(n, b.sent[k.peer]).0);
    HintBound(n, b.sent[k.peer]);
    RequestWithin(c, s, k);
    if n.term <= b.term {
      SnapshotInLeader(c, s, k.peer, b.term);
    }
  }

  // ---------- the other steps ----------

  lemma AppendAnsweredWithin(c: Cluster, s: Shadow, k: AppendKey)
    requires Wf(c) && Wf(s.full) && Follows(c, s) && Replicating(c) && Settled(c, s) && Within(c, s)
    requires CanHandleAppend(c, k)
    ensures F.AllLow(AppendAnsweredStep(c, k).nodes)
  {
    hide Wf, Follows, Settled, AppendReplied, F.Low, F.AllLow, Replicating;
    ReplyFacts(c, k);
    var b := c.re.beats[k.round];
    var n := c.nodes[b.leader];
    F.LowAt(c.nodes, b.leader);
    NodeMirror(c, s, b.leader);
    if n.status == Leader {
      LeaderWhole(c, s, b.leader);
    }
    F.AnswerLow(n, k.peer, b.sent[k.peer], c.re.counts[k.round], c.re.replies[k]);
    F.OneLow(c.nodes, b.leader, AppendReplied(n, k.peer, b.sent[k.peer], c.re.counts[k.round], c.re.replies[k]).0);
  }

  lemma LeaderWhole(c: Cluster, s: Shadow, i: nat)
    requires Wf(c) && Wf(s.full) && Follows(c, s) && Settled(c, s) && i < |c.nodes| && c.nodes[i].status == Leader
    ensures var n, tl := c.nodes[i], s.full.past.termLogs;
      n.term in tl && tl[n.term] == s.full.nodes[i].log && |tl[n.term]| == n.Last() && IsFull(n, s.full.nodes[i].log)
  {
    hide Follows, Matching, CompletenessSteps.Remembering, Applying, Waiting, SnapsBacked, PayloadsBacked, Contiguous;
    NodeMirror(c, s, i);
    PlainAt(s.full, i);
  }

  lemma SnapshotLow(n: Node, index: int, args: InstallArgs, p: nat, term: nat)
    requires n.Valid() && F.Low(n)
    ensures F.Low(Snapshot(n, index)) && F.Low(InstallSnapshot(n, args).0)
    ensures p < n.peers && args.snapIndex <= n.Last() ==> F.Low(SnapshotReplied(n, p, args, term))
  {
  }

  lemma OtherStepWithin(c: Cluster, e: Event)
    requires Wf(c) && F.AllLow(c.nodes)
    requires e.TakeSnapshot? || e.SendSnapshot? || e.DeliverInstall? || e.InstallAnswered? || e.Apply? || e.Crash?
    ensures F.AllLow(Step(c, e).nodes)
  {
    hide WfVotes, WfBeats, Contiguous, Node.Durable, ApplyLogs, Restart, F.AllLow, F.Low, Snapshot, InstallSnapshot;
    hide SnapshotReplied;
    var noCall := InstallArgs(0, 0, 0, 0);
    match e
    case TakeSnapshot(i, index) => if Alive(c, i) {
      F.LowAt(c.nodes, i);
      SnapshotLow(c.nodes[i], index, noCall, 0, 0);
      F.OneLow(c.nodes, i, Snapshot(c.nodes[i], index));
    }
    case SendSnapshot(i, p) =>
    case DeliverInstall(k) => if CanDeliverInstall(c, k) {
      var call := c.sn.installs[k];
      F.LowAt(c.nodes, call.peer);
      SnapshotLow(c.nodes[call.peer], 0, call.args, 0, 0);
      F.OneLow(c.nodes, call.peer, InstallSnapshot(c.nodes[call.peer], call.args).0);
    }
    case InstallAnswered(k) => if CanHandleInstall(c, k) {
      var call := c.sn.installs[k];
      F.LowAt(c.nodes, call.sender);
      SnapshotLow(c.nodes[call.sender], 0, call.args, call.peer, c.sn.replies[k]);
      F.OneLow(c.nodes, call.sender, SnapshotReplied(c.nodes[call.sender], call.peer, call.args, c.sn.replies[k]));
    }
    case Apply(i) => if Alive(c, i) {
      F.LowAt(c.nodes, i);
      F.ApplyLow(c.nodes[i]);
      F.OneLow(c.nodes, i, ApplyLogs(c.nodes[i]).0);
    }
    case Crash(i) => if i < |c.nodes| {
      F.RestartLow(c.nodes[i]);
      F.OneLow(c.nodes, i, Restart(c.nodes[i]));
    }
  }

  lemma HeartBeatLow(c: Cluster, i: nat)
    requires Wf(c) && Replicating(c) && F.AllLow(c.nodes) && Alive(c, i)
    ensures F.AllLow(HeartBeatStep(c, i).nodes)
  {
    var n := c.nodes[i];
    if n.status == Leader {
      assert Steady(n) && F.Low(n) && Sound(n);
      NoBeatFault(n, 0);
      hide *;
      SendingWf(c, i);
      Unfaulted(c, i);
    }
  }

  lemma Unfaulted(c: Cluster, i: nat)
    requires Wf(c) && Alive(c, i) && c.nodes[i].status == Leader && c.nodes[i].peers == |c.nodes[i].nextIndex|
    requires FirstBeatFault(c.nodes[i], 0).None?
    ensures HeartBeatStep(c, i).nodes == c.nodes
  {
    hide Wf, FirstBeatFault;
  }

  /** Replies are only added by deliveries, and heartbeats only at the end. */
  lemma RepliesShape(c: Cluster, e: Event)
    requires Wf(c) && !e.DeliverAppend?
    ensures Step(c, e).re.replies == c.re.replies && c.re.beats <= Step(c, e).re.beats
    ensures forall k | k in c.re.replies :: k.round < |c.re.beats|
  {
    hide Wf, AppendReplied, FirstBeatFault, BeatOf;
    RepliesRounds(c);
    if e.HeartBeat? {
      if Alive(c, e.i) { SentShape(c, e.i); }
    } else if e.AppendAnswered? {
      if CanHandleAppend(c, e.append) { AnswerReplies(c, e.append); }
    } else {
      hide Step;
      OtherShape(c, e);
    }
  }

  lemma SentShape(c: Cluster, i: nat)
    requires Wf(c) && Alive(c, i)
    ensures HeartBeatStep(c, i).re.replies == c.re.replies && c.re.beats <= HeartBeatStep(c, i).re.beats
  {
    hide Wf, FirstBeatFault, BeatOf;
    SendingWf(c, i);
    NodeAt(c, i);
  }

  lemma AnswerReplies(c: Cluster, k: AppendKey)
    requires Wf(c) && CanHandleAppend(c, k)
    ensures AppendAnsweredStep(c, k).re.replies == c.re.replies && AppendAnsweredStep(c, k).re.beats == c.re.beats
  {
    hide WfNodes, WfVotes, WfInstalls, AppendReplied;
  }

  lemma StepLow(c: Cluster, s: Shadow, e: Event)
    requires Wf(c) && Wf(s.full) && Follows(c, s) && Elected(c) && Traced(c) && Replicating(c)
    requires Sane(s) && Settled(c, s) && Within(c, s)
    ensures F.AllLow(Step(c, e).nodes)
  {
    hide Wf, Elected, Traced, Replicating, Follows, Sane, Settled, F.AllLow, HintsFit;
    if e.HeartBeat? {
      if Alive(c, e.i) { HeartBeatLow(c, e.i); }
    } else if e.DeliverAppend? {
      if CanDeliverAppend(c, e.append) { DeliverAppendWithin(c, s, e.append); }
    } else if e.AppendAnswered? {
      if CanHandleAppend(c, e.append) { AppendAnsweredWithin(c, s, e.append); }
    } else if e.Elect? || e.DeliverVote? || e.VoteAnswered? || e.ClientStart? {
      F.ElectionStepLow(c, e);
    } else {
      OtherStepWithin(c, e);
    }
  }

  lemma StepHints(c: Cluster, s: Shadow, e: Event)
    requires Wf(c) && Wf(s.full) && Follows(c, s) && Traced(c) && Sane(s) && Settled(c, s) && Within(c, s)
    requires CompletenessSteps.Onward(s.full, ShadowStep(c, s, e).full)
    ensures HintsFit(Step(c, e).re, ShadowStep(c, s, e).full.past.termLogs)
  {
    hide Wf, Traced, Follows, Sane, Settled, F.AllLow, HintsFit, Extends, ShadowStep;
    var tl, tl' := s.full.past.termLogs, ShadowStep(c, s, e).full.past.termLogs;
    if e.DeliverAppend? {
      if CanDeliverAppend(c, e.append) {
        DeliverAppendWithin(c, s, e.append);
        RepliesRounds(DeliverAppendStep(c, e.append)) by { DeliverAppendWf(c, e.append); }
        HintsGrow(DeliverAppendStep(c, e.append).re, DeliverAppendStep(c, e.append).re, tl, tl');
      } else {
        RepliesRounds(c);
        HintsGrow(c.re, c.re, tl, tl');
      }
    } else {
      RepliesShape(c, e);
      HintsGrow(c.re, Step(c, e).re, tl, tl');
    }
  }

  lemma RepliesRounds(c: Cluster)
    requires Wf(c)
    ensures forall k | k in c.re.replies :: k.round < |c.re.beats|
  {
  }

  // ---------- all clean runs ----------

  lemma {:induction false} RunWithin(n: nat, events: seq<Event>)
    requires CleanRun(n, events)
    ensures Within(Exec(Init(n), events), ShadowOf(n, events))
  {
    if events == [] {
    } else {
      hide *;
      var before := events[..|events| - 1];
      CleanLast(n, events);
      RunWithin(n, before);
      RunElected(n, before);
      RunTraced(n, before);
      RunReplicating(n, before);
      RunSane(n, before);
      RunSettled(n, before);
      Last(n, events);
      StepWithin(Exec(Init(n), before), ShadowOf(n, before), events[|events| - 1]);
    }
  }

  lemma Last(n: nat, events: seq<Event>)
    requires events != []
    ensures var before, e := events[..|events| - 1], events[|events| - 1];
      && Exec(Init(n), events) == Step(Exec(Init(n), before), e)
      && ShadowOf(n, events) == ShadowStep(Exec(Init(n), before), ShadowOf(n, before), e)
  {
  }

  lemma StepWithin(c: Cluster, s: Shadow, e: Event)
    requires Wf(c) && Wf(s.full) && Follows(c, s) && Elected(c) && Traced(c) && Replicating(c)
    requires Sane(s) && Settled(c, s) && Within(c, s) && Clean(c, e)
    ensures Within(Step(c, e), ShadowStep(c, s, e))
  {
    StepLow(c, s, e);
    StepKeepsSettled(c, s, e);
    StepHints(c, s, e);
    hide *;
    WithinJoin(Step(c, e), ShadowStep(c, s, e));
  }

  lemma WithinJoin(c: Cluster, s: Shadow)
    requires F.AllLow(c.nodes) && HintsFit(c.re, s.full.past.termLogs)
    ensures Within(c, s)
  {
  }

  lemma AtWithin(n: nat, events: seq<Event>, k: nat)
    requires k <= |events| && CleanRun(n, events)
    ensures Within(At(n, events, k), ShadowAt(n, events, k))
  {
    hide CleanRun, Within, ShadowOf, Follows;
    CleanPrefix(n, events, k);
    RunWithin(n, events[..k]);
  }

  /** In clean runs no assertion of any node ever fails, so no node ever dies of one. */
  lemma NoAssertionFails(n: nat, events: seq<Event>, k: nat, i: nat)
    requires k <= |events| && CleanRun(n, events) && i < n
    ensures At(n, events, k).nodes[i].halted.None?
  {
    hide At, Wf, CleanRun, ShadowAt, Follows, HintsFit;
    AtWithin(n, events, k);
    assert F.Low(At(n, events, k).nodes[i]);
  }

  /** Stop a clean run anywhere and leave a leader alone with one follower of no newer term: heartbeats and
      snapshots bring the follower to the leader's last entry in nextIndex + 2 rounds. */
  lemma FollowersCatchUp(n: nat, events: seq<Event>, k: nat, i: nat, j: nat, counts: seq<nat>)
    requires k <= |events| && CleanRun(n, events) && i < n && j < n && i != j
    requires At(n, events, k).nodes[i].status == Leader
    requires At(n, events, k).nodes[j].term <= At(n, events, k).nodes[i].term
    ensures var s := Pair(At(n, events, k).nodes[i], At(n, events, k).nodes[j]);
      s.follower.id < |s.leader.nextIndex| && (|counts| >= s.Next() + 2 ==> InStep(Rounds(s, counts)))
  {
    hide At, InStep, Rounds, Wf, Traced, Replicating, Within, CleanRun, ShadowAt, Follows, Sane, Settled;
    var c := At(n, events, k);
    AtWithin(n, events, k);
    AtTraced(n, events, k);
    AtReplicating(n, events, k);
    AtSane(n, events, k);
    AtSettled(n, events, k);
    ReadyToCatchUp(c, ShadowAt(n, events, k), i, j);
    if |counts| >= Pair(c.nodes[i], c.nodes[j]).Next() + 2 {
      CatchesUp(Pair(c.nodes[i], c.nodes[j]), counts, c.past.created);
    }
  }

  lemma ReadyToCatchUp(c: Cluster, s: Shadow, i: nat, j: nat)
    requires Wf(c) && Traced(c) && Replicating(c) && Wf(s.full) && Follows(c, s) && Sane(s) && Settled(c, s)
    requires Within(c, s) && i < |c.nodes| && j < |c.nodes| && i != j && c.nodes[i].status == Leader
    requires c.nodes[j].term <= c.nodes[i].term
    ensures var p := Pair(c.nodes[i], c.nodes[j]);
      && p.follower.id < |p.leader.nextIndex| && Still(p, c.past.created) && AgreeAtBoundary(p)
  {
    BothRunning(c, s, i, j);
    hide *;
    BoundaryAgrees(c, s, i, j);
  }

  lemma BothRunning(c: Cluster, s: Shadow, i: nat, j: nat)
    requires Wf(c) && Traced(c) && Replicating(c) && Within(c, s)
    requires i < |c.nodes| && j < |c.nodes| && i != j && c.nodes[i].status == Leader
    requires c.nodes[j].term <= c.nodes[i].term
    ensures var p := Pair(c.nodes[i], c.nodes[j]);
      p.follower.id < |p.leader.nextIndex| && Still(p, c.past.created)
  {
    hide HintsFit;
    assert Sound(c.nodes[i]) && Sound(c.nodes[j]) && F.Low(c.nodes[i]) && F.Low(c.nodes[j]) && Steady(c.nodes[i]);
  }

  lemma BoundaryAgrees(c: Cluster, s: Shadow, i: nat, j: nat)
    requires Wf(c) && Wf(s.full) && Follows(c, s) && Sane(s) && Settled(c, s)
    requires i < |c.nodes| && j < |c.nodes| && c.nodes[i].status == Leader && c.nodes[j].term <= c.nodes[i].term
    ensures AgreeAtBoundary(Pair(c.nodes[i], c.nodes[j]))
  {
    hide Wf, Follows, Sane, Settled;
    NodeAt(c, i);
    NodeMirror(c, s, i);
    LeaderWhole(c, s, i);
    SnapshotInLeader(c, s, j, c.nodes[i].term);
    WholeView(c.nodes[i], s.full.nodes[i].log);
  }
}
