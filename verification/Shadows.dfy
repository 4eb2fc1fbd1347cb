/** A run and its shadow, step by step, in every run, clean or not. The shadow is a cluster in its own
    right: what is proved of steps without snapshots holds of it. */
module Shadows {
  import opened RaftTypes
  import opened RaftNode
  import opened NodeInvariants
  import opened RaftCluster
  import opened LogAlgebra
  import opened FullLogs

  /** The cluster with whole logs, and what each snapshot call carries. */
  datatype Shadow = Shadow(full: Cluster, payloads: seq<Log>)

  // ---------- the relation ----------

  ghost predicate Follows(c: Cluster, s: Shadow)
  {
    && NodesMirror(c.nodes, s.full.nodes)
    && s.full.el == c.el
    && CallsMirror(c.re, s.full.re)
    && s.full.sn == NO_TRANSFERS
    && PayloadsFit(c.sn.installs, s.payloads)
    && s.full.past.created == c.past.created
    && s.full.past.delivered == c.past.delivered && s.full.past.applied == c.past.applied
  }

  const NO_TRANSFERS := Transfers({}, [], map[], {})

  ghost predicate NodesMirror(nodes: seq<Node>, nodes': seq<Node>)
  {
    |nodes'| == |nodes| && forall i | 0 <= i < |nodes| :: Mirror(nodes[i], nodes'[i])
  }

  ghost predicate BeatsMirror(beats: seq<Beat>, beats': seq<Beat>)
  {
    |beats'| == |beats| && forall r | 0 <= r < |beats| :: MirrorBeat(beats[r], beats'[r])
  }

  ghost predicate HoldersMirror(holders: map<AppendKey, Node>, holders': map<AppendKey, Node>)
  {
    holders'.Keys == holders.Keys && forall k | k in holders :: Mirror(holders[k], holders'[k])
  }

  ghost predicate CallsMirror(re: Replication, re': Replication)
  {
    && BeatsMirror(re.beats, re'.beats) && HoldersMirror(re.holders, re'.holders)
    && re'.replies == re.replies && re'.closed == re.closed && re'.counts == re.counts
    && re'.replicas == re.replicas && re'.commits == re.commits
  }

  ghost predicate PayloadsFit(installs: seq<InstallCall>, payloads: seq<Log>)
  {
    |payloads| == |installs| && forall k | 0 <= k < |installs| :: Carries(installs[k].args, payloads[k])
  }

  // ---------- the step ----------

  /** The shadow takes the same step, except where the node looks at its snapshot boundary. There the
      shadow's node becomes the node with the whole log: unchanged, or with the payload in front. */
  ghost function ShadowStep(c: Cluster, s: Shadow, e: Event): Shadow
    requires Wf(c) && Wf(s.full) && Follows(c, s)
  {
    match e
    case DeliverAppend(k) =>
      if !CanDeliverAppend(c, k) then s
      else if Accepts(c.nodes[k.peer], c.re.beats[k.round].sent[k.peer]) then s.(full := Step(s.full, e))
      else s.(full := Refuse(c, s.full, k))
    case TakeSnapshot(i, index) => if Alive(c, i) then s.(full := Turn(c, s.full, e, i, s.full.nodes[i].log)) else s
    case SendSnapshot(i, p) =>
      if Alive(c, i) && (i, p) in c.sn.threads then
        s.(payloads := s.payloads + [s.full.nodes[i].log[..c.nodes[i].snapIndex]])
      else s
    case DeliverInstall(k) => if CanDeliverInstall(c, k) then s.(full := Install(c, s, k)) else s
    case InstallAnswered(k) =>
      if CanHandleInstall(c, k) then
        var i := c.sn.installs[k].sender;
        s.(full := Turn(c, s.full, e, i, s.full.nodes[i].log))
      else s
    case Crash(i) =>
      if i < |c.nodes| then s.(full := Turn(c, Step(s.full, e), e, i, s.full.nodes[i].log)) else s
    case _ => s.(full := Step(s.full, e))
  }

  /** Node i of the shadow becomes what node i of the run becomes, with this log. */
  ghost function Turn(c: Cluster, d: Cluster, e: Event, i: nat, full: Log): Cluster
    requires Wf(c) && i < |c.nodes| == |d.nodes|
  {
    Put(d, i, Unfold(Step(c, e).nodes[i], full))
  }

  ghost function Refuse(c: Cluster, d: Cluster, k: AppendKey): Cluster
    requires Wf(c) && CanDeliverAppend(c, k) && |c.nodes| == |d.nodes|
  {
    var (n', reply) := AppendEntries(c.nodes[k.peer], c.re.beats[k.round].sent[k.peer]);
    Put(d, k.peer, Unfold(n', d.nodes[k.peer].log)).(re := d.re.(replies := d.re.replies[k := reply]))
  }

  ghost function Install(c: Cluster, s: Shadow, k: nat): Cluster
    requires Wf(c) && CanDeliverInstall(c, k) && |c.nodes| == |s.full.nodes| && k < |s.payloads|
  {
    var p, args := c.sn.installs[k].peer, c.sn.installs[k].args;
    Put(s.full, p, Unfold(InstallSnapshot(c.nodes[p], args).0,
                          Installed(c.nodes[p], s.full.nodes[p].log, args, s.payloads[k])))
  }

  // ---------- it stays a shadow ----------

  lemma NodeMirror(c: Cluster, s: Shadow, i: nat)
    requires Wf(c) && Wf(s.full) && Follows(c, s) && i < |c.nodes|
    ensures var n, m := c.nodes[i], s.full.nodes[i];
      && Mirror(n, m) && Sound(n) && Sound(m) && n.peers == m.peers == |c.nodes| == |s.full.nodes| && n.id == m.id == i
      && m.halted == n.halted && m.status == n.status && m.term == n.term && m.disk.term == n.disk.term
  {
  }

  lemma PutMirror(nodes: seq<Node>, nodes': seq<Node>, i: nat, n: Node, m: Node)
    requires NodesMirror(nodes, nodes') && i < |nodes| && Mirror(n, m)
    ensures NodesMirror(nodes[i := n], nodes'[i := m])
  {
    hide Mirror;
  }

  lemma Sizes(c: Cluster, s: Shadow)
    requires Follows(c, s)
    ensures |s.full.nodes| == |c.nodes| && s.full.el == c.el
    ensures CallsMirror(c.re, s.full.re) && NodesMirror(c.nodes, s.full.nodes)
  {
  }

  lemma ElectShadows(c: Cluster, s: Shadow, i: nat)
    requires Wf(c) && Wf(s.full) && Follows(c, s) && Alive(c, i)
    ensures Alive(s.full, i) && Follows(ElectStep(c, i), s.(full := ElectStep(s.full, i)))
  {
    hide Wf, NodesMirror, CallsMirror, PayloadsFit, Mirror, Sound, DoElection;
    NodeMirror(c, s, i);
    ElectionMirror(c.nodes[i], s.full.nodes[i]);
    PutMirror(c.nodes, s.full.nodes, i, DoElection(c.nodes[i]), DoElection(s.full.nodes[i]));
    SameFields(DoElection(c.nodes[i]), DoElection(s.full.nodes[i]));
  }

  lemma DeliverVoteShadows(c: Cluster, s: Shadow, k: VoteKey)
    requires Wf(c) && Wf(s.full) && Follows(c, s) && CanDeliverVote(c, k)
    ensures CanDeliverVote(s.full, k) && Follows(DeliverVoteStep(c, k), s.(full := DeliverVoteStep(s.full, k)))
  {
    hide Wf, NodesMirror, CallsMirror, PayloadsFit, Mirror, Sound, RequestVote;
    var args := c.el.ballots[k.ballot];
    NodeMirror(c, s, k.voter);
    VoteMirror(c.nodes[k.voter], s.full.nodes[k.voter], args);
    PutMirror(c.nodes, s.full.nodes, k.voter, RequestVote(c.nodes[k.voter], args).0,
              RequestVote(s.full.nodes[k.voter], args).0);
  }

  lemma VoteAnsweredShadows(c: Cluster, s: Shadow, k: VoteKey)
    requires Wf(c) && Wf(s.full) && Follows(c, s) && CanHandleVote(c, k)
    ensures CanHandleVote(s.full, k) && Follows(VoteAnsweredStep(c, k), s.(full := VoteAnsweredStep(s.full, k)))
  {
    hide Wf, NodesMirror, CallsMirror, PayloadsFit, Sound, VoteReplied, Mirror;
    var i, count, reply := k.ballot.candidate, c.el.counts[k.ballot], c.el.replies[k];
    NodeMirror(c, s, i);
    VoteReplyMirror(c.nodes[i], s.full.nodes[i], count, reply);
    PutMirror(c.nodes, s.full.nodes, i, VoteReplied(c.nodes[i], count, reply).0,
              VoteReplied(s.full.nodes[i], count, reply).0);
    SameFields(VoteReplied(c.nodes[i], count, reply).0, VoteReplied(s.full.nodes[i], count, reply).0);
  }

  lemma ClientStartShadows(c: Cluster, s: Shadow, i: nat, command: Op)
    requires Wf(c) && Wf(s.full) && Follows(c, s) && Alive(c, i)
    ensures Alive(s.full, i) && Follows(ClientStartStep(c, i, command), s.(full := ClientStartStep(s.full, i, command)))
  {
    hide Wf, NodesMirror, CallsMirror, PayloadsFit, Sound, Start;
    NodeMirror(c, s, i);
    StartMirror(c.nodes[i], s.full.nodes[i], command);
    PutMirror(c.nodes, s.full.nodes, i, Start(c.nodes[i], command), Start(s.full.nodes[i], command));
  }

  // ---------- heartbeats ----------

  lemma SendingShadows(c: Cluster, s: Shadow, i: nat)
    requires Wf(c) && Wf(s.full) && Follows(c, s) && i < |c.nodes|
    ensures Follows(Sending(c, i), s.(full := Sending(s.full, i)))
  {
    hide Wf, NodesMirror, PayloadsFit, Sound, BeatOf, BeatsMirror, HoldersMirror, Mirror;
    var d := s.full;
    Sizes(c, s);
    NodeMirror(c, s, i);
    BeatMirror(c.nodes[i], d.nodes[i]);
    BeatsMirrorMore(c.re.beats, d.re.beats, BeatOf(c.nodes[i]), BeatOf(d.nodes[i]));
    HoldersMirrorMore(c.re.holders, d.re.holders, AppendKey(|c.re.beats|, i), c.nodes[i], d.nodes[i]);
    SameFields(c.nodes[i], d.nodes[i]);
    NoThreads(d.nodes[i]);
  }

  lemma BeatsMirrorMore(beats: seq<Beat>, beats': seq<Beat>, b: Beat, b': Beat)
    requires BeatsMirror(beats, beats') && MirrorBeat(b, b')
    ensures BeatsMirror(beats + [b], beats' + [b']) && |beats'| == |beats|
  {
    hide MirrorBeat;
  }

  lemma HoldersMirrorMore(holders: map<AppendKey, Node>, holders': map<AppendKey, Node>, k: AppendKey, n: Node, m: Node)
    requires HoldersMirror(holders, holders') && Mirror(n, m)
    ensures HoldersMirror(holders[k := n], holders'[k := m])
  {
    hide Mirror;
  }

  lemma NoThreads(m: Node)
    requires m.Valid() && m.snapIndex == 0
    ensures forall p | p in Others(m) && Served(m, p) :: !NeedsSnapshot(m, p)
  {
  }

  lemma HeartBeatShadows(c: Cluster, s: Shadow, i: nat)
    requires Wf(c) && Wf(s.full) && Follows(c, s) && Alive(c, i)
    ensures Alive(s.full, i) && Follows(HeartBeatStep(c, i), s.(full := HeartBeatStep(s.full, i)))
  {
    hide Wf, NodesMirror, CallsMirror, PayloadsFit, Sound, Mirror, Sending, FirstBeatFault;
    NodeMirror(c, s, i);
    var n, m := c.nodes[i], s.full.nodes[i];
    SendingShadows(c, s, i);
    FaultMirror(n, m, 0);
    SendingWf(c, i);
    SendingWf(s.full, i);
    if FirstBeatFault(n, 0).Some? {
      HaltMirror(n, m, FirstBeatFault(n, 0).value);
      PutMirror(c.nodes, s.full.nodes, i, n.Halt(FirstBeatFault(n, 0).value), m.Halt(FirstBeatFault(n, 0).value));
    }
  }

  lemma HaltMirror(n: Node, m: Node, a: Assertion)
    requires Mirror(n, m)
    ensures Mirror(n.Halt(a), m.Halt(a))
  {
  }

  // ---------- requests and replies ----------

  lemma SentMirror(c: Cluster, s: Shadow, k: AppendKey)
    requires Wf(c) && Follows(c, s) && k.round < |c.re.beats| && k.peer in c.re.beats[k.round].sent
    ensures var b := c.re.beats[k.round];
      && k.round < |s.full.re.beats| && k.peer in s.full.re.beats[k.round].sent
      && b.leader == s.full.re.beats[k.round].leader && b.leader < |c.nodes| && k.peer < |c.nodes| && k.peer != b.leader
      && s.full.re.beats[k.round].sent[k.peer] == b.sent[k.peer] && WfRequest(b, b.sent[k.peer])
  {
    hide WfNodes, WfVotes, WfInstalls, WfRequest, HoldersMirror, NodesMirror;
    assert MirrorBeat(c.re.beats[k.round], s.full.re.beats[k.round]);
    assert WfBeat(c.nodes, c.re.beats[k.round]);
  }

  lemma AcceptedShadows(c: Cluster, s: Shadow, k: AppendKey)
    requires Wf(c) && Wf(s.full) && Follows(c, s) && CanDeliverAppend(c, k)
    requires Accepts(c.nodes[k.peer], c.re.beats[k.round].sent[k.peer])
    ensures CanDeliverAppend(s.full, k) && Follows(DeliverAppendStep(c, k), s.(full := DeliverAppendStep(s.full, k)))
  {
    hide Wf, NodesMirror, PayloadsFit, Sound, Mirror, BeatsMirror, HoldersMirror, AppendEntries, Accepts;
    var args := c.re.beats[k.round].sent[k.peer];
    SentMirror(c, s, k);
    NodeMirror(c, s, k.peer);
    var n, m := c.nodes[k.peer], s.full.nodes[k.peer];
    AcceptMirror(n, m, args);
    var n', m' := AppendEntries(n, args).0, AppendEntries(m, args).0;
    PutMirror(c.nodes, s.full.nodes, k.peer, n', m');
    HoldersMirrorMore(c.re.holders, s.full.re.holders, k, n', m');
    SameFields(n', m');
  }

  lemma RefusedShadows(c: Cluster, s: Shadow, k: AppendKey)
    requires Wf(c) && Wf(s.full) && Follows(c, s) && CanDeliverAppend(c, k)
    requires !Accepts(c.nodes[k.peer], c.re.beats[k.round].sent[k.peer])
    ensures Follows(DeliverAppendStep(c, k), s.(full := Refuse(c, s.full, k)))
  {
    hide Wf, NodesMirror, PayloadsFit, Sound, Mirror, BeatsMirror, HoldersMirror, AppendEntries, Accepts;
    var args := c.re.beats[k.round].sent[k.peer];
    NodeMirror(c, s, k.peer);
    var n, m := c.nodes[k.peer], s.full.nodes[k.peer];
    RefuseMirror(n, m, args);
    Refusal(n, args);
    PutMirror(c.nodes, s.full.nodes, k.peer, AppendEntries(n, args).0, Unfold(AppendEntries(n, args).0, m.log));
  }

  lemma Refusal(n: Node, args: AppendArgs)
    requires !Accepts(n, args)
    ensures AppendEntries(n, args).0.halted == n.halted && !AppendEntries(n, args).1.success
  {
  }

  lemma AppendAnsweredShadows(c: Cluster, s: Shadow, k: AppendKey)
    requires Wf(c) && Wf(s.full) && Follows(c, s) && CanHandleAppend(c, k)
    ensures CanHandleAppend(s.full, k) && Follows(AppendAnsweredStep(c, k), s.(full := AppendAnsweredStep(s.full, k)))
  {
    hide Wf, NodesMirror, PayloadsFit, Node.Durable, Contiguous, Mirror, BeatsMirror, HoldersMirror, AppendReplied;
    AnsweredHere(c, k);
    SentMirror(c, s, k);
    var b := c.re.beats[k.round];
    NodeMirror(c, s, b.leader);
    var n, m, count, reply := c.nodes[b.leader], s.full.nodes[b.leader], c.re.counts[k.round], c.re.replies[k];
    AnswerMirror(n, m, k.peer, b.sent[k.peer], count, reply);
    var n' := AppendReplied(n, k.peer, b.sent[k.peer], count, reply).0;
    var m' := AppendReplied(m, k.peer, b.sent[k.peer], count, reply).0;
    PutMirror(c.nodes, s.full.nodes, b.leader, n', m');
    SameFields(n, m);
    SameFields(n', m');
    SentMirrorSizes(c.re, s.full.re);
  }

  lemma SentMirrorSizes(re: Replication, re': Replication)
    requires CallsMirror(re, re')
    ensures |re'.beats| == |re.beats|
  {
  }

  lemma AnsweredHere(c: Cluster, k: AppendKey)
    requires Wf(c) && CanHandleAppend(c, k)
    ensures k.peer in c.re.beats[k.round].sent
  {
  }

  lemma ApplyShadows(c: Cluster, s: Shadow, i: nat)
    requires Wf(c) && Wf(s.full) && Follows(c, s) && Alive(c, i)
    ensures Alive(s.full, i) && Follows(ApplyStep(c, i), s.(full := ApplyStep(s.full, i)))
  {
    hide Wf, NodesMirror, CallsMirror, PayloadsFit, Sound, ApplyLogs, Mirror;
    NodeMirror(c, s, i);
    ApplyMirror(c.nodes[i], s.full.nodes[i]);
    PutMirror(c.nodes, s.full.nodes, i, ApplyLogs(c.nodes[i]).0, ApplyLogs(s.full.nodes[i]).0);
  }

  // ---------- snapshots and crashes ----------

  lemma TakeSnapshotShadows(c: Cluster, s: Shadow, i: nat, index: int)
    requires Wf(c) && Wf(s.full) && Follows(c, s) && Alive(c, i)
    ensures Follows(TakeSnapshotStep(c, i, index), ShadowStep(c, s, TakeSnapshot(i, index)))
  {
    hide Wf, NodesMirror, CallsMirror, PayloadsFit, Sound, Snapshot, Mirror;
    NodeMirror(c, s, i);
    var n, m := c.nodes[i], s.full.nodes[i];
    SnapshotMirror(n, m, index);
    PutMirror(c.nodes, s.full.nodes, i, Snapshot(n, index), Unfold(Snapshot(n, index), m.log));
  }

  lemma SendSnapshotShadows(c: Cluster, s: Shadow, i: nat, p: nat)
    requires Wf(c) && Wf(s.full) && Follows(c, s) && Alive(c, i) && (i, p) in c.sn.threads
    ensures Follows(SendSnapshotStep(c, i, p), ShadowStep(c, s, SendSnapshot(i, p)))
  {
    hide Wf, NodesMirror, CallsMirror, Sound, Mirror;
    NodeMirror(c, s, i);
    PayloadCarried(c.nodes[i], s.full.nodes[i]);
  }

  lemma InstallShadows(c: Cluster, s: Shadow, k: nat)
    requires Wf(c) && Wf(s.full) && Follows(c, s) && CanDeliverInstall(c, k)
    ensures k < |s.payloads| && Follows(DeliverInstallStep(c, k), s.(full := Install(c, s, k)))
  {
    hide WfNodes, WfVotes, WfBeats, NodesMirror, CallsMirror, Sound, Mirror, InstallSnapshot, Installed, Carries;
    var p, args := c.sn.installs[k].peer, c.sn.installs[k].args;
    var n, m := c.nodes[p], s.full.nodes[p];
    NodeMirror(c, s, p);
    InstallMirror(n, m, args, s.payloads[k]);
    PutMirror(c.nodes, s.full.nodes, p, InstallSnapshot(n, args).0,
              Unfold(InstallSnapshot(n, args).0, Installed(n, m.log, args, s.payloads[k])));
  }

  lemma InstallAnsweredShadows(c: Cluster, s: Shadow, k: nat)
    requires Wf(c) && Wf(s.full) && Follows(c, s) && CanHandleInstall(c, k)
    ensures Follows(InstallAnsweredStep(c, k), ShadowStep(c, s, InstallAnswered(k)))
  {
    hide WfNodes, WfVotes, WfBeats, NodesMirror, CallsMirror, Sound, Mirror, SnapshotReplied, PayloadsFit;
    var call := c.sn.installs[k];
    var n, m := c.nodes[call.sender], s.full.nodes[call.sender];
    NodeMirror(c, s, call.sender);
    SnapshotReplyMirror(n, m, call.peer, call.args, c.sn.replies[k]);
    PutMirror(c.nodes, s.full.nodes, call.sender, SnapshotReplied(n, call.peer, call.args, c.sn.replies[k]),
              Unfold(SnapshotReplied(n, call.peer, call.args, c.sn.replies[k]), m.log));
  }

  lemma CrashShadows(c: Cluster, s: Shadow, i: nat)
    requires Wf(c) && Wf(s.full) && Follows(c, s) && i < |c.nodes|
    ensures Follows(CrashStep(c, i), ShadowStep(c, s, Crash(i)))
  {
    hide Wf, NodesMirror, PayloadsFit, Sound, Mirror, BeatsMirror, HoldersMirror, Restart;
    NodeMirror(c, s, i);
    var n, m := c.nodes[i], s.full.nodes[i];
    RestartMirror(n, m);
    PutMirror(c.nodes, s.full.nodes, i, Restart(n), Unfold(Restart(n), m.log));
    CountsMirror(c, s, i);
    var d := CrashStep(s.full, i);
    assert Step(s.full, Crash(i)) == d && Step(c, Crash(i)).nodes[i] == Restart(n);
    assert Turn(c, d, Crash(i), i, m.log).nodes == s.full.nodes[i := Unfold(Restart(n), m.log)];
  }

  lemma CountsMirror(c: Cluster, s: Shadow, i: nat)
    requires Wf(c) && Wf(s.full) && Follows(c, s)
    ensures (map r | r in s.full.re.counts && s.full.re.beats[r].leader != i :: s.full.re.counts[r])
      == (map r | r in c.re.counts && c.re.beats[r].leader != i :: c.re.counts[r])
  {
    hide WfNodes, WfVotes, WfInstalls, NodesMirror, HoldersMirror;
    assert forall r | r in c.re.counts :: MirrorBeat(c.re.beats[r], s.full.re.beats[r]);
  }

  // ---------- all steps ----------

  /** The shadow takes the step itself. */
  predicate Shared(c: Cluster, e: Event)
  {
    match e
    case DeliverAppend(k) => CanDeliverAppend(c, k) && Accepts(c.nodes[k.peer], c.re.beats[k.round].sent[k.peer])
    case TakeSnapshot(i, index) => false
    case SendSnapshot(i, p) => false
    case DeliverInstall(k) => false
    case InstallAnswered(k) => false
    case Crash(i) => false
    case _ => true
  }

  lemma SharedStep(c: Cluster, s: Shadow, e: Event)
    requires Wf(c) && Wf(s.full) && Follows(c, s) && Shared(c, e)
    ensures ShadowStep(c, s, e) == s.(full := Step(s.full, e)) && Follows(Step(c, e), ShadowStep(c, s, e))
  {
    hide Wf, Follows, CanDeliverVote, CanHandleVote, CanDeliverAppend, CanHandleAppend, Accepts;
    Possible(c, s);
    match e
    case Elect(i) => if Alive(c, i) { ElectShadows(c, s, i); }
    case DeliverVote(k) => if CanDeliverVote(c, k) { DeliverVoteShadows(c, s, k); }
    case VoteAnswered(k) => if CanHandleVote(c, k) { VoteAnsweredShadows(c, s, k); }
    case ClientStart(i, command) => if Alive(c, i) { ClientStartShadows(c, s, i, command); }
    case HeartBeat(i) => if Alive(c, i) { HeartBeatShadows(c, s, i); }
    case DeliverAppend(k) => AcceptedShadows(c, s, k);
    case AppendAnswered(k) => if CanHandleAppend(c, k) { AppendAnsweredShadows(c, s, k); }
    case Apply(i) => if Alive(c, i) { ApplyShadows(c, s, i); }
  }

  /** What is possible for the shadow is possible for the run, requests to further peers aside. */
  lemma Possible(c: Cluster, s: Shadow)
    requires Wf(c) && Wf(s.full) && Follows(c, s)
    ensures forall i :: Alive(s.full, i) <==> Alive(c, i)
    ensures forall k :: CanDeliverVote(s.full, k) <==> CanDeliverVote(c, k)
    ensures forall k :: CanHandleVote(s.full, k) <==> CanHandleVote(c, k)
    ensures forall k :: CanHandleAppend(s.full, k) <==> CanHandleAppend(c, k)
  {
    hide Wf, PayloadsFit, HoldersMirror;
    assert forall i | 0 <= i < |c.nodes| :: Mirror(c.nodes[i], s.full.nodes[i]);
    assert forall r | 0 <= r < |c.re.beats| :: MirrorBeat(c.re.beats[r], s.full.re.beats[r]);
  }

  lemma StepShadows(c: Cluster, s: Shadow, e: Event)
    requires Wf(c) && Wf(s.full) && Follows(c, s)
    ensures Follows(Step(c, e), ShadowStep(c, s, e))
  {
    hide Wf, Follows, Accepts;
    if Shared(c, e) {
      SharedStep(c, s, e);
    } else {
      match e
      case DeliverAppend(k) => if CanDeliverAppend(c, k) { RefusedShadows(c, s, k); }
      case TakeSnapshot(i, index) => if Alive(c, i) { TakeSnapshotShadows(c, s, i, index); }
      case SendSnapshot(i, p) => if Alive(c, i) && (i, p) in c.sn.threads { SendSnapshotShadows(c, s, i, p); }
      case DeliverInstall(k) => if CanDeliverInstall(c, k) { InstallShadows(c, s, k); }
      case InstallAnswered(k) => if CanHandleInstall(c, k) { InstallAnsweredShadows(c, s, k); }
      case Crash(i) => if i < |c.nodes| { CrashShadows(c, s, i); }
    }
  }

  /** The steps the shadow does not share leave its requests and what its holders held alone. */
  lemma AsideShape(c: Cluster, s: Shadow, e: Event)
    requires Wf(c) && Wf(s.full) && Follows(c, s) && !Shared(c, e)
    ensures var d, d' := s.full, ShadowStep(c, s, e).full;
      && d'.re.beats == d.re.beats && d'.re.holders == d.re.holders && d'.re.commits == d.re.commits
      && d'.el == d.el.(counts := d'.el.counts)
      && d'.past == d.past.(delivered := d'.past.delivered)
      && (!e.SendSnapshot? ==> ShadowStep(c, s, e).payloads == s.payloads)
      && (e.SendSnapshot? ==> d' == d)
  {
    hide Wf, Follows, Accepts, AppendEntries, InstallSnapshot, Installed, Unfold;
    match e
    case DeliverAppend(k) => if CanDeliverAppend(c, k) { Sizes(c, s); }
    case TakeSnapshot(i, index) =>
    case SendSnapshot(i, p) =>
    case DeliverInstall(k) => if CanDeliverInstall(c, k) { Sizes(c, s); }
    case InstallAnswered(k) =>
    case Crash(i) => if i < |c.nodes| {
      Sizes(c, s);
      CrashShape(s.full, i);
    }
  }

  lemma CrashShape(c: Cluster, i: nat)
    requires Wf(c) && i < |c.nodes|
    ensures var c' := Step(c, Crash(i));
      && c'.re == c.re.(counts := c'.re.counts) && c'.el == c.el.(counts := c'.el.counts)
      && c'.past == c.past.(delivered := c'.past.delivered)
  {
    hide Wf, Restart;
  }

  /** The shadow's nodes move as the nodes do. */
  lemma ShadowMoves(c: Cluster, s: Shadow, e: Event)
    requires Wf(c) && Wf(s.full) && Follows(c, s)
    ensures AllKeep(s.full.nodes, ShadowStep(c, s, e).full.nodes)
    ensures !e.VoteAnswered? ==> NoCoups(s.full.nodes, ShadowStep(c, s, e).full.nodes)
  {
    hide Wf, Step, ShadowStep, CallsMirror, PayloadsFit, Mirror, Keeps, Sound;
    var c', s' := Step(c, e), ShadowStep(c, s, e);
    StepShadows(c, s, e);
    StepMoves(c, e);
    forall i | 0 <= i < |c.nodes|
      ensures Keeps(s.full.nodes[i], s'.full.nodes[i])
      ensures !e.VoteAnswered? ==> NoCoup(s.full.nodes[i], s'.full.nodes[i])
    {
      NodeMirror(c, s, i);
      MirrorKeeps(c.nodes[i], s.full.nodes[i], c'.nodes[i], s'.full.nodes[i]);
      SameFields(c.nodes[i], s.full.nodes[i]);
      SameFields(c'.nodes[i], s'.full.nodes[i]);
      assert !e.VoteAnswered? ==> NoCoup(c.nodes[i], c'.nodes[i]);
    }
  }

  lemma ShadowWf(c: Cluster, s: Shadow, e: Event)
    requires Wf(c) && Wf(s.full) && Follows(c, s)
    ensures Wf(ShadowStep(c, s, e).full)
  {
    hide Wf, Step, ShadowStep, Follows;
    var c', s' := Step(c, e), ShadowStep(c, s, e);
    StepShadows(c, s, e);
    if Shared(c, e) {
      SharedStep(c, s, e);
    } else {
      ShadowMoves(c, s, e);
      AsideShape(c, s, e);
      BeatsStayWf(s.full, s'.full);
      MirrorWf(c', s');
    }
  }

  lemma BeatsStayWf(d: Cluster, d': Cluster)
    requires Wf(d) && AllKeep(d.nodes, d'.nodes) && d'.re.beats == d.re.beats
    ensures forall r | 0 <= r < |d'.re.beats| :: WfBeat(d'.nodes, d'.re.beats[r])
  {
    hide WfVotes, WfInstalls, WfRequest;
    forall r | 0 <= r < |d'.re.beats| ensures WfBeat(d'.nodes, d'.re.beats[r]) {
      assert WfBeat(d.nodes, d.re.beats[r]);
    }
  }

  lemma MirrorWf(c: Cluster, s: Shadow)
    requires Wf(c) && Follows(c, s) && forall r | 0 <= r < |s.full.re.beats| :: WfBeat(s.full.nodes, s.full.re.beats[r])
    ensures Wf(s.full)
  {
    hide Mirror, Sound, WfBeat, HoldersMirror;
    forall i | 0 <= i < |c.nodes| ensures Sound(s.full.nodes[i]) && SameDisk(c.nodes[i], s.full.nodes[i]) {
      MirrorSound(c.nodes[i], s.full.nodes[i]);
      SameFields(c.nodes[i], s.full.nodes[i]);
    }
    assert WfVotes(s.full.nodes, s.full.el);
    forall k | k in s.full.re.replies ensures k.peer in s.full.re.beats[k.round].sent {
      assert MirrorBeat(c.re.beats[k.round], s.full.re.beats[k.round]);
    }
  }

  predicate SameDisk(n: Node, m: Node)
  {
    m.id == n.id && m.peers == n.peers && m.disk.term == n.disk.term
  }

  // ---------- all runs ----------

  /** The shadow of a run. */
  ghost function ShadowOf(n: nat, events: seq<Event>): (s: Shadow)
    ensures Wf(s.full) && Follows(Exec(Init(n), events), s)
  {
    if events == [] then
      InitShadows(n);
      Shadow(Init(n), [])
    else
      var before := events[..|events| - 1];
      var c, s := Exec(Init(n), before), ShadowOf(n, before);
      ShadowWf(c, s, events[|events| - 1]);
      StepShadows(c, s, events[|events| - 1]);
      ShadowStep(c, s, events[|events| - 1])
  }

  lemma InitShadows(n: nat)
    ensures Follows(Init(n), Shadow(Init(n), []))
  {
  }

  ghost function ShadowAt(n: nat, events: seq<Event>, k: nat): (s: Shadow)
    requires k <= |events|
    ensures Wf(s.full) && Follows(At(n, events, k), s)
  {
    ShadowOf(n, events[..k])
  }

  lemma ShadowNext(n: nat, events: seq<Event>, k: nat)
    requires k < |events|
    ensures ShadowAt(n, events, k + 1) == ShadowStep(At(n, events, k), ShadowAt(n, events, k), events[k])
  {
    assert events[..k + 1][..k] == events[..k];
  }
}
