/** What the answers to calls tell, over whole runs: an answer carries the term its sender was in when it gave it, so
    that a leader or candidate whom a peer has overtaken steps down on hearing of it; and what a node believes its
    peers to hold, they do hold. */
module Answers {
  import opened RaftTypes
  import opened RaftNode
  import opened NodeInvariants
  import opened RaftCluster
  import opened ElectionSafety
  import opened EntryIdentity
  import opened Commitment
  import opened Rules
  import NodeHistory
  import CleanProgress

  // ---------- where answers come from ----------

  lemma AppendAnswerAdded(c: Cluster, e: Event, k: AppendKey)
    requires Wf(c) && Traced(c) && k in Step(c, e).re.replies && k !in c.re.replies
    ensures e == DeliverAppend(k) && CanDeliverAppend(c, k)
    ensures var (m, reply) := AppendEntries(c.nodes[k.peer], c.re.beats[k.round].sent[k.peer]);
      Step(c, e).re.replies[k] == reply && Step(c, e).nodes[k.peer] == m && m.halted == c.nodes[k.peer].halted
  {
    hide Wf, Traced, AppendEntries;
    if e.DeliverAppend? {
      if CanDeliverAppend(c, e.append) {
        EntryIdentity.DeliverAppendKeeps(c, e.append);
      }
    } else {
      CleanProgress.RepliesShape(c, e);
    }
  }

  lemma AppendAnswerStays(c: Cluster, e: Event, k: AppendKey)
    requires Wf(c) && k in c.re.replies
    ensures k in Step(c, e).re.replies && Step(c, e).re.replies[k] == c.re.replies[k]
  {
    hide Wf, AppendEntries;
    if !e.DeliverAppend? {
      CleanProgress.RepliesShape(c, e);
    }
  }

  /** An answer to a replication request tells the term its sender was in when it gave it. */
  lemma {:induction false} AppendAnswerTells(n: nat, events: seq<Event>, t: nat, k: AppendKey) returns (j: nat)
    requires t <= |events| && k in At(n, events, t).re.replies
    ensures j < t && events[j] == DeliverAppend(k) && CanDeliverAppend(At(n, events, j), k) && k.peer < n
    ensures At(n, events, j + 1).nodes[k.peer].term == At(n, events, t).re.replies[k].term
    decreases t
  {
    hide At, Step, Wf, Traced, AppendEntries;
    if t == 0 {
      Silence(n, events);
      assert false;
    }
    AtNext(n, events, t - 1);
    AtTraced(n, events, t - 1);
    var c, e := At(n, events, t - 1), events[t - 1];
    if k in c.re.replies {
      j := AppendAnswerTells(n, events, t - 1, k);
      AppendAnswerStays(c, e, k);
    } else {
      j := t - 1;
      AppendAnswerAdded(c, e, k);
      ReceiversKeepUp(c.nodes[k.peer], VoteArgs(0, 0, 0, 0), c.re.beats[k.round].sent[k.peer], InstallArgs(0, 0, 0, 0));
    }
  }

  lemma Silence(n: nat, events: seq<Event>)
    ensures var c := At(n, events, 0); c.re.replies == map[] && c.el.replies == map[] && c.sn.replies == map[]
  {
    assert events[..0] == [];
  }

  lemma VoteAnswerAdded(c: Cluster, e: Event, k: VoteKey)
    requires Wf(c) && k in Step(c, e).el.replies && k !in c.el.replies
    ensures e == DeliverVote(k) && CanDeliverVote(c, k)
    ensures var (m, reply) := RequestVote(c.nodes[k.voter], c.el.ballots[k.ballot]);
      Step(c, e).el.replies[k] == reply && Step(c, e).nodes[k.voter] == m
  {
    hide Wf, RequestVote, DeliverVoteStep, CanDeliverVote;
    if !e.DeliverVote? {
      VotesUnasked(c, e);
    } else if CanDeliverVote(c, e.vote) {
      VoteDelivered(c, e.vote);
    }
  }

  lemma VoteDelivered(c: Cluster, k: VoteKey)
    requires Wf(c) && CanDeliverVote(c, k)
    ensures var (m, reply) := RequestVote(c.nodes[k.voter], c.el.ballots[k.ballot]);
      DeliverVoteStep(c, k).el.replies == c.el.replies[k := reply] && DeliverVoteStep(c, k).nodes[k.voter] == m
  {
    hide Wf, RequestVote, DeliverVoteStep;
    VoteNoted(c, k);
    VoterMoved(c, k);
  }

  lemma VoteNoted(c: Cluster, k: VoteKey)
    requires Wf(c) && CanDeliverVote(c, k)
    ensures DeliverVoteStep(c, k).el.replies
         == c.el.replies[k := RequestVote(c.nodes[k.voter], c.el.ballots[k.ballot]).1]
  {
    hide Wf, RequestVote, VoteLogged;
  }

  lemma VoterMoved(c: Cluster, k: VoteKey)
    requires Wf(c) && CanDeliverVote(c, k)
    ensures DeliverVoteStep(c, k).nodes
         == c.nodes[k.voter := RequestVote(c.nodes[k.voter], c.el.ballots[k.ballot]).0]
  {
    hide Wf, RequestVote, VoteLogged;
  }

  /** Votes are only added by deliveries. */
  lemma VotesUnasked(c: Cluster, e: Event)
    requires Wf(c) && !e.DeliverVote?
    ensures Step(c, e).el.replies == c.el.replies
  {
    hide Wf, ElectStep, VoteAnsweredStep;
    match e
    case Elect(i) => if Alive(c, i) { NodeHistory.ElectReplies(c, i); }
    case VoteAnswered(k) => if CanHandleVote(c, k) { NodeHistory.VoteAnsweredReplies(c, k); }
    case _ =>
      hide Step;
      ElectionSafety.QuietShape(c, e);
  }

  lemma {:induction false} VoteAnswerTells(n: nat, events: seq<Event>, t: nat, k: VoteKey) returns (j: nat)
    requires t <= |events| && k in At(n, events, t).el.replies
    ensures j < t && events[j] == DeliverVote(k) && CanDeliverVote(At(n, events, j), k) && k.voter < n
    ensures At(n, events, j + 1).nodes[k.voter].term == At(n, events, t).el.replies[k].term
    decreases t
  {
    hide At, Step, Wf, RequestVote;
    if t == 0 {
      Silence(n, events);
      assert false;
    }
    AtNext(n, events, t - 1);
    var c, e := At(n, events, t - 1), events[t - 1];
    NodeHistory.StepRepliesGrow(c, e);
    if k in c.el.replies {
      j := VoteAnswerTells(n, events, t - 1, k);
    } else {
      j := t - 1;
      VoteAnswerAdded(c, e, k);
      ReceiversKeepUp(c.nodes[k.voter], c.el.ballots[k.ballot], AppendArgs(0, 0, 0, 0, [], 0), InstallArgs(0, 0, 0, 0));
    }
  }

  /** Snapshot calls stay as they are, and so do the answers to them. */
  lemma InstallAnswersShape(c: Cluster, e: Event)
    requires Wf(c)
    ensures c.sn.installs <= Step(c, e).sn.installs
    ensures forall k | k in c.sn.replies :: k in Step(c, e).sn.replies && Step(c, e).sn.replies[k] == c.sn.replies[k]
    ensures forall k | k in Step(c, e).sn.replies && k !in c.sn.replies :: e == DeliverInstall(k)
  {
    hide WfNodes, WfVotes, WfBeats, WfInstalls, RequestVote, VoteReplied, AppendEntries, AppendReplied;
    hide InstallSnapshot, SnapshotReplied, ApplyLogs, Snapshot, Restart, FirstBeatFault, Sent;
  }

  lemma InstallAnswerAdded(c: Cluster, k: nat)
    requires Wf(c) && k in Step(c, DeliverInstall(k)).sn.replies && k !in c.sn.replies
    ensures CanDeliverInstall(c, k)
    ensures var p := c.sn.installs[k].peer; var (m, reply) := InstallSnapshot(c.nodes[p], c.sn.installs[k].args);
      Step(c, DeliverInstall(k)).sn.replies[k] == reply && Step(c, DeliverInstall(k)).nodes[p] == m
  {
    hide Wf, InstallSnapshot;
  }

  /** An answer to a snapshot call that is no newer than the call comes from a node that, when it gave it, was in the
      call's term and had a snapshot at least as far; any other tells the newer term of its sender. */
  lemma {:induction false} InstallAnswerTells(n: nat, events: seq<Event>, t: nat, k: nat) returns (j: nat)
    requires t <= |events| && k in At(n, events, t).sn.replies
    ensures j < t && events[j] == DeliverInstall(k) && CanDeliverInstall(At(n, events, j), k)
    ensures k < |At(n, events, t).sn.installs| && At(n, events, t).sn.installs[k].peer < n
    ensures var call, reply := At(n, events, t).sn.installs[k], At(n, events, t).sn.replies[k];
      var m := At(n, events, j + 1).nodes[call.peer];
      if reply <= call.args.term then m.term == call.args.term && m.snapIndex >= call.args.snapIndex
      else m.term == reply
    decreases t
  {
    hide At, Step, Wf, InstallSnapshot;
    if t == 0 {
      Silence(n, events);
      assert false;
    }
    AtNext(n, events, t - 1);
    var c, e := At(n, events, t - 1), events[t - 1];
    InstallAnswersShape(c, e);
    if k in c.sn.replies {
      j := InstallAnswerTells(n, events, t - 1, k);
    } else {
      j := t - 1;
      InstallAnswerAdded(c, k);
      AnswerToInstall(c.nodes[c.sn.installs[k].peer], c.sn.installs[k].args);
    }
  }

  lemma AnswerToInstall(n: Node, args: InstallArgs)
    ensures var (m, reply) := InstallSnapshot(n, args);
      if reply <= args.term then m.term == args.term && m.snapIndex >= args.snapIndex else m.term == reply
  {
  }

  // ---------- what they do to the node that asked ----------

  /** A leader or candidate that handles an answer from a peer which, when it answered, was in a newer term than the
      node is now, is a follower of that term afterwards. */
  lemma OvertakenByAnswer(n: nat, events: seq<Event>, t: nat, k: AppendKey) returns (j: nat)
    requires t < |events| && events[t] == AppendAnswered(k) && CanHandleAppend(At(n, events, t), k)
    ensures j < t && events[j] == DeliverAppend(k) && k.peer < n && At(n, events, t).re.beats[k.round].leader < n
    ensures var i := At(n, events, t).re.beats[k.round].leader;
      var before, after, peer := At(n, events, t).nodes[i], At(n, events, t + 1).nodes[i],
          At(n, events, j + 1).nodes[k.peer];
      && (peer.term > before.term ==> after == Deposed(before, peer.term))
      && (after.status == Leader ==> peer.term <= after.term)
  {
    hide At, Step, Wf, AppendReplied;
    j := AppendAnswerTells(n, events, t, k);
    AtNext(n, events, t);
    var c := At(n, events, t);
    AppendAnsweredMoves(c, k);
    AnswerStep(c, k);
    var b := c.re.beats[k.round];
    NewerAnswerDeposes(c.nodes[b.leader], k.peer, c.re.counts[k.round], VoteReply(0, false, Normal), b.sent[k.peer],
                       c.re.replies[k], InstallArgs(0, 0, 0, 0), 0);
    KeptTerm(c.nodes[b.leader], k.peer, b.sent[k.peer], c.re.counts[k.round], c.re.replies[k]);
  }

  lemma AnswerStep(c: Cluster, k: AppendKey)
    requires Wf(c) && CanHandleAppend(c, k)
    ensures Step(c, AppendAnswered(k)) == AppendAnsweredStep(c, k)
  {
    hide Wf;
  }

  lemma KeptTerm(n: Node, p: nat, args: AppendArgs, count: nat, reply: AppendReply)
    requires p < |n.nextIndex| == |n.matchIndex|
    ensures AppendReplied(n, p, args, count, reply).0.term == Max(n.term, reply.term)
  {
  }

  /** The same for votes. */
  lemma OvertakenByVote(n: nat, events: seq<Event>, t: nat, k: VoteKey) returns (j: nat)
    requires t < |events| && events[t] == VoteAnswered(k) && CanHandleVote(At(n, events, t), k)
    ensures j < t && events[j] == DeliverVote(k) && k.voter < n && k.ballot.candidate < n
    ensures var i := k.ballot.candidate;
      var before, after, peer := At(n, events, t).nodes[i], At(n, events, t + 1).nodes[i],
          At(n, events, j + 1).nodes[k.voter];
      && (peer.term > before.term ==> SameMemory(Deposed(before, peer.term), after) && after.disk.term == peer.term)
      && (after.status != Follower ==> peer.term <= after.term)
  {
    hide At, Step, Wf, VoteReplied;
    j := VoteAnswerTells(n, events, t, k);
    AtNext(n, events, t);
    var c := At(n, events, t);
    VoteAnsweredShape(c, k);
    VoteStep(c, k);
    var m := c.nodes[k.ballot.candidate];
    TwoLists(c, k.ballot.candidate);
    VoteDeposes(m, c.el.counts[k.ballot], c.el.replies[k]);
  }

  lemma VoteStep(c: Cluster, k: VoteKey)
    requires Wf(c) && CanHandleVote(c, k)
    ensures Step(c, VoteAnswered(k)) == VoteAnsweredStep(c, k)
  {
    hide Wf;
  }

  lemma TwoLists(c: Cluster, i: nat)
    requires Wf(c) && i < |c.nodes|
    ensures |c.nodes[i].nextIndex| == |c.nodes[i].matchIndex| == |c.nodes|
  {
  }

  lemma VoteDeposes(n: Node, count: nat, reply: VoteReply)
    ensures var m := VoteReplied(n, count, reply).0;
      && m.term == Max(n.term, reply.term)
      && (reply.term > n.term ==> SameMemory(Deposed(n, reply.term), m) && m.disk.term == reply.term)
  {
  }

  /** A leader that handles the answer to a snapshot call of its term either steps down, to the term the peer was in
      when it answered, or counts the peer as having the snapshot; and then the peer had it, or a later one, when it
      answered. A node in another term, or no longer leading, does nothing. */
  lemma SnapshotAnswers(n: nat, events: seq<Event>, t: nat, k: nat) returns (j: nat)
    requires t < |events| && events[t] == InstallAnswered(k) && CanHandleInstall(At(n, events, t), k)
    ensures j < t && events[j] == DeliverInstall(k)
    ensures At(n, events, t).sn.installs[k].sender < n && At(n, events, t).sn.installs[k].peer < n
    ensures var call := At(n, events, t).sn.installs[k];
      var before, after, peer := At(n, events, t).nodes[call.sender], At(n, events, t + 1).nodes[call.sender],
          At(n, events, j + 1).nodes[call.peer];
      && call.peer < |before.matchIndex| == |after.matchIndex|
      && (before.status != Leader || before.term != call.args.term ==> after == before)
      && (before.status == Leader && before.term == call.args.term && peer.term > before.term ==>
        SameMemory(Deposed(before, peer.term), after))
      && (after.matchIndex != before.matchIndex ==>
        && peer.snapIndex >= call.args.snapIndex
        && after.matchIndex == before.matchIndex[call.peer := call.args.snapIndex])
  {
    hide At, Step, Wf, SnapshotReplied;
    j := InstallAnswerTells(n, events, t, k);
    AtNext(n, events, t);
    var c := At(n, events, t);
    var call := c.sn.installs[k];
    InstallStep(c, k);
    TwoLists(c, call.sender);
    SnapshotDeposes(c.nodes[call.sender], call.peer, call.args, c.sn.replies[k]);
  }

  lemma InstallStep(c: Cluster, k: nat)
    requires Wf(c) && CanHandleInstall(c, k)
    ensures var call := c.sn.installs[k];
      && call.sender < |c.nodes| && call.peer < |c.nodes|
      && |c.nodes[call.sender].nextIndex| == |c.nodes[call.sender].matchIndex| == |c.nodes|
      && Step(c, InstallAnswered(k)).nodes ==
           c.nodes[call.sender := SnapshotReplied(c.nodes[call.sender], call.peer, call.args, c.sn.replies[k])]
  {
    hide WfVotes, WfBeats, Contiguous, SnapshotReplied;
  }

  lemma SnapshotDeposes(n: Node, p: nat, call: InstallArgs, reply: nat)
    requires p < |n.nextIndex| == |n.matchIndex|
    ensures var m := SnapshotReplied(n, p, call, reply);
      && |m.matchIndex| == |n.matchIndex|
      && (n.status != Leader || n.term != call.term ==> m == n)
      && (n.status == Leader && n.term == call.term && reply > n.term ==> SameMemory(Deposed(n, reply), m))
      && (m.matchIndex != n.matchIndex ==>
        reply <= n.term == call.term && m.matchIndex == n.matchIndex[p := call.snapIndex])
  {
  }

  // ---------- what a node believes its peers to hold ----------

  ghost predicate Believing(c: Cluster)
  {
    BeliefsHold(c.nodes) && SuccessesHold(c.nodes, c.re) && InstallsHold(c.nodes, c.sn)
  }

  /** No node counts a peer as holding more than the peer's log reaches. */
  ghost predicate BeliefsHold(nodes: seq<Node>)
  {
    forall i, p | 0 <= i < |nodes| && 0 <= p < |nodes| && i != p :: Believes(nodes[i], p, nodes[p])
  }

  predicate Believes(n: Node, p: nat, peer: Node) { p < |n.matchIndex| && n.matchIndex[p] <= peer.Last() }

  ghost predicate SuccessesHold(nodes: seq<Node>, re: Replication)
  {
    forall k | k in re.replies && re.replies[k].success ::
      k.round < |re.beats| && k.peer < |nodes| && re.beats[k.round].last <= nodes[k.peer].Last()
  }

  ghost predicate InstallsHold(nodes: seq<Node>, sn: Transfers)
  {
    forall k | k in sn.replies && k < |sn.installs| && sn.replies[k] <= sn.installs[k].args.term ::
      sn.installs[k].peer < |nodes| && sn.installs[k].args.snapIndex <= nodes[sn.installs[k].peer].Last()
  }

  /** What n believes of anybody it still believes, or it starts again at 0. */
  predicate NoNewBelief(n: Node, m: Node)
  {
    |m.matchIndex| == |n.matchIndex| && forall p | 0 <= p < |n.matchIndex| :: m.matchIndex[p] <= n.matchIndex[p]
  }

  ghost predicate NoNewBeliefs(nodes: seq<Node>, nodes': seq<Node>)
  {
    |nodes'| == |nodes| && forall i | 0 <= i < |nodes| :: NoNewBelief(nodes[i], nodes'[i])
  }

  lemma OldBeliefs(n: Node, vote: VoteArgs, count: nat, voted: VoteReply, command: Op, append: AppendArgs, index: int,
                   call: InstallArgs, a: Assertion)
    requires n.Valid()
    ensures NoNewBelief(n, DoElection(n)) && NoNewBelief(n, RequestVote(n, vote).0)
    ensures NoNewBelief(n, VoteReplied(n, count, voted).0) && NoNewBelief(n, Start(n, command))
    ensures NoNewBelief(n, AppendEntries(n, append).0) && NoNewBelief(n, Snapshot(n, index))
    ensures NoNewBelief(n, InstallSnapshot(n, call).0) && NoNewBelief(n, ApplyLogs(n).0)
    ensures NoNewBelief(n, Restart(n)) && NoNewBelief(n, n.Halt(a)) && NoNewBelief(n, n)
  {
    hide DoElection, RequestVote, VoteReplied, Start, AppendEntries, Snapshot, InstallSnapshot, ApplyLogs;
    ElectionBeliefs(n, vote, count, voted, command);
    LogBeliefs(n, append, index, call);
  }

  lemma ElectionBeliefs(n: Node, vote: VoteArgs, count: nat, voted: VoteReply, command: Op)
    requires |n.nextIndex| == |n.matchIndex|
    ensures NoNewBelief(n, DoElection(n)) && NoNewBelief(n, RequestVote(n, vote).0)
    ensures NoNewBelief(n, VoteReplied(n, count, voted).0) && NoNewBelief(n, Start(n, command))
  {
  }

  lemma LogBeliefs(n: Node, append: AppendArgs, index: int, call: InstallArgs)
    requires n.Valid()
    ensures NoNewBelief(n, AppendEntries(n, append).0) && NoNewBelief(n, Snapshot(n, index))
    ensures NoNewBelief(n, InstallSnapshot(n, call).0) && NoNewBelief(n, ApplyLogs(n).0)
  {
    hide Node.Valid, Splice, Clashes;
    assert n.commitIndex <= n.Last() && n.snapIndex <= n.lastApplied by { CommitIn(n); }
  }

  lemma CommitIn(n: Node)
    requires n.Valid()
    ensures n.commitIndex <= n.Last() && n.snapIndex <= n.lastApplied
  {
  }

  lemma OneBelief(nodes: seq<Node>, i: nat, n: Node)
    requires i < |nodes| && NoNewBelief(nodes[i], n)
    ensures NoNewBeliefs(nodes, nodes[i := n])
  {
  }

  lemma StepBeliefs(c: Cluster, e: Event)
    requires Wf(c) && !e.AppendAnswered? && !e.InstallAnswered?
    ensures NoNewBeliefs(c.nodes, Step(c, e).nodes)
  {
    hide WfVotes, WfBeats, WfInstalls, NoNewBelief, NoNewBeliefs, DoElection, RequestVote, VoteReplied, Start;
    hide AppendEntries, Snapshot, InstallSnapshot, ApplyLogs, Restart, FirstBeatFault, Contiguous, Node.Durable, Sent;
    var vote, voted, op := VoteArgs(0, 0, 0, 0), VoteReply(0, false, Normal), Op("", "", "", "", 0);
    var append, call, a := AppendArgs(0, 0, 0, 0, [], 0), InstallArgs(0, 0, 0, 0), LeaderTwice;
    NoBeliefs(c.nodes);
    match e
    case Elect(i) => if Alive(c, i) {
      OldBeliefs(c.nodes[i], vote, 0, voted, op, append, 0, call, a);
      OneBelief(c.nodes, i, DoElection(c.nodes[i]));
    }
    case DeliverVote(k) => if CanDeliverVote(c, k) {
      OldBeliefs(c.nodes[k.voter], c.el.ballots[k.ballot], 0, voted, op, append, 0, call, a);
      OneBelief(c.nodes, k.voter, RequestVote(c.nodes[k.voter], c.el.ballots[k.ballot]).0);
    }
    case VoteAnswered(k) => if CanHandleVote(c, k) {
      var i, count := k.ballot.candidate, c.el.counts[k.ballot];
      OldBeliefs(c.nodes[i], vote, count, c.el.replies[k], op, append, 0, call, a);
      OneBelief(c.nodes, i, VoteReplied(c.nodes[i], count, c.el.replies[k]).0);
    }
    case ClientStart(i, command) => if Alive(c, i) {
      OldBeliefs(c.nodes[i], vote, 0, voted, command, append, 0, call, a);
      OneBelief(c.nodes, i, Start(c.nodes[i], command));
    }
    case HeartBeat(i) => if Alive(c, i) && FirstBeatFault(c.nodes[i], 0).Some? {
      var fault := FirstBeatFault(c.nodes[i], 0).value;
      OldBeliefs(c.nodes[i], vote, 0, voted, op, append, 0, call, fault);
      OneBelief(c.nodes, i, c.nodes[i].Halt(fault));
    }
    case DeliverAppend(k) => if CanDeliverAppend(c, k) {
      var args := c.re.beats[k.round].sent[k.peer];
      OldBeliefs(c.nodes[k.peer], vote, 0, voted, op, args, 0, call, a);
      OneBelief(c.nodes, k.peer, AppendEntries(c.nodes[k.peer], args).0);
    }
    case TakeSnapshot(i, index) => if Alive(c, i) {
      OldBeliefs(c.nodes[i], vote, 0, voted, op, append, index, call, a);
      OneBelief(c.nodes, i, Snapshot(c.nodes[i], index));
    }
    case SendSnapshot(i, p) =>
    case DeliverInstall(k) => if CanDeliverInstall(c, k) {
      var p, args := c.sn.installs[k].peer, c.sn.installs[k].args;
      OldBeliefs(c.nodes[p], vote, 0, voted, op, append, 0, args, a);
      OneBelief(c.nodes, p, InstallSnapshot(c.nodes[p], args).0);
    }
    case Apply(i) => if Alive(c, i) {
      OldBeliefs(c.nodes[i], vote, 0, voted, op, append, 0, call, a);
      OneBelief(c.nodes, i, ApplyLogs(c.nodes[i]).0);
    }
    case Crash(i) => if i < |c.nodes| {
      OldBeliefs(c.nodes[i], vote, 0, voted, op, append, 0, call, a);
      OneBelief(c.nodes, i, Restart(c.nodes[i]));
    }
  }

  lemma NoBeliefs(nodes: seq<Node>)
    ensures NoNewBeliefs(nodes, nodes)
  {
  }

  lemma BeliefsStay(nodes: seq<Node>, nodes': seq<Node>)
    requires BeliefsHold(nodes) && NoNewBeliefs(nodes, nodes') && AllKeep(nodes, nodes')
    ensures BeliefsHold(nodes')
  {
    forall i, p | 0 <= i < |nodes'| && 0 <= p < |nodes'| && i != p ensures Believes(nodes'[i], p, nodes'[p]) {
      assert Believes(nodes[i], p, nodes[p]) && NoNewBelief(nodes[i], nodes'[i]) && Keeps(nodes[p], nodes'[p]);
    }
  }

  /** A node that believes one more thing of one peer. */
  lemma BeliefGained(nodes: seq<Node>, nodes': seq<Node>, i: nat, p: nat)
    requires BeliefsHold(nodes) && AllKeep(nodes, nodes') && i < |nodes| && p < |nodes| && i != p
    requires nodes' == nodes[i := nodes'[i]] && |nodes'[i].matchIndex| == |nodes[i].matchIndex|
    requires forall q | 0 <= q < |nodes[i].matchIndex| && q != p :: nodes'[i].matchIndex[q] == nodes[i].matchIndex[q]
    requires p < |nodes[i].matchIndex| && nodes'[i].matchIndex[p] <= nodes[p].Last()
    ensures BeliefsHold(nodes')
  {
    hide Keeps;
    forall j, q | 0 <= j < |nodes'| && 0 <= q < |nodes'| && j != q ensures Believes(nodes'[j], q, nodes'[q]) {
      assert Believes(nodes[j], q, nodes[q]) && Keeps(nodes[q], nodes'[q]);
      LastKept(nodes[q], nodes'[q]);
    }
  }

  lemma LastKept(n: Node, m: Node)
    requires Keeps(n, m)
    ensures n.Last() <= m.Last()
  {
  }

  lemma AppendAnsweredBelieves(c: Cluster, k: AppendKey)
    requires Wf(c) && Replicating(c) && Believing(c) && CanHandleAppend(c, k)
    ensures BeliefsHold(Step(c, AppendAnswered(k)).nodes)
  {
    hide Wf, Replicating, AppendReplied, BeliefsHold, InstallsHold, Keeps;
    ReplyFacts(c, k);
    AppendAnsweredMoves(c, k);
    AnswerStep(c, k);
    var b, reply := c.re.beats[k.round], c.re.replies[k];
    var n, c' := c.nodes[b.leader], Step(c, AppendAnswered(k));
    AnswerBelieved(n, k.peer, b.sent[k.peer], c.re.counts[k.round], reply);
    if reply.success {
      var held := BelievedNow(n, k.peer, b.sent[k.peer]);
      HeldSoFar(c.nodes, b.leader, k.peer);
      BeliefGained(c.nodes, c'.nodes, b.leader, k.peer);
    } else {
      OneBelief(c.nodes, b.leader, c'.nodes[b.leader]);
      BeliefsStay(c.nodes, c'.nodes);
    }
  }

  function BelievedNow(n: Node, p: nat, args: AppendArgs): nat
    requires p < |n.matchIndex|
  {
    Max(n.matchIndex[p], args.End())
  }

  lemma HeldSoFar(nodes: seq<Node>, i: nat, p: nat)
    requires BeliefsHold(nodes) && i < |nodes| && p < |nodes| && i != p
    ensures p < |nodes[i].matchIndex| && nodes[i].matchIndex[p] <= nodes[p].Last()
  {
    assert Believes(nodes[i], p, nodes[p]);
  }

  lemma AnswerBelieved(n: Node, p: nat, args: AppendArgs, count: nat, reply: AppendReply)
    requires p < |n.nextIndex| == |n.matchIndex|
    ensures var m := AppendReplied(n, p, args, count, reply).0;
      && |m.matchIndex| == |n.matchIndex| && m.matchIndex[p] <= BelievedNow(n, p, args)
      && (forall q | 0 <= q < |n.matchIndex| && q != p :: m.matchIndex[q] == n.matchIndex[q])
      && (!reply.success ==> NoNewBelief(n, m))
  {
  }

  lemma InstallAnsweredBelieves(c: Cluster, k: nat)
    requires Wf(c) && Believing(c) && CanHandleInstall(c, k)
    ensures BeliefsHold(Step(c, InstallAnswered(k)).nodes)
  {
    hide Wf, SnapshotReplied, BeliefsHold, SuccessesHold, Keeps;
    InstallStep(c, k);
    StepMoves(c, InstallAnswered(k));
    var call, c' := c.sn.installs[k], Step(c, InstallAnswered(k));
    var n, m := c.nodes[call.sender], c'.nodes[call.sender];
    SnapshotDeposes(n, call.peer, call.args, c.sn.replies[k]);
    if m.matchIndex != n.matchIndex && call.sender != call.peer {
      BeliefGained(c.nodes, c'.nodes, call.sender, call.peer);
    } else if call.sender != call.peer {
      OneBelief(c.nodes, call.sender, m);
      BeliefsStay(c.nodes, c'.nodes);
    } else {
      OwnBelief(c.nodes, c'.nodes, call.sender);
    }
  }

  /** What a node notes of itself is no belief. */
  lemma OwnBelief(nodes: seq<Node>, nodes': seq<Node>, i: nat)
    requires BeliefsHold(nodes) && AllKeep(nodes, nodes') && i < |nodes| && nodes' == nodes[i := nodes'[i]]
    requires |nodes'[i].matchIndex| == |nodes[i].matchIndex|
    requires forall q | 0 <= q < |nodes[i].matchIndex| && q != i :: nodes'[i].matchIndex[q] == nodes[i].matchIndex[q]
    ensures BeliefsHold(nodes')
  {
    hide Keeps;
    forall j, q | 0 <= j < |nodes'| && 0 <= q < |nodes'| && j != q ensures Believes(nodes'[j], q, nodes'[q]) {
      assert Believes(nodes[j], q, nodes[q]) && Keeps(nodes[q], nodes'[q]);
      LastKept(nodes[q], nodes'[q]);
    }
  }

  lemma SuccessesStay(c: Cluster, e: Event)
    requires Wf(c) && Traced(c) && Replicating(c) && SuccessesHold(c.nodes, c.re)
    ensures SuccessesHold(Step(c, e).nodes, Step(c, e).re)
  {
    hide Wf, Traced, Replicating, Step, Keeps, AppendEntries;
    var c' := Step(c, e);
    StepMoves(c, e);
    BeatsStay(c, e);
    forall k | k in c'.re.replies && c'.re.replies[k].success
      ensures k.round < |c'.re.beats| && k.peer < |c'.nodes| && c'.re.beats[k.round].last <= c'.nodes[k.peer].Last()
    {
      if k in c.re.replies {
        AppendAnswerStays(c, e, k);
        assert Keeps(c.nodes[k.peer], c'.nodes[k.peer]);
        LastKept(c.nodes[k.peer], c'.nodes[k.peer]);
      } else {
        AppendAnswerAdded(c, e, k);
        DeliverFacts(c, k);
        SuccessReaches(c.nodes[k.peer], c.re.beats[k.round].sent[k.peer]);
        EndIsLast(c.re.beats[k.round], c.re.beats[k.round].sent[k.peer]);
      }
    }
  }

  lemma EndIsLast(b: Beat, args: AppendArgs)
    requires RequestOk(b, args)
    ensures args.End() == b.last
  {
  }

  lemma BeatsStay(c: Cluster, e: Event)
    requires Wf(c)
    ensures c.re.beats <= Step(c, e).re.beats && |Step(c, e).nodes| == |c.nodes|
  {
    hide Wf, AppendEntries;
    if !e.DeliverAppend? {
      CleanProgress.RepliesShape(c, e);
    }
  }

  lemma SuccessReaches(n: Node, args: AppendArgs)
    requires n.Valid()
    ensures AppendEntries(n, args).1.success ==> args.End() <= AppendEntries(n, args).0.Last()
  {
  }

  lemma InstallsStay(c: Cluster, e: Event)
    requires Wf(c) && InstallsHold(c.nodes, c.sn)
    ensures InstallsHold(Step(c, e).nodes, Step(c, e).sn)
  {
    hide Wf, Step, Keeps, InstallSnapshot;
    var c' := Step(c, e);
    StepMoves(c, e);
    InstallAnswersShape(c, e);
    InstallsKnown(c);
    forall k | k in c'.sn.replies && k < |c'.sn.installs| && c'.sn.replies[k] <= c'.sn.installs[k].args.term
      ensures c'.sn.installs[k].peer < |c'.nodes|
      ensures c'.sn.installs[k].args.snapIndex <= c'.nodes[c'.sn.installs[k].peer].Last()
    {
      if k in c.sn.replies {
        var p := c.sn.installs[k].peer;
        assert Keeps(c.nodes[p], c'.nodes[p]);
        LastKept(c.nodes[p], c'.nodes[p]);
      } else {
        InstallAnswerAdded(c, k);
        AnswerToInstall(c.nodes[c.sn.installs[k].peer], c.sn.installs[k].args);
      }
    }
  }

  lemma InstallsKnown(c: Cluster)
    requires Wf(c)
    ensures forall k | k in c.sn.replies :: k < |c.sn.installs|
  {
  }

  lemma StepKeepsBelieving(c: Cluster, e: Event)
    requires Wf(c) && Traced(c) && Replicating(c) && Believing(c)
    ensures Believing(Step(c, e))
  {
    hide Wf, Traced, Replicating, Step, BeliefsHold, SuccessesHold, InstallsHold, NoNewBeliefs, AllKeep;
    SuccessesStay(c, e);
    InstallsStay(c, e);
    if e.AppendAnswered? && CanHandleAppend(c, e.append) {
      AppendAnsweredBelieves(c, e.append);
    } else if e.InstallAnswered? && CanHandleInstall(c, e.install) {
      InstallAnsweredBelieves(c, e.install);
    } else if e.AppendAnswered? || e.InstallAnswered? {
      Nothing(c, e);
    } else {
      StepBeliefs(c, e);
      StepMoves(c, e);
      BeliefsStay(c.nodes, Step(c, e).nodes);
    }
  }

  lemma Nothing(c: Cluster, e: Event)
    requires Wf(c)
    requires
      || (e.AppendAnswered? && !CanHandleAppend(c, e.append))
      || (e.InstallAnswered? && !CanHandleInstall(c, e.install))
    ensures Step(c, e) == c
  {
    hide Wf;
  }

  lemma {:induction false} RunBelieving(n: nat, events: seq<Event>)
    ensures Believing(Exec(Init(n), events))
  {
    if events == [] {
    } else {
      hide Wf, Traced, Replicating, Believing, Step, Init;
      var before := events[..|events| - 1];
      RunBelieving(n, before);
      RunTraced(n, before);
      RunReplicating(n, before);
      StepKeepsBelieving(Exec(Init(n), before), events[|events| - 1]);
    }
  }

  /** In every run, at any time: what a node counts a peer as holding, the peer's log reaches. */
  lemma MatchIsHeld(n: nat, events: seq<Event>, t: nat, i: nat, p: nat)
    requires t <= |events| && i < n && p < n && i != p
    ensures p < |At(n, events, t).nodes[i].matchIndex|
    ensures At(n, events, t).nodes[i].matchIndex[p] <= At(n, events, t).nodes[p].Last()
  {
    hide Wf, Exec, Init, SuccessesHold, InstallsHold;
    RunBelieving(n, events[..t]);
    HeldSoFar(At(n, events, t).nodes, i, p);
  }
}
